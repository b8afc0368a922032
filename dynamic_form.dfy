/**
  The schema-driven form component: the effect that fills in default
  values from the field schema, the change handler, the ordered
  first-failure field validator, form validation and submission.
  The email regular expression and each field's `pattern` are decided by
  the `matches` oracle; a field value is tested as its string conversion,
  as `RegExp.prototype.test` does.
*/
module DynamicForm {
  import opened Js

  /** One field of the schema (`type` is `kind`, `label` is `labelText`).
      Absent schema entries take their falsy value: `label`, `pattern` and
      `patternErrorMessage` "", `minLength` and `maxLength` 0,
      `defaultValue` undefined. */
  datatype Field = Field(
    name: string,
    kind: string,
    labelText: string,
    required: bool,
    defaultValue: Json,
    minLength: int,
    maxLength: int,
    pattern: string,
    patternErrorMessage: string)

  /** The two regular expressions the validator tests. */
  datatype Regex = EmailRegex | UserPattern(source: string)

  /** `formData[key]`: undefined for a missing key. */
  function At(m: map<string, Json>, key: string): Json
  {
    if key in m then m[key] else JUndefined
  }

  /** The names of a list of fields. */
  function Names(fields: seq<Field>): set<string>
  {
    set f | f in fields :: f.name
  }

  // ----- default values -----

  /** The value a field starts with when the initial data has none: its
      `defaultValue`, else `false` for a checkbox and '' otherwise. */
  function FieldDefault(f: Field): (v: Json)
    ensures v != JUndefined
    ensures f.defaultValue != JUndefined ==> v == f.defaultValue
    ensures f.defaultValue == JUndefined ==> v == (if f.kind == "checkbox" then JBool(false) else JStr(""))
  {
    if f.defaultValue != JUndefined then f.defaultValue
    else if f.kind == "checkbox" then JBool(false)
    else JStr("")
  }

  /** The last field in the list with the given name. */
  function LastNamed(fields: seq<Field>, key: string): (r: Option<Field>)
    ensures r.None? <==> key !in Names(fields)
    ensures r.Some? ==> r.value in fields && r.value.name == key
  {
    if |fields| == 0 then None
    else
      var last := fields[|fields| - 1];
      var rest := fields[..|fields| - 1];
      assert forall f :: f in fields <==> f in rest || f == last;
      if last.name == key then Some(last) else LastNamed(rest, key)
  }

  /** No field after the one `LastNamed` finds has the same name. */
  lemma {:induction false} LastNamedIsLast(fields: seq<Field>, key: string)
    requires LastNamed(fields, key).Some?
    ensures exists i :: 0 <= i < |fields| && fields[i] == LastNamed(fields, key).value
                        && forall j :: i < j < |fields| ==> fields[j].name != key
  {
    var n := |fields|;
    var rest := fields[..n - 1];
    var found := LastNamed(fields, key).value;
    if fields[n - 1].name == key {
      assert found == fields[n - 1];
    } else {
      assert LastNamed(fields, key) == LastNamed(rest, key);
      LastNamedIsLast(rest, key);
      var i :| 0 <= i < |rest| && rest[i] == found && forall j :: i < j < |rest| ==> rest[j].name != key;
      assert fields[i] == found;
      forall j | i < j < n
        ensures fields[j].name != key
      {
        if j < n - 1 {
          assert fields[j] == rest[j];
        }
      }
    }
  }

  /** The value the defaulting effect leaves under `key` once it has gone
      through `fields`. */
  function Filled(fields: seq<Field>, initialData: map<string, Json>, key: string): Json
  {
    if At(initialData, key) == JUndefined && LastNamed(fields, key).Some? then FieldDefault(LastNamed(fields, key).value)
    else At(initialData, key)
  }

  lemma NamesStep(fields: seq<Field>, f: Field)
    ensures Names(fields + [f]) == Names(fields) + {f.name}
  {
    assert forall g :: g in fields + [f] <==> g in fields || g == f;
  }

  /** One more field sets its name's value iff the initial data has none. */
  lemma FilledStep(fields: seq<Field>, f: Field, initialData: map<string, Json>, key: string)
    ensures Filled(fields + [f], initialData, key)
         == if f.name == key && At(initialData, key) == JUndefined then FieldDefault(f)
            else Filled(fields, initialData, key)
  {
    assert (fields + [f])[..|fields|] == fields;
  }

  /** One field of the defaulting loop: the map stays `Filled` by the
      fields seen so far. */
  lemma DefaultStep(fields: seq<Field>, f: Field, initialData: map<string, Json>, data: map<string, Json>)
    requires data.Keys == initialData.Keys + Names(fields)
    requires forall k :: k in data ==> data[k] == Filled(fields, initialData, k)
    ensures var next := if At(initialData, f.name) == JUndefined then data[f.name := FieldDefault(f)] else data;
      next.Keys == initialData.Keys + Names(fields + [f])
      && forall k :: k in next ==> next[k] == Filled(fields + [f], initialData, k)
  {
    NamesStep(fields, f);
    forall k {
      FilledStep(fields, f, initialData, k);
    }
  }

  /** What the defaulting effect leaves, read key by key: every field
      name gets a defined value, a defined initial value wins, and any
      other initial key keeps its value. */
  lemma FilledMeaning(fields: seq<Field>, initialData: map<string, Json>, data: map<string, Json>)
    requires data.Keys == initialData.Keys + Names(fields)
    requires forall k :: k in data ==> data[k] == Filled(fields, initialData, k)
    ensures forall f :: f in fields ==> f.name in data && data[f.name] != JUndefined
    ensures forall k :: k in initialData && initialData[k] != JUndefined ==> k in data && data[k] == initialData[k]
    ensures forall k :: k in initialData && k !in Names(fields) ==> data[k] == initialData[k]
    ensures forall f :: f in fields && At(initialData, f.name) == JUndefined ==>
      data[f.name] == FieldDefault(LastNamed(fields, f.name).value)
  {
    forall f | f in fields
      ensures f.name in data && data[f.name] != JUndefined
    {
      assert f.name in Names(fields);
    }
  }

  /** `data` is what the defaulting effect leaves for this schema and
      initial data: with a schema, the initial keys and the field names,
      each holding its `Filled` value; without one, the initial data. */
  predicate Defaulted(fields: Option<seq<Field>>, initialData: map<string, Json>, data: map<string, Json>)
  {
    match fields
    case None => data == initialData
    case Some(fs) =>
      data.Keys == initialData.Keys + Names(fs)
      && forall k :: k in data ==> data[k] == Filled(fs, initialData, k)
  }

  /** The defaulting effect: a copy of `initialData` in which every schema
      field whose initial value is undefined takes its default. With no
      schema (or no `fields`) the copy is returned as it is. */
  method DefaultData(fields: Option<seq<Field>>, initialData: map<string, Json>) returns (data: map<string, Json>)
    ensures Defaulted(fields, initialData, data)
    ensures fields.None? ==> data == initialData
    ensures fields.Some? ==> data.Keys == initialData.Keys + Names(fields.value)
    // every schema field has a value afterwards
    ensures fields.Some? ==> forall f :: f in fields.value ==> f.name in data && data[f.name] != JUndefined
    // a defined initial value wins
    ensures forall k :: k in initialData && initialData[k] != JUndefined ==> k in data && data[k] == initialData[k]
    // extra initial keys are kept as they are
    ensures forall k :: k in initialData && (fields.None? || k !in Names(fields.value)) ==> data[k] == initialData[k]
    // otherwise the last field of that name supplies the default
    ensures fields.Some? ==> forall f :: f in fields.value && At(initialData, f.name) == JUndefined ==>
      data[f.name] == FieldDefault(LastNamed(fields.value, f.name).value)
  {
    data := initialData;
    if fields.None? {
      return;
    }
    var fs := fields.value;
    var i := 0;
    while i < |fs|
      invariant 0 <= i <= |fs|
      invariant data.Keys == initialData.Keys + Names(fs[..i])
      invariant forall k :: k in data ==> data[k] == Filled(fs[..i], initialData, k)
    {
      var f := fs[i];
      assert fs[..i + 1] == fs[..i] + [f];
      DefaultStep(fs[..i], f, initialData, data);
      if At(initialData, f.name) == JUndefined {
        data := data[f.name := FieldDefault(f)];
      }
      i := i + 1;
    }
    assert fs[..i] == fs;
    FilledMeaning(fs, initialData, data);
  }

  // ----- validation -----

  /** `field.label || field.name` */
  function DisplayName(f: Field): string
  {
    if f.labelText != "" then f.labelText else f.name
  }

  function RequiredMessage(f: Field): string
  {
    DisplayName(f) + " is required."
  }

  /** undefined, null or '' */
  predicate IsBlank(v: Json)
  {
    v == JUndefined || v == JNull || v == JStr("")
  }

  /** `value.length` where it is a number: strings (in UTF-16 code
      units), arrays, and objects with a numeric `length` property. */
  function LengthOf(v: Json): Option<int>
  {
    match v
    case JStr(s) => Some(Utf16Length(s))
    case JArr(items) => Some(|items|)
    case JObj(_) => if Get(v, "length").JNum? then Some(Get(v, "length").n) else None
    case _ => None
  }

  function RequiredCheck(f: Field, v: Json): Option<string>
  {
    if f.required && (if f.kind == "checkbox" then !Truthy(v) else IsBlank(v)) then Some(RequiredMessage(f))
    else None
  }

  function EmailCheck(f: Field, v: Json, matches: (Regex, string) -> bool): Option<string>
  {
    if f.kind == "email" && Truthy(v) && !matches(EmailRegex, ToStr(v)) then
      Some("Please enter a valid email for " + DisplayName(f) + ".")
    else None
  }

  function MinLengthCheck(f: Field, v: Json): Option<string>
  {
    if f.minLength != 0 && Truthy(v) && LengthOf(v).Some? && LengthOf(v).value < f.minLength then
      Some(DisplayName(f) + " must be at least " + IntToString(f.minLength) + " characters.")
    else None
  }

  function MaxLengthCheck(f: Field, v: Json): Option<string>
  {
    if f.maxLength != 0 && Truthy(v) && LengthOf(v).Some? && LengthOf(v).value > f.maxLength then
      Some(DisplayName(f) + " must be no more than " + IntToString(f.maxLength) + " characters.")
    else None
  }

  function PatternCheck(f: Field, v: Json, matches: (Regex, string) -> bool): Option<string>
  {
    if f.pattern != "" && Truthy(v) && !matches(UserPattern(f.pattern), ToStr(v)) then
      Some(OrElse(f.patternErrorMessage, "Invalid format for " + DisplayName(f) + "."))
    else None
  }

  /** `validateField(field, value)`: the message of the first check that
      fails, or null (`None`) when all pass. Every message is non-empty, so
      a failure is always truthy. */
  function ValidateField(f: Field, v: Json, matches: (Regex, string) -> bool): (r: Option<string>)
    ensures r.Some? ==> r.value != ""
  {
    var required := RequiredCheck(f, v);
    if required.Some? then required else
    var email := EmailCheck(f, v, matches);
    if email.Some? then email else
    var minLength := MinLengthCheck(f, v);
    if minLength.Some? then minLength else
    var maxLength := MaxLengthCheck(f, v);
    if maxLength.Some? then maxLength else
    PatternCheck(f, v, matches)
  }

  /** The checks in the order they run. */
  function Checks(f: Field, v: Json, matches: (Regex, string) -> bool): seq<Option<string>>
  {
    [RequiredCheck(f, v), EmailCheck(f, v, matches), MinLengthCheck(f, v), MaxLengthCheck(f, v),
     PatternCheck(f, v, matches)]
  }

  /** The first failure in a list of check results. */
  function FirstFailure(results: seq<Option<string>>): (r: Option<string>)
    ensures r.None? <==> forall i :: 0 <= i < |results| ==> results[i].None?
    ensures r.Some? ==> exists i :: 0 <= i < |results| && results[i] == r
                                    && forall j :: 0 <= j < i ==> results[j].None?
  {
    if |results| == 0 then None
    else if results[0].Some? then results[0]
    else
      var r := FirstFailure(results[1..]);
      assert r.Some? ==> exists i :: 1 <= i < |results| && results[i] == r
                                     && forall j :: 0 <= j < i ==> results[j].None? by {
        if r.Some? {
          var i :| 0 <= i < |results[1..]| && results[1..][i] == r
                   && forall j :: 0 <= j < i ==> results[1..][j].None?;
          assert forall j :: 1 <= j < i + 1 ==> results[j] == results[1..][j - 1];
        }
      }
      r
  }

  /** Over five results, the first failure is the first `Some` of them. */
  lemma FirstFailureOfFive(a: Option<string>, b: Option<string>, c: Option<string>,
                                              d: Option<string>, e: Option<string>)
    ensures FirstFailure([a, b, c, d, e])
         == if a.Some? then a else if b.Some? then b else if c.Some? then c else if d.Some? then d else e
  {
    var cs := [a, b, c, d, e];
    assert cs[4..][1..] == [];
    assert FirstFailure(cs[4..]) == e;
    assert cs[3..][1..] == cs[4..];
    assert FirstFailure(cs[3..]) == if d.Some? then d else e;
    assert cs[2..][1..] == cs[3..];
    assert FirstFailure(cs[2..]) == if c.Some? then c else FirstFailure(cs[3..]);
    assert cs[1..][1..] == cs[2..];
    assert FirstFailure(cs[1..]) == if b.Some? then b else FirstFailure(cs[2..]);
  }

  /** Checks run in the order required, email, minLength, maxLength,
      pattern, and the first failure is the result. */
  lemma ValidateFieldIsFirstFailure(f: Field, v: Json, matches: (Regex, string) -> bool)
    ensures ValidateField(f, v, matches) == FirstFailure(Checks(f, v, matches))
    ensures ValidateField(f, v, matches).None? <==>
      (RequiredCheck(f, v).None? && EmailCheck(f, v, matches).None? && MinLengthCheck(f, v).None?
       && MaxLengthCheck(f, v).None? && PatternCheck(f, v, matches).None?)
  {
    FirstFailureOfFive(RequiredCheck(f, v), EmailCheck(f, v, matches), MinLengthCheck(f, v),
                       MaxLengthCheck(f, v), PatternCheck(f, v, matches));
  }

  /** A required field is reported missing when it is an unchecked checkbox
      or any other field holding undefined, null or ''; the message names
      the label if there is one, else the field name. */
  lemma RequiredEmptyFails(f: Field, v: Json, matches: (Regex, string) -> bool)
    requires f.required
    requires if f.kind == "checkbox" then !Truthy(v) else IsBlank(v)
    ensures ValidateField(f, v, matches) == Some((if f.labelText != "" then f.labelText else f.name) + " is required.")
  {
  }

  /** A field that is not required accepts any falsy value: every check
      after the required one is guarded by the value being truthy. */
  lemma OptionalEmptyPasses(f: Field, v: Json, matches: (Regex, string) -> bool)
    requires !f.required && !Truthy(v)
    ensures ValidateField(f, v, matches).None?
  {
  }

  /** `validateField(field, formData[field.name])` for every field. */
  function FieldError(data: map<string, Json>, matches: (Regex, string) -> bool): Field -> Option<string>
  {
    (f: Field) => ValidateField(f, At(data, f.name), matches)
  }

  /** Every failure `validateField` reports is truthy. */
  lemma FieldErrorTruthy(data: map<string, Json>, matches: (Regex, string) -> bool, f: Field)
    ensures FieldError(data, matches)(f).Some? ==> FieldError(data, matches)(f).value != ""
  {
  }

  /** The names of the fields that fail. */
  function FailingNames(fields: seq<Field>, error: Field -> Option<string>): set<string>
  {
    set f | f in fields && error(f).Some? :: f.name
  }

  /** The message `validateForm` keeps for `key`: that of the last failing
      field of that name. */
  function LastFailure(fields: seq<Field>, key: string, error: Field -> Option<string>): (r: Option<string>)
    ensures r.None? <==> key !in FailingNames(fields, error)
  {
    if |fields| == 0 then None
    else
      var last := fields[|fields| - 1];
      var rest := fields[..|fields| - 1];
      assert forall f :: f in fields <==> f in rest || f == last;
      if last.name == key && error(last).Some? then error(last) else LastFailure(rest, key, error)
  }

  /** The message kept for a name is that of a failing field of that name
      after which no field of that name fails. */
  lemma {:induction false} LastFailureIsLast(fields: seq<Field>, key: string, error: Field -> Option<string>)
    requires LastFailure(fields, key, error).Some?
    ensures exists i :: 0 <= i < |fields| && fields[i].name == key && error(fields[i]) == LastFailure(fields, key, error)
                        && forall j :: i < j < |fields| && fields[j].name == key ==> error(fields[j]).None?
  {
    var n := |fields|;
    var rest := fields[..n - 1];
    if !(fields[n - 1].name == key && error(fields[n - 1]).Some?) {
      LastFailureIsLast(rest, key, error);
      var i :| 0 <= i < |rest| && rest[i].name == key && error(rest[i]) == LastFailure(rest, key, error)
               && forall j :: i < j < |rest| && rest[j].name == key ==> error(rest[j]).None?;
      assert fields[i] == rest[i];
      forall j | i < j < n && fields[j].name == key
        ensures error(fields[j]).None?
      {
        if j < n - 1 {
          assert fields[j] == rest[j];
        }
      }
    }
  }

  /** One more field adds its name to the failing names iff it fails. */
  lemma FailingNamesStep(fields: seq<Field>, f: Field, error: Field -> Option<string>)
    ensures FailingNames(fields + [f], error)
         == FailingNames(fields, error) + (if error(f).Some? then {f.name} else {})
  {
    assert forall g :: g in fields + [f] <==> g in fields || g == f;
  }

  /** One more field takes over the message of its name iff it fails. */
  lemma LastFailureStep(fields: seq<Field>, f: Field, key: string, error: Field -> Option<string>)
    ensures LastFailure(fields + [f], key, error)
         == if f.name == key && error(f).Some? then error(f) else LastFailure(fields, key, error)
  {
    assert (fields + [f])[..|fields|] == fields;
  }

  /** The loop of `validateForm`: the error message of every failing
      field, keyed by its name. The form is valid exactly when no field
      fails, which is exactly when the map is empty. */
  method CollectErrors(fields: seq<Field>, data: map<string, Json>, matches: (Regex, string) -> bool)
    returns (errors: map<string, string>)
    ensures errors.Keys == FailingNames(fields, FieldError(data, matches))
    ensures forall k :: k in errors ==> Some(errors[k]) == LastFailure(fields, k, FieldError(data, matches))
    ensures |errors| == 0 <==> forall f :: f in fields ==> FieldError(data, matches)(f).None?
  {
    var check := FieldError(data, matches);
    errors := map[];
    var i := 0;
    while i < |fields|
      invariant 0 <= i <= |fields|
      invariant errors.Keys == FailingNames(fields[..i], check)
      invariant forall k :: k in errors ==> Some(errors[k]) == LastFailure(fields[..i], k, check)
    {
      var f := fields[i];
      assert fields[..i + 1] == fields[..i] + [f];
      FailingNamesStep(fields[..i], f, check);
      forall k {
        LastFailureStep(fields[..i], f, k, check);
      }
      var error := check(f);
      FieldErrorTruthy(data, matches, f);
      if error.Some? && error.value != "" {
        errors := errors[f.name := error.value];
      }
      i := i + 1;
    }
    assert fields[..i] == fields;
    if |errors| == 0 {
      forall f | f in fields
        ensures check(f).None?
      {
        assert f.name !in errors;
      }
    } else {
      var k :| k in errors;
      assert k in FailingNames(fields, check);
    }
  }

  /** The `target` of a change event. */
  datatype ChangeTarget = ChangeTarget(name: string, value: string, kind: string, checked: bool)

  /** The value `handleChange` stores: `checked` for a checkbox, the
      number `parseFloat(value)` (or '') for a number input, the text
      otherwise. */
  function ChangedValue(t: ChangeTarget, parseFloat: string -> Json): Json
  {
    if t.kind == "checkbox" then JBool(t.checked)
    else if t.kind == "number" then (if t.value == "" then JStr("") else parseFloat(t.value))
    else JStr(t.value)
  }

  /** The dependencies `[formSchema, initialData]` of the defaulting
      effect, as they were when it last ran. */
  datatype EffectDeps = EffectDeps(schema: Option<seq<Field>>, initialData: map<string, Json>)

  /** The `initialData` prop, `{}` when the caller omits it. */
  function PropOrEmpty(initialData: Option<map<string, Json>>): map<string, Json>
  {
    if initialData.Some? then initialData.value else map[]
  }

  /** The component's state: `formData` and `formErrors` (a message, or
      null once the field has been edited), with the `formSchema.fields`
      prop it renders and the dependencies its effect last ran with. */
  class Component {
    var fields: Option<seq<Field>>
    var formData: map<string, Json>
    var formErrors: map<string, Option<string>>
    var effectDeps: Option<EffectDeps>

    /** Mounting: both state maps start empty and the effect has not run. */
    constructor (fields: Option<seq<Field>>)
      ensures this.fields == fields && formData == map[] && formErrors == map[] && effectDeps == None
    {
      this.fields := fields;
      formData := map[];
      formErrors := map[];
      effectDeps := None;
    }

    /** The body of the effect run when `formSchema` or `initialData`
        changes: the data is re-defaulted and every error cleared. */
    method Initialize(schemaFields: Option<seq<Field>>, initialData: map<string, Json>)
      modifies this`fields, this`formData, this`formErrors
      ensures fields == schemaFields && formErrors == map[]
      ensures Defaulted(schemaFields, initialData, formData)
      ensures schemaFields.Some? ==> forall f :: f in schemaFields.value ==> f.name in formData && formData[f.name] != JUndefined
      ensures forall k :: k in initialData && initialData[k] != JUndefined ==> k in formData && formData[k] == initialData[k]
      ensures schemaFields.Some? ==> formData.Keys == initialData.Keys + Names(schemaFields.value)
      ensures schemaFields.None? ==> formData == initialData
      ensures forall k :: k in initialData && (schemaFields.None? || k !in Names(schemaFields.value)) ==>
        formData[k] == initialData[k]
      ensures schemaFields.Some? ==> forall f :: f in schemaFields.value && At(initialData, f.name) == JUndefined ==>
        formData[f.name] == FieldDefault(LastNamed(schemaFields.value, f.name).value)
    {
      fields := schemaFields;
      formData := DefaultData(schemaFields, initialData);
      formErrors := map[];
    }

    /** The commit of one render, as written: the effect runs on the first
        render and whenever a dependency differs from the last run. An
        omitted `initialData` defaults to a `{}` literal, a new object on
        every render, so it always differs and the effect runs again,
        putting every field back to its default. */
    method RenderAsWritten(schema: Option<seq<Field>>, initialData: Option<map<string, Json>>) returns (ran: bool)
      modifies this`fields, this`formData, this`formErrors, this`effectDeps
      ensures ran <==> initialData.None? || old(effectDeps) != Some(EffectDeps(schema, PropOrEmpty(initialData)))
      ensures effectDeps == Some(EffectDeps(schema, PropOrEmpty(initialData)))
      ensures ran ==> fields == schema && formErrors == map[] && Defaulted(schema, PropOrEmpty(initialData), formData)
      ensures !ran ==> fields == old(fields) && formData == old(formData) && formErrors == old(formErrors)
    {
      var deps := EffectDeps(schema, PropOrEmpty(initialData));
      ran := initialData.None? || effectDeps != Some(deps);
      if ran {
        Initialize(schema, deps.initialData);
      }
      effectDeps := Some(deps);
    }

    /** The commit of one render with a stable empty default for an
        omitted `initialData`: the effect runs again only when the schema
        or a supplied `initialData` changes, and otherwise leaves the
        edited data and the shown errors alone. */
    method Render(schema: Option<seq<Field>>, initialData: Option<map<string, Json>>) returns (ran: bool)
      modifies this`fields, this`formData, this`formErrors, this`effectDeps
      ensures ran <==> old(effectDeps) != Some(EffectDeps(schema, PropOrEmpty(initialData)))
      ensures effectDeps == Some(EffectDeps(schema, PropOrEmpty(initialData)))
      ensures ran ==> fields == schema && formErrors == map[] && Defaulted(schema, PropOrEmpty(initialData), formData)
      ensures !ran ==> fields == old(fields) && formData == old(formData) && formErrors == old(formErrors)
    {
      var deps := EffectDeps(schema, PropOrEmpty(initialData));
      ran := effectDeps != Some(deps);
      if ran {
        Initialize(schema, deps.initialData);
      }
      effectDeps := Some(deps);
    }

    /** `handleChange(e)`: only the changed field's value is replaced, and
        an error shown for that field is nulled. */
    method HandleChange(t: ChangeTarget, parseFloat: string -> Json)
      modifies this`formData, this`formErrors
      ensures formData == old(formData)[t.name := ChangedValue(t, parseFloat)]
      ensures t.name in old(formErrors) && old(formErrors)[t.name].Some? && old(formErrors)[t.name].value != "" ==>
        formErrors == old(formErrors)[t.name := None]
      ensures !(t.name in old(formErrors) && old(formErrors)[t.name].Some? && old(formErrors)[t.name].value != "") ==>
        formErrors == old(formErrors)
    {
      formData := formData[t.name := ChangedValue(t, parseFloat)];
      if t.name in formErrors && formErrors[t.name].Some? && formErrors[t.name].value != "" {
        formErrors := formErrors[t.name := None];
      }
    }

    /** `validateForm()`: true without a schema; otherwise the errors of
        every failing field are shown, and the form is valid exactly when
        no field fails. */
    method ValidateForm(matches: (Regex, string) -> bool) returns (valid: bool)
      modifies this`formErrors
      ensures fields.None? ==> valid && formErrors == old(formErrors)
      ensures fields.Some? ==> formErrors.Keys == FailingNames(fields.value, FieldError(formData, matches))
      ensures fields.Some? ==> forall k :: k in formErrors ==>
        formErrors[k] == LastFailure(fields.value, k, FieldError(formData, matches))
      ensures fields.Some? ==> (valid <==> forall f :: f in fields.value ==>
        ValidateField(f, At(formData, f.name), matches).None?)
    {
      if fields.None? {
        return true;
      }
      var errors := CollectErrors(fields.value, formData, matches);
      formErrors := map k | k in errors :: Some(errors[k]);
      valid := |errors| == 0;
    }

    /** `handleSubmit(e)`: the data handed to `onSubmit`, which is called
        only when validation succeeds. */
    method HandleSubmit(matches: (Regex, string) -> bool) returns (submitted: Option<map<string, Json>>)
      modifies this`formErrors
      ensures submitted.Some? <==> (fields.None? || forall f :: f in fields.value ==>
        ValidateField(f, At(formData, f.name), matches).None?)
      ensures submitted.Some? ==> submitted.value == formData
      ensures fields.None? ==> formErrors == old(formErrors)
      ensures fields.Some? ==> formErrors.Keys == FailingNames(fields.value, FieldError(formData, matches))
      ensures fields.Some? ==> forall k :: k in formErrors ==>
        formErrors[k] == LastFailure(fields.value, k, FieldError(formData, matches))
    {
      var valid := ValidateForm(matches);
      if valid {
        submitted := Some(formData);
      } else {
        submitted := None;
      }
    }
  }

  /** The one field of the submission form in the two runs below: a text
      input `name` with no default and no checks. */
  function NameField(): Field
  {
    Field("name", "text", "", false, JUndefined, 0, 0, "", "")
  }

  /** As written, with `initialData` omitted as the submission page does:
      the field is edited to "alice", and the render that follows the
      edit runs the effect again, which shows '' once more. */
  method EditLostAsWritten() returns (edited: Json, shown: Json)
    ensures edited == JStr("alice")
    ensures shown == JStr("")
  {
    var f := NameField();
    var c := new Component(None);
    var mounted := c.RenderAsWritten(Some([f]), None);
    c.HandleChange(ChangeTarget("name", "alice", "text", false), s => JUndefined);
    edited := c.formData["name"];
    var ran := c.RenderAsWritten(Some([f]), None);
    assert LastNamed([f], "name") == Some(f);
    shown := c.formData["name"];
  }

  /** With a stable default the same edit survives the next render and is
      what `onSubmit` receives. */
  method EditSurvivesRender() returns (shown: Json, submitted: Option<map<string, Json>>)
    ensures shown == JStr("alice")
    ensures submitted == Some(map["name" := JStr("alice")])
  {
    var f := NameField();
    var c := new Component(None);
    var mounted := c.Render(Some([f]), None);
    assert Names([f]) == {"name"};
    c.HandleChange(ChangeTarget("name", "alice", "text", false), s => JUndefined);
    var ran := c.Render(Some([f]), None);
    shown := c.formData["name"];
    assert c.formData == map["name" := JStr("alice")];
    submitted := c.HandleSubmit((r, s) => true);
  }
}
