/**
  JavaScript values as the front end sees them: parsed JSON response bodies,
  form values and store fields. `JUndefined` is the value of a missing
  property. Numbers are integers in this model.

  The module also gives the three JavaScript coercions the front end relies
  on: truthiness (`if (x)`, `x || y`, `!!x`), string conversion (template
  literals, `String(x)`) and `Array.prototype.join`, plus `Object.entries`.
*/
module Js {

  datatype Option<T> = None | Some(value: T)

  datatype Json =
    | JUndefined
    | JNull
    | JBool(b: bool)
    | JNum(n: int)
    | JStr(s: string)
    | JArr(items: seq<Json>)
    | JObj(entries: seq<(string, Json)>)   // in insertion order, as parsed

  /** JavaScript truthiness. */
  predicate Truthy(j: Json)
  {
    match j
    case JUndefined => false
    case JNull => false
    case JBool(b) => b
    case JNum(n) => n != 0
    case JStr(s) => s != ""
    case JArr(_) => true
    case JObj(_) => true
  }

  /** `typeof j === 'object'` (true of null, arrays and objects). */
  predicate IsObjectType(j: Json)
  {
    j.JNull? || j.JArr? || j.JObj?
  }

  /** `x || fallback` where both sides are strings. */
  function OrElse(x: string, fallback: string): string
  {
    if x != "" then x else fallback
  }

  function Digit(d: nat): char
    requires d < 10
  {
    "0123456789"[d]
  }

  /** Decimal notation of a natural number. */
  function NatToString(n: nat): (s: string)
    ensures s != []
    ensures forall i :: 0 <= i < |s| ==> '0' <= s[i] <= '9'
  {
    if n < 10 then [Digit(n)] else NatToString(n / 10) + [Digit(n % 10)]
  }

  /** Decimal notation of an integer, as `String(n)` prints it. */
  function IntToString(n: int): (s: string)
    ensures s != []
  {
    if n < 0 then "-" + NatToString(-n) else NatToString(n)
  }

  /** Whether a character lies outside the Basic Multilingual Plane, so
      that UTF-16 spells it with a surrogate pair. */
  predicate Astral(c: char)
  {
    c as int > 0xFFFF
  }

  /** `s.length`: the number of UTF-16 code units, two for each character
      outside the Basic Multilingual Plane and one for every other. */
  function Utf16Length(s: string): (n: nat)
    ensures |s| <= n <= 2 * |s|
    ensures n == |s| <==> forall i :: 0 <= i < |s| ==> !Astral(s[i])
  {
    if |s| == 0 then 0
    else
      var rest := Utf16Length(s[1..]);
      assert (forall i :: 0 <= i < |s| ==> !Astral(s[i]))
         <==> !Astral(s[0]) && forall i :: 0 <= i < |s[1..]| ==> !Astral(s[1..][i]) by {
        if forall i :: 0 <= i < |s[1..]| ==> !Astral(s[1..][i]) {
          assert forall i :: 1 <= i < |s| ==> s[i] == s[1..][i - 1];
        }
      }
      (if Astral(s[0]) then 2 else 1) + rest
  }

  /** Four emoji are eight code units long: `.length` counts UTF-16. */
  lemma Utf16LengthOfEmoji()
    ensures Utf16Length("\U{1F600}\U{1F600}\U{1F600}\U{1F600}") == 8
  {
  }

  /** `parts.join(sep)` over strings. */
  function JoinStrings(parts: seq<string>, sep: string): string
  {
    if |parts| == 0 then ""
    else if |parts| == 1 then parts[0]
    else parts[0] + sep + JoinStrings(parts[1..], sep)
  }

  /** Joining never yields the empty string when there are at least two
      parts and a non-empty separator, nor when one part is non-empty. */
  lemma {:induction false} JoinStringsEmpty(parts: seq<string>, sep: string)
    requires sep != ""
    ensures JoinStrings(parts, sep) == "" <==> (|parts| == 0 || (|parts| == 1 && parts[0] == ""))
  {
    if |parts| >= 2 {
      assert |parts[0] + sep + JoinStrings(parts[1..], sep)| >= |sep|;
    }
  }

  /** `String(j)`, i.e. what a template literal `${j}` prints. */
  function ToStr(j: Json): string
  {
    match j
    case JUndefined => "undefined"
    case JNull => "null"
    case JBool(b) => if b then "true" else "false"
    case JNum(n) => IntToString(n)
    case JStr(s) => s
    case JArr(items) => JoinStrings(JoinParts(items), ",")   // Array.prototype.toString
    case JObj(_) => "[object Object]"
  }

  /** The elements of an array as `join` prints them: null and undefined
      become the empty string. */
  function JoinParts(items: seq<Json>): (parts: seq<string>)
    ensures |parts| == |items|
  {
    if |items| == 0 then []
    else [if items[0].JNull? || items[0].JUndefined? then "" else ToStr(items[0])] + JoinParts(items[1..])
  }

  /** `items.join(sep)`. */
  function JoinJson(items: seq<Json>, sep: string): string
  {
    JoinStrings(JoinParts(items), sep)
  }

  /** First value stored under `key` in an entry list. */
  function Lookup(entries: seq<(string, Json)>, key: string): (r: Json)
    ensures r != JUndefined ==> exists i :: 0 <= i < |entries| && entries[i] == (key, r)
    ensures (forall i :: 0 <= i < |entries| ==> entries[i].0 != key) ==> r == JUndefined
  {
    if |entries| == 0 then JUndefined
    else if entries[0].0 == key then entries[0].1
    else Lookup(entries[1..], key)
  }

  /** Property read `j.key` (also `j?.key`): only objects carry the data
      properties a response body can have; every other value yields undefined. */
  function Get(j: Json, key: string): Json
  {
    if j.JObj? then Lookup(j.entries, key) else JUndefined
  }

  /** `Object.entries(j)` for every value it does not throw on (it throws on
      null and undefined): own entries of an object, index/element pairs of
      an array, index/character pairs of a string, none for booleans and
      numbers. */
  function Entries(j: Json): (es: seq<(string, Json)>)
    requires !j.JNull? && !j.JUndefined?
    ensures j.JObj? ==> es == j.entries
    ensures j.JArr? ==> |es| == |j.items|
    ensures j.JStr? ==> |es| == |j.s|
    ensures j.JNum? || j.JBool? ==> es == []
  {
    match j
    case JObj(es) => es
    case JArr(items) => IndexedEntries(items, 0)
    case JStr(s) => CharEntries(s, 0)
    case _ => []
  }

  /** `(String(from + i), items[i])` for every index `i`. */
  function IndexedEntries(items: seq<Json>, from: nat): (es: seq<(string, Json)>)
    ensures |es| == |items|
    ensures forall i :: 0 <= i < |items| ==> es[i] == (NatToString(from + i), items[i])
  {
    if |items| == 0 then [] else [(NatToString(from), items[0])] + IndexedEntries(items[1..], from + 1)
  }

  /** `(String(from + i), s[i])` for every index `i` of a string. */
  function CharEntries(s: string, from: nat): (es: seq<(string, Json)>)
    ensures |es| == |s|
    ensures forall i :: 0 <= i < |s| ==> es[i] == (NatToString(from + i), JStr([s[i]]))
  {
    if |s| == 0 then [] else [(NatToString(from), JStr([s[0]]))] + CharEntries(s[1..], from + 1)
  }
}
