/**
  The outcome of one HTTP call made through axios, as the caller's `await`
  sees it: a 2xx response, or the error axios rejects with. Every network
  step of the front end is an input of this type.
*/
module Http {
  import opened Js

  /** The three shapes of an axios error that the front end distinguishes:
      `error.response` set (a non-2xx reply), `error.request` set without a
      response (no reply, including the 10 s timeout), or neither (the request
      could not be set up, or a plain JavaScript error with `error.message`). */
  datatype AxiosError =
    | ErrResponse(status: int, data: Json)
    | NoResponse
    | SetupError(message: string)

  datatype Outcome = Ok(data: Json) | Err(error: AxiosError)

  /** `error.response?.status === 401` */
  predicate IsUnauthorized(e: AxiosError)
  {
    e.ErrResponse? && e.status == 401
  }

  /** The text V8 puts in the TypeError raised by `const { a, b } = x` when
      `x` is null or undefined; `what` is the source text of `x`. */
  function DestructureError(first: string, what: string, x: Json): string
  {
    "Cannot destructure property '" + first + "' of '" + what + "' as it is "
      + (if x.JNull? then "null" else "undefined") + "."
  }

  /** One entry of a field-error body as `${field}: ${text}`, where an array
      of messages is joined with spaces and any other value is printed as
      it is. */
  function FieldErrorText(entry: (string, Json)): (t: string)
    ensures |t| > 0
  {
    entry.0 + ": " + (if entry.1.JArr? then JoinJson(entry.1.items, " ") else ToStr(entry.1))
  }

  function FieldErrorTexts(entries: seq<(string, Json)>): (ts: seq<string>)
    ensures |ts| == |entries|
    ensures forall i :: 0 <= i < |entries| ==> ts[i] == FieldErrorText(entries[i])
  {
    if |entries| == 0 then [] else [FieldErrorText(entries[0])] + FieldErrorTexts(entries[1..])
  }

  /** A Django REST framework error body flattened to one line: every entry
      of `Object.entries(data)` as `field: messages`, joined with "; ". */
  function FieldErrors(data: Json): string
    requires !data.JNull? && !data.JUndefined?
  {
    JoinStrings(FieldErrorTexts(Entries(data)), "; ")
  }

  /** The flattened body is empty exactly when the body has no entries. */
  lemma FieldErrorsEmpty(data: Json)
    requires !data.JNull? && !data.JUndefined?
    ensures FieldErrors(data) == "" <==> |Entries(data)| == 0
  {
    var ts := FieldErrorTexts(Entries(data));
    JoinStringsEmpty(ts, "; ");
    if |ts| == 1 {
      assert |ts[0]| > 0;
    }
  }
}
