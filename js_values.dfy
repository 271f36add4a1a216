/** JavaScript values as the console's code meets them: possibly-missing
    strings, truthiness, and the outcome of an awaited remote call. */
module JsValues {

  /** A value that may be missing, where `null` and `undefined` behave
      alike (both are `None`). */
  datatype Option<+T> = None | Some(value: T)

  /** A JSON field read as a string, where `undefined` (the field is absent)
      and `null` are told apart: `String(v)` spells them differently. */
  datatype Field = Undefined | Null | Str(text: string)

  /** `!!v` for a string that may be missing: the empty string is falsy. */
  predicate Truthy(v: Option<string>)
  {
    v.Some? && v.value != ""
  }

  /** `!!v` for a JSON field: only a non-empty string is truthy. */
  predicate TruthyField(f: Field)
  {
    f.Str? && f.text != ""
  }

  /** The outcome of one awaited API call: the decoded `response.data`, or a
      rejection carrying `err.response?.data?.message` when the server sent one. */
  datatype Reply<+T> = Ok(data: T) | Fail(message: Option<string>)

  /** `err.response?.data?.message || fallback`: the server's message when it
      is a non-empty string, otherwise the page's fixed fallback text. */
  function ErrorText(message: Option<string>, fallback: string): (r: string)
    ensures r == fallback || Some(r) == message
    ensures Truthy(message) ==> r == message.value
    ensures fallback != "" ==> r != ""
  {
    if Truthy(message) then message.value else fallback
  }

  /** `call().catch(() => fallback)`: a failed call degrades to a default. */
  function DataOr<T>(reply: Reply<T>, fallback: T): (r: T)
    ensures reply.Fail? ==> r == fallback
    ensures reply.Ok? ==> r == reply.data
  {
    match reply
    case Ok(data) => data
    case Fail(_) => fallback
  }
}
