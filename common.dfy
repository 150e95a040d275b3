/** Values shared by every page: optional values, JavaScript truthiness of the
    optional fields the pages test, and the abstract outcome of one HTTP call. */
module Common {

  datatype Option<+T> = None | Some(value: T)

  /** `v || fallback` on an optional string: an absent value and the empty
      string are both falsy in JavaScript, so both give the fallback. */
  function StringOr(v: Option<string>, fallback: string): (r: string)
    ensures v.Some? && v.value != "" ==> r == v.value
    ensures v.None? || v.value == "" ==> r == fallback
    ensures fallback != "" ==> r != ""
  {
    if v.Some? && v.value != "" then v.value else fallback
  }

  /** An optional number is truthy when present and non-zero (NaN is not modelled). */
  predicate NumberTruthy(v: Option<int>)
  {
    v.Some? && v.value != 0
  }

  /** What one awaited `fetch` (together with `response.json()`) produced:
      an ok response and its decoded body, a non-ok response with its status
      and the body's optional `detail`, or an exception (network failure,
      undecodable body) carrying its message. */
  datatype Reply<T> =
    | Ok(body: T)
    | NotOk(status: nat, detail: Option<string>)
    | Threw(message: string)
}
