/**
 * Optional values and the outcome of one HTTP round trip, shared by every
 * hook and route model. Network and SDK calls are never performed: their
 * outcome is an explicit input of the functions that react to it.
 */
module Outcomes {

  /** A JavaScript value that may be `null`/`undefined`. */
  datatype Option<+T> = None | Some(value: T) {

    /** The value, or `default` when absent (the `??` operator). */
    function GetOr(default: T): T {
      match this
      case Some(v) => v
      case None => default
    }
  }

  /**
   * What a `fetch` followed by `res.json()` produced:
   * - Ok: the response had `res.ok` and its body parsed;
   * - NotOk: the server answered with a non-2xx status, carrying
   *   `json.error?.message` when the body had one;
   * - Rejected: the call threw; `reason` is the `Error`'s message, or None
   *   when the thrown value was not an `Error`.
   */
  datatype Reply<+T> = Ok(body: T) | NotOk(serverMessage: Option<string>) | Rejected(reason: Option<string>)

  /** JavaScript truthiness of an optional string: absent and "" are falsy. */
  predicate Present(o: Option<string>) {
    o.Some? && o.value != ""
  }

  /** `json.error?.message || fallback`. */
  function ServerMessageOr(m: Option<string>, fallback: string): (r: string)
    ensures Present(m) ==> r == m.value
    ensures !Present(m) ==> r == fallback
  {
    if Present(m) then m.value else fallback
  }

  /** `err instanceof Error ? err.message : fallback` inside a `catch`. */
  function RejectionText(reason: Option<string>, fallback: string): (r: string)
    ensures reason.Some? ==> r == reason.value
    ensures reason.None? ==> r == fallback
  {
    reason.GetOr(fallback)
  }
}
