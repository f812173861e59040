/** Small value types shared by the whole model. */
module Wrappers {

  /** A TypeScript value that may be `undefined`. */
  datatype Option<+T> = None | Some(value: T) {
    function GetOr(default: T): T {
      match this
      case Some(v) => v
      case None => default
    }
  }

  /**
   * How a TypeScript operation ends: it returns a value, or it throws.
   * `message` is the thrown error's `message`; the empty string stands for
   * an error without one (every caller reads it as `message || fallback`
   * or as `message?.includes(...)`, where the two behave alike).
   */
  datatype Run<+T> = Returned(value: T) | Threw(message: string)

  /**
   * The result of an operation that may hand one request to an external
   * service, together with that request (`None` when nothing was sent).
   */
  datatype Exchange<+Q, +R> = Exchange(result: R, sent: Option<Q>)
}
