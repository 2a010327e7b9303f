/** The source's `undefined`-or-value and resolve-or-reject shapes. */
module Wrappers {

  /** A value that may be absent (`undefined` in the source). */
  datatype Option<+T> = None | Some(value: T)

  /** What a rejected promise carries: an `Error` object with its message,
      or the `[message, exitCode]` pair that the process runner rejects
      with (`None` for a `null` exit code). */
  datatype Thrown = ErrorWith(message: string) | Rejection(message: string, code: Option<int>)

  /** The outcome of an asynchronous call: it returns a value, it throws
      (rejects), it is abandoned without a reason (`reject()`, as the menu
      prompts do on cancel), or it never settles. */
  datatype Outcome<+T> = Returned(value: T) | Threw(error: Thrown) | Cancelled | Unsettled

  /** A step of a flow that did not return ends the flow the same way: a
      throw passes through, a step that never settles leaves the flow
      unsettled, and anything else is a silent stop. */
  function Stopped<T, U>(o: Outcome<T>): (r: Outcome<U>)
    ensures o.Threw? ==> r == Threw(o.error)
    ensures o.Unsettled? ==> r.Unsettled?
    ensures o.Returned? || o.Cancelled? ==> r.Cancelled?
  {
    match o
    case Threw(e) => Threw(e)
    case Unsettled => Unsettled
    case _ => Cancelled
  }
}
