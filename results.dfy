/** The two-shape result every server action returns, and the way its `catch` blocks turn a thrown
    value into the failure shape. */
module Results {

  datatype Option<T> = None | Some(value: T)

  /** An optional field of a request: a value, JavaScript's `null`, or `undefined` (key not sent). */
  datatype Field<T> = Value(value: T) | Null | Undefined

  /** `{ success: true, data }` or `{ success: false, error }`; `ActionResult<void>` is `ActionResult<()>`. */
  datatype ActionResult<T> = Success(data: T) | Failure(error: string)

  /** How a component's awaited server call ended: a result was returned (success or failure),
      or the call threw. */
  datatype CallOutcome = Succeeded | Failed(error: string) | Threw

  /** A value thrown by a persistence call: an `Error` instance carrying a message, or any other value. */
  datatype Thrown = ErrorValue(message: string) | OtherValue

  /** The message a `catch` block reports: the error's own message when it is an `Error`, else the
      action's fixed fallback text. */
  function CaughtMessage(e: Thrown, fallback: string): (m: string)
    ensures e.ErrorValue? ==> m == e.message
    ensures e.OtherValue? ==> m == fallback
  {
    match e
    case ErrorValue(msg) => msg
    case OtherValue => fallback
  }

  /** The failure a `catch` block returns for a thrown value `e`. */
  function Caught<T>(e: Thrown, fallback: string): ActionResult<T>
  {
    Failure(CaughtMessage(e, fallback))
  }
}
