/** The core's errors, their text, and the public error a failed task carries. */
module CoreErrors {
  import opened TaskModel

  datatype CoreError =
    | InvalidRequest(detail: string)
    | AgentNotFound(id: AgentId)
    | NoEligibleAgent
    | ResourceExhausted(detail: string)
    | DriverError(detail: string)
    | Timeout
    | StoreFailure(error: StoreError)

  function StoreErrorText(error: StoreError): string {
    match error
    case NotFound(id) => "task not found: " + id
    case Conflict => "concurrent mutation conflict"
    case InvalidTransition(detail) => "invalid task transition: " + detail
    case Unavailable(detail) => "storage unavailable: " + detail
    case Corrupt(detail) => "storage corruption: " + detail
    case Internal(detail) => "storage internal error: " + detail
  }

  function Display(error: CoreError): string {
    match error
    case InvalidRequest(detail) => "invalid request: " + detail
    case AgentNotFound(id) => "agent not found: " + id
    case NoEligibleAgent => "no eligible agent"
    case ResourceExhausted(detail) => "resource exhausted: " + detail
    case DriverError(detail) => "driver error: " + detail
    case Timeout => "task timed out"
    case StoreFailure(e) => "store error: " + StoreErrorText(e)
  }

  /** What `fail_active` records; it never marks a failure retryable. */
  function Failure(error: CoreError): PublicError {
    PublicError(if error.Timeout? then "timeout" else "runtime_error", Display(error), false)
  }

  const STREAM_CLOSED := DriverError("driver stream closed before terminal event")
}
