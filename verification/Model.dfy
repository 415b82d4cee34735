/**
 The values every part of the adapter exchanges: tasks, events, transition
 requests and store errors (crates/adapter-model, crates/adapter-store-contract).
 */
module TaskModel {

  datatype Option<+T> = None | Some(value: T)
  datatype Result<+T, +E> = Ok(value: T) | Err(error: E)

  type TaskId = string
  type SessionId = string
  type AgentId = string
  type CallerId = string
  type EventSeq = nat

  /** A point in time; the clock itself is always a parameter. */
  type Time = int

  datatype Json =
    | JNull
    | JBool(flag: bool)
    | JNumber(number: int)
    | JString(text: string)
    | JArray(items: seq<Json>)
    | JObject(fields: map<string, Json>)

  datatype Part =
    | Text(text: string)
    | Data(value: Json)
    | FileRef(uri: string, mimeType: Option<string>)

  datatype ArtifactRef =
    ArtifactRef(id: string, name: string, mimeType: string, sizeBytes: nat, uri: Option<string>)
  datatype InputRequest = InputRequest(question: string, schema: Option<Json>)
  datatype PublicError = PublicError(code: string, message: string, retryable: bool)

  datatype TaskState =
    | Created | Accepted | Running | WaitingForInput | CancelRequested
    | Completed | Failed | Cancelled
  {
    predicate Terminal() {
      Completed? || Failed? || Cancelled?
    }

    /** The name the source's derived `Debug` prints. */
    function Name(): string {
      match this
      case Created => "Created"
      case Accepted => "Accepted"
      case Running => "Running"
      case WaitingForInput => "WaitingForInput"
      case CancelRequested => "CancelRequested"
      case Completed => "Completed"
      case Failed => "Failed"
      case Cancelled => "Cancelled"
    }
  }

  datatype EventKind =
    | AcceptedEvent(queued: bool)
    | ProgressEvent(message: string, percent: Option<nat>)
    | ArtifactEvent(artifact: ArtifactRef)
    | InputRequiredEvent(request: InputRequest)
    | CompletedEvent(output: seq<Part>)
    | FailedEvent(error: PublicError)
    | CancelRequestedEvent(reason: Option<string>)
    | CancelledEvent
  {
    predicate Terminal() {
      CompletedEvent? || FailedEvent? || CancelledEvent?
    }
  }

  datatype CoreEvent = CoreEvent(taskId: TaskId, seqNo: EventSeq, at: Time, kind: EventKind)

  datatype TaskSnapshot = TaskSnapshot(
    taskId: TaskId,
    sessionId: Option<SessionId>,
    agentId: AgentId,
    callerId: CallerId,
    state: TaskState,
    revision: nat,
    lastSeq: EventSeq,
    createdAt: Time,
    updatedAt: Time,
    terminalAt: Option<Time>)

  datatype NewTask = NewTask(
    taskId: TaskId,
    sessionId: Option<SessionId>,
    agentId: AgentId,
    callerId: CallerId,
    idempotencyKey: string,
    deadlineAt: Option<Time>)

  datatype CreateTaskResult = TaskCreated(snapshot: TaskSnapshot) | TaskExisting(snapshot: TaskSnapshot)

  datatype TaskTransition = TaskTransition(
    taskId: TaskId,
    expectedRevision: nat,
    allowedStates: seq<TaskState>,
    nextState: TaskState,
    eventKind: EventKind)

  datatype AppliedTransition = AppliedTransition(snapshot: TaskSnapshot, event: CoreEvent)

  datatype StoreError =
    | NotFound(taskId: TaskId)
    | Conflict
    | InvalidTransition(detail: string)
    | Unavailable(detail: string)
    | Corrupt(detail: string)
    | Internal(detail: string)

  datatype DriverEvent =
    | DriverAccepted
    | DriverProgress(message: string, percent: Option<nat>)
    | DriverArtifact(artifact: ArtifactRef)
    | DriverInputRequired(request: InputRequest)
    | DriverCompleted(output: seq<Part>)
    | DriverFailed(error: PublicError)
    | DriverCancelled

  function Kinds(log: seq<CoreEvent>): (kinds: seq<EventKind>)
    ensures |kinds| == |log|
    ensures forall i | 0 <= i < |log| :: kinds[i] == log[i].kind
  {
    seq(|log|, i requires 0 <= i < |log| => log[i].kind)
  }
}
