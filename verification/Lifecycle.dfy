/**
 The life of one task as a language of event logs. Every write the core makes
 is one of five operations; an operation fixes which states it may start from,
 the state it moves to and the event it records
 (crates/adapter-core/src/lib.rs, `transition` and its callers).
 */
module Lifecycle {
  import opened TaskModel

  /** One write of the core: who asked for it decides the constructor. */
  datatype Op =
    | Accept
    | Drive(event: DriverEvent)
    | RequestCancel(reason: Option<string>)
    | GiveInput
    | Fail(error: PublicError)
  {
    /** `DriverAccepted` writes nothing and `DriverFailed` is written by `Fail`. */
    predicate Writes() {
      && (Drive? ==> !event.DriverAccepted? && !event.DriverFailed?)
      && (Fail? ==> !error.retryable)
    }
  }

  function Allowed(op: Op): seq<TaskState>
    requires op.Writes()
  {
    match op
    case Accept => [Created]
    case RequestCancel(_) => [Created, Accepted, Running, WaitingForInput]
    case GiveInput => [WaitingForInput]
    case Fail(_) => [Created, Accepted, Running, WaitingForInput, CancelRequested]
    case Drive(event) =>
      match event
      case DriverProgress(_, _) => [Accepted, Running]
      case DriverArtifact(_) => [Accepted, Running, WaitingForInput]
      case DriverInputRequired(_) => [Accepted, Running]
      case DriverCompleted(_) => [Accepted, Running, WaitingForInput]
      case DriverCancelled => [CancelRequested, Accepted, Running, WaitingForInput]
  }

  /** The state written next, computed from the state the writer has read. */
  function NextState(op: Op, read: TaskState): TaskState
    requires op.Writes()
  {
    match op
    case Accept => Accepted
    case RequestCancel(_) => CancelRequested
    case GiveInput => Running
    case Fail(_) => Failed
    case Drive(event) =>
      match event
      case DriverProgress(_, _) => if read == Accepted then Running else read
      case DriverArtifact(_) => Running
      case DriverInputRequired(_) => WaitingForInput
      case DriverCompleted(_) => Completed
      case DriverCancelled => Cancelled
  }

  const INPUT_ACCEPTED := ProgressEvent("input accepted", None)

  function KindOf(op: Op): EventKind
    requires op.Writes()
  {
    match op
    case Accept => AcceptedEvent(false)
    case RequestCancel(reason) => CancelRequestedEvent(reason)
    case GiveInput => INPUT_ACCEPTED
    case Fail(error) => FailedEvent(error)
    case Drive(event) =>
      match event
      case DriverProgress(message, percent) => ProgressEvent(message, percent)
      case DriverArtifact(artifact) => ArtifactEvent(artifact)
      case DriverInputRequired(request) => InputRequiredEvent(request)
      case DriverCompleted(output) => CompletedEvent(output)
      case DriverCancelled => CancelledEvent
  }

  /** The compare-and-set request an actor builds from the snapshot it holds. */
  function Request(op: Op, seen: TaskSnapshot): TaskTransition
    requires op.Writes()
  {
    TaskTransition(seen.taskId, seen.revision, Allowed(op), NextState(op, seen.state), KindOf(op))
  }

  // ---------------------------------------------------------------- folding a log

  function After(kind: EventKind): TaskState {
    match kind
    case AcceptedEvent(_) => Accepted
    case ProgressEvent(_, _) => Running
    case ArtifactEvent(_) => Running
    case InputRequiredEvent(_) => WaitingForInput
    case CompletedEvent(_) => Completed
    case FailedEvent(_) => Failed
    case CancelRequestedEvent(_) => CancelRequested
    case CancelledEvent => Cancelled
  }

  function StateOf(log: seq<EventKind>): TaskState {
    if log == [] then Created else After(log[|log| - 1])
  }

  /**
   An operation that may run leaves the task in the state its event stands for,
   so a state computed from the snapshot is never more than a function of the log.
   */
  lemma NextStateIsAfter(op: Op, read: TaskState)
    requires op.Writes() && read in Allowed(op)
    ensures NextState(op, read) == After(KindOf(op))
    ensures !read.Terminal()
  {
  }

  // ---------------------------------------------------------------- the atomic system

  /** Reads the log, decides and writes in one step. */
  function AtomicApply(log: seq<EventKind>, op: Op): seq<EventKind>
    requires op.Writes()
  {
    if StateOf(log) in Allowed(op) then log + [KindOf(op)] else log
  }

  ghost predicate AllWrite(ops: seq<Op>) {
    forall i | 0 <= i < |ops| :: ops[i].Writes()
  }

  function AtomicRun(ops: seq<Op>): seq<EventKind>
    requires forall i | 0 <= i < |ops| :: ops[i].Writes()
  {
    if ops == [] then [] else AtomicApply(AtomicRun(ops[..|ops| - 1]), ops[|ops| - 1])
  }

  lemma AtomicRunSnoc(ops: seq<Op>, op: Op)
    requires AllWrite(ops) && op.Writes()
    ensures AllWrite(ops + [op])
    ensures AtomicRun(ops + [op]) == AtomicApply(AtomicRun(ops), op)
  {
    assert (ops + [op])[..|ops + [op]| - 1] == ops;
  }

  // ---------------------------------------------------------------- legal logs

  /** Which event may follow in a given state, read off the event alone. */
  predicate Enabled(state: TaskState, kind: EventKind) {
    match kind
    case AcceptedEvent(queued) => state.Created? && !queued
    case ProgressEvent(_, _) =>
      state.Accepted? || state.Running? || (state.WaitingForInput? && kind == INPUT_ACCEPTED)
    case ArtifactEvent(_) => state.Accepted? || state.Running? || state.WaitingForInput?
    case InputRequiredEvent(_) => state.Accepted? || state.Running?
    case CompletedEvent(_) => state.Accepted? || state.Running? || state.WaitingForInput?
    case FailedEvent(error) => !state.Terminal() && !error.retryable
    case CancelRequestedEvent(_) => !state.Terminal() && !state.CancelRequested?
    case CancelledEvent => !state.Terminal() && !state.Created?
  }

  ghost predicate Legal(log: seq<EventKind>) {
    forall i | 0 <= i < |log| :: Enabled(StateOf(log[..i]), log[i])
  }

  lemma LegalSnoc(log: seq<EventKind>, kind: EventKind)
    requires Legal(log) && Enabled(StateOf(log), kind)
    ensures Legal(log + [kind])
  {
    forall i | 0 <= i < |log + [kind]|
      ensures Enabled(StateOf((log + [kind])[..i]), (log + [kind])[i])
    {
      assert (log + [kind])[..i] == log[..i];
      assert log[..|log|] == log;
    }
  }

  lemma LegalPrefix(log: seq<EventKind>, n: nat)
    requires Legal(log) && n <= |log|
    ensures Legal(log[..n])
  {
    forall i | 0 <= i < n ensures Enabled(StateOf(log[..n][..i]), log[..n][i]) {
      assert log[..n][..i] == log[..i];
    }
  }

  /** Every operation writes only what the automaton enables ... */
  lemma OperationIsEnabled(op: Op, state: TaskState)
    requires op.Writes() && state in Allowed(op)
    ensures Enabled(state, KindOf(op))
  {
  }

  /** ... and every enabled event is written by some operation. */
  function OperationFor(state: TaskState, kind: EventKind): (op: Op)
    requires Enabled(state, kind)
    ensures op.Writes() && state in Allowed(op) && KindOf(op) == kind
  {
    match kind
    case AcceptedEvent(_) => Accept
    case ProgressEvent(message, percent) =>
      if state.WaitingForInput? then GiveInput else Drive(DriverProgress(message, percent))
    case ArtifactEvent(artifact) => Drive(DriverArtifact(artifact))
    case InputRequiredEvent(request) => Drive(DriverInputRequired(request))
    case CompletedEvent(output) => Drive(DriverCompleted(output))
    case FailedEvent(error) => Fail(error)
    case CancelRequestedEvent(reason) => RequestCancel(reason)
    case CancelledEvent => Drive(DriverCancelled)
  }

  lemma {:induction false} AtomicRunIsLegal(ops: seq<Op>)
    requires AllWrite(ops)
    ensures Legal(AtomicRun(ops))
  {
    if ops != [] {
      var before, op := ops[..|ops| - 1], ops[|ops| - 1];
      AtomicRunIsLegal(before);
      var log := AtomicRun(before);
      if StateOf(log) in Allowed(op) {
        OperationIsEnabled(op, StateOf(log));
        LegalSnoc(log, KindOf(op));
      }
    }
  }

  lemma {:induction false} LegalLogHasRun(log: seq<EventKind>) returns (ops: seq<Op>)
    requires Legal(log)
    ensures AllWrite(ops) && AtomicRun(ops) == log
  {
    if log == [] {
      ops := [];
    } else {
      var n := |log| - 1;
      LegalPrefix(log, n);
      var before := LegalLogHasRun(log[..n]);
      var op := OperationFor(StateOf(log[..n]), log[n]);
      ops := before + [op];
      calc {
        AtomicRun(ops);
        { AtomicRunSnoc(before, op); }
        AtomicApply(log[..n], op);
        log[..n] + [log[n]];
        log;
      }
    }
  }

  /** The logs of the read-modify-write system are exactly the legal logs. */
  lemma AtomicLogsAreTheLegalLogs(log: seq<EventKind>)
    ensures Legal(log) <==> exists ops :: AllWrite(ops) && AtomicRun(ops) == log
  {
    if Legal(log) {
      var ops := LegalLogHasRun(log);
    }
    forall ops | AllWrite(ops) && AtomicRun(ops) == log ensures Legal(log) {
      AtomicRunIsLegal(ops);
    }
  }

  // ---------------------------------------------------------------- safety of legal logs

  function Rank(state: TaskState): nat {
    match state
    case Created => 0
    case Accepted => 1
    case Running => 2
    case WaitingForInput => 2
    case CancelRequested => 3
    case Completed => 4
    case Failed => 4
    case Cancelled => 4
  }

  lemma {:induction false} RankNeverFalls(log: seq<EventKind>, i: nat, j: nat)
    requires Legal(log) && i <= j <= |log|
    ensures Rank(StateOf(log[..i])) <= Rank(StateOf(log[..j]))
    decreases j
  {
    if i < j {
      RankNeverFalls(log, i, j - 1);
      assert Enabled(StateOf(log[..j - 1]), log[j - 1]);
      assert log[..j][|log[..j]| - 1] == log[j - 1];
    }
  }

  lemma LiveBeforeEveryEvent(log: seq<EventKind>)
    requires Legal(log)
    ensures forall i | 0 <= i < |log| :: !StateOf(log[..i]).Terminal()
  {
    forall i | 0 <= i < |log| ensures !StateOf(log[..i]).Terminal() {
      assert Enabled(StateOf(log[..i]), log[i]);
    }
  }

  /** A terminal event ends its log. */
  lemma TerminalEventIsLast(log: seq<EventKind>, i: nat)
    requires Legal(log) && i < |log| && log[i].Terminal()
    ensures i == |log| - 1
  {
    LiveBeforeEveryEvent(log);
    assert log[..i + 1][i] == log[i];
  }

  /** A log that reached a terminal state cannot be extended. */
  lemma TerminalIsAbsorbing(log: seq<EventKind>, n: nat)
    requires Legal(log) && n <= |log| && StateOf(log[..n]).Terminal()
    ensures n == |log|
  {
    LiveBeforeEveryEvent(log);
  }

  /** After a cancel request at most one event follows, and it is Cancelled or Failed. */
  lemma NothingButTheEndFollowsCancel(log: seq<EventKind>, i: nat)
    requires Legal(log) && i < |log| && log[i].CancelRequestedEvent?
    ensures |log| <= i + 2
    ensures i + 1 < |log| ==> log[i + 1].CancelledEvent? || log[i + 1].FailedEvent?
    ensures forall j | 0 <= j < |log| && log[j].CancelRequestedEvent? :: j == i
  {
    assert log[..i + 1][i] == log[i];
    if i + 1 < |log| {
      assert Enabled(StateOf(log[..i + 1]), log[i + 1]);
      TerminalEventIsLast(log, i + 1);
    }
    assert Enabled(StateOf(log[..i]), log[i]);
    forall j | 0 <= j < i ensures !log[j].CancelRequestedEvent? {
      RankNeverFalls(log, j + 1, i);
      assert log[..j + 1][j] == log[j];
    }
  }
}
