/**
 The worker of one task with nobody else at the store: `run_driver`, the handler of a
 driver event and `fail_active`, as they update the store
 (crates/adapter-core/src/lib.rs, lines 463 to 716). The driver refuses the task,
 or sends a finite list of events and then closes its stream or keeps it open until the
 time is up. The worker is proved to write exactly
 what `Outcome` says, and `Outcome` is then characterised on its own.
 */
module Worker {
  import opened TaskModel
  import opened Lifecycle
  import opened CoreErrors
  import Store = MemoryStore

  /** What `fail_active` writes: nothing to a task that has already ended. */
  function Ending(state: TaskState, error: CoreError): seq<EventKind> {
    if state.Terminal() then [] else [FailedEvent(Failure(error))]
  }

  function Refusal(state: TaskState): CoreError {
    StoreFailure(InvalidTransition("current=" + state.Name()))
  }

  /** What one driver event comes to in a given state. */
  datatype Response = Skip | End(error: CoreError) | Put(kind: EventKind)

  function Respond(state: TaskState, event: DriverEvent): Response {
    if event.DriverAccepted? then Skip
    else if event.DriverFailed? then End(DriverError(event.error.message))
    else if state in Allowed(Drive(event)) then Put(KindOf(Drive(event)))
    else End(Refusal(state))
  }

  /** A driver, and why nothing more comes from it after its last event. */
  datatype Driver = Refuses(error: string) | Closes(events: seq<DriverEvent>) | Hangs(events: seq<DriverEvent>)
  {
    function Sent(): seq<DriverEvent> {
      if Refuses? then [] else events
    }

    function Stop(): CoreError {
      match this
      case Refuses(error) => DriverError(error)
      case Closes(_) => STREAM_CLOSED
      case Hangs(_) => Timeout
    }
  }

  /** Everything the worker appends for a task in `state` and a driver that sends `events` and stops for `stop`. */
  function Outcome(state: TaskState, events: seq<DriverEvent>, stop: CoreError): seq<EventKind>
    decreases |events|
  {
    if events == [] then Ending(state, stop)
    else
      match Respond(state, events[0])
      case Skip => if state.Terminal() then [] else Outcome(state, events[1..], stop)
      case End(error) => Ending(state, error)
      case Put(kind) =>
        if kind.Terminal() then [kind] else [kind] + Outcome(After(kind), events[1..], stop)
  }

  lemma OutcomeAt(state: TaskState, events: seq<DriverEvent>, stop: CoreError, i: nat)
    requires i < |events|
    ensures var response := Respond(state, events[i]);
            Outcome(state, events[i..], stop) ==
              if response.Skip? then (if state.Terminal() then [] else Outcome(state, events[i + 1..], stop))
              else if response.End? then Ending(state, response.error)
              else if response.kind.Terminal() then [response.kind]
              else [response.kind] + Outcome(After(response.kind), events[i + 1..], stop)
  {
    assert events[i..][1..] == events[i + 1..];
  }

  /** The effect of handling one driver event on log and state. */
  ghost predicate Handled(event: DriverEvent, log: seq<EventKind>, state: TaskState,
                          log': seq<EventKind>, state': TaskState, r: Result<(), CoreError>) {
    var response := Respond(state, event);
    if response.Skip? then r.Ok? && log' == log && state' == state
    else if response.Put? then r.Ok? && log' == log + [response.kind] && state' == After(response.kind)
    else if event.DriverFailed? then r.Ok? && log' == log + Ending(state, response.error) && state'.Terminal()
    else r == Err(response.error) && log' == log && state' == state
  }

  lemma PutFirst(log: seq<EventKind>, kind: EventKind, rest: seq<EventKind>)
    ensures log + ([kind] + rest) == log + [kind] + rest
  {
  }

  /** Handling one event keeps the log plus what is still to come. */
  lemma OneTurn(events: seq<DriverEvent>, stop: CoreError, i: nat, log: seq<EventKind>, state: TaskState,
                log': seq<EventKind>, state': TaskState, r: Result<(), CoreError>)
    requires i < |events| && Handled(events[i], log, state, log', state', r)
    ensures log + Outcome(state, events[i..], stop) ==
            if r.Err? then log' + Ending(state', r.error)
            else if state'.Terminal() then log'
            else log' + Outcome(state', events[i + 1..], stop)
  {
    OutcomeAt(state, events, stop, i);
    var response := Respond(state, events[i]);
    if response.Put? {
      PutFirst(log, response.kind, Outcome(After(response.kind), events[i + 1..], stop));
    } else if response.Skip? && state.Terminal() {
      assert log + [] == log;
    }
  }

  lemma PutIsLegal(log: seq<EventKind>, event: DriverEvent)
    requires Legal(log) && Respond(StateOf(log), event).Put?
    ensures Legal(log + [Respond(StateOf(log), event).kind])
    ensures !StateOf(log).Terminal()
  {
    OperationIsEnabled(Drive(event), StateOf(log));
    LegalSnoc(log, KindOf(Drive(event)));
  }

  lemma FailureIsAllowed(state: TaskState, error: CoreError)
    requires !state.Terminal()
    ensures var failure := Failure(error);
            && state in Allowed(Fail(failure)) && KindOf(Fail(failure)) == FailedEvent(failure)
            && After(FailedEvent(failure)).Terminal()
  {
  }

  class AdapterCore {
    const store: Store.MemoryTaskStore

    constructor (store: Store.MemoryTaskStore)
      ensures this.store == store
    {
      this.store := store;
    }

    ghost predicate Knows(id: TaskId)
      reads store
    {
      && id in store.tasks && id in store.events
      && store.tasks[id].taskId == id
      && Store.Sourced(store.tasks[id], store.events[id])
    }

    ghost function Log(id: TaskId): seq<EventKind>
      requires Knows(id)
      reads store
    {
      Kinds(store.events[id])
    }

    /** Reads the task; a missing one is an error of the store. */
    method Snapshot(id: TaskId) returns (r: Result<TaskSnapshot, CoreError>)
      ensures r == if id in store.tasks then Ok(store.tasks[id]) else Err(StoreFailure(NotFound(id)))
    {
      var found := store.GetSnapshot(id);
      r := if found.Some? then Ok(found.value) else Err(StoreFailure(NotFound(id)));
    }

    /** The compare-and-set with a snapshot that is still current. */
    method Transition(snapshot: TaskSnapshot, op: Op) returns (r: Result<TaskSnapshot, CoreError>)
      requires Knows(snapshot.taskId) && snapshot == store.tasks[snapshot.taskId] && op.Writes()
      modifies store`tasks, store`events
      ensures Knows(snapshot.taskId)
      ensures r.Ok? <==> snapshot.state in Allowed(op)
      ensures r.Ok? ==> Log(snapshot.taskId) == old(Log(snapshot.taskId)) + [KindOf(op)]
      ensures r.Err? ==> store.View() == old(store.View()) && r.error == Refusal(snapshot.state)
      ensures store.tasks[snapshot.taskId].state ==
              if r.Ok? then After(KindOf(op)) else snapshot.state
      ensures forall u | u in old(store.tasks) && u != snapshot.taskId ::
                u in store.tasks && store.tasks[u] == old(store.tasks)[u]
    {
      var now: Time := *;
      ghost var before := store.View();
      var applied := store.AppendEventAndTransition(Request(op, snapshot), now);
      if applied.Err? {
        return Err(StoreFailure(applied.error));
      }
      NextStateIsAfter(op, snapshot.state);
      OperationIsEnabled(op, snapshot.state);
      AppendSourced(before, op, snapshot, now);
      r := Ok(applied.value.snapshot);
    }

    method FailActive(id: TaskId, error: CoreError) returns (r: Result<(), CoreError>)
      requires Knows(id)
      modifies store`tasks, store`events
      ensures Knows(id) && r.Ok?
      ensures Log(id) == old(Log(id)) + Ending(old(store.tasks[id].state), error)
      ensures store.tasks[id].state.Terminal()
    {
      var snapshot := Snapshot(id);
      if snapshot.value.state.Terminal() {
        return Ok(());
      }
      FailureIsAllowed(snapshot.value.state, error);
      var written := Transition(snapshot.value, Fail(Failure(error)));
      r := Ok(());
    }

    method ApplyDriverEvent(id: TaskId, event: DriverEvent) returns (r: Result<(), CoreError>)
      requires Knows(id)
      modifies store`tasks, store`events
      ensures Knows(id)
      ensures Handled(event, old(Log(id)), old(store.tasks[id].state), Log(id), store.tasks[id].state, r)
    {
      var snapshot := Snapshot(id);
      if event.DriverAccepted? {
        return Ok(());
      }
      if event.DriverFailed? {
        r := FailActive(id, DriverError(event.error.message));
        return;
      }
      var written := Transition(snapshot.value, Drive(event));
      if written.Err? {
        return Err(written.error);
      }
      r := Ok(());
    }

    /** The loop over the driver's events; an error, or `None` for running out of time, is left for the caller. */
    method RunDriver(id: TaskId, driver: Driver) returns (r: Option<Result<(), CoreError>>)
      requires Knows(id)
      modifies store`tasks, store`events
      ensures Knows(id)
      ensures old(Log(id)) + Outcome(old(store.tasks[id].state), driver.Sent(), driver.Stop()) ==
              if r.Some? && r.value.Ok? then Log(id)
              else Log(id) + Ending(store.tasks[id].state, if r.None? then Timeout else r.value.error)
      ensures r.Some? && r.value.Ok? ==> store.tasks[id].state.Terminal()
      ensures r.None? ==> driver.Hangs?
    {
      ghost var goal := Log(id) + Outcome(store.tasks[id].state, driver.Sent(), driver.Stop());
      if driver.Refuses? {
        return Some(Err(DriverError(driver.error)));
      }
      var events := driver.events;
      var i := 0;
      assert events[0..] == events;
      while i < |events|
        invariant 0 <= i <= |events| && Knows(id)
        invariant goal == Log(id) + Outcome(store.tasks[id].state, events[i..], driver.Stop())
      {
        ghost var log, state := Log(id), store.tasks[id].state;
        var applied := ApplyDriverEvent(id, events[i]);
        OneTurn(events, driver.Stop(), i, log, state, Log(id), store.tasks[id].state, applied);
        if applied.Err? {
          return Some(Err(applied.error));
        }
        var snapshot := Snapshot(id);
        if snapshot.value.state.Terminal() {
          return Some(Ok(()));
        }
        i := i + 1;
      }
      if driver.Hangs? {
        return None;
      }
      var snapshot := Snapshot(id);
      if !snapshot.value.state.Terminal() {
        return Some(Err(STREAM_CLOSED));
      }
      r := Some(Ok(()));
    }

    /** The spawned worker: run the driver for as long as it may, then record its error or the timeout. */
    method Work(id: TaskId, driver: Driver)
      requires Knows(id)
      modifies store`tasks, store`events
      ensures Knows(id)
      ensures Log(id) == old(Log(id)) + Outcome(old(store.tasks[id].state), driver.Sent(), driver.Stop())
      ensures store.tasks[id].state.Terminal()
    {
      var run := RunDriver(id, driver);
      if run.None? {
        var recorded := FailActive(id, Timeout);
      } else if run.value.Err? {
        var recorded := FailActive(id, run.value.error);
      }
    }
  }

  lemma AppendSourced(s: Store.State, op: Op, snapshot: TaskSnapshot, now: Time)
    requires op.Writes() && snapshot.taskId in s.tasks && snapshot == s.tasks[snapshot.taskId]
    requires snapshot.taskId in s.events && Store.Sourced(snapshot, s.events[snapshot.taskId])
    requires Store.Append(s, Request(op, snapshot), now).1.Ok?
    ensures var s' := Store.Append(s, Request(op, snapshot), now).0;
            var id := snapshot.taskId;
            && id in s'.tasks && id in s'.events
            && s'.tasks[id].taskId == id
            && Store.Sourced(s'.tasks[id], s'.events[id])
            && Kinds(s'.events[id]) == Kinds(s.events[id]) + [KindOf(op)]
            && s'.tasks[id].state == After(KindOf(op))
  {
    NextStateIsAfter(op, snapshot.state);
    OperationIsEnabled(op, snapshot.state);
    Store.AppendKeepsSourced(s, Request(op, snapshot), now);
  }

  // ---------------------------------------------------------------- what the outcome is

  /** A log that is legal and has ended. */
  ghost predicate Complete(log: seq<EventKind>) {
    Legal(log) && StateOf(log).Terminal()
  }

  /** Whatever the driver sends, the worker's log ends in a terminal state and stays legal. */
  lemma {:induction false} OutcomeEndsTheTask(log: seq<EventKind>, events: seq<DriverEvent>, stop: CoreError)
    requires Legal(log)
    ensures Complete(log + Outcome(StateOf(log), events, stop))
    decreases |events|
  {
    var state := StateOf(log);
    if events == [] {
      EndingEnds(log, stop);
    } else {
      match Respond(state, events[0])
      case Skip =>
        if state.Terminal() {
          assert log + [] == log;
        } else {
          OutcomeEndsTheTask(log, events[1..], stop);
        }
      case End(error) => EndingEnds(log, error);
      case Put(kind) =>
        PutIsLegal(log, events[0]);
        if kind.Terminal() {
          PutEnds(log, kind, events, stop);
        } else {
          OutcomeEndsTheTask(log + [kind], events[1..], stop);
          PutThenRest(log, kind, events, stop);
        }
    }
  }

  lemma PutEnds(log: seq<EventKind>, kind: EventKind, events: seq<DriverEvent>, stop: CoreError)
    requires events != [] && Respond(StateOf(log), events[0]) == Put(kind) && kind.Terminal()
    requires Legal(log + [kind])
    ensures Complete(log + Outcome(StateOf(log), events, stop))
  {
    assert Outcome(StateOf(log), events, stop) == [kind];
    assert StateOf(log + [kind]) == After(kind);
  }

  lemma PutThenRest(log: seq<EventKind>, kind: EventKind, events: seq<DriverEvent>, stop: CoreError)
    requires events != [] && Respond(StateOf(log), events[0]) == Put(kind) && !kind.Terminal()
    ensures log + Outcome(StateOf(log), events, stop) == log + [kind] + Outcome(StateOf(log + [kind]), events[1..], stop)
  {
    var tail := Outcome(After(kind), events[1..], stop);
    assert log + ([kind] + tail) == log + [kind] + tail;
  }

  lemma EndingEnds(log: seq<EventKind>, error: CoreError)
    requires Legal(log)
    ensures Complete(log + Ending(StateOf(log), error))
  {
    if StateOf(log).Terminal() {
      assert log + [] == log;
    } else {
      LegalSnoc(log, FailedEvent(Failure(error)));
    }
  }

  /** The events a list of driver events asks for, each on its own. */
  function Writing(event: DriverEvent): seq<EventKind> {
    if event.DriverAccepted? || event.DriverFailed? then [] else [KindOf(Drive(event))]
  }

  function Written(events: seq<DriverEvent>): seq<EventKind> {
    if events == [] then [] else Writing(events[0]) + Written(events[1..])
  }

  function Last(state: TaskState, kinds: seq<EventKind>): TaskState {
    if kinds == [] then state else StateOf(kinds)
  }

  /** How the outcome follows from the first `n` driver events. */
  ghost predicate EndsAfter(state: TaskState, events: seq<DriverEvent>, stop: CoreError, n: nat) {
    && n <= |events|
    && var done := Written(events[..n]);
       var last := Last(state, done);
       || (last.Terminal() && Outcome(state, events, stop) == done)
       || (!last.Terminal() && n == |events| && Outcome(state, events, stop) == done + Ending(last, stop))
       || (!last.Terminal() && n < |events| && Respond(last, events[n]).End? &&
           Outcome(state, events, stop) == done + Ending(last, Respond(last, events[n]).error))
  }

  lemma WrittenCons(events: seq<DriverEvent>, k: nat)
    requires events != [] && k < |events|
    ensures Written(events[..k + 1]) == Writing(events[0]) + Written(events[1..][..k])
  {
    assert events[..k + 1][1..] == events[1..][..k];
  }

  lemma LastCons(state: TaskState, first: seq<EventKind>, rest: seq<EventKind>)
    ensures Last(state, first + rest) == Last(Last(state, first), rest)
  {
    if rest == [] {
      assert first + rest == first;
    }
  }

  lemma EndsAfterCons(state: TaskState, next: TaskState, events: seq<DriverEvent>, stop: CoreError, k: nat)
    requires events != [] && EndsAfter(next, events[1..], stop, k)
    requires Last(state, Writing(events[0])) == next
    requires Outcome(state, events, stop) == Writing(events[0]) + Outcome(next, events[1..], stop)
    ensures EndsAfter(state, events, stop, k + 1)
  {
    var rest := events[1..];
    var first, done := Writing(events[0]), Written(rest[..k]);
    var last := Last(next, done);
    WrittenCons(events, k);
    LastCons(state, first, done);
    if !last.Terminal() {
      var error := if k == |rest| then stop else Respond(last, rest[k]).error;
      assert first + (done + Ending(last, error)) == first + done + Ending(last, error);
    }
  }

  /**
   The outcome is what a prefix of the driver's events asks for, followed by nothing
   (the last of them ended the task) or by one Failed event: the driver stopped, it
   reported a failure, or the next event was not allowed where it came.
   */
  lemma {:induction false} OutcomeIsPrefixThenEnd(state: TaskState, events: seq<DriverEvent>, stop: CoreError)
    returns (n: nat)
    requires !state.Terminal()
    ensures EndsAfter(state, events, stop, n)
    decreases |events|
  {
    if events == [] || Respond(state, events[0]).End? {
      EndsAtOnce(state, events, stop);
      n := 0;
    } else if Respond(state, events[0]).Put? && Respond(state, events[0]).kind.Terminal() {
      EndsWithFirst(state, events, stop);
      n := 1;
    } else {
      var response := Respond(state, events[0]);
      var next := if response.Skip? then state else After(response.kind);
      var k := OutcomeIsPrefixThenEnd(next, events[1..], stop);
      EndsAfterCons(state, next, events, stop, k);
      n := k + 1;
    }
  }

  lemma EndsAtOnce(state: TaskState, events: seq<DriverEvent>, stop: CoreError)
    requires !state.Terminal() && (events == [] || Respond(state, events[0]).End?)
    ensures EndsAfter(state, events, stop, 0)
  {
    assert Written(events[..0]) == [];
  }

  lemma EndsWithFirst(state: TaskState, events: seq<DriverEvent>, stop: CoreError)
    requires !state.Terminal() && events != []
    requires Respond(state, events[0]).Put? && Respond(state, events[0]).kind.Terminal()
    ensures EndsAfter(state, events, stop, 1)
  {
    assert events[..1] == [events[0]];
    assert Written([events[0]]) == Writing(events[0]) + Written([events[0]][1..]);
    assert Written(events[..1]) == [Respond(state, events[0]).kind];
  }

  // ---------------------------------------------------------------- what the worker answers, spelled out

  /**
   Which messages end the driver loop, in terms of state and message alone: a reported
   failure, and any message that does not fit the state. `Accepted` never does; the others
   are recorded as the event of their name with what they carry.
   */
  lemma ResponsesByState(state: TaskState, event: DriverEvent)
    ensures var response := Respond(state, event);
            match event
            case DriverAccepted => response == Skip
            case DriverProgress(message, percent) =>
              if state == Accepted || state == Running then response == Put(ProgressEvent(message, percent))
              else response == End(StoreFailure(InvalidTransition("current=" + state.Name())))
            case DriverArtifact(artifact) =>
              if state == Accepted || state == Running || state == WaitingForInput
              then response == Put(ArtifactEvent(artifact))
              else response == End(StoreFailure(InvalidTransition("current=" + state.Name())))
            case DriverInputRequired(request) =>
              if state == Accepted || state == Running then response == Put(InputRequiredEvent(request))
              else response == End(StoreFailure(InvalidTransition("current=" + state.Name())))
            case DriverCompleted(output) =>
              if state == Accepted || state == Running || state == WaitingForInput
              then response == Put(CompletedEvent(output))
              else response == End(StoreFailure(InvalidTransition("current=" + state.Name())))
            case DriverFailed(error) => response == End(DriverError(error.message))
            case DriverCancelled =>
              if state == Accepted || state == Running || state == WaitingForInput || state == CancelRequested
              then response == Put(CancelledEvent)
              else response == End(StoreFailure(InvalidTransition("current=" + state.Name())))
  {
  }

  /** The failure a live task is left with, by what ended its worker; a task that has ended gets none. */
  lemma EndingsByReason(state: TaskState, message: string, other: TaskState)
    ensures state in [Completed, Failed, Cancelled] ==>
              Ending(state, Timeout) == Ending(state, STREAM_CLOSED) == Ending(state, DriverError(message)) == []
    ensures state !in [Completed, Failed, Cancelled] ==>
              && Ending(state, Timeout) == [FailedEvent(PublicError("timeout", "task timed out", false))]
              && Ending(state, STREAM_CLOSED) ==
                 [FailedEvent(PublicError("runtime_error",
                                          "driver error: " + "driver stream closed before terminal event", false))]
              && Ending(state, DriverError(message)) ==
                 [FailedEvent(PublicError("runtime_error", "driver error: " + message, false))]
              && Ending(state, Refusal(other)) ==
                 [FailedEvent(PublicError("runtime_error",
                                          "store error: " + ("invalid task transition: " + ("current=" + other.Name())),
                                          false))]
              && Ending(state, StoreFailure(Conflict)) ==
                 [FailedEvent(PublicError("runtime_error", "store error: " + "concurrent mutation conflict", false))]
              && Ending(state, StoreFailure(Unavailable(message))) ==
                 [FailedEvent(PublicError("runtime_error", "store error: " + ("storage unavailable: " + message), false))]
  {
  }

  // ---------------------------------------------------------------- the outcome, message by message

  /** How far a worker has come: still going, with the state the task is in, or done with it. */
  datatype Stage = Going(written: seq<EventKind>, state: TaskState) | Gone(written: seq<EventKind>)

  function Handle(stage: Stage, event: DriverEvent): Stage {
    match stage
    case Gone(_) => stage
    case Going(written, state) =>
      match Respond(state, event)
      case Skip => if state.Terminal() then Gone(written) else stage
      case End(error) => Gone(written + Ending(state, error))
      case Put(kind) =>
        if kind.Terminal() then Gone(written + [kind]) else Going(written + [kind], After(kind))
  }

  function HandleAll(stage: Stage, events: seq<DriverEvent>): Stage {
    if events == [] then stage else Handle(HandleAll(stage, events[..|events| - 1]), events[|events| - 1])
  }

  function Conclude(stage: Stage, stop: CoreError): seq<EventKind> {
    match stage
    case Going(written, state) => written + Ending(state, stop)
    case Gone(written) => written
  }

  lemma {:induction false} HandleFirst(stage: Stage, events: seq<DriverEvent>)
    requires events != []
    ensures HandleAll(stage, events) == HandleAll(Handle(stage, events[0]), events[1..])
  {
    var n := |events| - 1;
    if n > 0 {
      HandleFirst(stage, events[..n]);
      assert events[..n][1..] == events[1..][..n - 1];
    }
  }

  lemma {:induction false} GoneStays(written: seq<EventKind>, events: seq<DriverEvent>)
    ensures HandleAll(Gone(written), events) == Gone(written)
  {
    if events != [] {
      GoneStays(written, events[..|events| - 1]);
    }
  }

  /** Handling the messages one by one and then stopping comes to the outcome. */
  lemma {:induction false} OutcomeByMessages(written: seq<EventKind>, state: TaskState, events: seq<DriverEvent>,
                                             stop: CoreError)
    ensures Conclude(HandleAll(Going(written, state), events), stop) == written + Outcome(state, events, stop)
    decreases |events|
  {
    if events != [] {
      HandleFirst(Going(written, state), events);
      var rest := events[1..];
      match Respond(state, events[0])
      case Skip =>
        if state.Terminal() {
          GoneStays(written, rest);
          assert written + [] == written;
        } else {
          OutcomeByMessages(written, state, rest, stop);
        }
      case End(error) => GoneStays(written + Ending(state, error), rest);
      case Put(kind) =>
        if kind.Terminal() {
          GoneStays(written + [kind], rest);
        } else {
          OutcomeByMessages(written + [kind], After(kind), rest, stop);
          PutFirst(written, kind, Outcome(After(kind), rest, stop));
        }
    }
  }

  /** A recorded message leaves the task in a terminal state exactly when its event is terminal. */
  lemma PutTerminal(state: TaskState, event: DriverEvent)
    requires Respond(state, event).Put?
    ensures After(Respond(state, event).kind).Terminal() <==> Respond(state, event).kind.Terminal()
  {
  }
}
