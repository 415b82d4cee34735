/**
 From the driver's messages to the task's log: which event each message is recorded as, one
 message at a time and over whole runs, whatever other calls do to the task meanwhile
 (crates/adapter-core/src/lib.rs, lines 559 to 692).
 */
module CoreDriver {
  import opened TaskModel
  import opened Lifecycle
  import opened CoreErrors
  import opened Core
  import opened CoreMoves
  import opened CoreHistory
  import opened CoreOwners
  import opened CoreTheorems
  import opened CoreSteps
  import Store = MemoryStore

  // ---------------------------------------------------------------- one message

  /** The states in which a message of the driver may come. */
  predicate Welcome(state: TaskState, event: DriverEvent) {
    match event
    case DriverAccepted => true
    case DriverProgress(_, _) => state == Accepted || state == Running
    case DriverArtifact(_) => state == Accepted || state == Running || state == WaitingForInput
    case DriverInputRequired(_) => state == Accepted || state == Running
    case DriverCompleted(_) => state == Accepted || state == Running || state == WaitingForInput
    case DriverFailed(_) => state != Completed && state != Failed && state != Cancelled
    case DriverCancelled => state == Accepted || state == Running || state == WaitingForInput || state == CancelRequested
  }

  /** What a welcome message leaves on the task. */
  ghost predicate RecordedAs(l: Ledger, l': Ledger, now: Time, t: TaskId, event: DriverEvent) {
    match event
    case DriverAccepted => l'.store == l.store
    case DriverProgress(message, percent) => Appended(l, l', now, t, ProgressEvent(message, percent), Running)
    case DriverArtifact(artifact) => Appended(l, l', now, t, ArtifactEvent(artifact), Running)
    case DriverInputRequired(request) => Appended(l, l', now, t, InputRequiredEvent(request), WaitingForInput)
    case DriverCompleted(output) => Appended(l, l', now, t, CompletedEvent(output), Completed)
    case DriverFailed(error) =>
      Appended(l, l', now, t, FailedEvent(PublicError("runtime_error", "driver error: " + error.message, false)), Failed)
    case DriverCancelled => Appended(l, l', now, t, CancelledEvent, Cancelled)
  }

  /** How many steps of the worker handle a message. */
  function Effort(event: DriverEvent): nat {
    if event.DriverAccepted? then 1 else if event.DriverFailed? then 3 else 2
  }

  /** The message comes, and the worker takes `n` steps. */
  function Handling(schedule: seq<Action>, p: ProcId, event: DriverEvent, env: Env, n: nat): seq<Action> {
    if n == 0 then schedule + [Advance(p, Env(false, Yielded(event)))]
    else Handling(schedule, p, event, env, n - 1) + [Advance(p, env)]
  }

  /** The process is at `pc` and nobody has touched the store. */
  ghost predicate Reached(s: Sys, s': Sys, p: ProcId, pc: Pc)
    requires p in s.procs
  {
    s' == s.(procs := s.procs[p := s.procs[p].(pc := pc)])
  }

  lemma MessageArrives(c: Config, s: Sys, p: ProcId, event: DriverEvent)
    requires p in s.procs && s.procs[p].role.Invocation? && s.procs[p].pc == Receiving
    ensures Reached(s, Step(c, s, Advance(p, Env(false, Yielded(event)))), p, Applying(event))
  {
  }

  lemma MessageIsTaken(c: Config, s: Sys, s': Sys, p: ProcId, event: DriverEvent, env: Env, t: TaskId)
    requires p in s.procs && s.procs[p].role.Invocation? && s.procs[p].task == t && !env.fault
    requires t in s.ledger.store.tasks && Reached(s, s', p, Applying(event))
    ensures Reached(s, Step(c, s', Advance(p, env)), p,
                    if event.DriverAccepted? then Rechecking
                    else if event.DriverFailed? then FailRead(Handler, DriverError(event.error.message))
                    else Applied(event, s.ledger.store.tasks[t]))
  {
  }

  lemma MessageIsWritten(c: Config, s: Sys, s': Sys, p: ProcId, event: DriverEvent, env: Env, seen: TaskSnapshot)
    requires Recorded(s.ledger, s.now) && p in s.procs && s.procs[p].role.Invocation? && !env.fault
    requires s.procs[p].task in s.ledger.store.tasks && seen == s.ledger.store.tasks[s.procs[p].task]
    requires Drive(event).Writes() && seen.state in Allowed(Drive(event)) && Reached(s, s', p, Applied(event, seen))
    ensures var s'' := Step(c, s', Advance(p, env));
            && Appended(s.ledger, s''.ledger, s.now, s.procs[p].task, KindOf(Drive(event)), After(KindOf(Drive(event))))
            && p in s''.procs && s''.procs[p] == s.procs[p].(pc := Rechecking)
  {
    CurrentState(s.ledger, s.now, s.procs[p].task);
    CurrentVerdict(s.ledger, s.now, Drive(event), seen, env);
    AppliedDecides(c, s', s'.procs[p], env);
    WriteStep(c, s', p, env, Drive(event), seen, Rechecking);
    WriteAppends(s.ledger, s.now, p, Drive(event), seen);
  }

  lemma AppliedDecides(c: Config, s: Sys, pr: Proc, env: Env)
    requires pr.role.Invocation? && pr.pc.Applied? && Drive(pr.pc.event).Writes()
    ensures var verdict := Verdict(s.ledger.store, s.now, Drive(pr.pc.event), pr.pc.seen, env);
            Decide(c, s, pr, env) ==
            if verdict.None? then Write(Drive(pr.pc.event), pr.pc.seen, Rechecking)
            else Goto(FailRead(Exit, verdict.value))
  {
  }

  lemma FailureIsRead(c: Config, s: Sys, s': Sys, p: ProcId, env: Env, error: CoreError, t: TaskId)
    requires p in s.procs && s.procs[p].role.Invocation? && s.procs[p].task == t && !env.fault
    requires t in s.ledger.store.tasks && !s.ledger.store.tasks[t].state.Terminal()
    requires Reached(s, s', p, FailRead(Handler, error))
    ensures Reached(s, Step(c, s', Advance(p, env)), p, FailWrite(Handler, error, s.ledger.store.tasks[t]))
  {
  }

  lemma FailureIsWritten(c: Config, s: Sys, s': Sys, p: ProcId, env: Env, error: CoreError, seen: TaskSnapshot)
    requires Recorded(s.ledger, s.now) && p in s.procs && s.procs[p].role.Invocation? && !env.fault
    requires s.procs[p].task in s.ledger.store.tasks && seen == s.ledger.store.tasks[s.procs[p].task]
    requires !seen.state.Terminal() && Reached(s, s', p, FailWrite(Handler, error, seen))
    ensures var s'' := Step(c, s', Advance(p, env));
            && Appended(s.ledger, s''.ledger, s.now, s.procs[p].task, FailedEvent(Failure(error)), Failed)
            && p in s''.procs && s''.procs[p] == s.procs[p].(pc := Rechecking)
  {
    CurrentState(s.ledger, s.now, s.procs[p].task);
    FailureAppends(s.ledger, s.now, p, error, seen, env);
    FailDecides(c, s', s'.procs[p], env);
    WriteStep(c, s', p, env, Fail(Failure(error)), seen, Rechecking);
  }

  lemma FailDecides(c: Config, s: Sys, pr: Proc, env: Env)
    requires pr.role.Invocation? && pr.pc.FailWrite? && pr.pc.site.Handler?
    requires Verdict(s.ledger.store, s.now, Fail(Failure(pr.pc.error)), pr.pc.seen, env).None?
    ensures Decide(c, s, pr, env) == Write(Fail(Failure(pr.pc.error)), pr.pc.seen, Rechecking)
  {
  }

  lemma WelcomeIsAllowed(state: TaskState, event: DriverEvent)
    requires Drive(event).Writes()
    ensures Welcome(state, event) <==> state in Allowed(Drive(event))
  {
  }

  lemma WrittenIsRecorded(l: Ledger, l': Ledger, now: Time, t: TaskId, event: DriverEvent)
    requires Drive(event).Writes() && Appended(l, l', now, t, KindOf(Drive(event)), After(KindOf(Drive(event))))
    ensures RecordedAs(l, l', now, t, event)
  {
  }

  lemma FailedIsRecorded(l: Ledger, l': Ledger, now: Time, t: TaskId, event: DriverEvent)
    requires event.DriverFailed?
    requires Appended(l, l', now, t, FailedEvent(Failure(DriverError(event.error.message))), Failed)
    ensures RecordedAs(l, l', now, t, event)
  {
  }

  lemma MessageTaken(c: Config, schedule: seq<Action>, p: ProcId, event: DriverEvent, env: Env, t: TaskId)
    requires p in Run(c, schedule).procs && Run(c, schedule).procs[p].role.Invocation? && !env.fault
    requires Run(c, schedule).procs[p].pc == Receiving && Run(c, schedule).procs[p].task == t
    requires t in Run(c, schedule).ledger.store.tasks
    ensures var s := Run(c, schedule);
            Reached(s, Run(c, Handling(schedule, p, event, env, 0) + [Advance(p, env)]), p,
                    if event.DriverAccepted? then Rechecking
                    else if event.DriverFailed? then FailRead(Handler, DriverError(event.error.message))
                    else Applied(event, s.ledger.store.tasks[t]))
  {
    var s := Run(c, schedule);
    var told := schedule + [Advance(p, Env(false, Yielded(event)))];
    RunIsStep(c, schedule, Advance(p, Env(false, Yielded(event))));
    MessageArrives(c, s, p, event);
    RunIsStep(c, told, Advance(p, env));
    MessageIsTaken(c, s, Run(c, told), p, event, env, t);
  }

  /** The message has been dealt with: it is on record and the worker looks whether the task has ended. */
  ghost predicate DealtWith(s: Sys, s': Sys, p: ProcId, event: DriverEvent)
    requires p in s.procs
  {
    && RecordedAs(s.ledger, s'.ledger, s.now, s.procs[p].task, event)
    && p in s'.procs && s'.procs[p] == s.procs[p].(pc := Rechecking)
  }

  /**
   From every reachable state in which a worker waits for its driver, and for every message
   that is welcome in the state the task is in: undisturbed, the worker records the message
   as the one event it stands for, with all that it carries, and nothing else.
   */
  lemma MessagesAreRecorded(c: Config, schedule: seq<Action>, p: ProcId, event: DriverEvent, env: Env)
    requires p in Run(c, schedule).procs && Run(c, schedule).procs[p].role.Invocation? && !env.fault
    requires Run(c, schedule).procs[p].pc == Receiving
    requires var s := Run(c, schedule);
             s.procs[p].task in s.ledger.store.tasks && Welcome(s.ledger.store.tasks[s.procs[p].task].state, event)
    ensures DealtWith(Run(c, schedule), Run(c, Handling(schedule, p, event, env, Effort(event))), p, event)
  {
    var s, t := Run(c, schedule), Run(c, schedule).procs[p].task;
    RecordedInRun(c, schedule);
    MessageTaken(c, schedule, p, event, env, t);
    var taken := Handling(schedule, p, event, env, 1);
    assert taken == Handling(schedule, p, event, env, 0) + [Advance(p, env)];
    if event.DriverFailed? {
      FailedMessage(c, schedule, taken, p, event, env, t);
    } else if !event.DriverAccepted? {
      WelcomeIsAllowed(s.ledger.store.tasks[t].state, event);
      MessageIsWritten(c, s, Run(c, taken), p, event, env, s.ledger.store.tasks[t]);
      RunIsStep(c, taken, Advance(p, env));
      WrittenIsRecorded(s.ledger, Run(c, taken + [Advance(p, env)]).ledger, s.now, t, event);
    }
  }

  lemma FailedMessage(c: Config, schedule: seq<Action>, taken: seq<Action>, p: ProcId, event: DriverEvent, env: Env,
                      t: TaskId)
    requires p in Run(c, schedule).procs && Run(c, schedule).procs[p].role.Invocation? && !env.fault
    requires Recorded(Run(c, schedule).ledger, Run(c, schedule).now) && Run(c, schedule).procs[p].task == t
    requires t in Run(c, schedule).ledger.store.tasks && !Run(c, schedule).ledger.store.tasks[t].state.Terminal()
    requires event.DriverFailed?
    requires Reached(Run(c, schedule), Run(c, taken), p, FailRead(Handler, DriverError(event.error.message)))
    ensures DealtWith(Run(c, schedule), Run(c, taken + [Advance(p, env)] + [Advance(p, env)]), p, event)
  {
    var s, error := Run(c, schedule), DriverError(event.error.message);
    var read := taken + [Advance(p, env)];
    FailureIsRead(c, s, Run(c, taken), p, env, error, t);
    RunIsStep(c, taken, Advance(p, env));
    FailureIsWritten(c, s, Run(c, read), p, env, error, s.ledger.store.tasks[t]);
    RunIsStep(c, read, Advance(p, env));
    FailedIsRecorded(s.ledger, Run(c, read + [Advance(p, env)]).ledger, s.now, t, event);
  }

  // ---------------------------------------------------------------- whole runs

  /** One line of a task's record: who wrote it and what it says. */
  datatype Entry = Entry(author: ProcId, kind: EventKind)

  function Entries(log: seq<CoreEvent>, commits: seq<Commit>): seq<Entry>
    requires |log| == |commits|
  {
    seq(|log|, i requires 0 <= i < |log| => Entry(commits[i].author, log[i].kind))
  }

  ghost function EntriesOf(l: Ledger, t: TaskId): seq<Entry> {
    if t in l.store.events && t in l.commits && |l.store.events[t]| == |l.commits[t]|
    then Entries(l.store.events[t], l.commits[t]) else []
  }

  /** What a process has recorded of its driver's messages: all it wrote but the acceptance and failures. */
  function Told(entries: seq<Entry>, p: ProcId): seq<EventKind> {
    if entries == [] then []
    else
      var n := |entries| - 1;
      Told(entries[..n], p) +
      if entries[n].author == p && !entries[n].kind.AcceptedEvent? && !entries[n].kind.FailedEvent?
      then [entries[n].kind] else []
  }

  /** The events messages stand for, in their order. */
  function Spell(event: DriverEvent): seq<EventKind> {
    match event
    case DriverAccepted => []
    case DriverProgress(message, percent) => [ProgressEvent(message, percent)]
    case DriverArtifact(artifact) => [ArtifactEvent(artifact)]
    case DriverInputRequired(request) => [InputRequiredEvent(request)]
    case DriverCompleted(output) => [CompletedEvent(output)]
    case DriverFailed(_) => []
    case DriverCancelled => [CancelledEvent]
  }

  function Spelled(events: seq<DriverEvent>): seq<EventKind> {
    if events == [] then [] else Spelled(events[..|events| - 1]) + Spell(events[|events| - 1])
  }

  lemma SpelledSnoc(events: seq<DriverEvent>, event: DriverEvent)
    ensures Spelled(events + [event]) == Spelled(events) + Spell(event)
  {
    assert (events + [event])[..|events|] == events;
  }

  /** The message an action brings to the worker `p`, if it waits for one. */
  function Message(s: Sys, a: Action, p: ProcId): seq<DriverEvent> {
    if a.Advance? && a.id == p && p in s.procs && s.procs[p].pc == Receiving && a.env.driver.Yielded?
    then [a.env.driver.event] else []
  }

  /** The messages yielded to `p` by the first `n` actions. */
  ghost function Messages(c: Config, schedule: seq<Action>, p: ProcId, n: nat): seq<DriverEvent>
    requires n <= |schedule|
  {
    if n == 0 then []
    else Messages(c, schedule, p, n - 1) + Message(Run(c, schedule[..n - 1]), schedule[n - 1], p)
  }

  ghost predicate WholeTold(told: seq<EventKind>, heard: seq<DriverEvent>) {
    told == Spelled(heard)
  }

  /** The last message has not been recorded. */
  ghost predicate AllButLastTold(told: seq<EventKind>, heard: seq<DriverEvent>) {
    heard != [] && told == Spelled(heard[..|heard| - 1])
  }

  /** What a process has recorded of the messages it heard, by its program point. */
  ghost predicate Narrated(pc: Pc, told: seq<EventKind>, heard: seq<DriverEvent>) {
    match pc
    case Applying(event) => AllButLastTold(told, heard) && heard[|heard| - 1] == event
    case Applied(event, _) => AllButLastTold(told, heard) && heard[|heard| - 1] == event
    case Receiving => WholeTold(told, heard)
    case Rechecking => WholeTold(told, heard)
    case FinalCheck => WholeTold(told, heard)
    case FailRead(site, _) =>
      (match site
       case Rejection => told == [] && heard == []
       case Handler => WholeTold(told, heard)
       case Exit => WholeTold(told, heard) || AllButLastTold(told, heard))
    case FailWrite(site, _, _) =>
      (match site
       case Rejection => told == [] && heard == []
       case Handler => WholeTold(told, heard)
       case Exit => WholeTold(told, heard) || AllButLastTold(told, heard))
    case Exiting(_) => WholeTold(told, heard) || AllButLastTold(told, heard)
    case Dropping(_, landing) =>
      if landing.ToEnd? then WholeTold(told, heard) || AllButLastTold(told, heard) else told == [] && heard == []
    case Returned(reply) =>
      if reply.Finished? then WholeTold(told, heard) || AllButLastTold(told, heard)
      else heard == [] && (pc.Owns() ==> told == [])
    case Creating => heard == []
    case _ => told == [] && heard == []
  }

  lemma HearsOne(heard: seq<DriverEvent>, event: DriverEvent, told: seq<EventKind>)
    requires WholeTold(told, heard)
    ensures AllButLastTold(told, heard + [event]) && (heard + [event])[|heard|] == event
  {
    assert (heard + [event])[..|heard|] == heard;
  }

  lemma DriverGotoNarrates(c: Config, s: Sys, pr: Proc, env: Env, told: seq<EventKind>, heard: seq<DriverEvent>)
    requires pr.role.Invocation? && pr.pc.Driving() && Narrated(pr.pc, told, heard)
    requires Decide(c, s, pr, env).Goto?
    ensures Narrated(Decide(c, s, pr, env).pc, told,
                     heard + if pr.pc.Receiving? && env.driver.Yielded? then [env.driver.event] else [])
  {
    if pr.pc.Receiving? && env.driver.Yielded? {
      HearsOne(heard, env.driver.event, told);
    } else {
      assert heard + [] == heard;
    }
  }

  lemma OtherGotoNarrates(c: Config, s: Sys, pr: Proc, env: Env, told: seq<EventKind>, heard: seq<DriverEvent>)
    requires pr.role.Invocation? && !pr.pc.Driving() && Typed(pr) && Narrated(pr.pc, told, heard)
    requires Decide(c, s, pr, env).Goto?
    ensures Narrated(Decide(c, s, pr, env).pc, told, heard)
  {
  }

  lemma ExpireNarrates(pr: Proc, told: seq<EventKind>, heard: seq<DriverEvent>, error: CoreError)
    requires pr.pc.InDriver() && Narrated(pr.pc, told, heard)
    ensures Narrated(FailRead(Exit, error), told, heard)
  {
    if pr.pc.Launching? {
      assert Spelled([]) == [];
    }
  }

  /** What a write adds to the record of messages. */
  function Tells(op: Op): seq<EventKind>
    requires op.Writes()
  {
    if KindOf(op).AcceptedEvent? || KindOf(op).FailedEvent? then [] else [KindOf(op)]
  }

  /** An invocation writes at three points of its program. */
  lemma WriteCases(c: Config, s: Sys, pr: Proc, env: Env, m: Move)
    requires pr.role.Invocation? && m == Decide(c, s, pr, env) && m.Write?
    ensures || (pr.pc.Accepting? && m.op == Accept && m.pc == Acquiring(QueueSlot))
            || (pr.pc.Applied? && m.op == Drive(pr.pc.event) && m.pc == Rechecking)
            || (pr.pc.FailWrite? && m.op.Fail? && m.pc == AfterFail(pr.pc.site, Settled, pr.pc.error))
  {
  }

  lemma DriveNarrates(event: DriverEvent, told: seq<EventKind>, heard: seq<DriverEvent>)
    requires Drive(event).Writes() && AllButLastTold(told, heard) && heard[|heard| - 1] == event
    ensures WholeTold(told + Tells(Drive(event)), heard)
  {
    SpelledSnoc(heard[..|heard| - 1], event);
    assert heard[..|heard| - 1] + [event] == heard;
    assert Tells(Drive(event)) == Spell(event);
  }

  lemma WriteNarrates(c: Config, s: Sys, pr: Proc, env: Env, told: seq<EventKind>, heard: seq<DriverEvent>, m: Move)
    requires pr.role.Invocation? && Narrated(pr.pc, told, heard)
    requires m == Decide(c, s, pr, env) && m.Write? && m.op.Writes()
    ensures Narrated(m.pc, told + Tells(m.op), heard)
  {
    WriteCases(c, s, pr, env, m);
    assert told + [] == told;
    if pr.pc.Applied? {
      DriveNarrates(pr.pc.event, told, heard);
    }
  }

  lemma QuietNarrates(c: Config, s: Sys, pr: Proc, env: Env, told: seq<EventKind>, heard: seq<DriverEvent>)
    requires pr.role.Invocation? && Typed(pr) && Narrated(pr.pc, told, heard)
    requires var m := Decide(c, s, pr, env); !m.Goto? && !m.Write? && !m.Open?
    ensures Narrated(ProcAfter(s.now, pr, Decide(c, s, pr, env)).pc, told, heard)
    ensures pr.pc.Receiving? ==> !env.driver.Yielded?
  {
  }

  // ---------------------------------------------------------------- the record under one step

  lemma EntriesSnoc(log: seq<CoreEvent>, commits: seq<Commit>, event: CoreEvent, entry: Commit)
    requires |log| == |commits|
    ensures Entries(log + [event], commits + [entry]) == Entries(log, commits) + [Entry(entry.author, event.kind)]
  {
  }

  lemma ToldSnoc(entries: seq<Entry>, entry: Entry, p: ProcId)
    ensures Told(entries + [entry], p) ==
            Told(entries, p) +
            if entry.author == p && !entry.kind.AcceptedEvent? && !entry.kind.FailedEvent? then [entry.kind] else []
  {
    assert (entries + [entry])[..|entries|] == entries;
  }

  lemma PutTells(l: Ledger, u: TaskId, snapshot: TaskSnapshot, event: CoreEvent, entry: Commit, t: TaskId, p: ProcId)
    requires t in l.store.events && t in l.commits && |l.store.events[t]| == |l.commits[t]|
    requires u in l.store.events && u in l.commits
    ensures var l' := Put(l, u, snapshot, l.store.events[u] + [event], l.commits[u] + [entry]);
            Told(EntriesOf(l', t), p) ==
            Told(EntriesOf(l, t), p) +
            if u == t && entry.author == p && !event.kind.AcceptedEvent? && !event.kind.FailedEvent? then [event.kind] else []
  {
    if u == t {
      EntriesSnoc(l.store.events[t], l.commits[t], event, entry);
      ToldSnoc(EntriesOf(l, t), Entry(entry.author, event.kind), p);
    }
  }

  lemma WriteTells(l: Ledger, now: Time, id: ProcId, pr: Proc, op: Op, t: TaskId, p: ProcId)
    requires Recorded(l, now) && SeenIsPast(l, pr) && pr.pc.Holds() && op.Writes()
    requires Store.Append(l.store, Request(op, pr.pc.seen), now).1.Ok? && t in l.store.tasks
    ensures Told(EntriesOf(WriteTo(l, now, id, op, pr.pc.seen), t), p) ==
            Told(EntriesOf(l, t), p) + if pr.task == t && id == p then Tells(op) else []
  {
    WriteIsPut(l, now, id, pr, op);
    CurrentState(l, now, t);
    PutTells(l, pr.task, Store.Bump(l.store.tasks[pr.task], After(KindOf(op)), now), EventOf(l, now, pr.task, op),
             Commit(id, op), t, p);
  }

  lemma OpenTellsNothing(l: Ledger, now: Time, id: ProcId, task: NewTask, t: TaskId)
    requires t != task.taskId && (task.callerId, task.idempotencyKey) !in l.store.idempotency
    ensures EntriesOf(OpenIn(l, now, id, task), t) == EntriesOf(l, t)
  {
  }

  lemma SoundParts(c: Config, s: Sys, pr: Proc, m: Move)
    requires Sound(c, s, pr, m)
    ensures m.Write? ==>
              && pr.pc.Holds() && m.seen == pr.pc.seen && m.op.Writes()
              && Store.Append(s.ledger.store, Request(m.op, pr.pc.seen), s.now).1.Ok?
    ensures m.Open? ==>
              pr.role.Invocation? && pr.pc.Creating? && (pr.role.caller, pr.role.key) !in s.ledger.store.idempotency
  {
  }

  /** What a move adds to the record of `p` on task `t`. */
  lemma MoveTells(c: Config, s: Sys, id: ProcId, pr: Proc, m: Move, t: TaskId, p: ProcId)
    requires Recorded(s.ledger, s.now) && SeenIsPast(s.ledger, pr) && Sound(c, s, pr, m) && t in s.ledger.store.tasks
    requires m.Open? ==> pr.task != t
    ensures m.Write? ==> m.op.Writes()
    ensures Told(EntriesOf(LedgerAfter(s, id, pr, m), t), p) ==
            Told(EntriesOf(s.ledger, t), p) + if m.Write? && pr.task == t && id == p then Tells(m.op) else []
  {
    var told := Told(EntriesOf(s.ledger, t), p);
    assert told + [] == told;
    SoundParts(c, s, pr, m);
    if m.Write? {
      WriteTells(s.ledger, s.now, id, pr, m.op, t, p);
    } else if m.Open? {
      OpenTellsNothing(s.ledger, s.now, id, NewTaskOf(pr), t);
    }
  }

  ghost function ToldBy(s: Sys, p: ProcId): seq<EventKind>
    requires p in s.procs
  {
    Told(EntriesOf(s.ledger, s.procs[p].task), p)
  }

  /** The story of one process: what it recorded of what it heard. */
  ghost predicate Story(s: Sys, p: ProcId, heard: seq<DriverEvent>)
    requires p in s.procs
  {
    s.procs[p].role.Invocation? ==> Narrated(s.procs[p].pc, ToldBy(s, p), heard)
  }

  lemma OpenedIsEmpty(c: Config, s: Sys, p: ProcId, m: Move)
    requires p in s.procs && s.procs[p].role.Invocation? && m.Open? && Sound(c, s, s.procs[p], m)
    ensures EntriesOf(LedgerAfter(s, p, s.procs[p], m), s.procs[p].task) == []
    ensures ProcAfter(s.now, s.procs[p], m).pc.Accepting?
  {
  }

  lemma OwnMoveNarrates(c: Config, s: Sys, pr: Proc, env: Env, told: seq<EventKind>, heard: seq<DriverEvent>, m: Move)
    requires pr.role.Invocation? && Typed(pr) && Narrated(pr.pc, told, heard)
    requires m == Decide(c, s, pr, env) && !m.Open? && (m.Write? ==> m.op.Writes())
    ensures Narrated(ProcAfter(s.now, pr, m).pc, told + (if m.Write? then Tells(m.op) else []),
                     heard + if pr.pc.Receiving? && env.driver.Yielded? then [env.driver.event] else [])
  {
    assert heard + [] == heard && told + [] == told;
    if m.Write? {
      NotReceiving(c, s, pr, env);
      WriteNarrates(c, s, pr, env, told, heard, m);
    } else if m.Goto? && pr.pc.Driving() {
      DriverGotoNarrates(c, s, pr, env, told, heard);
    } else if m.Goto? {
      OtherGotoNarrates(c, s, pr, env, told, heard);
    } else {
      QuietNarrates(c, s, pr, env, told, heard);
    }
  }

  lemma OwnStepTells(c: Config, s: Sys, p: ProcId, env: Env, heard: seq<DriverEvent>, m: Move, pr: Proc)
    requires Recorded(s.ledger, s.now) && p in s.procs && pr == s.procs[p] && SeenIsPast(s.ledger, pr) && Typed(pr)
    requires pr.role.Invocation? && Story(s, p, heard) && m == Decide(c, s, pr, env) && Sound(c, s, pr, m) && !m.Open?
    ensures Story(Perform(c, s, p, m), p, heard + Message(s, Advance(p, env), p))
  {
    var told := ToldBy(s, p);
    PerformParts(c, s, p, m);
    SoundParts(c, s, pr, m);
    OwnMoveNarrates(c, s, pr, env, told, heard, m);
    if m.Write? {
      MoveTells(c, s, p, pr, m, pr.task, p);
    } else {
      assert told + [] == told;
    }
  }

  lemma OwnOpenTells(c: Config, s: Sys, p: ProcId, env: Env, heard: seq<DriverEvent>, m: Move)
    requires p in s.procs && s.procs[p].role.Invocation? && Story(s, p, heard) && m.Open? && Sound(c, s, s.procs[p], m)
    ensures Story(Perform(c, s, p, m), p, heard + Message(s, Advance(p, env), p))
  {
    PerformParts(c, s, p, m);
    SoundParts(c, s, s.procs[p], m);
    OpenedIsEmpty(c, s, p, m);
    assert heard + [] == heard;
  }

  lemma NotReceiving(c: Config, s: Sys, pr: Proc, env: Env)
    requires pr.role.Invocation? && Decide(c, s, pr, env).Write?
    ensures !pr.pc.Receiving?
  {
  }

  lemma OthersKeepStory(c: Config, s: Sys, id: ProcId, m: Move, p: ProcId, heard: seq<DriverEvent>)
    requires Ground(s) && id in s.procs && p in s.procs && id != p && Sound(c, s, s.procs[id], m) && Story(s, p, heard)
    requires s.procs[p].role.Invocation?
    ensures p in Perform(c, s, id, m).procs && Story(Perform(c, s, id, m), p, heard)
  {
    PerformParts(c, s, id, m);
    if s.procs[p].pc.Owns() {
      SoundParts(c, s, s.procs[id], m);
      assert SeenIsPast(s.ledger, s.procs[id]);
      OthersTellNothing(c, s, id, s.procs[id], m, s.procs[p].task, p);
    }
  }

  lemma OthersTellNothing(c: Config, s: Sys, id: ProcId, pr: Proc, m: Move, t: TaskId, p: ProcId)
    requires Recorded(s.ledger, s.now) && SeenIsPast(s.ledger, pr) && Sound(c, s, pr, m) && t in s.ledger.store.tasks
    requires (m.Open? ==> pr.task != t) && id != p
    ensures Told(EntriesOf(LedgerAfter(s, id, pr, m), t), p) == Told(EntriesOf(s.ledger, t), p)
  {
    MoveTells(c, s, id, pr, m, t, p);
    var told := Told(EntriesOf(s.ledger, t), p);
    assert told + [] == told;
  }

  lemma ExpireKeepsStory(c: Config, s: Sys, p: ProcId, heard: seq<DriverEvent>, m: Move)
    requires p in s.procs && s.procs[p].role.Invocation? && s.procs[p].pc.InDriver() && Story(s, p, heard)
    requires m == Goto(FailRead(Exit, Timeout))
    ensures Story(Perform(c, s, p, m), p, heard)
  {
    PerformParts(c, s, p, m);
    ExpireNarrates(s.procs[p], ToldBy(s, p), heard, Timeout);
  }

  lemma DoKeepsStory(c: Config, s: Sys, a: Action, id: ProcId, m: Move, p: ProcId, heard: seq<DriverEvent>)
    requires Ground(s) && p in s.procs && s.procs[p].role.Invocation? && Story(s, p, heard)
    requires Resolve(c, s, a) == Do(id, m) && id in s.procs && Sound(c, s, s.procs[id], m)
    ensures p in Perform(c, s, id, m).procs && Story(Perform(c, s, id, m), p, heard + Message(s, a, p))
  {
    if id != p {
      assert heard + Message(s, a, p) == heard;
      OthersKeepStory(c, s, id, m, p, heard);
    } else {
      OwnDoKeepsStory(c, s, a, m, p, heard, s.procs[p]);
    }
  }

  lemma OwnDoKeepsStory(c: Config, s: Sys, a: Action, m: Move, p: ProcId, heard: seq<DriverEvent>, pr: Proc)
    requires Recorded(s.ledger, s.now) && p in s.procs && pr == s.procs[p] && SeenIsPast(s.ledger, pr) && Typed(pr)
    requires pr.role.Invocation? && Story(s, p, heard) && Resolve(c, s, a) == Do(p, m) && Sound(c, s, pr, m)
    ensures p in Perform(c, s, p, m).procs && Story(Perform(c, s, p, m), p, heard + Message(s, a, p))
  {
    if a.Advance? && m.Open? {
      OwnOpenTells(c, s, p, a.env, heard, m);
    } else if a.Advance? {
      OwnStepTells(c, s, p, a.env, heard, m, pr);
    } else {
      assert heard + Message(s, a, p) == heard;
      ExpireKeepsStory(c, s, p, heard, m);
    }
  }

  lemma StepKeepsStory(c: Config, s: Sys, a: Action, p: ProcId, heard: seq<DriverEvent>)
    requires Ground(s) && p in s.procs && s.procs[p].role.Invocation? && Story(s, p, heard)
    ensures p in Step(c, s, a).procs && Story(Step(c, s, a), p, heard + Message(s, a, p))
  {
    ResolveIsSound(c, s, a);
    var e := Resolve(c, s, a);
    if e.Do? {
      DoKeepsStory(c, s, a, e.id, e.move, p, heard);
    } else {
      QuietKeepsStory(c, s, a, e, p, heard);
    }
  }

  lemma QuietKeepsStory(c: Config, s: Sys, a: Action, e: Effect, p: ProcId, heard: seq<DriverEvent>)
    requires p in s.procs && Story(s, p, heard) && e == Resolve(c, s, a) && !e.Do?
    ensures p in Apply(c, s, e).procs && Story(Apply(c, s, e), p, heard + Message(s, a, p))
  {
    assert heard + [] == heard;
  }

  lemma BeginsStory(c: Config, s: Sys, a: Action, p: ProcId)
    requires p !in s.procs && p in Step(c, s, a).procs
    ensures Story(Step(c, s, a), p, []) && Message(s, a, p) == []
  {
  }

  lemma {:induction false} UnbornHeardNothing(c: Config, schedule: seq<Action>, p: ProcId, n: nat)
    requires n <= |schedule| && p !in Run(c, schedule[..n]).procs
    ensures Messages(c, schedule, p, n) == []
  {
    if n > 0 {
      RunIsStep(c, schedule[..n - 1], schedule[n - 1]);
      assert schedule[..n - 1] + [schedule[n - 1]] == schedule[..n];
      ProcsStay(c, Run(c, schedule[..n - 1]), schedule[n - 1], p);
      UnbornHeardNothing(c, schedule, p, n - 1);
    }
  }

  lemma ProcsStay(c: Config, s: Sys, a: Action, p: ProcId)
    ensures p in s.procs ==> p in Step(c, s, a).procs && Step(c, s, a).procs[p].role == s.procs[p].role
  {
  }

  ghost predicate StoryAt(c: Config, schedule: seq<Action>, p: ProcId, n: nat)
    requires n <= |schedule|
  {
    p in Run(c, schedule[..n]).procs ==> Story(Run(c, schedule[..n]), p, Messages(c, schedule, p, n))
  }

  lemma StoryNext(c: Config, schedule: seq<Action>, p: ProcId, n: nat)
    requires 0 < n <= |schedule| && StoryAt(c, schedule, p, n - 1)
    ensures StoryAt(c, schedule, p, n)
  {
    var s, a := Run(c, schedule[..n - 1]), schedule[n - 1];
    RunIsStep(c, schedule[..n - 1], a);
    assert schedule[..n - 1] + [a] == schedule[..n];
    GroundInRun(c, schedule[..n - 1]);
    ProcsStay(c, s, a, p);
    if p in s.procs {
      if s.procs[p].role.Invocation? {
        StepKeepsStory(c, s, a, p, Messages(c, schedule, p, n - 1));
      }
    } else if p in Step(c, s, a).procs {
      BeginsStory(c, s, a, p);
      UnbornHeardNothing(c, schedule, p, n - 1);
    }
  }

  lemma {:induction false} EveryStory(c: Config, schedule: seq<Action>, p: ProcId, n: nat)
    requires n <= |schedule|
    ensures StoryAt(c, schedule, p, n)
  {
    if n > 0 {
      EveryStory(c, schedule, p, n - 1);
      StoryNext(c, schedule, p, n);
    }
  }

  /**
   In every run: what an invocation has recorded on its task, the acceptance and failures
   aside, is what the messages its driver yielded stand for, each once and in their order;
   at most the last of them is missing, and none while it waits for the next.
   */
  lemma OwnersRecordTheirMessages(c: Config, schedule: seq<Action>, p: ProcId)
    requires p in Run(c, schedule).procs
    requires Run(c, schedule).procs[p].role.Invocation? && Run(c, schedule).procs[p].pc.Owns()
    ensures var s, heard := Run(c, schedule), Messages(c, schedule, p, |schedule|);
            var told := Told(EntriesOf(s.ledger, s.procs[p].task), p);
            && (told == Spelled(heard) || (heard != [] && told == Spelled(heard[..|heard| - 1])))
            && (s.procs[p].pc == Receiving ==> told == Spelled(heard))
  {
    EveryStory(c, schedule, p, |schedule|);
    assert schedule[..|schedule|] == schedule;
    NarratedEither(Run(c, schedule).procs[p].pc, ToldBy(Run(c, schedule), p), Messages(c, schedule, p, |schedule|));
  }

  lemma NarratedEither(pc: Pc, told: seq<EventKind>, heard: seq<DriverEvent>)
    requires Narrated(pc, told, heard) && pc.Owns()
    ensures WholeTold(told, heard) || AllButLastTold(told, heard)
  {
    assert Spelled([]) == [];
  }
}
