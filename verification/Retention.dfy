/**
 Retention over whole runs of the in-memory store: tasks are created, events appended and
 old ones cleaned away, any number of times, under a clock that never goes back. Beside
 the store the runs keep what it forgets: everything ever appended to each task.
 */
module Retention {
  import opened TaskModel
  import opened Lifecycle
  import opened MemoryStore

  /** `gone` is the batch one cleanup picks, in an order the store does not specify. */
  datatype Step = Open(task: NewTask) | Add(transition: TaskTransition) | Clean(policy: RetentionPolicy, gone: set<TaskId>)
  datatype Timed = Timed(step: Step, now: Time)

  /** The store, and for each of its tasks all events appended since its creation. */
  datatype Past = Past(store: State, history: map<TaskId, seq<CoreEvent>>)

  const START := Past(EMPTY, map[])

  ghost function Cleaned(s: State, gone: set<TaskId>, policy: RetentionPolicy, now: Time): State
    requires gone <= s.tasks.Keys
  {
    State(s.tasks - gone,
          map id | id in s.events && id !in gone :: Retained(s.events[id], now - policy.eventTtl),
          s.idempotency - MemoryKeys(s.tasks, gone),
          s.leases - gone)
  }

  predicate Picks(s: State, gone: set<TaskId>, policy: RetentionPolicy, now: Time) {
    && policy.taskTtl <= MAX_DURATION && policy.eventTtl <= MAX_DURATION
    && gone <= Expired(s, now - policy.taskTtl)
    && |gone| == Min(policy.cleanupBatchSize, |Expired(s, now - policy.taskTtl)|)
  }

  /** What the cleanup method does is exactly this. */
  lemma CleanedIsSwept(s: State, s': State, gone: set<TaskId>, policy: RetentionPolicy, now: Time)
    requires policy.taskTtl <= MAX_DURATION && policy.eventTtl <= MAX_DURATION
    ensures Swept(s, s', gone, policy, now) <==> Picks(s, gone, policy, now) && s' == Cleaned(s, gone, policy, now)
  {
    if Picks(s, gone, policy, now) {
      var cleaned := Cleaned(s, gone, policy, now);
      assert cleaned.events.Keys == s.events.Keys - gone;
      if Swept(s, s', gone, policy, now) {
        assert s'.events == cleaned.events;
      }
    }
  }

  ghost function Next(p: Past, step: Step, now: Time): Past {
    match step
    case Open(task) =>
      var r := Create(p.store, task, now);
      Past(r.0, if r.1.Ok? && r.1.value.TaskCreated? then p.history[task.taskId := []] else p.history)
    case Add(t) =>
      var r := Append(p.store, t, now);
      Past(r.0, if r.1.Ok? && t.taskId in p.history
                then p.history[t.taskId := p.history[t.taskId] + [r.1.value.event]] else p.history)
    case Clean(policy, gone) =>
      if Picks(p.store, gone, policy, now) then Past(Cleaned(p.store, gone, policy, now), p.history - gone) else p
  }

  ghost function After(steps: seq<Timed>): Past {
    if steps == [] then START
    else Next(After(steps[..|steps| - 1]), steps[|steps| - 1].step, steps[|steps| - 1].now)
  }

  /** A clock that never goes back, and no transition that names a terminal state. */
  ghost predicate Proper(steps: seq<Timed>) {
    && (forall i, j | 0 <= i <= j < |steps| :: steps[i].now <= steps[j].now)
    && (forall i | 0 <= i < |steps| && steps[i].step.Add? :: SparesEnded(steps[i].step.transition))
  }

  // ---------------------------------------------------------------- the invariant

  ghost predicate UpTo(events: seq<CoreEvent>, now: Time) {
    forall i | 0 <= i < |events| :: events[i].at <= now
  }

  /** Everything appended is numbered from 1 and in time order; the store has kept its end. */
  ghost predicate Kept(id: TaskId, snapshot: TaskSnapshot, log: seq<CoreEvent>, history: seq<CoreEvent>, now: Time) {
    && snapshot.taskId == id
    && snapshot.revision == snapshot.lastSeq == |history|
    && (forall i | 0 <= i < |history| :: history[i].seqNo == i + 1 && history[i].taskId == id)
    && Chronological(history) && UpTo(history, now)
    && EndOf(history, log)
    && (snapshot.terminalAt.Some? ==> snapshot.state.Terminal())
  }

  ghost predicate AllKept(p: Past, now: Time) {
    && p.store.tasks.Keys == p.store.events.Keys == p.history.Keys
    && forall id | id in p.store.tasks ::
         Kept(id, p.store.tasks[id], p.store.events[id], p.history[id], now)
  }

  lemma KeptIsTrimmed(id: TaskId, snapshot: TaskSnapshot, log: seq<CoreEvent>, history: seq<CoreEvent>, now: Time)
    requires Kept(id, snapshot, log, history, now)
    ensures Trimmed(snapshot, log)
  {
    var k := |history| - |log|;
    forall i | 0 <= i < |log| ensures log[i] == history[k + i] {
    }
  }

  lemma KeptLater(id: TaskId, snapshot: TaskSnapshot, log: seq<CoreEvent>, history: seq<CoreEvent>, now: Time,
                  later: Time)
    requires Kept(id, snapshot, log, history, now) && now <= later
    ensures Kept(id, snapshot, log, history, later)
  {
  }

  lemma AppendKeeps(id: TaskId, snapshot: TaskSnapshot, log: seq<CoreEvent>, history: seq<CoreEvent>, now: Time,
                    next: TaskState, kind: EventKind)
    requires Kept(id, snapshot, log, history, now) && !snapshot.state.Terminal()
    ensures var event := CoreEvent(id, snapshot.lastSeq + 1, now, kind);
            Kept(id, Bump(snapshot, next, now), log + [event], history + [event], now)
  {
    var event := CoreEvent(id, snapshot.lastSeq + 1, now, kind);
    assert (history + [event])[|history| - |log|..] == history[|history| - |log|..] + [event];
  }

  lemma TrimKeeps(id: TaskId, snapshot: TaskSnapshot, log: seq<CoreEvent>, history: seq<CoreEvent>, now: Time,
                  cutoff: Time)
    requires Kept(id, snapshot, log, history, now)
    ensures Kept(id, snapshot, Retained(log, cutoff), history, now)
  {
    KeptIsTrimmed(id, snapshot, log, history, now);
    var k := RetainedIsSuffix(log, cutoff);
    assert log[k..] == history[|history| - |log| + k..];
  }

  lemma OpenKeepsAll(p: Past, task: NewTask, now: Time)
    requires AllKept(p, now)
    ensures AllKept(Next(p, Open(task), now), now)
  {
    var p' := Next(p, Open(task), now);
    forall id | id in p'.store.tasks ensures Kept(id, p'.store.tasks[id], p'.store.events[id], p'.history[id], now) {
      if p' != p && id != task.taskId {
        assert Kept(id, p.store.tasks[id], p.store.events[id], p.history[id], now);
      }
    }
  }

  lemma AddKeepsAll(p: Past, t: TaskTransition, now: Time)
    requires AllKept(p, now) && SparesEnded(t)
    ensures AllKept(Next(p, Add(t), now), now)
  {
    var p', r := Next(p, Add(t), now), Append(p.store, t, now);
    if r.1.Ok? {
      assert Kept(t.taskId, p.store.tasks[t.taskId], p.store.events[t.taskId], p.history[t.taskId], now);
      AppendKeeps(t.taskId, p.store.tasks[t.taskId], p.store.events[t.taskId], p.history[t.taskId], now,
                  t.nextState, t.eventKind);
      forall id | id in p'.store.tasks
        ensures Kept(id, p'.store.tasks[id], p'.store.events[id], p'.history[id], now)
      {
        if id != t.taskId {
          assert Kept(id, p.store.tasks[id], p.store.events[id], p.history[id], now);
        }
      }
    }
  }

  lemma CleanKeepsOne(p: Past, policy: RetentionPolicy, gone: set<TaskId>, now: Time, id: TaskId)
    requires AllKept(p, now) && gone <= p.store.tasks.Keys && id in p.store.tasks && id !in gone
    ensures id in Cleaned(p.store, gone, policy, now).events
    ensures Kept(id, p.store.tasks[id], Cleaned(p.store, gone, policy, now).events[id], p.history[id], now)
  {
    assert Kept(id, p.store.tasks[id], p.store.events[id], p.history[id], now);
    TrimKeeps(id, p.store.tasks[id], p.store.events[id], p.history[id], now, now - policy.eventTtl);
  }

  lemma CleanKeepsAll(p: Past, policy: RetentionPolicy, gone: set<TaskId>, now: Time)
    requires AllKept(p, now)
    ensures AllKept(Next(p, Clean(policy, gone), now), now)
  {
    if Picks(p.store, gone, policy, now) {
      var p' := Next(p, Clean(policy, gone), now);
      assert p'.store.events.Keys == p.store.events.Keys - gone;
      forall id | id in p'.store.tasks
        ensures Kept(id, p'.store.tasks[id], p'.store.events[id], p'.history[id], now)
      {
        CleanKeepsOne(p, policy, gone, now, id);
      }
    }
  }

  lemma AllKeptLater(p: Past, now: Time, later: Time)
    requires AllKept(p, now) && now <= later
    ensures AllKept(p, later)
  {
    forall id | id in p.store.tasks ensures Kept(id, p.store.tasks[id], p.store.events[id], p.history[id], later) {
      KeptLater(id, p.store.tasks[id], p.store.events[id], p.history[id], now, later);
    }
  }

  lemma NextKeepsAll(p: Past, step: Step, now: Time)
    requires AllKept(p, now) && (step.Add? ==> SparesEnded(step.transition))
    ensures AllKept(Next(p, step, now), now)
  {
    match step
    case Open(task) => OpenKeepsAll(p, task, now);
    case Add(t) => AddKeepsAll(p, t, now);
    case Clean(policy, gone) => CleanKeepsAll(p, policy, gone, now);
  }

  /**
   In every run each task's log is the end of everything ever appended to it, numbered up
   to the last number, however often it was trimmed and appended to in between.
   */
  lemma {:induction false} EveryRunKeepsTheEnd(steps: seq<Timed>, now: Time)
    requires Proper(steps) && forall i | 0 <= i < |steps| :: steps[i].now <= now
    ensures AllKept(After(steps), now)
    decreases |steps|
  {
    if steps != [] {
      var n := |steps| - 1;
      EveryRunKeepsTheEnd(steps[..n], steps[n].now);
      NextKeepsAll(After(steps[..n]), steps[n].step, steps[n].now);
      AllKeptLater(After(steps), steps[n].now, now);
    }
  }

  lemma DisappearsEnded(p: Past, step: Step, now: Time, id: TaskId)
    requires AllKept(p, now) && id in p.store.tasks && id !in Next(p, step, now).store.tasks
    ensures step.Clean? && p.store.tasks[id].state.Terminal() && p.store.tasks[id].terminalAt.Some?
    ensures p.store.tasks[id].terminalAt.value < now - step.policy.taskTtl
  {
    assert Kept(id, p.store.tasks[id], p.store.events[id], p.history[id], now);
  }

  /** A task disappears only by a cleanup, and only once it has ended before the cutoff. */
  lemma OnlyEndedTasksDisappear(steps: seq<Timed>, step: Step, now: Time, id: TaskId)
    requires Proper(steps) && forall i | 0 <= i < |steps| :: steps[i].now <= now
    requires id in After(steps).store.tasks && id !in Next(After(steps), step, now).store.tasks
    ensures var snapshot := After(steps).store.tasks[id];
            && step.Clean? && snapshot.state.Terminal() && snapshot.terminalAt.Some?
            && snapshot.terminalAt.value < now - step.policy.taskTtl
  {
    EveryRunKeepsTheEnd(steps, now);
    DisappearsEnded(After(steps), step, now, id);
  }

  // ---------------------------------------------------------------- state and end time

  /** A transition that goes through writes the state its event stands for. */
  ghost predicate Truthful(p: Past, step: Step, now: Time) {
    step.Add? && Append(p.store, step.transition, now).1.Ok? ==>
      step.transition.nextState == Lifecycle.After(step.transition.eventKind)
  }

  ghost predicate TruthfulThroughout(steps: seq<Timed>) {
    forall i | 0 <= i < |steps| :: Truthful(After(steps[..i]), steps[i].step, steps[i].now)
  }

  /** State and end time are those of everything ever appended. */
  ghost predicate Folded(snapshot: TaskSnapshot, history: seq<CoreEvent>) {
    && snapshot.state == StateOf(Kinds(history))
    && snapshot.terminalAt ==
       if history != [] && snapshot.state.Terminal() then Some(history[|history| - 1].at) else None
  }

  ghost predicate AllFolded(p: Past) {
    && p.store.tasks.Keys == p.history.Keys
    && forall id | id in p.store.tasks :: Folded(p.store.tasks[id], p.history[id])
  }

  lemma AppendFolds(id: TaskId, snapshot: TaskSnapshot, history: seq<CoreEvent>, now: Time, kind: EventKind)
    requires Folded(snapshot, history) && !snapshot.state.Terminal()
    ensures var event := CoreEvent(id, snapshot.lastSeq + 1, now, kind);
            Folded(Bump(snapshot, Lifecycle.After(kind), now), history + [event])
  {
    var event := CoreEvent(id, snapshot.lastSeq + 1, now, kind);
    assert Kinds(history + [event])[|history|] == kind;
  }

  lemma AddFolds(p: Past, t: TaskTransition, now: Time)
    requires AllFolded(p) && SparesEnded(t) && Truthful(p, Add(t), now)
    ensures AllFolded(Next(p, Add(t), now))
  {
    var p', r := Next(p, Add(t), now), Append(p.store, t, now);
    if r.1.Ok? {
      AppendFolds(t.taskId, p.store.tasks[t.taskId], p.history[t.taskId], now, t.eventKind);
      forall id | id in p'.store.tasks ensures Folded(p'.store.tasks[id], p'.history[id]) {
        if id != t.taskId {
          assert Folded(p.store.tasks[id], p.history[id]);
        }
      }
    }
  }

  lemma NextFolds(p: Past, step: Step, now: Time)
    requires AllFolded(p) && Truthful(p, step, now) && (step.Add? ==> SparesEnded(step.transition))
    ensures AllFolded(Next(p, step, now))
  {
    match step
    case Open(task) =>
    case Add(t) => AddFolds(p, t, now);
    case Clean(policy, gone) =>
  }

  /** However often a log was trimmed, its task's state and end time are those of all that was ever appended. */
  lemma {:induction false} EveryRunKeepsTheFold(steps: seq<Timed>)
    requires Proper(steps) && TruthfulThroughout(steps)
    ensures AllFolded(After(steps))
  {
    if steps != [] {
      var n := |steps| - 1;
      assert TruthfulThroughout(steps[..n]) by {
        forall i | 0 <= i < n ensures Truthful(After(steps[..n][..i]), steps[..n][i].step, steps[..n][i].now) {
          assert steps[..n][..i] == steps[..i];
        }
      }
      EveryRunKeepsTheFold(steps[..n]);
      NextFolds(After(steps[..n]), steps[n].step, steps[n].now);
    }
  }

  ghost predicate EndedBefore(history: seq<CoreEvent>, cutoff: Time) {
    history != [] && history[|history| - 1].kind.Terminal() && history[|history| - 1].at < cutoff
  }

  lemma FoldEnds(snapshot: TaskSnapshot, history: seq<CoreEvent>, cutoff: Time)
    requires Folded(snapshot, history) && snapshot.terminalAt.Some? && snapshot.terminalAt.value < cutoff
    ensures EndedBefore(history, cutoff)
  {
    assert Kinds(history)[|history| - 1] == history[|history| - 1].kind;
  }

  lemma DisappearsFolded(p: Past, step: Step, now: Time, id: TaskId)
    requires AllKept(p, now) && AllFolded(p) && id in p.store.tasks && id !in Next(p, step, now).store.tasks
    ensures step.Clean? && EndedBefore(p.history[id], now - step.policy.taskTtl)
  {
    DisappearsEnded(p, step, now, id);
    assert Folded(p.store.tasks[id], p.history[id]);
    FoldEnds(p.store.tasks[id], p.history[id], now - step.policy.taskTtl);
  }

  /** So a task disappears only if the last event ever appended to it ended it, before the cutoff. */
  lemma OnlyEndedLogsDisappear(steps: seq<Timed>, step: Step, now: Time, id: TaskId)
    requires Proper(steps) && TruthfulThroughout(steps) && forall i | 0 <= i < |steps| :: steps[i].now <= now
    requires id in After(steps).store.tasks && id !in Next(After(steps), step, now).store.tasks
    ensures id in After(steps).history && step.Clean?
    ensures EndedBefore(After(steps).history[id], now - step.policy.taskTtl)
  {
    EveryRunKeepsTheEnd(steps, now);
    EveryRunKeepsTheFold(steps);
    DisappearsFolded(After(steps), step, now, id);
  }

  // ---------------------------------------------------------------- the orphaned key, as a run

  const ERROR := PublicError("runtime_error", "no", false)

  function AcceptIt(id: TaskId): TaskTransition {
    TaskTransition(id, 0, Allowed(Accept), Accepted, AcceptedEvent(false))
  }

  function FailIt(id: TaskId): TaskTransition {
    TaskTransition(id, 1, Allowed(Fail(ERROR)), Failed, FailedEvent(ERROR))
  }

  const SHORT := RetentionPolicy(0, 0, 0, 1)

  /** Create, accept and fail a task, then clean it away. */
  function OrphanSteps(task: NewTask, later: Time): seq<Timed> {
    [] + [Timed(Open(task), 0)] + [Timed(Add(AcceptIt(task.taskId)), 0)] + [Timed(Add(FailIt(task.taskId)), 0)]
    + [Timed(Clean(SHORT, {task.taskId}), later)]
  }

  lemma AfterSnoc(steps: seq<Timed>, last: Timed)
    ensures After(steps + [last]) == Next(After(steps), last.step, last.now)
  {
    assert (steps + [last])[..|steps|] == steps;
  }

  /** The store with the one task, ended at once. */
  lemma EndedTask(task: NewTask) returns (p: Past)
    ensures p == After([] + [Timed(Open(task), 0)] + [Timed(Add(AcceptIt(task.taskId)), 0)]
                       + [Timed(Add(FailIt(task.taskId)), 0)])
    ensures p.store.tasks.Keys == {task.taskId} && p.store.tasks[task.taskId].terminalAt == Some(0)
    ensures p.store.tasks[task.taskId].callerId == task.callerId
    ensures p.store.idempotency == map[(task.callerId, task.idempotencyKey) := task.taskId]
  {
    var s1 := [] + [Timed(Open(task), 0)];
    var s2 := s1 + [Timed(Add(AcceptIt(task.taskId)), 0)];
    AfterSnoc([], Timed(Open(task), 0));
    AfterSnoc(s1, Timed(Add(AcceptIt(task.taskId)), 0));
    AfterSnoc(s2, Timed(Add(FailIt(task.taskId)), 0));
    p := After(s2 + [Timed(Add(FailIt(task.taskId)), 0)]);
    var created := Fresh(task, 0);
    var accepted := Bump(created, Accepted, 0);
    assert After(s1).store.tasks == map[task.taskId := created];
    assert After(s2).store.tasks == map[task.taskId := accepted];
    assert p.store.tasks == map[task.taskId := Bump(accepted, Failed, 0)];
  }

  lemma OrphanStepsAreProper(task: NewTask, later: Time)
    requires later > 0
    ensures Proper(OrphanSteps(task, later))
  {
  }

  /**
   The input on which the promise of idempotency fails: a task is created, accepted and
   failed, a cleanup removes it, and creating it again under its caller and key reports
   corruption, whatever the key, unless the key is the derived one itself.
   */
  lemma CleanedKeysAreCorrupt(task: NewTask, later: Time)
    requires later > 0 && task.idempotencyKey != "memory:" + task.taskId
    ensures Proper(OrphanSteps(task, later))
    ensures Create(After(OrphanSteps(task, later)).store, task, later).1 ==
            Err(Corrupt("idempotency references absent task"))
  {
    OrphanStepsAreProper(task, later);
    var p := EndedTask(task);
    var before := [] + [Timed(Open(task), 0)] + [Timed(Add(AcceptIt(task.taskId)), 0)]
                  + [Timed(Add(FailIt(task.taskId)), 0)];
    AfterSnoc(before, Timed(Clean(SHORT, {task.taskId}), later));
    assert Expired(p.store, later) == {task.taskId};
    assert Picks(p.store, {task.taskId}, SHORT, later);
    CleanedIsSwept(p.store, Cleaned(p.store, {task.taskId}, SHORT, later), {task.taskId}, SHORT, later);
    CleanupOrphansTheKey(p.store, Cleaned(p.store, {task.taskId}, SHORT, later), {task.taskId}, SHORT, later,
                         task, later);
  }
}
