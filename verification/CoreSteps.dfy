/**
 Single steps of the core seen from outside: what one write leaves in the store, in terms
 of the task's log and snapshot alone.
 */
module CoreSteps {
  import opened TaskModel
  import opened Lifecycle
  import opened CoreErrors
  import opened Core
  import opened CoreMoves
  import opened CoreHistory
  import opened CoreOwners
  import opened CoreTheorems
  import Store = MemoryStore

  /** The snapshot of a task that has moved on by one event. */
  function Moved(snapshot: TaskSnapshot, state: TaskState, now: Time): TaskSnapshot {
    TaskSnapshot(snapshot.taskId, snapshot.sessionId, snapshot.agentId, snapshot.callerId, state, snapshot.revision + 1,
                 snapshot.lastSeq + 1, snapshot.createdAt, now,
                 if state == Completed || state == Failed || state == Cancelled then Some(now) else snapshot.terminalAt)
  }

  /** One event of the given kind is added to the task's log, and nothing else happens to the store. */
  ghost predicate Appended(l: Ledger, l': Ledger, now: Time, t: TaskId, kind: EventKind, state: TaskState) {
    && t in l.store.tasks && t in l.store.events
    && l'.store ==
       l.store.(tasks := l.store.tasks[t := Moved(l.store.tasks[t], state, now)],
                events := l.store.events[t := l.store.events[t] + [CoreEvent(t, |l.store.events[t]| + 1, now, kind)]])
  }

  lemma StepIsPerform(c: Config, s: Sys, p: ProcId, env: Env)
    requires p in s.procs
    ensures Step(c, s, Advance(p, env)) == Perform(c, s, p, Decide(c, s, s.procs[p], env))
  {
  }

  lemma GotoStep(c: Config, s: Sys, p: ProcId, env: Env, pc: Pc)
    requires p in s.procs && Decide(c, s, s.procs[p], env) == Goto(pc)
    ensures Step(c, s, Advance(p, env)) == s.(procs := s.procs[p := s.procs[p].(pc := pc)])
  {
  }

  lemma WriteStep(c: Config, s: Sys, p: ProcId, env: Env, op: Op, seen: TaskSnapshot, pc: Pc)
    requires p in s.procs && op.Writes() && Decide(c, s, s.procs[p], env) == Write(op, seen, pc)
    ensures Step(c, s, Advance(p, env)) ==
            s.(ledger := WriteTo(s.ledger, s.now, p, op, seen), procs := s.procs[p := s.procs[p].(pc := pc)])
  {
  }

  lemma RunIsStep(c: Config, schedule: seq<Action>, a: Action)
    ensures Run(c, schedule + [a]) == Step(c, Run(c, schedule), a)
  {
    RunSnoc(c, schedule, [a]);
    assert schedule + [a][..0] == schedule;
  }

  /** A write from a snapshot that is current goes through exactly in the states its operation allows. */
  lemma CurrentVerdict(l: Ledger, now: Time, op: Op, seen: TaskSnapshot, env: Env)
    requires op.Writes() && !env.fault && seen.taskId in l.store.tasks
    requires seen.revision == l.store.tasks[seen.taskId].revision && seen.state == l.store.tasks[seen.taskId].state
    ensures Verdict(l.store, now, op, seen, env) ==
            if seen.state in Allowed(op) then None
            else Some(StoreFailure(InvalidTransition("current=" + seen.state.Name())))
  {
  }

  lemma StaleVerdict(l: Ledger, now: Time, op: Op, seen: TaskSnapshot, env: Env)
    requires op.Writes() && !env.fault && seen.taskId in l.store.tasks
    requires seen.revision != l.store.tasks[seen.taskId].revision
    ensures Verdict(l.store, now, op, seen, env) == Some(StoreFailure(Conflict))
  {
  }

  lemma WriteAppends(l: Ledger, now: Time, id: ProcId, op: Op, seen: TaskSnapshot)
    requires Recorded(l, now) && op.Writes() && seen.taskId in l.store.tasks && seen.state in Allowed(op)
    requires seen.revision == l.store.tasks[seen.taskId].revision && seen.state == l.store.tasks[seen.taskId].state
    ensures Appended(l, WriteTo(l, now, id, op, seen), now, seen.taskId, KindOf(op), After(KindOf(op)))
  {
    NextStateIsAfter(op, seen.state);
    CurrentState(l, now, seen.taskId);
    assert RecordOf(l, now, seen.taskId);
  }

  lemma FailTable(error: CoreError, state: TaskState)
    requires !state.Terminal()
    ensures var op := Fail(Failure(error));
            op.Writes() && state in Allowed(op) && KindOf(op) == FailedEvent(Failure(error)) && After(KindOf(op)) == Failed
  {
    FailIsAllowed(Failure(error), state);
  }

  /** Recording a failure from a current snapshot of a live task. */
  lemma FailureAppends(l: Ledger, now: Time, id: ProcId, error: CoreError, seen: TaskSnapshot, env: Env)
    requires Recorded(l, now) && !env.fault && seen.taskId in l.store.tasks && seen == l.store.tasks[seen.taskId]
    requires !seen.state.Terminal()
    ensures Verdict(l.store, now, Fail(Failure(error)), seen, env).None?
    ensures Appended(l, WriteTo(l, now, id, Fail(Failure(error)), seen), now, seen.taskId, FailedEvent(Failure(error)), Failed)
  {
    FailTable(error, seen.state);
    CurrentVerdict(l, now, Fail(Failure(error)), seen, env);
    WriteAppends(l, now, id, Fail(Failure(error)), seen);
  }

  /** A snapshot held since an earlier read is current exactly when its revision still is. */
  lemma HeldSnapshot(l: Ledger, now: Time, pr: Proc)
    requires Recorded(l, now) && SeenIsPast(l, pr) && pr.pc.Holds()
    ensures pr.task in l.store.tasks && pr.pc.seen.taskId == pr.task && l.store.tasks[pr.task].taskId == pr.task
    ensures pr.pc.seen.revision == l.store.tasks[pr.task].revision ==>
              pr.pc.seen.state == l.store.tasks[pr.task].state
  {
    CurrentState(l, now, pr.task);
  }

  /** The compare-and-set of a held snapshot: refused, or one event more. */
  lemma HeldVerdict(l: Ledger, now: Time, pr: Proc, op: Op, env: Env)
    requires Recorded(l, now) && SeenIsPast(l, pr) && pr.pc.Holds() && op.Writes() && !env.fault
    ensures pr.task in l.store.tasks
    ensures Verdict(l.store, now, op, pr.pc.seen, env) ==
            if pr.pc.seen.revision != l.store.tasks[pr.task].revision then Some(StoreFailure(Conflict))
            else if pr.pc.seen.state in Allowed(op) then None
            else Some(StoreFailure(InvalidTransition("current=" + pr.pc.seen.state.Name())))
  {
    HeldSnapshot(l, now, pr);
    if pr.pc.seen.revision == l.store.tasks[pr.task].revision {
      CurrentVerdict(l, now, op, pr.pc.seen, env);
    } else {
      StaleVerdict(l, now, op, pr.pc.seen, env);
    }
  }

  lemma HeldWrite(l: Ledger, now: Time, pr: Proc, op: Op, id: ProcId)
    requires Recorded(l, now) && SeenIsPast(l, pr) && pr.pc.Holds() && op.Writes()
    requires pr.task in l.store.tasks && pr.pc.seen.revision == l.store.tasks[pr.task].revision
    requires pr.pc.seen.state in Allowed(op)
    ensures Appended(l, WriteTo(l, now, id, op, pr.pc.seen), now, pr.task, KindOf(op), After(KindOf(op)))
  {
    HeldSnapshot(l, now, pr);
    WriteAppends(l, now, id, op, pr.pc.seen);
  }

  lemma RecordedInRun(c: Config, schedule: seq<Action>)
    ensures Recorded(Run(c, schedule).ledger, Run(c, schedule).now)
    ensures forall p | p in Run(c, schedule).procs ::
              SeenIsPast(Run(c, schedule).ledger, Run(c, schedule).procs[p]) && Typed(Run(c, schedule).procs[p])
  {
    EveryRunKeepsInv(c, schedule);
  }

  lemma PerformParts(c: Config, s: Sys, id: ProcId, m: Move)
    requires id in s.procs
    ensures Perform(c, s, id, m).ledger == LedgerAfter(s, id, s.procs[id], m)
    ensures Perform(c, s, id, m).procs == s.procs[id := ProcAfter(s.now, s.procs[id], m)]
    ensures ProcAfter(s.now, s.procs[id], m).task == s.procs[id].task
    ensures ProcAfter(s.now, s.procs[id], m).role == s.procs[id].role
  {
  }

  /** A reachable state, as far as most proofs need it. */
  ghost predicate Ground(s: Sys) {
    && AllTyped(s) && Recorded(s.ledger, s.now) && SnapshotsArePast(s) && IdsAreFresh(s)
    && forall p | p in s.procs && s.procs[p].role.Invocation? && s.procs[p].pc.Owns() ::
         s.procs[p].task in s.ledger.store.tasks
  }

  lemma GroundInRun(c: Config, schedule: seq<Action>)
    ensures Ground(Run(c, schedule))
  {
    EveryRunKeepsInv(c, schedule);
    OwnedMeansFreshIds(Run(c, schedule));
  }

  function Elapsed(schedule: seq<Action>): nat {
    if schedule == [] then 0
    else
      var last := schedule[|schedule| - 1];
      Elapsed(schedule[..|schedule| - 1]) + if last.Tick? then last.elapsed else 0
  }

  lemma StepKeepsTime(c: Config, s: Sys, a: Action)
    ensures Step(c, s, a).now == s.now + if a.Tick? then a.elapsed else 0
  {
  }

  /** The clock shows the time that has passed, and calls take none. */
  lemma {:induction false} TheClockCountsTheTicks(c: Config, schedule: seq<Action>)
    ensures Run(c, schedule).now == Elapsed(schedule)
  {
    if schedule != [] {
      var n := |schedule| - 1;
      TheClockCountsTheTicks(c, schedule[..n]);
      StepKeepsTime(c, Run(c, schedule[..n]), schedule[n]);
    }
  }
}
