/**
 The two races the lifecycle loses, exactly and as runs. A worker's last write ends the
 task if and only if nothing was committed since its last read; otherwise the worker
 exits with the task still open and nothing ends it afterwards. An acceptance goes through
 if and only if nothing was committed since the creation; otherwise nobody owns the task.
 */
module CoreRaces {
  import opened TaskModel
  import opened Lifecycle
  import opened CoreErrors
  import opened Core
  import opened CoreMoves
  import opened CoreHistory
  import opened CoreOwners
  import opened CorePermits
  import opened CoreTheorems
  import Store = MemoryStore

  const CALM := Env(false, DriverOpened)

  lemma RunMore(c: Config, schedule: seq<Action>, a: Action)
    ensures Run(c, schedule + [a]) == Step(c, Run(c, schedule), a)
  {
    RunSnoc(c, schedule, [a]);
    assert schedule + [a][..0] == schedule;
  }

  /** A cancel that starts now and is not disturbed writes its request. */
  lemma CancelGoesThrough(c: Config, s: Sys, t: TaskId, q: ProcId) returns (s': Sys)
    requires q !in s.procs && t in s.ledger.store.tasks && s.ledger.store.tasks[t].taskId == t
    requires s.ledger.store.tasks[t].state in Allowed(RequestCancel(None))
    ensures s' == Step(c, Step(c, Step(c, s, Begin(q, Canceller(None), t)), Advance(q, CALM)), Advance(q, CALM))
    ensures s'.now == s.now && s'.ledger.creator == s.ledger.creator
    ensures s'.ledger == WriteTo(s.ledger, s.now, q, RequestCancel(None), s.ledger.store.tasks[t])
    ensures s'.procs == s.procs[q := Proc(Canceller(None), t, {}, CommandDone)]
  {
    var seen := s.ledger.store.tasks[t];
    var s1 := Step(c, s, Begin(q, Canceller(None), t));
    assert s1 == s.(procs := s.procs[q := Proc(Canceller(None), t, {}, CommandRead)]);
    var s2 := Step(c, s1, Advance(q, CALM));
    assert Decide(c, s1, s1.procs[q], CALM) == Goto(CommandWrite(seen));
    assert s2.procs == s.procs[q := Proc(Canceller(None), t, {}, CommandWrite(seen))];
    assert Decide(c, s2, s2.procs[q], CALM) == Write(RequestCancel(None), seen, CommandDone);
    s' := Step(c, s2, Advance(q, CALM));
  }

  /** The worker's write finds another revision and is refused. */
  lemma OvertakenWorkerExits(c: Config, s: Sys, p: ProcId)
    requires p in s.procs && s.procs[p].role.Invocation?
    requires s.procs[p].pc.FailWrite? && s.procs[p].pc.site.Exit?
    requires s.procs[p].pc.seen.taskId in s.ledger.store.tasks
    requires s.ledger.store.tasks[s.procs[p].pc.seen.taskId].revision != s.procs[p].pc.seen.revision
    ensures Step(c, s, Advance(p, CALM)).procs ==
            s.procs[p := s.procs[p].(pc := Exiting(Outrun(s.procs[p].pc.seen.revision)))]
    ensures Step(c, s, Advance(p, CALM)).ledger == s.ledger
  {
    var pr := s.procs[p];
    assert Verdict(s.ledger.store, s.now, Fail(Failure(pr.pc.error)), pr.pc.seen, CALM) ==
           Some(StoreFailure(Conflict));
    assert Decide(c, s, pr, CALM) == Goto(Exiting(Outrun(pr.pc.seen.revision)));
  }

  lemma CancelAdvancesRevision(s: Sys, t: TaskId, q: ProcId)
    requires t in s.ledger.store.tasks && s.ledger.store.tasks[t].taskId == t
    requires s.ledger.store.tasks[t].state in Allowed(RequestCancel(None))
    ensures var l' := WriteTo(s.ledger, s.now, q, RequestCancel(None), s.ledger.store.tasks[t]);
            && t in l'.store.tasks
            && l'.store.tasks[t].revision == s.ledger.store.tasks[t].revision + 1
            && l'.store.tasks[t].state == CancelRequested
  {
  }

  lemma RaceFrom(c: Config, s: Sys, p: ProcId, q: ProcId, t: TaskId) returns (s': Sys)
    requires p in s.procs && q !in s.procs && s.procs[p].task == t
    requires s.procs[p].role.Invocation? && s.procs[p].pc.FailWrite? && s.procs[p].pc.site.Exit?
    requires t in s.ledger.store.tasks && s.ledger.store.tasks[t].taskId == t
    requires s.procs[p].pc.seen.taskId == t
    requires s.procs[p].pc.seen.revision == s.ledger.store.tasks[t].revision
    requires s.ledger.store.tasks[t].state in Allowed(RequestCancel(None))
    requires t in s.ledger.creator && s.ledger.creator[t] == p
    ensures s' == Step(c, Step(c, Step(c, Step(c, s, Begin(q, Canceller(None), t)), Advance(q, CALM)),
                               Advance(q, CALM)), Advance(p, CALM))
    ensures p in s'.procs && s'.procs[p].pc == Exiting(Outrun(s.procs[p].pc.seen.revision))
    ensures Abandoned(s', t)
  {
    var s3 := CancelGoesThrough(c, s, t, q);
    CancelAdvancesRevision(s, t, q);
    OvertakenWorkerExits(c, s3, p);
    s' := Step(c, s3, Advance(p, CALM));
  }

  function Race(schedule: seq<Action>, p: ProcId, q: ProcId, t: TaskId): seq<Action> {
    schedule + [Begin(q, Canceller(None), t)] + [Advance(q, CALM)] + [Advance(q, CALM)] + [Advance(p, CALM)]
  }

  lemma RaceIsFourSteps(c: Config, schedule: seq<Action>, p: ProcId, q: ProcId, t: TaskId)
    ensures Run(c, Race(schedule, p, q, t)) ==
            Step(c, Step(c, Step(c, Step(c, Run(c, schedule), Begin(q, Canceller(None), t)), Advance(q, CALM)),
                         Advance(q, CALM)), Advance(p, CALM))
  {
    var begin := schedule + [Begin(q, Canceller(None), t)];
    RunMore(c, schedule, Begin(q, Canceller(None), t));
    RunMore(c, begin, Advance(q, CALM));
    RunMore(c, begin + [Advance(q, CALM)], Advance(q, CALM));
    RunMore(c, begin + [Advance(q, CALM)] + [Advance(q, CALM)], Advance(p, CALM));
  }

  /**
   From every reachable state in which a worker is about to record a failure for a task
   that may still be cancelled, one cancel call leads to a state where the worker has
   exited, the task is not terminal, and no continuation ends it.
   */
  lemma EveryExitCanBeOvertaken(c: Config, schedule: seq<Action>, p: ProcId, q: ProcId, more: seq<Action>)
    requires p in Run(c, schedule).procs && q !in Run(c, schedule).procs
    requires var pr := Run(c, schedule).procs[p];
             && pr.role.Invocation? && pr.pc.FailWrite? && pr.pc.site.Exit?
             && pr.task in Run(c, schedule).ledger.store.tasks
             && pr.pc.seen.revision == Run(c, schedule).ledger.store.tasks[pr.task].revision
             && Run(c, schedule).ledger.store.tasks[pr.task].state in Allowed(RequestCancel(None))
    ensures var race := Race(schedule, p, q, Run(c, schedule).procs[p].task);
            && p in Run(c, race).procs
            && Run(c, race).procs[p].pc == Exiting(Outrun(Run(c, schedule).procs[p].pc.seen.revision))
            && Abandoned(Run(c, race + more), Run(c, schedule).procs[p].task)
  {
    var s := Run(c, schedule);
    var t := s.procs[p].task;
    EveryRunKeepsInv(c, schedule);
    HolderFacts(c, s, p);
    var s' := RaceFrom(c, s, p, q, t);
    RaceIsFourSteps(c, schedule, p, q, t);
    AbandonedTasksNeverEnd(c, Race(schedule, p, q, t), more, t);
  }

  lemma HolderFacts(c: Config, s: Sys, p: ProcId)
    requires Inv(c, s) && p in s.procs && s.procs[p].role.Invocation? && s.procs[p].pc.FailWrite?
    ensures var t := s.procs[p].task;
            && t in s.ledger.store.tasks && s.ledger.store.tasks[t].taskId == t
            && s.procs[p].pc.seen.taskId == t && t in s.ledger.creator && s.ledger.creator[t] == p
  {
    assert SeenIsPast(s.ledger, s.procs[p]);
    CurrentState(s.ledger, s.now, s.procs[p].task);
  }

  // ---------------------------------------------------------------- the guard of the last write

  lemma AdvanceProc(c: Config, s: Sys, p: ProcId, env: Env)
    requires p in s.procs
    ensures var s', m := Step(c, s, Advance(p, env)), Decide(c, s, s.procs[p], env);
            && p in s'.procs && s'.procs[p] == ProcAfter(s.now, s.procs[p], m)
            && (m.Goto? ==> s'.ledger == s.ledger)
  {
  }

  lemma FailWriteMove(c: Config, s: Sys, pr: Proc, env: Env)
    requires pr.role.Invocation? && pr.pc.FailWrite? && pr.pc.seen.taskId in s.ledger.store.tasks && !env.fault
    requires Verdict(s.ledger.store, s.now, Fail(Failure(pr.pc.error)), pr.pc.seen, env).None? <==>
             pr.pc.seen.revision == s.ledger.store.tasks[pr.pc.seen.taskId].revision
    ensures var m := Decide(c, s, pr, env);
            if pr.pc.seen.revision == s.ledger.store.tasks[pr.pc.seen.taskId].revision
            then m == Write(Fail(Failure(pr.pc.error)), pr.pc.seen, AfterFail(pr.pc.site, Settled, pr.pc.error))
            else m.Goto? && exists e :: m.pc == AfterFail(pr.pc.site, Outrun(pr.pc.seen.revision), e)
  {
    var refusal := Verdict(s.ledger.store, s.now, Fail(Failure(pr.pc.error)), pr.pc.seen, env);
    if refusal.Some? {
      assert Decide(c, s, pr, env) == Goto(AfterFail(pr.pc.site, Outrun(pr.pc.seen.revision), refusal.value));
    }
  }

  /** A failure write of a rejected invoke or of an exiting worker, the store answering. */
  lemma FailWriteStep(c: Config, s: Sys, p: ProcId, env: Env)
    requires Recorded(s.ledger, s.now) && p in s.procs && SeenIsPast(s.ledger, s.procs[p])
    requires s.procs[p].role.Invocation? && s.procs[p].pc.FailWrite? && !s.procs[p].pc.site.Handler?
    requires !s.procs[p].pc.seen.state.Terminal() && !env.fault
    ensures var pr := s.procs[p];
            var s' := Step(c, s, Advance(p, env));
            && pr.task in s.ledger.store.tasks && p in s'.procs && s'.procs[p].role == pr.role
            && s'.procs[p].task == pr.task && s'.procs[p].pc.Over()
            && OutcomeOf(s'.procs[p].pc) ==
               Some(if pr.pc.seen.revision == s.ledger.store.tasks[pr.task].revision then Settled
                    else Outrun(pr.pc.seen.revision))
  {
    var pr := s.procs[p];
    CurrentState(s.ledger, s.now, pr.task);
    FailIsAllowed(Failure(pr.pc.error), pr.pc.seen.state);
    FailVerdict(s, pr, env);
    FailWriteMove(c, s, pr, env);
    AdvanceProc(c, s, p, env);
    MovedPast(s.now, pr, Decide(c, s, pr, env));
  }

  lemma MovedPast(now: Time, pr: Proc, m: Move)
    requires pr.pc.FailWrite? && !pr.pc.site.Handler? && (m.Goto? || m.Write?)
    ensures ProcAfter(now, pr, m) == pr.(pc := m.pc)
    ensures forall outcome, e | m.pc == AfterFail(pr.pc.site, outcome, e) ::
              m.pc.Over() && OutcomeOf(m.pc) == Some(outcome)
  {
  }

  lemma FailVerdict(s: Sys, pr: Proc, env: Env)
    requires pr.pc.FailWrite? && pr.pc.seen.taskId in s.ledger.store.tasks && !env.fault
    requires pr.pc.seen.state in Allowed(Fail(Failure(pr.pc.error)))
    requires var current := s.ledger.store.tasks[pr.pc.seen.taskId];
             pr.pc.seen.revision == current.revision ==> pr.pc.seen.state == current.state
    ensures Verdict(s.ledger.store, s.now, Fail(Failure(pr.pc.error)), pr.pc.seen, env).None? <==>
            pr.pc.seen.revision == s.ledger.store.tasks[pr.pc.seen.taskId].revision
  {
  }

  /**
   From every reachable state in which a rejected invoke or an exiting worker is about to
   record its failure, the store answering: afterwards the task is terminal if and only if
   its revision is still the one the writer has read; otherwise no continuation ends it.
   */
  lemma LastWriteEndsExactlyWhenCurrent(c: Config, schedule: seq<Action>, p: ProcId, env: Env, more: seq<Action>)
    requires p in Run(c, schedule).procs && !env.fault
    requires var pr := Run(c, schedule).procs[p];
             pr.role.Invocation? && pr.pc.FailWrite? && !pr.pc.site.Handler?
    ensures var s, s' := Run(c, schedule), Run(c, schedule + [Advance(p, env)]);
            var t := s.procs[p].task;
            && t in s.ledger.store.tasks && t in s'.ledger.store.tasks
            && (s'.ledger.store.tasks[t].state.Terminal() <==>
                s.procs[p].pc.seen.revision == s.ledger.store.tasks[t].revision)
            && (s.procs[p].pc.seen.revision != s.ledger.store.tasks[t].revision ==>
                Abandoned(Run(c, schedule + [Advance(p, env)] + more), t))
  {
    var s := Run(c, schedule);
    EveryRunKeepsInv(c, schedule);
    HolderFacts(c, s, p);
    assert Stands(s.ledger, p, s.procs[p]) && SeenIsPast(s.ledger, s.procs[p]);
    FailWriteStep(c, s, p, env);
    RunMore(c, schedule, Advance(p, env));
    AfterLastWrite(c, schedule + [Advance(p, env)], p, more);
  }

  lemma AfterLastWrite(c: Config, schedule: seq<Action>, p: ProcId, more: seq<Action>)
    requires p in Run(c, schedule).procs
    requires var pr := Run(c, schedule).procs[p];
             && pr.role.Invocation? && pr.pc.Over()
             && OutcomeOf(pr.pc).Some? && OutcomeOf(pr.pc).value != Faulted
    ensures var s := Run(c, schedule);
            var t := s.procs[p].task;
            && t in s.ledger.store.tasks
            && (s.ledger.store.tasks[t].state.Terminal() <==> OutcomeOf(s.procs[p].pc).value == Settled)
            && (OutcomeOf(s.procs[p].pc).value.Outrun? ==> Abandoned(Run(c, schedule + more), t))
  {
    var s := Run(c, schedule);
    WorkerLeavesItsTaskTerminalUnlessOvertaken(c, schedule, p);
    CreatorOf(c, schedule, p);
    if OutcomeOf(s.procs[p].pc).value.Outrun? {
      AbandonedTasksNeverEnd(c, schedule, more, s.procs[p].task);
    }
  }

  lemma CreatorOf(c: Config, schedule: seq<Action>, p: ProcId)
    requires p in Run(c, schedule).procs
    requires Run(c, schedule).procs[p].role.Invocation? && Run(c, schedule).procs[p].pc.Owns()
    ensures var s := Run(c, schedule);
            s.procs[p].task in s.ledger.creator && s.ledger.creator[s.procs[p].task] == p
  {
    EveryRunKeepsInv(c, schedule);
  }

  // ---------------------------------------------------------------- the guard of the acceptance

  lemma AcceptMove(c: Config, s: Sys, pr: Proc, env: Env)
    requires pr.role.Invocation? && pr.pc.Accepting? && pr.pc.seen.revision == 0 && !env.fault
    requires pr.pc.seen.taskId in s.ledger.store.tasks
    requires var current := s.ledger.store.tasks[pr.pc.seen.taskId]; current.revision == 0 ==> current.state == Created
    ensures Decide(c, s, pr, env) ==
            if s.ledger.store.tasks[pr.pc.seen.taskId].revision == 0
            then Write(Accept, pr.pc.seen, Acquiring(QueueSlot))
            else Goto(Returned(Unaccepted(StoreFailure(Conflict))))
  {
  }

  lemma AcceptStep(c: Config, s: Sys, p: ProcId, env: Env)
    requires Recorded(s.ledger, s.now) && p in s.procs && SeenIsPast(s.ledger, s.procs[p])
    requires s.procs[p].role.Invocation? && s.procs[p].pc.Accepting? && s.procs[p].pc.seen.revision == 0 && !env.fault
    ensures var pr := s.procs[p];
            var s' := Step(c, s, Advance(p, env));
            && pr.task in s.ledger.store.tasks && p in s'.procs
            && s'.procs[p].role == pr.role && s'.procs[p].task == pr.task
            && if s.ledger.store.tasks[pr.task].revision == 0 then s'.procs[p].pc == Acquiring(QueueSlot)
               else s'.ledger == s.ledger && s'.procs[p].pc == Returned(Unaccepted(StoreFailure(Conflict)))
  {
    var pr := s.procs[p];
    CurrentState(s.ledger, s.now, pr.task);
    if s.ledger.store.tasks[pr.task].revision == 0 {
      FirstRevisionIsCreated(s.ledger, s.now, pr.task);
    }
    AcceptMove(c, s, pr, env);
    AdvanceProc(c, s, p, env);
    assert pr.pc.seen.taskId == pr.task;
  }

  /**
   From every reachable state in which an invocation has created its task and is about to
   accept it, the store answering: it goes on if and only if nothing was committed to the
   task since; otherwise it gives up on a task that is open, and no continuation ends it.
   */
  lemma AcceptanceGoesThroughExactlyWhenFirst(c: Config, schedule: seq<Action>, p: ProcId, env: Env,
                                              more: seq<Action>)
    requires p in Run(c, schedule).procs && !env.fault
    requires Run(c, schedule).procs[p].role.Invocation? && Run(c, schedule).procs[p].pc.Accepting?
    ensures var s, s' := Run(c, schedule), Run(c, schedule + [Advance(p, env)]);
            var t := s.procs[p].task;
            && t in s.ledger.store.tasks && p in s'.procs
            && (s'.procs[p].pc == Acquiring(QueueSlot) <==> s.ledger.store.tasks[t].revision == 0)
            && (s.ledger.store.tasks[t].revision != 0 ==>
                && s'.procs[p].pc == Returned(Unaccepted(StoreFailure(Conflict)))
                && Abandoned(Run(c, schedule + [Advance(p, env)] + more), t))
  {
    var s := Run(c, schedule);
    EveryRunKeepsInv(c, schedule);
    assert Stands(s.ledger, p, s.procs[p]) && SeenIsPast(s.ledger, s.procs[p]);
    AcceptStep(c, s, p, env);
    RunMore(c, schedule, Advance(p, env));
    var t := s.procs[p].task;
    if s.ledger.store.tasks[t].revision != 0 {
      UnacceptedIsAbandoned(c, s, schedule + [Advance(p, env)], p);
      AbandonedTasksNeverEnd(c, schedule + [Advance(p, env)], more, t);
    }
  }

  lemma UnacceptedIsAbandoned(c: Config, s: Sys, schedule: seq<Action>, p: ProcId)
    requires Inv(c, s) && p in s.procs && s.procs[p].role.Invocation? && s.procs[p].pc.Accepting?
    requires s.procs[p].task in s.ledger.store.tasks && s.ledger.store.tasks[s.procs[p].task].revision != 0
    requires var s' := Run(c, schedule);
             && s'.ledger == s.ledger && p in s'.procs && s'.procs[p].pc.Returned?
    ensures Abandoned(Run(c, schedule), s.procs[p].task)
  {
    var t := s.procs[p].task;
    assert Stands(s.ledger, p, s.procs[p]);
    CurrentState(s.ledger, s.now, t);
    OvertakenIsOpen(s, t, 0);
  }

  /** A cancel that commits between creation and acceptance, from any such state: the run ends in an abandoned task. */
  lemma EveryAcceptanceCanBeOvertaken(c: Config, schedule: seq<Action>, p: ProcId, q: ProcId, more: seq<Action>)
    requires p in Run(c, schedule).procs && q !in Run(c, schedule).procs
    requires Run(c, schedule).procs[p].role.Invocation? && Run(c, schedule).procs[p].pc.Accepting?
    requires var s := Run(c, schedule);
             s.procs[p].task in s.ledger.store.tasks && s.ledger.store.tasks[s.procs[p].task].revision == 0
    ensures Abandoned(Run(c, Race(schedule, p, q, Run(c, schedule).procs[p].task) + more),
                      Run(c, schedule).procs[p].task)
  {
    var t := Run(c, schedule).procs[p].task;
    CancelComesFirst(c, schedule, p, q);
    AcceptanceGoesThroughExactlyWhenFirst(c, Cancelled(schedule, q, t), p, CALM, more);
  }

  function Cancelled(schedule: seq<Action>, q: ProcId, t: TaskId): seq<Action> {
    schedule + [Begin(q, Canceller(None), t)] + [Advance(q, CALM)] + [Advance(q, CALM)]
  }

  lemma CancelComesFirst(c: Config, schedule: seq<Action>, p: ProcId, q: ProcId)
    requires p in Run(c, schedule).procs && q !in Run(c, schedule).procs
    requires var s := Run(c, schedule);
             s.procs[p].task in s.ledger.store.tasks && s.ledger.store.tasks[s.procs[p].task].revision == 0
    ensures var t := Run(c, schedule).procs[p].task;
            var s' := Run(c, Cancelled(schedule, q, t));
            && p in s'.procs && s'.procs[p] == Run(c, schedule).procs[p]
            && t in s'.ledger.store.tasks && s'.ledger.store.tasks[t].revision == 1
  {
    var s := Run(c, schedule);
    var t := s.procs[p].task;
    FirstInRun(c, schedule, t);
    var s3 := CancelGoesThrough(c, s, t, q);
    CancelAdvancesRevision(s, t, q);
    ThreeSteps(c, schedule, q, t);
  }

  lemma FirstRevisionIsCreated(l: Ledger, now: Time, t: TaskId)
    requires Recorded(l, now) && t in l.store.tasks && l.store.tasks[t].revision == 0
    ensures l.store.tasks[t].taskId == t && l.store.tasks[t].state == Created
  {
    CurrentState(l, now, t);
    assert RecordOf(l, now, t);
  }

  lemma FirstInRun(c: Config, schedule: seq<Action>, t: TaskId)
    requires t in Run(c, schedule).ledger.store.tasks && Run(c, schedule).ledger.store.tasks[t].revision == 0
    ensures var snapshot := Run(c, schedule).ledger.store.tasks[t]; snapshot.taskId == t && snapshot.state == Created
  {
    EveryRunKeepsInv(c, schedule);
    FirstRevisionIsCreated(Run(c, schedule).ledger, Run(c, schedule).now, t);
  }

  lemma ThreeSteps(c: Config, schedule: seq<Action>, q: ProcId, t: TaskId)
    ensures Run(c, Cancelled(schedule, q, t)) ==
            Step(c, Step(c, Step(c, Run(c, schedule), Begin(q, Canceller(None), t)), Advance(q, CALM)), Advance(q, CALM))
  {
    var begin := schedule + [Begin(q, Canceller(None), t)];
    RunMore(c, schedule, Begin(q, Canceller(None), t));
    RunMore(c, begin, Advance(q, CALM));
    RunMore(c, begin + [Advance(q, CALM)], Advance(q, CALM));
  }

  /** Such a state is the second step of every first invocation. */
  lemma CreationReachesAcceptance(c: Config, agent: AgentId, caller: CallerId, key: string, t: TaskId)
    requires agent in c.agents
    ensures var s := Run(c, [] + [Begin(0, Invocation(caller, agent, key), t)] + [Advance(0, CALM)]);
            && s.procs.Keys == {0} && s.procs[0].role.Invocation? && s.procs[0].task == t && s.procs[0].pc.Accepting?
            && t in s.ledger.store.tasks && s.ledger.store.tasks[t].revision == 0
  {
    var role := Invocation(caller, agent, key);
    RunMore(c, [], Begin(0, role, t));
    RunMore(c, [] + [Begin(0, role, t)], Advance(0, CALM));
    var s1 := Run(c, [] + [Begin(0, role, t)]);
    assert s1.procs == map[0 := Proc(role, t, {}, Creating)];
    assert Decide(c, s1, s1.procs[0], CALM) == Open;
  }

  // ---------------------------------------------------------------- the worker's state is reached

  /** Whatever the limits, as long as each allows one task: the run of a driver that refuses to start. */
  lemma RefusedDriverReachesExit(c: Config, agent: AgentId, caller: CallerId, key: string, t: TaskId)
    returns (schedule: seq<Action>)
    requires agent in c.agents && c.agents[agent].maxQueuedTasks > 0 && c.agents[agent].maxConcurrentTasks > 0
    requires c.maxConcurrent > 0 && c.callerMaxConcurrent > 0
    ensures var s := Run(c, schedule);
            && s.procs.Keys == {0} && s.procs[0].role.Invocation? && s.procs[0].task == t
            && s.procs[0].pc.FailWrite? && s.procs[0].pc.site.Exit?
            && t in s.ledger.store.tasks && s.ledger.store.tasks[t].state == Accepted
            && s.procs[0].pc.seen == s.ledger.store.tasks[t]
  {
    var role := Invocation(caller, agent, key);
    schedule := [Begin(0, role, t)];
    assert schedule == [] + [Begin(0, role, t)];
    RunMore(c, [], Begin(0, role, t));
    schedule := Accepts(c, schedule, role, t);
    schedule := Climbs(c, schedule, role, t);
    schedule := Launches(c, schedule, role, t);
    schedule := Refuses(c, schedule, role, t);
  }

  ghost predicate Alone(s: Sys, role: Role, t: TaskId, held: set<Sem>, pc: Pc) {
    s.procs == map[0 := Proc(role, t, held, pc)]
  }

  lemma OneStep(c: Config, schedule: seq<Action>, env: Env, m: Move, role: Role, t: TaskId, held: set<Sem>, pc: Pc)
    requires Alone(Run(c, schedule), role, t, held, pc)
    requires Decide(c, Run(c, schedule), Proc(role, t, held, pc), env) == m
    ensures Run(c, schedule + [Advance(0, env)]) == Perform(c, Run(c, schedule), 0, m)
  {
    RunMore(c, schedule, Advance(0, env));
  }

  lemma Accepts(c: Config, schedule: seq<Action>, role: Role, t: TaskId) returns (schedule': seq<Action>)
    requires role.Invocation? && Run(c, schedule) == INITIAL.(procs := map[0 := Proc(role, t, {}, Creating)])
    ensures Alone(Run(c, schedule'), role, t, {}, Acquiring(QueueSlot))
    ensures Run(c, schedule').available == map[]
    ensures var store := Run(c, schedule').ledger.store; t in store.tasks && store.tasks[t].state == Accepted
  {
    var s := Run(c, schedule);
    var blank := Store.Fresh(NewTaskOf(s.procs[0]), s.now);
    OneStep(c, schedule, CALM, Open, role, t, {}, Creating);
    var created := schedule + [Advance(0, CALM)];
    var s1 := Run(c, created);
    assert Alone(s1, role, t, {}, Accepting(blank));
    assert s1.ledger.store.tasks[t] == blank;
    OneStep(c, created, CALM, Write(Accept, blank, Acquiring(QueueSlot)), role, t, {}, Accepting(blank));
    schedule' := created + [Advance(0, CALM)];
  }

  lemma Grabs(c: Config, schedule: seq<Action>, sem: Sem, role: Role, t: TaskId, held: set<Sem>)
    requires role.Invocation? && Alone(Run(c, schedule), role, t, held, Acquiring(sem))
    requires Available(c, Run(c, schedule), PoolOf(Proc(role, t, held, Acquiring(sem)), sem)) > 0
    ensures var s, s' := Run(c, schedule), Run(c, schedule + [Advance(0, CALM)]);
            && Alone(s', role, t, held + {sem}, AfterGrab(sem))
            && s'.ledger == s.ledger && s'.now == s.now
            && s'.available.Keys == s.available.Keys + {PoolOf(Proc(role, t, held, Acquiring(sem)), sem)}
  {
    OneStep(c, schedule, CALM, Grab(sem, AfterGrab(sem)), role, t, held, Acquiring(sem));
  }

  /** The four permits, taken one after the other. */
  lemma Climbs(c: Config, schedule: seq<Action>, role: Role, t: TaskId) returns (schedule': seq<Action>)
    requires role.Invocation? && Alone(Run(c, schedule), role, t, {}, Acquiring(QueueSlot))
    requires Run(c, schedule).available == map[]
    requires role.agent in c.agents
    requires c.agents[role.agent].maxQueuedTasks > 0 && c.agents[role.agent].maxConcurrentTasks > 0
    requires c.maxConcurrent > 0 && c.callerMaxConcurrent > 0
    ensures Alone(Run(c, schedule'), role, t, ALL, Dropping([QueueSlot], ToLaunch))
    ensures Run(c, schedule').ledger == Run(c, schedule).ledger
  {
    var step := [Advance(0, CALM)];
    Grabs(c, schedule, QueueSlot, role, t, {});
    var a := schedule + step;
    var none: set<Sem> := {};
    assert none + {QueueSlot} == {QueueSlot};
    Grabs(c, a, CallerSlot, role, t, {QueueSlot});
    var b := a + step;
    assert {QueueSlot} + {CallerSlot} == {QueueSlot, CallerSlot};
    Grabs(c, b, GlobalSlot, role, t, {QueueSlot, CallerSlot});
    var d := b + step;
    assert {QueueSlot, CallerSlot} + {GlobalSlot} == {QueueSlot, CallerSlot, GlobalSlot};
    Grabs(c, d, AgentSlot, role, t, {QueueSlot, CallerSlot, GlobalSlot});
    schedule' := d + step;
  }

  const ALL := {QueueSlot, CallerSlot, GlobalSlot} + {AgentSlot}

  lemma Launches(c: Config, schedule: seq<Action>, role: Role, t: TaskId) returns (schedule': seq<Action>)
    requires role.Invocation? && Alone(Run(c, schedule), role, t, ALL, Dropping([QueueSlot], ToLaunch))
    ensures Alone(Run(c, schedule'), role, t, RUNNING, Launching)
    ensures Run(c, schedule').ledger == Run(c, schedule).ledger
  {
    var step := [Advance(0, CALM)];
    assert [QueueSlot][1..] == [];
    OneStep(c, schedule, CALM, Release(QueueSlot, Dropping([], ToLaunch)), role, t, ALL,
            Dropping([QueueSlot], ToLaunch));
    var f := schedule + step;
    assert ALL - {QueueSlot} == RUNNING;
    OneStep(c, f, CALM, Goto(Launching), role, t, RUNNING, Dropping([], ToLaunch));
    schedule' := f + step;
  }

  lemma Refuses(c: Config, schedule: seq<Action>, role: Role, t: TaskId) returns (schedule': seq<Action>)
    requires role.Invocation? && Alone(Run(c, schedule), role, t, RUNNING, Launching)
    requires var store := Run(c, schedule).ledger.store; t in store.tasks && store.tasks[t].state == Accepted
    ensures var s := Run(c, schedule');
            && t in s.ledger.store.tasks && s.ledger.store.tasks[t].state == Accepted
            && Alone(s, role, t, RUNNING, FailWrite(Exit, DriverError("refused"), s.ledger.store.tasks[t]))
  {
    var refusal := Env(false, DriverRefused("refused"));
    var error := DriverError("refused");
    OneStep(c, schedule, refusal, Goto(FailRead(Exit, error)), role, t, RUNNING, Launching);
    var failing := schedule + [Advance(0, refusal)];
    var seen := Run(c, failing).ledger.store.tasks[t];
    OneStep(c, failing, CALM, Goto(FailWrite(Exit, error, seen)), role, t, RUNNING, FailRead(Exit, error));
    schedule' := failing + [Advance(0, CALM)];
  }
}
