/**
 What holds in every state that any schedule of the core can reach, and between any
 two points of a run.
 */
module CoreTheorems {
  import opened TaskModel
  import opened Lifecycle
  import opened CoreErrors
  import opened Core
  import opened CoreMoves
  import opened CoreHistory
  import opened CoreOwners
  import opened CorePermits
  import Store = MemoryStore

  // ---------------------------------------------------------------- the invariant

  ghost predicate AllTyped(s: Sys) {
    forall p | p in s.procs :: Typed(s.procs[p])
  }

  /** A repeated invoke was told the task its caller and key name. */
  ghost predicate ToldTheTask(l: Ledger, pr: Proc) {
    pr.pc.Returned? && pr.pc.reply.Existing? ==>
      && pr.role.Invocation? && KeyOf(pr.role) in l.store.idempotency
      && pr.pc.reply.taskId == l.store.idempotency[KeyOf(pr.role)]
  }

  ghost predicate AllTold(s: Sys) {
    forall p | p in s.procs :: ToldTheTask(s.ledger, s.procs[p])
  }

  ghost predicate Inv(c: Config, s: Sys) {
    && AllTyped(s)
    && Recorded(s.ledger, s.now)
    && SnapshotsArePast(s)
    && Owned(s.ledger, s.procs)
    && Authored(s.ledger, s.procs)
    && AllStand(s)
    && AllTold(s)
    && AllHeldOk(s)
    && Conserved(c, s)
    && ActiveOk(s)
  }

  lemma MoverIsTyped(c: Config, s: Sys, pr: Proc, m: Move)
    requires Sound(c, s, pr, m) && Typed(pr)
    ensures Typed(ProcAfter(s.now, pr, m))
  {
    match m
    case Stay =>
    case Goto(pc) =>
    case Open =>
    case Write(op, seen, pc) =>
    case Grab(sem, pc) =>
    case Release(sem, pc) =>
    case Retire(pc) =>
  }

  lemma EffectKeepsTyped(c: Config, s: Sys, e: Effect)
    requires AllTyped(s) && SoundEffect(c, s, e)
    ensures AllTyped(Apply(c, s, e))
  {
    if e.Do? {
      MoverIsTyped(c, s, s.procs[e.id], e.move);
    }
  }

  /** Once a caller and key name a task, they name it for good. */
  ghost predicate KeysStay(l: Ledger, l': Ledger) {
    forall k | k in l.store.idempotency ::
      k in l'.store.idempotency && l'.store.idempotency[k] == l.store.idempotency[k]
  }

  lemma EffectKeepsKeys(c: Config, s: Sys, e: Effect)
    requires SoundEffect(c, s, e)
    ensures KeysStay(s.ledger, Apply(c, s, e).ledger)
  {
    if e.Do? && !e.move.Open? {
      KeysAreKept(c, s, e.id, e.move);
    }
  }

  lemma MoverIsTold(c: Config, s: Sys, id: ProcId, m: Move)
    requires Recorded(s.ledger, s.now) && id in s.procs && Sound(c, s, s.procs[id], m)
    requires ToldTheTask(s.ledger, s.procs[id]) && KeysStay(s.ledger, Perform(c, s, id, m).ledger)
    ensures ToldTheTask(Perform(c, s, id, m).ledger, ProcAfter(s.now, s.procs[id], m))
  {
    match m
    case Stay =>
    case Goto(pc) =>
      if pc.Returned? && pc.reply.Existing? {
        CurrentState(s.ledger, s.now, s.ledger.store.idempotency[KeyOf(s.procs[id].role)]);
      }
    case Open =>
    case Write(op, seen, pc) =>
    case Grab(sem, pc) =>
    case Release(sem, pc) =>
    case Retire(pc) =>
  }

  lemma EffectKeepsTold(c: Config, s: Sys, e: Effect)
    requires Recorded(s.ledger, s.now) && AllTold(s) && SoundEffect(c, s, e)
    ensures AllTold(Apply(c, s, e))
  {
    var s' := Apply(c, s, e);
    EffectKeepsKeys(c, s, e);
    forall p | p in s'.procs ensures ToldTheTask(s'.ledger, s'.procs[p]) {
      if e.Do? && e.id == p {
        assert ToldTheTask(s.ledger, s.procs[p]);
        MoverIsTold(c, s, p, e.move);
      } else if p in s.procs && !(e.Spawn? && e.id == p) {
        assert ToldTheTask(s.ledger, s.procs[p]);
      }
    }
  }

  lemma EffectKeepsInv(c: Config, s: Sys, e: Effect)
    requires Inv(c, s) && SoundEffect(c, s, e)
    ensures Inv(c, Apply(c, s, e)) && Grows(s.ledger, Apply(c, s, e).ledger)
  {
    OwnedMeansFreshIds(s);
    EffectKeepsTyped(c, s, e);
    EffectKeepsRecords(c, s, e);
    EffectKeepsSnapshotsPast(c, s, e);
    EffectKeepsOwned(c, s, e);
    EffectKeepsAuthored(c, s, e);
    EffectKeepsStanding(c, s, e);
    EffectKeepsTold(c, s, e);
    EffectConserves(c, s, e);
    EffectKeepsActive(c, s, e);
  }

  lemma StepKeepsInv(c: Config, s: Sys, a: Action)
    requires Inv(c, s)
    ensures Inv(c, Step(c, s, a)) && Grows(s.ledger, Step(c, s, a).ledger)
  {
    ResolveIsSound(c, s, a);
    EffectKeepsInv(c, s, Resolve(c, s, a));
  }

  lemma InitialInv(c: Config)
    ensures Inv(c, INITIAL)
  {
    forall pool ensures ConservedIn(c, INITIAL, pool) {
      assert Holders(INITIAL.procs, pool) == {};
    }
    forall t ensures ActiveFor(INITIAL, t) {
    }
  }

  lemma {:induction false} EveryRunKeepsInv(c: Config, schedule: seq<Action>)
    ensures Inv(c, Run(c, schedule))
  {
    if schedule == [] {
      InitialInv(c);
    } else {
      var before := schedule[..|schedule| - 1];
      EveryRunKeepsInv(c, before);
      StepKeepsInv(c, Run(c, before), schedule[|schedule| - 1]);
    }
  }

  lemma RunSnoc(c: Config, schedule: seq<Action>, more: seq<Action>)
    requires more != []
    ensures Run(c, schedule + more) ==
            Step(c, Run(c, schedule + more[..|more| - 1]), more[|more| - 1])
  {
    assert (schedule + more)[..|schedule + more| - 1] == schedule + more[..|more| - 1];
  }

  lemma {:induction false} RunsGrow(c: Config, schedule: seq<Action>, more: seq<Action>)
    ensures Grows(Run(c, schedule).ledger, Run(c, schedule + more).ledger)
    decreases |more|
  {
    EveryRunKeepsInv(c, schedule);
    if more == [] {
      assert schedule + more == schedule;
    } else {
      var fewer := more[..|more| - 1];
      RunsGrow(c, schedule, fewer);
      EveryRunKeepsInv(c, schedule + fewer);
      StepKeepsInv(c, Run(c, schedule + fewer), more[|more| - 1]);
      RunSnoc(c, schedule, more);
      GrowsIsTransitive(Run(c, schedule).ledger, Run(c, schedule + fewer).ledger, Run(c, schedule + more).ledger);
    }
  }

  lemma GrowsIsTransitive(l: Ledger, l': Ledger, l'': Ledger)
    requires Grows(l, l') && Grows(l', l'')
    ensures Grows(l, l'')
  {
    forall t | t in l.store.tasks
      ensures l.store.events[t] <= l''.store.events[t] && l.commits[t] <= l''.commits[t]
    {
      assert l.store.events[t] <= l'.store.events[t] <= l''.store.events[t];
      assert l.commits[t] <= l'.commits[t] <= l''.commits[t];
    }
  }

  // ---------------------------------------------------------------- refinement

  ghost function LogOf(s: Sys, t: TaskId): seq<EventKind>
    requires t in s.ledger.store.events
  {
    Kinds(s.ledger.store.events[t])
  }

  /**
   Refinement: whatever the interleaving, the log of a task is the log the atomic
   system writes when it runs the committed operations one after the other, and each
   of those operations took effect there.
   */
  lemma EveryRunRefinesTheAtomicSystem(c: Config, schedule: seq<Action>, t: TaskId)
    requires t in Run(c, schedule).ledger.store.tasks
    ensures var s := Run(c, schedule);
            && t in s.ledger.store.events && t in s.ledger.commits
            && AllWrite(Ops(s.ledger.commits[t]))
            && AtomicRun(Ops(s.ledger.commits[t])) == LogOf(s, t)
            && |s.ledger.commits[t]| == |LogOf(s, t)|
            && Legal(LogOf(s, t))
  {
    var s := Run(c, schedule);
    EveryRunKeepsInv(c, schedule);
    assert RecordOf(s.ledger, s.now, t);
    AtomicRunIsLegal(Ops(s.ledger.commits[t]));
  }

  /** Event sourcing: numbering 1..n, revision and last number n, state and end time folded from the log. */
  lemma EveryRunIsEventSourced(c: Config, schedule: seq<Action>, t: TaskId)
    requires t in Run(c, schedule).ledger.store.tasks
    ensures var s := Run(c, schedule).ledger.store;
            && t in s.events && s.tasks[t].taskId == t
            && Store.Sourced(s.tasks[t], s.events[t])
            && Store.Chronological(s.events[t])
            && (s.tasks[t].terminalAt.Some? <==> s.tasks[t].state.Terminal())
  {
    var s := Run(c, schedule);
    EveryRunKeepsInv(c, schedule);
    assert RecordOf(s.ledger, s.now, t);
  }

  /** A write computed from a snapshot that is no longer current is never committed. */
  lemma NothingStaleIsCommitted(c: Config, schedule: seq<Action>, id: ProcId, env: Env)
    requires id in Run(c, schedule).procs
    requires Decide(c, Run(c, schedule), Run(c, schedule).procs[id], env).Write?
    ensures var s := Run(c, schedule);
            var m := Decide(c, s, s.procs[id], env);
            && s.procs[id].task in s.ledger.store.tasks
            && m.seen.revision == s.ledger.store.tasks[s.procs[id].task].revision
            && m.seen.state == s.ledger.store.tasks[s.procs[id].task].state
  {
    var s := Run(c, schedule);
    EveryRunKeepsInv(c, schedule);
    DecideIsSound(c, s, s.procs[id], env);
    assert SeenIsPast(s.ledger, s.procs[id]);
    SuccessMeansFresh(s.ledger, s.now, s.procs[id], Decide(c, s, s.procs[id], env).op);
    CurrentState(s.ledger, s.now, s.procs[id].task);
  }

  // ---------------------------------------------------------------- safety between two points

  /**
   Between any two points of a run a task's log is extended at its end, its rank never
   falls, and a terminal task is left exactly as it was.
   */
  lemma TasksOnlyMoveForward(c: Config, schedule: seq<Action>, more: seq<Action>, t: TaskId)
    requires t in Run(c, schedule).ledger.store.tasks
    ensures t in Run(c, schedule + more).ledger.store.tasks
    ensures t in Run(c, schedule).ledger.store.events && t in Run(c, schedule + more).ledger.store.events
    ensures var log, log' := Run(c, schedule).ledger.store.events[t], Run(c, schedule + more).ledger.store.events[t];
            var state, state' := Run(c, schedule).ledger.store.tasks[t].state,
                                 Run(c, schedule + more).ledger.store.tasks[t].state;
            && log <= log'
            && Rank(state) <= Rank(state')
            && (state.Terminal() ==> log' == log && state' == state)
  {
    var s, s' := Run(c, schedule), Run(c, schedule + more);
    RunsGrow(c, schedule, more);
    EveryRunRefinesTheAtomicSystem(c, schedule + more, t);
    StateInRun(c, schedule, t);
    StateInRun(c, schedule + more, t);
    StateAtIsStable(s.ledger, s'.ledger, t, |s.ledger.store.events[t]|);
    ForwardFrom(s, s', t, |s.ledger.store.events[t]|);
  }

  lemma StateInRun(c: Config, schedule: seq<Action>, t: TaskId)
    requires t in Run(c, schedule).ledger.store.tasks
    ensures var l := Run(c, schedule).ledger;
            t in l.store.events && StateAt(l, t, |l.store.events[t]|) == l.store.tasks[t].state
  {
    EveryRunKeepsInv(c, schedule);
    CurrentState(Run(c, schedule).ledger, Run(c, schedule).now, t);
  }

  lemma ForwardFrom(s: Sys, s': Sys, t: TaskId, n: nat)
    requires t in s.ledger.store.tasks && t in s.ledger.store.events && n == |s.ledger.store.events[t]|
    requires t in s'.ledger.store.tasks && t in s'.ledger.store.events
    requires s.ledger.store.events[t] <= s'.ledger.store.events[t] && Legal(LogOf(s', t))
    requires StateAt(s'.ledger, t, n) == s.ledger.store.tasks[t].state
    requires StateAt(s'.ledger, t, |s'.ledger.store.events[t]|) == s'.ledger.store.tasks[t].state
    ensures var state, state' := s.ledger.store.tasks[t].state, s'.ledger.store.tasks[t].state;
            && Rank(state) <= Rank(state')
            && (state.Terminal() ==> s'.ledger.store.events[t] == s.ledger.store.events[t] && state' == state)
  {
    RankNeverFalls(LogOf(s', t), n, |LogOf(s', t)|);
    if s.ledger.store.tasks[t].state.Terminal() {
      TerminalIsAbsorbing(LogOf(s', t), n);
    }
  }

  // ---------------------------------------------------------------- who writes what

  /** An event not written by the task's owner is a cancel request or accepted input. */
  lemma OutsidersWriteCommands(s: Sys, t: TaskId, i: nat)
    requires Recorded(s.ledger, s.now) && Authored(s.ledger, s.procs)
    requires t in s.ledger.commits && i < |s.ledger.commits[t]|
    requires s.ledger.commits[t][i].author != s.ledger.creator[t]
    ensures s.ledger.commits[t][i].op.RequestCancel? || s.ledger.commits[t][i].op.GiveInput?
  {
    assert AuthorOk(s.ledger, s.procs, t, s.ledger.commits[t][i]);
  }

  lemma OthersOnlyCommand(s: Sys, t: TaskId, r: nat)
    requires Recorded(s.ledger, s.now) && Authored(s.ledger, s.procs) && t in s.ledger.commits
    requires NotBy(s.ledger.commits[t], r, s.ledger.creator[t])
    ensures forall i | r <= i < |s.ledger.commits[t]| ::
              s.ledger.commits[t][i].op.RequestCancel? || s.ledger.commits[t][i].op.GiveInput?
  {
    var commits := s.ledger.commits[t];
    forall i | r <= i < |commits| ensures commits[i].op.RequestCancel? || commits[i].op.GiveInput? {
      OutsidersWriteCommands(s, t, i);
    }
  }

  lemma LastCommandLeavesOpen(s: Sys, t: TaskId)
    requires Recorded(s.ledger, s.now) && t in s.ledger.commits && s.ledger.commits[t] != []
    requires var op := s.ledger.commits[t][|s.ledger.commits[t]| - 1].op; op.RequestCancel? || op.GiveInput?
    ensures t in s.ledger.store.tasks && !s.ledger.store.tasks[t].state.Terminal()
  {
    var last := |s.ledger.commits[t]| - 1;
    CommitsMatchEvents(s, t, last);
    LastEventDecides(s, t);
    CommandKindIsOpen(s.ledger.commits[t][last].op);
  }

  lemma CommandKindIsOpen(op: Op)
    requires op.Writes() && (op.RequestCancel? || op.GiveInput?)
    ensures !After(KindOf(op)).Terminal()
  {
  }

  /** Where every commit from `r` on is by others, the task is not terminal. */
  lemma OvertakenIsOpen(s: Sys, t: TaskId, r: nat)
    requires Recorded(s.ledger, s.now) && Authored(s.ledger, s.procs)
    requires t in s.ledger.commits && r < |s.ledger.commits[t]|
    requires NotBy(s.ledger.commits[t], r, s.ledger.creator[t])
    ensures t in s.ledger.store.tasks && !s.ledger.store.tasks[t].state.Terminal()
    ensures forall i | r <= i < |s.ledger.commits[t]| ::
              s.ledger.commits[t][i].op.RequestCancel? || s.ledger.commits[t][i].op.GiveInput?
  {
    OthersOnlyCommand(s, t, r);
    LastCommandLeavesOpen(s, t);
  }

  lemma LastEventDecides(s: Sys, t: TaskId)
    requires Recorded(s.ledger, s.now) && t in s.ledger.store.tasks && s.ledger.store.events[t] != []
    ensures |s.ledger.store.events[t]| == |s.ledger.commits[t]|
    ensures var log := s.ledger.store.events[t]; s.ledger.store.tasks[t].state == After(log[|log| - 1].kind)
  {
    assert RecordOf(s.ledger, s.now, t);
  }

  /** How the task of a finished owner stands, by the owner's outcome. */
  ghost predicate LeftBehind(s: Sys, p: ProcId)
    requires p in s.procs && OutcomeOf(s.procs[p].pc).Some?
  {
    var t, outcome := s.procs[p].task, OutcomeOf(s.procs[p].pc).value;
    && t in s.ledger.store.tasks && t in s.ledger.commits
    && (outcome != Faulted ==> (s.ledger.store.tasks[t].state.Terminal() <==> outcome == Settled))
    && (outcome.Outrun? ==>
          && outcome.revision < |s.ledger.commits[t]|
          && forall i | outcome.revision <= i < |s.ledger.commits[t]| ::
               s.ledger.commits[t][i].op.RequestCancel? || s.ledger.commits[t][i].op.GiveInput?)
  }

  lemma StandingOwner(s: Sys, p: ProcId, t: TaskId)
    requires Recorded(s.ledger, s.now) && Authored(s.ledger, s.procs)
    requires p in s.procs && OutcomeOf(s.procs[p].pc).Some? && t == s.procs[p].task
    requires t in s.ledger.store.tasks && t in s.ledger.creator && s.ledger.creator[t] == p
    requires Standing(s.ledger.store.tasks[t], s.ledger.commits[t], p, s.procs[p].pc)
    ensures LeftBehind(s, p)
  {
    var outcome := OutcomeOf(s.procs[p].pc).value;
    if outcome.Outrun? {
      OvertakenIsOpen(s, t, outcome.revision);
    }
  }

  lemma DoneOwner(s: Sys, p: ProcId)
    requires Recorded(s.ledger, s.now) && Authored(s.ledger, s.procs) && Owned(s.ledger, s.procs) && AllStand(s)
    requires p in s.procs && s.procs[p].role.Invocation? && OutcomeOf(s.procs[p].pc).Some?
    ensures LeftBehind(s, p)
  {
    assert Stands(s.ledger, p, s.procs[p]);
    StandingOwner(s, p, s.procs[p].task);
  }

  /**
   What the owner of a task leaves behind, exactly. Once it is done with the task and the
   store did not fail under its last read or write, the task is terminal if and only if
   the owner was not overtaken; and it was overtaken if and only if a cancel or an input
   was committed at the revision its last write expected, with nothing but such commands
   since.
   */
  lemma WorkerLeavesItsTaskTerminalUnlessOvertaken(c: Config, schedule: seq<Action>, p: ProcId)
    requires p in Run(c, schedule).procs
    requires var pr := Run(c, schedule).procs[p];
             pr.role.Invocation? && OutcomeOf(pr.pc).Some? && OutcomeOf(pr.pc).value != Faulted
    ensures LeftBehind(Run(c, schedule), p)
  {
    EveryRunKeepsInv(c, schedule);
    DoneOwner(Run(c, schedule), p);
  }

  /** The owner of `t` is done and the task is not terminal. */
  ghost predicate Abandoned(s: Sys, t: TaskId) {
    && t in s.ledger.creator && s.ledger.creator[t] in s.procs
    && s.procs[s.ledger.creator[t]].pc.Over()
    && t in s.ledger.store.tasks && !s.ledger.store.tasks[t].state.Terminal()
  }

  lemma OverStaysOver(c: Config, s: Sys, pr: Proc, m: Move)
    requires Sound(c, s, pr, m) && pr.pc.Over()
    ensures ProcAfter(s.now, pr, m).pc.Over() && !m.Write? && !m.Open?
  {
    match m
    case Stay =>
    case Goto(pc) =>
    case Open =>
    case Write(op, seen, pc) =>
    case Grab(sem, pc) =>
    case Release(sem, pc) =>
    case Retire(pc) =>
  }

  lemma OwnerOverSurvives(c: Config, s: Sys, id: ProcId, m: Move, t: TaskId)
    requires id in s.procs && Sound(c, s, s.procs[id], m) && Abandoned(s, t) && s.ledger.creator[t] == id
    ensures Abandoned(Perform(c, s, id, m), t)
  {
    OverStaysOver(c, s, s.procs[id], m);
  }

  lemma CommandsDoNotEnd(role: Role, op: Op)
    requires !role.Invocation? && WritesAs(role, op) && op.Writes()
    ensures !After(KindOf(op)).Terminal()
  {
  }

  lemma AbandonedCarries(s: Sys, s': Sys, t: TaskId)
    requires Abandoned(s, t)
    requires t in s'.ledger.creator && s'.ledger.creator[t] == s.ledger.creator[t]
    requires s.ledger.creator[t] in s'.procs && s'.procs[s.ledger.creator[t]] == s.procs[s.ledger.creator[t]]
    requires t in s'.ledger.store.tasks && !s'.ledger.store.tasks[t].state.Terminal()
    ensures Abandoned(s', t)
  {
  }

  lemma OutsiderDoesNotEnd(c: Config, s: Sys, id: ProcId, m: Move)
    requires Recorded(s.ledger, s.now) && SnapshotsArePast(s) && Owned(s.ledger, s.procs)
    requires id in s.procs && m.Write? && Sound(c, s, s.procs[id], m)
    requires s.procs[id].task in s.ledger.store.tasks && s.ledger.creator[s.procs[id].task] != id
    ensures m.op.Writes() && !After(KindOf(m.op)).Terminal()
  {
    WriterIsAuthor(c, s, id, m);
    CommandsDoNotEnd(s.procs[id].role, m.op);
  }

  lemma OutsidersLeaveTasksLive(c: Config, s: Sys, id: ProcId, m: Move, t: TaskId)
    requires Recorded(s.ledger, s.now) && SnapshotsArePast(s) && Owned(s.ledger, s.procs)
    requires id in s.procs && m.Write? && Sound(c, s, s.procs[id], m)
    requires t in s.ledger.store.tasks && !s.ledger.store.tasks[t].state.Terminal() && s.ledger.creator[t] != id
    ensures var l' := Perform(c, s, id, m).ledger;
            && Keyed(l') && l'.creator == s.ledger.creator
            && t in l'.store.tasks && !l'.store.tasks[t].state.Terminal()
  {
    WriteAdds(c, s, id, m);
    if s.procs[id].task == t {
      OutsiderDoesNotEnd(c, s, id, m);
    }
    AddsLeavesLive(s.ledger, Perform(c, s, id, m).ledger, s.procs[id].task, Commit(id, m.op), t);
  }

  lemma AddsLeavesLive(l: Ledger, l': Ledger, u: TaskId, entry: Commit, t: TaskId)
    requires Adds(l, l', u, entry) && t in l.store.tasks && !l.store.tasks[t].state.Terminal()
    requires t == u ==> entry.op.Writes() && !After(KindOf(entry.op)).Terminal()
    ensures Keyed(l') && l'.creator == l.creator && t in l'.store.tasks && !l'.store.tasks[t].state.Terminal()
  {
  }

  lemma OthersUntouched(c: Config, s: Sys, id: ProcId, m: Move, p: ProcId)
    requires id in s.procs && p in s.procs && p != id
    ensures p in Perform(c, s, id, m).procs && Perform(c, s, id, m).procs[p] == s.procs[p]
  {
  }

  lemma OutsidersWriteSurvives(c: Config, s: Sys, id: ProcId, m: Move, t: TaskId)
    requires Recorded(s.ledger, s.now) && SnapshotsArePast(s) && Owned(s.ledger, s.procs)
    requires id in s.procs && m.Write? && Sound(c, s, s.procs[id], m)
    requires Abandoned(s, t) && s.ledger.creator[t] != id
    ensures Abandoned(Perform(c, s, id, m), t)
  {
    OutsidersLeaveTasksLive(c, s, id, m, t);
    OthersUntouched(c, s, id, m, s.ledger.creator[t]);
    AbandonedCarries(s, Perform(c, s, id, m), t);
  }

  lemma OpenSurvives(c: Config, s: Sys, id: ProcId, m: Move, t: TaskId)
    requires Keyed(s.ledger) && Owned(s.ledger, s.procs)
    requires id in s.procs && m.Open? && Sound(c, s, s.procs[id], m)
    requires Abandoned(s, t) && s.ledger.creator[t] != id
    ensures Abandoned(Perform(c, s, id, m), t)
  {
    OwnedMeansFreshIds(s);
    AbandonedCarries(s, Perform(c, s, id, m), t);
  }

  lemma QuietMoveSurvives(c: Config, s: Sys, id: ProcId, m: Move, t: TaskId)
    requires id in s.procs && !m.Open? && !m.Write?
    requires Abandoned(s, t) && s.ledger.creator[t] != id
    ensures Abandoned(Perform(c, s, id, m), t)
  {
    AbandonedCarries(s, Perform(c, s, id, m), t);
  }

  lemma AbandonedSurvivesEffect(c: Config, s: Sys, e: Effect, t: TaskId)
    requires Recorded(s.ledger, s.now) && SnapshotsArePast(s) && Owned(s.ledger, s.procs)
    requires SoundEffect(c, s, e) && Abandoned(s, t)
    ensures Abandoned(Apply(c, s, e), t)
  {
    if e.Do? {
      AbandonedSurvivesMove(c, s, e.id, e.move, t);
    } else {
      AbandonedSurvivesRest(c, s, e, t);
    }
  }

  lemma AbandonedSurvivesRest(c: Config, s: Sys, e: Effect, t: TaskId)
    requires SoundEffect(c, s, e) && !e.Do? && Abandoned(s, t)
    ensures Abandoned(Apply(c, s, e), t)
  {
  }

  lemma AbandonedSurvivesMove(c: Config, s: Sys, id: ProcId, m: Move, t: TaskId)
    requires Recorded(s.ledger, s.now) && SnapshotsArePast(s) && Owned(s.ledger, s.procs)
    requires id in s.procs && Sound(c, s, s.procs[id], m) && Abandoned(s, t)
    ensures Abandoned(Perform(c, s, id, m), t)
  {
    if id == s.ledger.creator[t] {
      OwnerOverSurvives(c, s, id, m, t);
    } else if m.Write? {
      OutsidersWriteSurvives(c, s, id, m, t);
    } else if m.Open? {
      OpenSurvives(c, s, id, m, t);
    } else {
      QuietMoveSurvives(c, s, id, m, t);
    }
  }

  /**
   Nobody else ends a task: once its owner is done and the task is not terminal, it
   stays so in every continuation of the run.
   */
  lemma {:induction false} AbandonedTasksNeverEnd(c: Config, schedule: seq<Action>, more: seq<Action>, t: TaskId)
    requires Abandoned(Run(c, schedule), t)
    ensures Abandoned(Run(c, schedule + more), t)
    decreases |more|
  {
    if more == [] {
      assert schedule + more == schedule;
    } else {
      var fewer := more[..|more| - 1];
      AbandonedTasksNeverEnd(c, schedule, fewer, t);
      var s := Run(c, schedule + fewer);
      EveryRunKeepsInv(c, schedule + fewer);
      ResolveIsSound(c, s, more[|more| - 1]);
      AbandonedSurvivesEffect(c, s, Resolve(c, s, more[|more| - 1]), t);
      RunSnoc(c, schedule, more);
    }
  }

  lemma NoOutsiderEndsATask(s: Sys, t: TaskId, i: nat)
    requires Recorded(s.ledger, s.now) && Authored(s.ledger, s.procs)
    requires t in s.ledger.commits && i < |s.ledger.commits[t]|
    requires s.ledger.commits[t][i].author != s.ledger.creator[t]
    ensures i < |s.ledger.store.events[t]|
    ensures var kind := s.ledger.store.events[t][i].kind; kind.CancelRequestedEvent? || kind == INPUT_ACCEPTED
  {
    OutsidersWriteCommands(s, t, i);
    CommitsMatchEvents(s, t, i);
  }

  lemma CommitsMatchEvents(s: Sys, t: TaskId, i: nat)
    requires Recorded(s.ledger, s.now) && t in s.ledger.commits && i < |s.ledger.commits[t]|
    ensures i < |s.ledger.store.events[t]| && s.ledger.commits[t][i].op.Writes()
    ensures s.ledger.store.events[t][i].kind == KindOf(s.ledger.commits[t][i].op)
  {
    assert RecordOf(s.ledger, s.now, t);
    var ops := Ops(s.ledger.commits[t]);
    assert ops[..|ops|] == ops;
    EffectiveRunMatches(ops, |ops|, i);
  }

  lemma {:induction false} AtomicRunIsNoLonger(ops: seq<Op>)
    requires AllWrite(ops)
    ensures |AtomicRun(ops)| <= |ops|
  {
    if ops != [] {
      AtomicRunIsNoLonger(ops[..|ops| - 1]);
    }
  }

  lemma EffectiveStep(log: seq<EventKind>, op: Op)
    requires op.Writes() && |AtomicApply(log, op)| > |log|
    ensures AtomicApply(log, op) == log + [KindOf(op)]
  {
  }

  lemma AtomicRunNext(ops: seq<Op>, n: nat)
    requires AllWrite(ops) && 0 < n <= |ops|
    ensures AtomicRun(ops[..n]) == AtomicApply(AtomicRun(ops[..n - 1]), ops[n - 1])
  {
    assert ops[..n][..n - 1] == ops[..n - 1];
  }

  lemma {:induction false} EffectiveRunMatches(ops: seq<Op>, n: nat, i: nat)
    requires AllWrite(ops) && i < n <= |ops| && |AtomicRun(ops[..n])| == n
    ensures AtomicRun(ops[..n])[i] == KindOf(ops[i])
    decreases n
  {
    AtomicRunNext(ops, n);
    AtomicRunIsNoLonger(ops[..n - 1]);
    EffectiveStep(AtomicRun(ops[..n - 1]), ops[n - 1]);
    if i < n - 1 {
      EffectiveRunMatches(ops, n - 1, i);
    }
  }

  /** A legal log of cancel requests and inputs alone holds at most one cancel request. */
  lemma CommandsAloneGoNowhere(log: seq<EventKind>)
    requires Legal(log)
    requires forall i | 0 <= i < |log| :: log[i].CancelRequestedEvent? || log[i] == INPUT_ACCEPTED
    ensures log == [] || (|log| == 1 && log[0].CancelRequestedEvent?)
  {
    if log != [] {
      assert Enabled(StateOf(log[..0]), log[0]);
      NothingButTheEndFollowsCancel(log, 0);
    }
  }

  /**
   A log is empty, or starts with Accepted, or is a single cancel request: a cancel
   that gets in before the acceptance leaves the task with that one event for good,
   because the invoke that created it gives up on the refused write.
   */
  lemma CancelBeforeAcceptIsTheWholeLog(c: Config, schedule: seq<Action>, t: TaskId)
    requires t in Run(c, schedule).ledger.store.tasks
    ensures t in Run(c, schedule).ledger.store.events
    ensures var log := LogOf(Run(c, schedule), t);
            || log == []
            || log[0] == AcceptedEvent(false)
            || (|log| == 1 && log[0].CancelRequestedEvent?)
  {
    var s := Run(c, schedule);
    EveryRunKeepsInv(c, schedule);
    EveryRunRefinesTheAtomicSystem(c, schedule, t);
    FirstEvent(s, t);
  }

  lemma FirstEvent(s: Sys, t: TaskId)
    requires Recorded(s.ledger, s.now) && Owned(s.ledger, s.procs) && Authored(s.ledger, s.procs) && AllStand(s)
    requires t in s.ledger.store.tasks && Legal(LogOf(s, t))
    ensures var log := LogOf(s, t);
            || log == []
            || log[0] == AcceptedEvent(false)
            || (|log| == 1 && log[0].CancelRequestedEvent?)
  {
    var owner, log := s.ledger.creator[t], LogOf(s, t);
    assert IsCreator(s.ledger, s.procs, t, owner);
    assert Stands(s.ledger, owner, s.procs[owner]);
    CurrentState(s.ledger, s.now, t);
    if s.procs[owner].pc.PastAccept() {
      CommitsMatchEvents(s, t, 0);
    } else {
      forall i | 0 <= i < |log| ensures log[i].CancelRequestedEvent? || log[i] == INPUT_ACCEPTED {
        NoOutsiderEndsATask(s, t, i);
      }
      CommandsAloneGoNowhere(log);
    }
  }

  // ---------------------------------------------------------------- idempotency

  /** Of all invocations with one caller and key, at most one created the task and may run a worker. */
  lemma OneCreatorPerKey(c: Config, schedule: seq<Action>, p: ProcId, q: ProcId)
    requires p in Run(c, schedule).procs && q in Run(c, schedule).procs
    requires var s := Run(c, schedule);
             && s.procs[p].role.Invocation? && s.procs[q].role.Invocation?
             && s.procs[p].pc.Owns() && s.procs[q].pc.Owns()
             && KeyOf(s.procs[p].role) == KeyOf(s.procs[q].role)
    ensures p == q
  {
    var s := Run(c, schedule);
    EveryRunKeepsInv(c, schedule);
    assert IsCreator(s.ledger, s.procs, s.procs[p].task, p);
    assert IsCreator(s.ledger, s.procs, s.procs[q].task, q);
  }

  lemma {:induction false} KeysNameOneTaskForEver(c: Config, schedule: seq<Action>, more: seq<Action>)
    ensures KeysStay(Run(c, schedule).ledger, Run(c, schedule + more).ledger)
    decreases |more|
  {
    if more == [] {
      assert schedule + more == schedule;
    } else {
      var fewer := more[..|more| - 1];
      KeysNameOneTaskForEver(c, schedule, fewer);
      var s := Run(c, schedule + fewer);
      EveryRunKeepsInv(c, schedule + fewer);
      ResolveIsSound(c, s, more[|more| - 1]);
      EffectKeepsKeys(c, s, Resolve(c, s, more[|more| - 1]));
      RunSnoc(c, schedule, more);
    }
  }

  /** Every invocation that got past creation, first or repeated, was given the task its key names. */
  lemma EveryReplyNamesTheSameTask(c: Config, schedule: seq<Action>, p: ProcId)
    requires p in Run(c, schedule).procs && Run(c, schedule).procs[p].role.Invocation?
    ensures var s := Run(c, schedule);
            var pr := s.procs[p];
            && (pr.pc.Owns() ==> KeyOf(pr.role) in s.ledger.store.idempotency &&
                                 s.ledger.store.idempotency[KeyOf(pr.role)] == pr.task)
            && (pr.pc.Returned? && pr.pc.reply.Existing? ==>
                  KeyOf(pr.role) in s.ledger.store.idempotency &&
                  s.ledger.store.idempotency[KeyOf(pr.role)] == pr.pc.reply.taskId)
  {
    var s := Run(c, schedule);
    EveryRunKeepsInv(c, schedule);
    assert ToldTheTask(s.ledger, s.procs[p]);
    assert s.procs[p].pc.Owns() ==> IsCreator(s.ledger, s.procs, s.procs[p].task, p);
  }

  // ---------------------------------------------------------------- permits

  ghost function WorkersOn(s: Sys, pool: Pool): set<ProcId> {
    set p | p in s.procs && s.procs[p].role.Invocation? && s.procs[p].pc.Worker() &&
            exists sem :: sem in RUNNING && PoolOf(s.procs[p], sem) == pool
  }

  lemma WorkersHoldTheirPermits(s: Sys, pool: Pool)
    requires AllHeldOk(s)
    ensures |WorkersOn(s, pool)| <= |Holders(s.procs, pool)|
  {
    forall p | p in WorkersOn(s, pool) ensures p in Holders(s.procs, pool) {
      assert HeldOk(s.procs[p]);
      var sem :| sem in RUNNING && PoolOf(s.procs[p], sem) == pool;
      assert sem in s.procs[p].held;
    }
    assert Holders(s.procs, pool) == WorkersOn(s, pool) + (Holders(s.procs, pool) - WorkersOn(s, pool));
  }

  /**
   Available plus held permits make up the capacity of every pool; a finished or
   refused call holds nothing; the workers running on a caller, an agent or the whole
   core never exceed the limit.
   */
  lemma PermitsAreConserved(c: Config, schedule: seq<Action>, pool: Pool)
    ensures var s := Run(c, schedule);
            && Available(c, s, pool) + |Holders(s.procs, pool)| == Capacity(c, pool)
            && |WorkersOn(s, pool)| <= Capacity(c, pool)
  {
    var s := Run(c, schedule);
    EveryRunKeepsInv(c, schedule);
    assert ConservedIn(c, s, pool);
    WorkersHoldTheirPermits(s, pool);
  }

  /** Every way an invoke can return, rejections included, has given all its permits back. */
  lemma ReturnedCallsHoldNothing(c: Config, schedule: seq<Action>, p: ProcId)
    requires p in Run(c, schedule).procs && Run(c, schedule).procs[p].pc.Returned?
    ensures Run(c, schedule).procs[p].held == {}
    ensures forall pool :: p !in Holders(Run(c, schedule).procs, pool)
  {
    var procs := Run(c, schedule).procs;
    EveryProcHoldsWhatItShould(c, schedule, p);
    ReturnedHoldsNothing(procs[p]);
    forall pool ensures p !in Holders(procs, pool) {
      EmptyHanded(procs, p, pool);
    }
  }

  lemma EveryProcHoldsWhatItShould(c: Config, schedule: seq<Action>, p: ProcId)
    requires p in Run(c, schedule).procs
    ensures HeldOk(Run(c, schedule).procs[p])
  {
    EveryRunKeepsInv(c, schedule);
  }

  lemma ReturnedHoldsNothing(pr: Proc)
    requires HeldOk(pr) && pr.pc.Returned?
    ensures pr.held == {}
  {
  }

  lemma EmptyHanded(procs: map<ProcId, Proc>, p: ProcId, pool: Pool)
    requires p in procs && procs[p].held == {}
    ensures p !in Holders(procs, pool)
  {
  }

  /** A rejected or unaccepted invocation leaves its entry in `active`. */
  lemma RejectedInvocationsStayActive(c: Config, schedule: seq<Action>, p: ProcId)
    requires p in Run(c, schedule).procs
    requires var pr := Run(c, schedule).procs[p];
             pr.role.Invocation? && pr.pc.Returned? && (pr.pc.reply.Rejected? || pr.pc.reply.Unaccepted?)
    ensures Run(c, schedule).procs[p].task in Run(c, schedule).active
  {
    var s := Run(c, schedule);
    EveryRunKeepsInv(c, schedule);
    assert ActiveFor(s, s.procs[p].task);
  }
}
