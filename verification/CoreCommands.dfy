/**
 What the calls of the core do when nobody interferes, and when their writes go through at
 all: `invoke` up to its acceptance, `cancel` and `provide_input`
 (crates/adapter-core/src/lib.rs, lines 338 to 384 and 487 to 557).
 */
module CoreCommands {
  import opened TaskModel
  import opened Lifecycle
  import opened CoreErrors
  import opened Core
  import opened CoreMoves
  import opened CoreHistory
  import opened CoreOwners
  import opened CoreTheorems
  import opened CoreSteps
  import Store = MemoryStore

  // ---------------------------------------------------------------- what a command has read

  /** A command goes on to write only from a state it may start from. */
  ghost predicate SawRight(pr: Proc) {
    pr.pc.CommandWrite? ==>
      && (pr.role.Inputter? ==> pr.pc.seen.state == WaitingForInput)
      && (pr.role.Canceller? ==> !pr.pc.seen.state.Terminal())
  }

  lemma DecidesRight(c: Config, s: Sys, pr: Proc, env: Env)
    requires Typed(pr) && SawRight(pr)
    ensures SawRight(ProcAfter(s.now, pr, Decide(c, s, pr, env)))
  {
    DecideIsSound(c, s, pr, env);
    if pr.role.Invocation? {
      InvocationsRunNoCommands(c, s, pr, Decide(c, s, pr, env));
    }
  }

  lemma InvocationsRunNoCommands(c: Config, s: Sys, pr: Proc, m: Move)
    requires Typed(pr) && pr.role.Invocation? && Sound(c, s, pr, m)
    ensures !ProcAfter(s.now, pr, m).pc.Command()
  {
    MoverIsTyped(c, s, pr, m);
    match m
    case Stay =>
    case Goto(_) =>
    case Open =>
    case Write(_, _, _) =>
    case Grab(_, _) =>
    case Release(_, _) =>
    case Retire(_) =>
  }

  lemma StepSeesRight(c: Config, s: Sys, a: Action)
    requires AllTyped(s) && forall p | p in s.procs :: SawRight(s.procs[p])
    ensures forall p | p in Step(c, s, a).procs :: SawRight(Step(c, s, a).procs[p])
  {
    if a.Advance? && a.id in s.procs {
      DecidesRight(c, s, s.procs[a.id], a.env);
    }
  }

  lemma {:induction false} CommandsSeeRight(c: Config, schedule: seq<Action>)
    ensures forall p | p in Run(c, schedule).procs :: SawRight(Run(c, schedule).procs[p])
  {
    if schedule != [] {
      var n := |schedule| - 1;
      CommandsSeeRight(c, schedule[..n]);
      EveryRunKeepsInv(c, schedule[..n]);
      StepSeesRight(c, Run(c, schedule[..n]), schedule[n]);
    }
  }

  // ---------------------------------------------------------------- the write of a command

  lemma CommandDecides(c: Config, s: Sys, pr: Proc, env: Env, verdict: Option<CoreError>)
    requires !pr.role.Invocation? && pr.pc.CommandWrite?
    requires verdict == Verdict(s.ledger.store, s.now, CommandOp(pr.role), pr.pc.seen, env)
    ensures Decide(c, s, pr, env) ==
            if verdict.None? then Write(CommandOp(pr.role), pr.pc.seen, CommandDone) else Goto(CommandDone)
  {
  }

  lemma CommandStep(c: Config, s: Sys, q: ProcId, env: Env, pr: Proc, s': Sys)
    requires Recorded(s.ledger, s.now) && q in s.procs && pr == s.procs[q] && SeenIsPast(s.ledger, pr)
    requires !pr.role.Invocation? && pr.pc.CommandWrite? && !env.fault && s' == Step(c, s, Advance(q, env))
    ensures pr.task in s.ledger.store.tasks && q in s'.procs && s'.procs[q].pc == CommandDone
    ensures if pr.pc.seen.revision == s.ledger.store.tasks[pr.task].revision && pr.pc.seen.state in Allowed(CommandOp(pr.role))
            then Appended(s.ledger, s'.ledger, s.now, pr.task, KindOf(CommandOp(pr.role)), After(KindOf(CommandOp(pr.role))))
            else s'.ledger == s.ledger
  {
    var op := CommandOp(pr.role);
    HeldVerdict(s.ledger, s.now, pr, op, env);
    CommandDecides(c, s, pr, env, Verdict(s.ledger.store, s.now, op, pr.pc.seen, env));
    if Verdict(s.ledger.store, s.now, op, pr.pc.seen, env).None? {
      HeldWrite(s.ledger, s.now, pr, op, q);
      WriteStep(c, s, q, env, op, pr.pc.seen, CommandDone);
    } else {
      GotoStep(c, s, q, env, CommandDone);
    }
  }

  /** What the write of a command leaves, by its role and by what it had read. */
  ghost predicate TakesEffect(l: Ledger, l': Ledger, now: Time, pr: Proc)
    requires pr.pc.CommandWrite?
  {
    && pr.task in l.store.tasks
    && var current := pr.pc.seen.revision == l.store.tasks[pr.task].revision;
       if current && pr.role.Inputter? then
         Appended(l, l', now, pr.task, ProgressEvent("input accepted", None), Running)
       else if current && pr.role.Canceller? && pr.pc.seen.state != CancelRequested then
         Appended(l, l', now, pr.task, CancelRequestedEvent(pr.role.reason), CancelRequested)
       else l'.store == l.store
  }

  lemma CommandTable(pr: Proc)
    requires !pr.role.Invocation? && pr.pc.CommandWrite? && SawRight(pr)
    ensures pr.role.Inputter? ==>
              && pr.pc.seen.state in Allowed(CommandOp(pr.role))
              && KindOf(CommandOp(pr.role)) == ProgressEvent("input accepted", None)
              && After(KindOf(CommandOp(pr.role))) == Running
    ensures pr.role.Canceller? ==>
              && (pr.pc.seen.state in Allowed(CommandOp(pr.role)) <==> pr.pc.seen.state != CancelRequested)
              && KindOf(CommandOp(pr.role)) == CancelRequestedEvent(pr.role.reason)
              && After(KindOf(CommandOp(pr.role))) == CancelRequested
  {
  }

  lemma EffectByTable(l: Ledger, l': Ledger, now: Time, pr: Proc, may: bool, kind: EventKind, state: TaskState)
    requires !pr.role.Invocation? && pr.pc.CommandWrite? && pr.task in l.store.tasks
    requires pr.role.Inputter? ==> may && kind == ProgressEvent("input accepted", None) && state == Running
    requires pr.role.Canceller? ==>
               (may <==> pr.pc.seen.state != CancelRequested) && kind == CancelRequestedEvent(pr.role.reason) &&
               state == CancelRequested
    requires if pr.pc.seen.revision == l.store.tasks[pr.task].revision && may
             then Appended(l, l', now, pr.task, kind, state) else l' == l
    ensures TakesEffect(l, l', now, pr)
  {
  }

  lemma CommandTakesEffect(c: Config, s: Sys, q: ProcId, env: Env, pr: Proc, s': Sys)
    requires Recorded(s.ledger, s.now) && q in s.procs && pr == s.procs[q] && SeenIsPast(s.ledger, pr) && SawRight(pr)
    requires !pr.role.Invocation? && pr.pc.CommandWrite? && !env.fault && s' == Step(c, s, Advance(q, env))
    ensures q in s'.procs && s'.procs[q].pc == CommandDone && TakesEffect(s.ledger, s'.ledger, s.now, pr)
  {
    CommandStep(c, s, q, env, pr, s');
    CommandTable(pr);
    var op := CommandOp(pr.role);
    EffectByTable(s.ledger, s'.ledger, s.now, pr, pr.pc.seen.state in Allowed(op), KindOf(op), After(KindOf(op)));
  }

  /**
   From every reachable state in which a command has read its snapshot and the store
   answers: `provide_input` records that the input was accepted and sets the task running if
   and only if the revision is still the one read; `cancel` records the request with its
   reason if and only if moreover no cancel had been requested when it read. Otherwise
   nothing changes.
   */
  lemma CommandsTakeEffectExactlyWhenCurrent(c: Config, schedule: seq<Action>, q: ProcId, env: Env)
    requires q in Run(c, schedule).procs && !env.fault
    requires !Run(c, schedule).procs[q].role.Invocation? && Run(c, schedule).procs[q].pc.CommandWrite?
    ensures var s, s' := Run(c, schedule), Run(c, schedule + [Advance(q, env)]);
            && q in s'.procs && s'.procs[q].pc == CommandDone
            && TakesEffect(s.ledger, s'.ledger, s.now, s.procs[q])
  {
    RecordedInRun(c, schedule);
    CommandsSeeRight(c, schedule);
    RunIsStep(c, schedule, Advance(q, env));
    CommandTakesEffect(c, Run(c, schedule), q, env, Run(c, schedule).procs[q], Run(c, schedule + [Advance(q, env)]));
  }

  // ---------------------------------------------------------------- a command from its start

  function Undisturbed(schedule: seq<Action>, q: ProcId, role: Role, t: TaskId, env: Env): seq<Action> {
    schedule + [Begin(q, role, t)] + [Advance(q, env)] + [Advance(q, env)]
  }

  lemma CommandBegins(c: Config, s: Sys, q: ProcId, role: Role, t: TaskId)
    requires q !in s.procs && !role.Invocation?
    ensures Step(c, s, Begin(q, role, t)) == s.(procs := s.procs[q := Proc(role, t, {}, CommandRead)])
  {
  }

  /** Whether a command, having read the task, goes on to write. */
  predicate Proceeds(store: Store.State, role: Role, t: TaskId) {
    && t in store.tasks
    && (role.Inputter? ==> store.tasks[t].state == WaitingForInput)
    && (role.Canceller? ==> store.tasks[t].state != Completed && store.tasks[t].state != Failed &&
                            store.tasks[t].state != Cancelled)
  }

  lemma CommandReads(c: Config, s: Sys, q: ProcId, env: Env)
    requires q in s.procs && !s.procs[q].role.Invocation? && s.procs[q].pc == CommandRead && !env.fault
    ensures var s', pr := Step(c, s, Advance(q, env)), s.procs[q];
            && s'.ledger == s.ledger && s'.now == s.now && q in s'.procs
            && s'.procs[q] == pr.(pc := if Proceeds(s.ledger.store, pr.role, pr.task)
                                        then CommandWrite(s.ledger.store.tasks[pr.task]) else CommandDone)
  {
  }

  lemma DoneCommandStays(c: Config, s: Sys, q: ProcId, env: Env)
    requires q in s.procs && !s.procs[q].role.Invocation? && s.procs[q].pc == CommandDone
    ensures Step(c, s, Advance(q, env)).ledger == s.ledger
  {
  }

  lemma CommandHasRead(c: Config, schedule: seq<Action>, q: ProcId, role: Role, t: TaskId, env: Env)
    requires q !in Run(c, schedule).procs && !role.Invocation? && !env.fault
    ensures var s, s' := Run(c, schedule), Run(c, schedule + [Begin(q, role, t)] + [Advance(q, env)]);
            && s'.ledger == s.ledger && s'.now == s.now && q in s'.procs
            && s'.procs[q] == Proc(role, t, {}, if Proceeds(s.ledger.store, role, t)
                                                then CommandWrite(s.ledger.store.tasks[t]) else CommandDone)
  {
    var begun := schedule + [Begin(q, role, t)];
    RunIsStep(c, schedule, Begin(q, role, t));
    CommandBegins(c, Run(c, schedule), q, role, t);
    RunIsStep(c, begun, Advance(q, env));
    CommandReads(c, Run(c, begun), q, env);
  }

  /**
   An undisturbed `provide_input`, from every reachable state: it appends the event of
   accepted input and leaves the task running if and only if the task is waiting for input;
   otherwise, or for a task that does not exist, nothing changes.
   */
  lemma InputIsRecordedExactlyWhenAwaited(c: Config, schedule: seq<Action>, q: ProcId, t: TaskId, env: Env)
    requires q !in Run(c, schedule).procs && !env.fault
    ensures var s, s' := Run(c, schedule), Run(c, Undisturbed(schedule, q, Inputter, t, env));
            if t in s.ledger.store.tasks && s.ledger.store.tasks[t].state == WaitingForInput
            then Appended(s.ledger, s'.ledger, s.now, t, ProgressEvent("input accepted", None), Running)
            else s'.ledger.store == s.ledger.store
  {
    var read := schedule + [Begin(q, Inputter, t)] + [Advance(q, env)];
    CommandHasRead(c, schedule, q, Inputter, t, env);
    if Proceeds(Run(c, schedule).ledger.store, Inputter, t) {
      CommandsTakeEffectExactlyWhenCurrent(c, read, q, env);
    } else {
      RunIsStep(c, read, Advance(q, env));
      DoneCommandStays(c, Run(c, read), q, env);
    }
  }

  /**
   An undisturbed `cancel`, from every reachable state and with any reason: it appends the
   request with that reason if and only if the task exists, has not ended and has no cancel
   requested yet; otherwise nothing changes.
   */
  lemma CancelIsRecordedExactlyWhenOpen(c: Config, schedule: seq<Action>, q: ProcId, t: TaskId,
                                        reason: Option<string>, env: Env)
    requires q !in Run(c, schedule).procs && !env.fault
    ensures var s, s' := Run(c, schedule), Run(c, Undisturbed(schedule, q, Canceller(reason), t, env));
            if t in s.ledger.store.tasks && s.ledger.store.tasks[t].state in [Created, Accepted, Running, WaitingForInput]
            then Appended(s.ledger, s'.ledger, s.now, t, CancelRequestedEvent(reason), CancelRequested)
            else s'.ledger.store == s.ledger.store
  {
    var read := schedule + [Begin(q, Canceller(reason), t)] + [Advance(q, env)];
    CommandHasRead(c, schedule, q, Canceller(reason), t, env);
    if Proceeds(Run(c, schedule).ledger.store, Canceller(reason), t) {
      CommandsTakeEffectExactlyWhenCurrent(c, read, q, env);
    } else {
      RunIsStep(c, read, Advance(q, env));
      DoneCommandStays(c, Run(c, read), q, env);
    }
  }

  // ---------------------------------------------------------------- creating and accepting

  lemma CreateStep(c: Config, s: Sys, p: ProcId, env: Env)
    requires p in s.procs && s.procs[p].role.Invocation? && s.procs[p].pc.Creating? && !env.fault
    requires var key := (s.procs[p].role.caller, s.procs[p].role.key);
             key in s.ledger.store.idempotency ==>
               && s.ledger.store.idempotency[key] in s.ledger.store.tasks
               && s.ledger.store.tasks[s.ledger.store.idempotency[key]].taskId == s.ledger.store.idempotency[key]
    ensures var pr, s' := s.procs[p], Step(c, s, Advance(p, env));
            var key, store := (pr.role.caller, pr.role.key), s.ledger.store;
            && p in s'.procs
            && if key in store.idempotency
               then s' == s.(procs := s.procs[p := pr.(pc := Returned(Existing(store.idempotency[key])))])
               else
                 var blank := TaskSnapshot(pr.task, None, pr.role.agent, pr.role.caller, Created, 0, 0, s.now, s.now, None);
                 && s'.procs == s.procs[p := pr.(pc := Accepting(blank))]
                 && s'.ledger.store == Store.State(store.tasks[pr.task := blank], store.events[pr.task := []],
                                                   store.idempotency[key := pr.task], store.leases)
                 && s'.ledger.creator == s.ledger.creator[pr.task := p] && s'.active == s.active + {pr.task}
  {
  }

  /**
   Creating, from every reachable state with the store answering: an invocation whose caller
   and key name a task is answered with that task and changes nothing; any other stores its
   task, new and with an empty log, becomes its creator, and goes on to accept it.
   */
  lemma InvocationsCreateExactlyWhenNew(c: Config, schedule: seq<Action>, p: ProcId, env: Env)
    requires p in Run(c, schedule).procs && !env.fault
    requires Run(c, schedule).procs[p].role.Invocation? && Run(c, schedule).procs[p].pc.Creating?
    ensures var s, s' := Run(c, schedule), Run(c, schedule + [Advance(p, env)]);
            var pr, store := s.procs[p], s.ledger.store;
            var key := (pr.role.caller, pr.role.key);
            && p in s'.procs
            && if key in store.idempotency
               then s' == s.(procs := s.procs[p := pr.(pc := Returned(Existing(store.idempotency[key])))])
               else
                 var blank := TaskSnapshot(pr.task, None, pr.role.agent, pr.role.caller, Created, 0, 0, s.now, s.now, None);
                 && s'.procs == s.procs[p := pr.(pc := Accepting(blank))]
                 && s'.ledger.store == Store.State(store.tasks[pr.task := blank], store.events[pr.task := []],
                                                   store.idempotency[key := pr.task], store.leases)
                 && s'.ledger.creator == s.ledger.creator[pr.task := p] && s'.active == s.active + {pr.task}
  {
    KeyNamesATask(c, schedule, p);
    CreateStep(c, Run(c, schedule), p, env);
    RunIsStep(c, schedule, Advance(p, env));
  }

  lemma KeyNamesATask(c: Config, schedule: seq<Action>, p: ProcId)
    requires p in Run(c, schedule).procs && Run(c, schedule).procs[p].role.Invocation?
    ensures var s := Run(c, schedule);
            var key := KeyOf(s.procs[p].role);
            key in s.ledger.store.idempotency ==>
              && s.ledger.store.idempotency[key] in s.ledger.store.tasks
              && s.ledger.store.tasks[s.ledger.store.idempotency[key]].taskId == s.ledger.store.idempotency[key]
  {
    var s := Run(c, schedule);
    EveryRunKeepsInv(c, schedule);
    var key := KeyOf(s.procs[p].role);
    if key in s.ledger.store.idempotency {
      CurrentState(s.ledger, s.now, s.ledger.store.idempotency[key]);
    }
  }

  lemma AcceptDecides(c: Config, s: Sys, pr: Proc, env: Env, verdict: Option<CoreError>)
    requires pr.role.Invocation? && pr.pc.Accepting?
    requires verdict == Verdict(s.ledger.store, s.now, Accept, pr.pc.seen, env)
    ensures Decide(c, s, pr, env) ==
            if verdict.None? then Write(Accept, pr.pc.seen, Acquiring(QueueSlot))
            else Goto(Returned(Unaccepted(verdict.value)))
  {
  }

  /** Where an acceptance leads. */
  ghost predicate AcceptedOrNot(s: Sys, s': Sys, p: ProcId)
    requires p in s.procs
  {
    var pr := s.procs[p];
    && pr.task in s.ledger.store.tasks && p in s'.procs
    && if s.ledger.store.tasks[pr.task].revision == 0
       then Appended(s.ledger, s'.ledger, s.now, pr.task, AcceptedEvent(false), Accepted) &&
            s'.procs[p] == pr.(pc := Acquiring(QueueSlot))
       else s'.ledger == s.ledger && s'.procs[p] == pr.(pc := Returned(Unaccepted(StoreFailure(Conflict))))
  }

  lemma AcceptWrites(c: Config, s: Sys, p: ProcId, env: Env, pr: Proc)
    requires Recorded(s.ledger, s.now) && p in s.procs && pr == s.procs[p] && SeenIsPast(s.ledger, pr) && !env.fault
    requires pr.role.Invocation? && pr.pc.Accepting? && pr.pc.seen.revision == 0 && pr.pc.seen.state == Created
    ensures AcceptedOrNot(s, Step(c, s, Advance(p, env)), p)
  {
    HeldVerdict(s.ledger, s.now, pr, Accept, env);
    AcceptDecides(c, s, pr, env, Verdict(s.ledger.store, s.now, Accept, pr.pc.seen, env));
    if s.ledger.store.tasks[pr.task].revision == 0 {
      HeldWrite(s.ledger, s.now, pr, Accept, p);
      WriteStep(c, s, p, env, Accept, pr.pc.seen, Acquiring(QueueSlot));
    } else {
      GotoStep(c, s, p, env, Returned(Unaccepted(StoreFailure(Conflict))));
    }
  }

  /** The acceptance, where it goes through, is the event that the task was accepted and not queued. */
  lemma AcceptanceIsRecorded(c: Config, schedule: seq<Action>, p: ProcId, env: Env)
    requires p in Run(c, schedule).procs && !env.fault
    requires Run(c, schedule).procs[p].role.Invocation? && Run(c, schedule).procs[p].pc.Accepting?
    ensures AcceptedOrNot(Run(c, schedule), Run(c, schedule + [Advance(p, env)]), p)
  {
    RecordedInRun(c, schedule);
    AcceptingSawCreated(c, schedule, p);
    AcceptWrites(c, Run(c, schedule), p, env, Run(c, schedule).procs[p]);
    RunIsStep(c, schedule, Advance(p, env));
  }

  lemma AcceptingSawCreated(c: Config, schedule: seq<Action>, p: ProcId)
    requires p in Run(c, schedule).procs
    requires Run(c, schedule).procs[p].role.Invocation? && Run(c, schedule).procs[p].pc.Accepting?
    ensures Run(c, schedule).procs[p].pc.seen.revision == 0 && Run(c, schedule).procs[p].pc.seen.state == Created
  {
    var s := Run(c, schedule);
    EveryRunKeepsInv(c, schedule);
    assert Stands(s.ledger, p, s.procs[p]) && SeenIsPast(s.ledger, s.procs[p]);
  }

  // ---------------------------------------------------------------- calls the store fails

  lemma FaultDecides(c: Config, s: Sys, pr: Proc, env: Env)
    requires env.fault
    ensures var m := Decide(c, s, pr, env);
            && !m.Write? && !m.Open?
            && (pr.role.Invocation? && pr.pc.Creating? ==> m == Goto(Returned(Refused(StoreFailure(Unavailable("fault"))))))
            && (pr.role.Invocation? && pr.pc.Accepting? ==>
                  m == Goto(Returned(Unaccepted(StoreFailure(Unavailable("fault"))))))
            && (pr.role.Invocation? && (pr.pc.FailRead? || pr.pc.FailWrite?) && pr.pc.site.Rejection? ==>
                  m == Goto(Returned(Rejected(Faulted))))
            && (!pr.role.Invocation? && (pr.pc.CommandRead? || pr.pc.CommandWrite?) ==> m == Goto(CommandDone))
  {
  }

  /** A failing store records nothing; an invoke is refused with the store's error, a command ends. */
  lemma FaultsEndCalls(c: Config, s: Sys, p: ProcId, env: Env)
    requires p in s.procs && env.fault
    ensures var pr, s' := s.procs[p], Step(c, s, Advance(p, env));
            && s'.ledger == s.ledger && p in s'.procs
            && (pr.role.Invocation? && pr.pc.Creating? ==>
                  s'.procs[p].pc == Returned(Refused(StoreFailure(Unavailable("fault")))))
            && (pr.role.Invocation? && pr.pc.Accepting? ==>
                  s'.procs[p].pc == Returned(Unaccepted(StoreFailure(Unavailable("fault")))))
            && (pr.role.Invocation? && (pr.pc.FailRead? || pr.pc.FailWrite?) && pr.pc.site.Rejection? ==>
                  s'.procs[p].pc == Returned(Rejected(Faulted)))
            && (!pr.role.Invocation? && (pr.pc.CommandRead? || pr.pc.CommandWrite?) ==> s'.procs[p].pc == CommandDone)
  {
    FaultDecides(c, s, s.procs[p], env);
    StepIsPerform(c, s, p, env);
  }
}
