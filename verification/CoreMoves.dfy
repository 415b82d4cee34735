/**
 What the program text of `invoke`, `run_driver`, `fail_active`, `cancel` and
 `provide_input` guarantees about a single move, whatever the driver and the store do.
 All invariants of the core are proved from these guarantees alone.
 */
module CoreMoves {
  import opened TaskModel
  import opened Lifecycle
  import opened CoreErrors
  import opened Core
  import Store = MemoryStore

  /** Who may write what. */
  predicate WritesAs(role: Role, op: Op) {
    match role
    case Invocation(_, _, _) => op.Accept? || op.Drive? || op.Fail?
    case Canceller(reason) => op == RequestCancel(reason)
    case Inputter => op.GiveInput?
  }

  /** Invocations never run command code, commands never run anything else. */
  predicate Typed(pr: Proc) {
    && (pr.role.Invocation? <==> !pr.pc.Command())
    && (pr.pc.Applied? ==> Drive(pr.pc.event).Writes())
  }

  /** How the owner leaves its task, once that is settled. */
  function OutcomeOf(pc: Pc): Option<Outcome> {
    match pc
    case Exiting(outcome) => Some(outcome)
    case Dropping(_, landing) => if landing.ToEnd? then Some(landing.outcome) else None
    case Returned(reply) => if reply.Rejected? || reply.Finished? then Some(reply.outcome) else None
    case _ => None
  }

  function SetOf(order: seq<Sem>): set<Sem> {
    set sem | sem in order
  }

  const RUNNING := {CallerSlot, GlobalSlot, AgentSlot}

  /** The permits a process holds at each point of its program. */
  function Expected(pc: Pc): set<Sem> {
    match pc
    case Acquiring(sem) =>
      (match sem
       case QueueSlot => {}
       case CallerSlot => {QueueSlot}
       case GlobalSlot => {QueueSlot, CallerSlot}
       case AgentSlot => {QueueSlot, CallerSlot, GlobalSlot})
    case Dropping(order, landing) => SetOf(order) + (if landing.ToLaunch? then RUNNING else {})
    case _ => if pc.Worker() then RUNNING else {}
  }

  /** The worker has removed the task's entry from `active`. */
  predicate Retired(pc: Pc) {
    (pc.Dropping? && pc.landing.ToEnd?) || (pc.Returned? && pc.reply.Finished?)
  }

  /** The drop order still to come names each permit once. */
  predicate Distinct(order: seq<Sem>) {
    forall i, j | 0 <= i < j < |order| :: order[i] != order[j]
  }

  predicate OrderOk(pc: Pc) {
    pc.Dropping? ==>
      && Distinct(pc.order)
      && (pc.landing.ToLaunch? ==> SetOf(pc.order) !! RUNNING)
  }

  ghost predicate SoundGoto(store: Store.State, now: Time, pr: Proc, pc: Pc) {
    && Typed(pr.(pc := pc))
    && !pc.Accepting? && !pc.Creating?
    && (pc.Holds() ==> pr.task in store.tasks && pc.seen == store.tasks[pr.task])
    && (pc.FailWrite? ==> !pc.seen.state.Terminal())
    && (pc.Returned? && pc.reply.Existing? ==>
          && pr.role.Invocation? && (pr.role.caller, pr.role.key) in store.idempotency
          && store.idempotency[(pr.role.caller, pr.role.key)] in store.tasks
          && pc.reply.taskId == store.tasks[store.idempotency[(pr.role.caller, pr.role.key)]].taskId)
    && (pc.Owns() <==> pr.pc.Owns())
    && (pc.PastAccept() <==> pr.pc.PastAccept())
    && (pr.pc.Over() ==> pc.Over() && OutcomeOf(pc) == OutcomeOf(pr.pc))
    && (Retired(pc) <==> Retired(pr.pc))
    && Expected(pc) == Expected(pr.pc) && OrderOk(pc)
    && (OutcomeOf(pc) != OutcomeOf(pr.pc) ==>
          && OutcomeOf(pc).Some?
          && match OutcomeOf(pc).value
             case Settled => pr.task in store.tasks && store.tasks[pr.task].state.Terminal()
             case Outrun(revision) =>
               && pr.pc.FailWrite? && revision == pr.pc.seen.revision
               && Store.Append(store, Request(Fail(Failure(pr.pc.error)), pr.pc.seen), now).1.Err?
             case Faulted => true)
  }

  ghost predicate SoundWrite(store: Store.State, now: Time, pr: Proc, op: Op, seen: TaskSnapshot, pc: Pc) {
    && pr.pc.Holds() && seen == pr.pc.seen
    && op.Writes() && WritesAs(pr.role, op)
    && Store.Append(store, Request(op, seen), now).1.Ok?
    && Typed(pr.(pc := pc))
    && !pc.Holds() && !pc.Creating? && (pc.Owns() <==> pr.pc.Owns())
    && (op.Accept? <==> pr.pc.Accepting?)
    && (pr.role.Invocation? ==> pc.PastAccept() && pr.pc.Owns())
    && Expected(pc) == Expected(pr.pc) && !pc.Dropping?
    && !Retired(pc) && !Retired(pr.pc)
    && OutcomeOf(pr.pc).None?
    && (OutcomeOf(pc).Some? ==> OutcomeOf(pc).value == Settled && op.Fail?)
    && (pc.Over() ==> op.Fail?)
  }

  ghost predicate Sound(c: Config, s: Sys, pr: Proc, m: Move) {
    match m
    case Stay => true
    case Goto(pc) => SoundGoto(s.ledger.store, s.now, pr, pc)
    case Open =>
      && pr.role.Invocation? && pr.pc.Creating?
      && (pr.role.caller, pr.role.key) !in s.ledger.store.idempotency
    case Write(op, seen, pc) => SoundWrite(s.ledger.store, s.now, pr, op, seen, pc)
    case Grab(sem, pc) =>
      && pr.role.Invocation? && pr.pc == Acquiring(sem) && pc == AfterGrab(sem)
      && Available(c, s, PoolOf(pr, sem)) > 0
    case Release(sem, pc) =>
      && pr.role.Invocation? && pr.pc.Dropping? && pr.pc.order != []
      && sem == pr.pc.order[0] && pc == Dropping(pr.pc.order[1..], pr.pc.landing)
    case Retire(pc) =>
      && pr.role.Invocation? && pr.pc.Exiting?
      && pc == Dropping([AgentSlot, GlobalSlot, CallerSlot], ToEnd(pr.pc.outcome))
  }

  ghost predicate SoundEffect(c: Config, s: Sys, e: Effect) {
    && InScope(s, e)
    && (e.Spawn? ==> MayBegin(c, s, e.id, e.role, e.task))
    && (e.Do? ==> Sound(c, s, s.procs[e.id], e.move))
  }

  lemma DropOrderHeld(sem: Sem)
    ensures Expected(Acquiring(sem)) == SetOf(DropOrder(sem))
    ensures Distinct(DropOrder(sem))
  {
  }

  lemma CreatingIsSound(c: Config, s: Sys, pr: Proc, env: Env)
    requires Typed(pr) && pr.role.Invocation? && pr.pc.Creating?
    ensures Sound(c, s, pr, DecideEntry(c, s, pr, env))
  {
  }

  lemma AcceptingIsSound(c: Config, s: Sys, pr: Proc, env: Env)
    requires Typed(pr) && pr.role.Invocation? && pr.pc.Accepting?
    ensures Sound(c, s, pr, DecideEntry(c, s, pr, env))
  {
  }

  lemma AcquiringIsSound(c: Config, s: Sys, pr: Proc, env: Env)
    requires Typed(pr) && pr.role.Invocation? && pr.pc.Acquiring?
    ensures Sound(c, s, pr, DecideEntry(c, s, pr, env))
  {
    DropOrderHeld(pr.pc.sem);
  }

  lemma DroppingIsSound(c: Config, s: Sys, pr: Proc, env: Env)
    requires Typed(pr) && pr.role.Invocation? && pr.pc.Dropping?
    ensures Sound(c, s, pr, DecideEntry(c, s, pr, env))
  {
  }

  lemma EntryIsSound(c: Config, s: Sys, pr: Proc, env: Env)
    requires Typed(pr) && pr.role.Invocation? && pr.pc.Entry()
    ensures Sound(c, s, pr, DecideEntry(c, s, pr, env))
  {
    if pr.pc.Creating? {
      CreatingIsSound(c, s, pr, env);
    } else if pr.pc.Accepting? {
      AcceptingIsSound(c, s, pr, env);
    } else if pr.pc.Acquiring? {
      AcquiringIsSound(c, s, pr, env);
    } else {
      DroppingIsSound(c, s, pr, env);
    }
  }

  lemma DriverIsSound(c: Config, s: Sys, pr: Proc, env: Env)
    requires Typed(pr) && pr.role.Invocation? && pr.pc.Driving()
    ensures Sound(c, s, pr, DecideDriver(s.ledger.store, s.now, pr, env))
  {
  }

  lemma FailReadIsSound(c: Config, s: Sys, pr: Proc, env: Env)
    requires Typed(pr) && pr.role.Invocation? && pr.pc.FailRead?
    ensures Sound(c, s, pr, DecideEnd(s.ledger.store, s.now, pr, env))
  {
    match pr.pc.site
    case Rejection =>
    case Handler =>
    case Exit =>
  }

  lemma RefusedFailIsSound(store: Store.State, now: Time, pr: Proc, refusal: CoreError, outcome: Outcome)
    requires Typed(pr) && pr.role.Invocation? && pr.pc.FailWrite?
    requires outcome == Faulted || (
               && outcome == Outrun(pr.pc.seen.revision)
               && Store.Append(store, Request(Fail(Failure(pr.pc.error)), pr.pc.seen), now).1.Err?)
    ensures SoundGoto(store, now, pr, AfterFail(pr.pc.site, outcome, refusal))
  {
    match pr.pc.site
    case Rejection =>
    case Handler =>
    case Exit =>
  }

  lemma AcceptedFailIsSound(store: Store.State, now: Time, pr: Proc)
    requires Typed(pr) && pr.role.Invocation? && pr.pc.FailWrite?
    requires Store.Append(store, Request(Fail(Failure(pr.pc.error)), pr.pc.seen), now).1.Ok?
    ensures SoundWrite(store, now, pr, Fail(Failure(pr.pc.error)), pr.pc.seen,
                       AfterFail(pr.pc.site, Settled, pr.pc.error))
  {
    match pr.pc.site
    case Rejection =>
    case Handler =>
    case Exit =>
  }

  lemma FailWriteIsSound(c: Config, s: Sys, pr: Proc, env: Env)
    requires Typed(pr) && pr.role.Invocation? && pr.pc.FailWrite?
    ensures Sound(c, s, pr, DecideEnd(s.ledger.store, s.now, pr, env))
  {
    var refusal := Verdict(s.ledger.store, s.now, Fail(Failure(pr.pc.error)), pr.pc.seen, env);
    if refusal.None? {
      AcceptedFailIsSound(s.ledger.store, s.now, pr);
    } else {
      RefusedFailIsSound(s.ledger.store, s.now, pr, refusal.value,
                         if env.fault then Faulted else Outrun(pr.pc.seen.revision));
    }
  }

  lemma EndIsSound(c: Config, s: Sys, pr: Proc, env: Env)
    requires Typed(pr) && pr.role.Invocation? && !pr.pc.Driving() && !pr.pc.Entry()
    ensures Sound(c, s, pr, DecideEnd(s.ledger.store, s.now, pr, env))
  {
    if pr.pc.FailRead? {
      FailReadIsSound(c, s, pr, env);
    } else if pr.pc.FailWrite? {
      FailWriteIsSound(c, s, pr, env);
    }
  }

  lemma CommandIsSound(c: Config, s: Sys, pr: Proc, env: Env)
    requires Typed(pr) && !pr.role.Invocation?
    ensures Sound(c, s, pr, DecideCommand(s.ledger.store, s.now, pr, env))
  {
  }

  lemma DecideIsSound(c: Config, s: Sys, pr: Proc, env: Env)
    requires Typed(pr)
    ensures Sound(c, s, pr, Decide(c, s, pr, env))
  {
    if !pr.role.Invocation? {
      CommandIsSound(c, s, pr, env);
    } else if pr.pc.Entry() {
      EntryIsSound(c, s, pr, env);
    } else if pr.pc.Driving() {
      DriverIsSound(c, s, pr, env);
    } else {
      EndIsSound(c, s, pr, env);
    }
  }

  lemma ExpireIsSound(store: Store.State, now: Time, pr: Proc)
    requires pr.role.Invocation? && pr.pc.InDriver()
    ensures SoundGoto(store, now, pr, FailRead(Exit, Timeout))
  {
  }

  /** Every action of a schedule resolves to a sound effect. */
  lemma ResolveIsSound(c: Config, s: Sys, a: Action)
    requires forall p | p in s.procs :: Typed(s.procs[p])
    ensures SoundEffect(c, s, Resolve(c, s, a))
  {
    if a.Advance? && a.id in s.procs {
      DecideIsSound(c, s, s.procs[a.id], a.env);
    } else if a.Expire? && a.id in s.procs && s.procs[a.id].role.Invocation? && s.procs[a.id].pc.InDriver() {
      ExpireIsSound(s.ledger.store, s.now, s.procs[a.id]);
    }
  }
}
