/**
 `AdapterCore` as an interleaved system (crates/adapter-core/src/lib.rs). Every
 `invoke` (which becomes the task's worker once it is launched), `cancel` and
 `provide_input` call is a process. One step of a process is one await of the source:
 a read of a snapshot, a compare-and-set on the store, taking or dropping one permit,
 or one message from the driver. A schedule is any finite list of steps of any
 processes, timeouts and clock ticks; the driver's messages and store faults are
 chosen by the schedule.
 */
module Core {
  import opened TaskModel
  import opened Lifecycle
  import opened CoreErrors
  import Store = MemoryStore

  type ProcId = nat

  // ---------------------------------------------------------------- permits

  datatype Sem = QueueSlot | CallerSlot | GlobalSlot | AgentSlot
  datatype Pool = QueueOf(agent: AgentId) | CallerOf(caller: CallerId) | Global | AgentOf(agent: AgentId)

  datatype Limits = Limits(maxConcurrentTasks: nat, maxQueuedTasks: nat)
  datatype Config = Config(agents: map<AgentId, Limits>, maxConcurrent: nat, callerMaxConcurrent: nat)

  function Capacity(c: Config, pool: Pool): nat {
    match pool
    case QueueOf(agent) => if agent in c.agents then c.agents[agent].maxQueuedTasks else 0
    case AgentOf(agent) => if agent in c.agents then c.agents[agent].maxConcurrentTasks else 0
    case CallerOf(_) => c.callerMaxConcurrent
    case Global => c.maxConcurrent
  }

  // ---------------------------------------------------------------- processes

  datatype Role =
    | Invocation(caller: CallerId, agent: AgentId, key: string)
    | Canceller(reason: Option<string>)
    | Inputter

  /** How the owner of a task left it: ended, overtaken by another write, or cut off by the store. */
  datatype Outcome = Settled | Outrun(revision: nat) | Faulted

  /** Who called `fail_active`: a rejected invoke, the driver-event handler, or the worker's exit. */
  datatype Site = Rejection | Handler | Exit

  datatype Landing = ToReject(error: CoreError) | ToLaunch | ToEnd(outcome: Outcome)

  datatype Reply = Existing(taskId: TaskId) | Refused(error: CoreError) | Unaccepted(error: CoreError)
                 | Rejected(outcome: Outcome) | Finished(outcome: Outcome)

  datatype Pc =
    | Creating
    | Accepting(seen: TaskSnapshot)
    | Acquiring(sem: Sem)
    | Dropping(order: seq<Sem>, landing: Landing)
    | Launching
    | Receiving
    | Applying(event: DriverEvent)
    | Applied(event: DriverEvent, seen: TaskSnapshot)
    | Rechecking
    | FinalCheck
    | FailRead(site: Site, error: CoreError)
    | FailWrite(site: Site, error: CoreError, seen: TaskSnapshot)
    | Exiting(outcome: Outcome)
    | Returned(reply: Reply)
    | CommandRead
    | CommandWrite(seen: TaskSnapshot)
    | CommandDone
  {
    /** Holds a snapshot read earlier and not yet written back. */
    predicate Holds() {
      Accepting? || Applied? || FailWrite? || CommandWrite?
    }

    predicate Command() {
      CommandRead? || CommandWrite? || CommandDone?
    }

    /** This invocation created its task. */
    predicate Owns() {
      && !Command() && !Creating?
      && !(Returned? && (reply.Existing? || reply.Refused?))
    }

    /** The task's Accepted event has been written. */
    predicate PastAccept() {
      && Owns() && !Accepting?
      && !(Returned? && reply.Unaccepted?)
    }

    /** The owner has nothing left to write. */
    predicate Over() {
      Returned? || Exiting? || (Dropping? && landing.ToEnd?)
    }

    /** Inside `run_driver`, the future the timeout cancels. */
    predicate InDriver() {
      || Driving()
      || (FailRead? && site.Handler?) || (FailWrite? && site.Handler?)
    }

    predicate Entry() {
      Creating? || Accepting? || Acquiring? || Dropping?
    }

    predicate Driving() {
      Launching? || Receiving? || Applying? || Applied? || Rechecking? || FinalCheck?
    }

    predicate Worker() {
      || InDriver() || Exiting?
      || ((FailRead? || FailWrite?) && site.Exit?)
    }
  }

  datatype Proc = Proc(role: Role, task: TaskId, held: set<Sem>, pc: Pc)

  function PoolOf(pr: Proc, sem: Sem): Pool
    requires pr.role.Invocation?
  {
    match sem
    case QueueSlot => QueueOf(pr.role.agent)
    case CallerSlot => CallerOf(pr.role.caller)
    case GlobalSlot => Global
    case AgentSlot => AgentOf(pr.role.agent)
  }

  // ---------------------------------------------------------------- the system

  datatype Commit = Commit(author: ProcId, op: Op)

  /** The store, with its history: who wrote each event and who created each task. */
  datatype Ledger = Ledger(
    store: Store.State,
    commits: map<TaskId, seq<Commit>>,
    creator: map<TaskId, ProcId>)

  datatype Sys = Sys(
    ledger: Ledger,
    now: Time,
    procs: map<ProcId, Proc>,
    available: map<Pool, nat>,
    active: set<TaskId>)

  const INITIAL := Sys(Ledger(Store.EMPTY, map[], map[]), 0, map[], map[], {})

  /** A pool nobody has used yet is full: the caller pools are made on first use. */
  function Available(c: Config, s: Sys, pool: Pool): nat {
    if pool in s.available then s.available[pool] else Capacity(c, pool)
  }

  datatype DriverReply = DriverRefused(message: string) | DriverOpened | Yielded(event: DriverEvent) | DriverClosed
  datatype Env = Env(fault: bool, driver: DriverReply)

  datatype Action =
    | Begin(id: ProcId, role: Role, task: TaskId)
    | Advance(id: ProcId, env: Env)
    | Expire(id: ProcId)
    | Tick(elapsed: nat)

  datatype Move =
    | Stay
    | Goto(pc: Pc)
    | Open
    | Write(op: Op, seen: TaskSnapshot, pc: Pc)
    | Grab(sem: Sem, pc: Pc)
    | Release(sem: Sem, pc: Pc)
    | Retire(pc: Pc)

  const UNAVAILABLE := StoreFailure(Unavailable("fault"))

  function Read(store: Store.State, task: TaskId, env: Env): Result<TaskSnapshot, CoreError> {
    if env.fault then Err(UNAVAILABLE)
    else if task in store.tasks then Ok(store.tasks[task])
    else Err(StoreFailure(NotFound(task)))
  }

  /** The error the compare-and-set would return, if any. */
  function Verdict(store: Store.State, now: Time, op: Op, seen: TaskSnapshot, env: Env): Option<CoreError>
    requires op.Writes()
  {
    if env.fault then Some(UNAVAILABLE)
    else
      match Store.Append(store, Request(op, seen), now).1
      case Ok(_) => None
      case Err(e) => Some(StoreFailure(e))
  }

  function NewTaskOf(pr: Proc): NewTask
    requires pr.role.Invocation?
  {
    NewTask(pr.task, None, pr.role.agent, pr.role.caller, pr.role.key, None)
  }

  function AfterGrab(sem: Sem): Pc {
    match sem
    case QueueSlot => Acquiring(CallerSlot)
    case CallerSlot => Acquiring(GlobalSlot)
    case GlobalSlot => Acquiring(AgentSlot)
    case AgentSlot => Dropping([QueueSlot], ToLaunch)
  }

  /** The permits a refused invoke drops, in the source's order. */
  function DropOrder(sem: Sem): seq<Sem> {
    match sem
    case QueueSlot => []
    case CallerSlot => [QueueSlot]
    case GlobalSlot => [CallerSlot, QueueSlot]
    case AgentSlot => [CallerSlot, QueueSlot, GlobalSlot]
  }

  function Decimal(n: nat): string {
    if n < 10 then ["0123456789"[n]] else Decimal(n / 10) + ["0123456789"[n % 10]]
  }

  function LimitText(c: Config, pr: Proc, sem: Sem): string
    requires pr.role.Invocation?
  {
    match sem
    case QueueSlot =>
      "agent " + pr.role.agent + " queue full (max_queued_tasks=" + Decimal(Capacity(c, QueueOf(pr.role.agent))) + ")"
    case CallerSlot => "caller " + pr.role.caller + " at concurrency limit"
    case GlobalSlot => "global task limit reached"
    case AgentSlot => "agent " + pr.role.agent + " busy"
  }

  function Land(landing: Landing): Pc {
    match landing
    case ToReject(error) => FailRead(Rejection, error)
    case ToLaunch => Launching
    case ToEnd(outcome) => Returned(Finished(outcome))
  }

  /** Where `fail_active` returns to when it is done with the task. */
  function AfterFail(site: Site, outcome: Outcome, error: CoreError): Pc {
    match site
    case Rejection => Returned(Rejected(outcome))
    case Handler => if outcome.Settled? then Rechecking else FailRead(Exit, error)
    case Exit => Exiting(outcome)
  }

  /** `invoke` up to the launch of the worker: create, accept, take permits. */
  function DecideEntry(c: Config, s: Sys, pr: Proc, env: Env): Move
    requires pr.role.Invocation?
  {
    match pr.pc
    case Creating =>
      if env.fault then Goto(Returned(Refused(UNAVAILABLE)))
      else (
        match Store.Create(s.ledger.store, NewTaskOf(pr), s.now).1
        case Ok(TaskCreated(_)) => Open
        case Ok(TaskExisting(snapshot)) => Goto(Returned(Existing(snapshot.taskId)))
        case Err(e) => Goto(Returned(Refused(StoreFailure(e)))))
    case Accepting(seen) =>
      var error := Verdict(s.ledger.store, s.now, Accept, seen, env);
      if error.None? then Write(Accept, seen, Acquiring(QueueSlot))
      else Goto(Returned(Unaccepted(error.value)))
    case Acquiring(sem) =>
      if Available(c, s, PoolOf(pr, sem)) > 0 then Grab(sem, AfterGrab(sem))
      else Goto(Dropping(DropOrder(sem), ToReject(ResourceExhausted(LimitText(c, pr, sem)))))
    case Dropping(order, landing) =>
      if order == [] then Goto(Land(landing)) else Release(order[0], Dropping(order[1..], landing))
    case _ => Stay
  }

  /** `run_driver` and `apply_driver_event`. */
  function DecideDriver(store: Store.State, now: Time, pr: Proc, env: Env): Move {
    match pr.pc
    case Launching =>
      (match env.driver
       case DriverRefused(message) => Goto(FailRead(Exit, DriverError(message)))
       case DriverOpened => Goto(Receiving)
       case _ => Stay)
    case Receiving =>
      (match env.driver
       case Yielded(event) => Goto(Applying(event))
       case DriverClosed => Goto(FinalCheck)
       case _ => Stay)
    case Applying(event) =>
      (match Read(store, pr.task, env)
       case Err(error) => Goto(FailRead(Exit, error))
       case Ok(seen) =>
         if event.DriverAccepted? then Goto(Rechecking)
         else if event.DriverFailed? then Goto(FailRead(Handler, DriverError(event.error.message)))
         else Goto(Applied(event, seen)))
    case Applied(event, seen) =>
      if !Drive(event).Writes() then Stay
      else
        var error := Verdict(store, now, Drive(event), seen, env);
        if error.None? then Write(Drive(event), seen, Rechecking) else Goto(FailRead(Exit, error.value))
    case Rechecking =>
      (match Read(store, pr.task, env)
       case Err(error) => Goto(FailRead(Exit, error))
       case Ok(seen) => if seen.state.Terminal() then Goto(Exiting(Settled)) else Goto(Receiving))
    case FinalCheck =>
      (match Read(store, pr.task, env)
       case Err(error) => Goto(FailRead(Exit, error))
       case Ok(seen) =>
         if seen.state.Terminal() then Goto(Exiting(Settled)) else Goto(FailRead(Exit, STREAM_CLOSED)))
    case _ => Stay
  }

  /** `fail_active`, and the worker's last steps. */
  function DecideEnd(store: Store.State, now: Time, pr: Proc, env: Env): Move {
    match pr.pc
    case FailRead(site, error) =>
      (match Read(store, pr.task, env)
       case Err(e) => Goto(AfterFail(site, Faulted, e))
       case Ok(seen) =>
         if seen.state.Terminal() then Goto(AfterFail(site, Settled, error))
         else Goto(FailWrite(site, error, seen)))
    case FailWrite(site, error, seen) =>
      var refusal := Verdict(store, now, Fail(Failure(error)), seen, env);
      if refusal.None? then Write(Fail(Failure(error)), seen, AfterFail(site, Settled, error))
      else Goto(AfterFail(site, if env.fault then Faulted else Outrun(seen.revision), refusal.value))
    case Exiting(outcome) =>
      Retire(Dropping([AgentSlot, GlobalSlot, CallerSlot], ToEnd(outcome)))
    case _ => Stay
  }

  function CommandOp(role: Role): Op
    requires !role.Invocation?
  {
    if role.Canceller? then RequestCancel(role.reason) else GiveInput
  }

  function DecideCommand(store: Store.State, now: Time, pr: Proc, env: Env): Move
    requires !pr.role.Invocation?
  {
    match pr.pc
    case CommandRead =>
      (match Read(store, pr.task, env)
       case Err(_) => Goto(CommandDone)
       case Ok(seen) =>
         if pr.role.Canceller? && seen.state.Terminal() then Goto(CommandDone)
         else if pr.role.Inputter? && seen.state != WaitingForInput then Goto(CommandDone)
         else Goto(CommandWrite(seen)))
    case CommandWrite(seen) =>
      if Verdict(store, now, CommandOp(pr.role), seen, env).None?
      then Write(CommandOp(pr.role), seen, CommandDone)
      else Goto(CommandDone)
    case _ => Stay
  }

  function Decide(c: Config, s: Sys, pr: Proc, env: Env): Move {
    if !pr.role.Invocation? then DecideCommand(s.ledger.store, s.now, pr, env)
    else if pr.pc.Entry() then DecideEntry(c, s, pr, env)
    else if pr.pc.Driving() then DecideDriver(s.ledger.store, s.now, pr, env)
    else DecideEnd(s.ledger.store, s.now, pr, env)
  }

  // ---------------------------------------------------------------- the effect of a move

  function OpenIn(l: Ledger, now: Time, id: ProcId, task: NewTask): Ledger {
    Ledger(Store.Create(l.store, task, now).0, l.commits[task.taskId := []], l.creator[task.taskId := id])
  }

  function WriteTo(l: Ledger, now: Time, id: ProcId, op: Op, seen: TaskSnapshot): Ledger
    requires op.Writes()
  {
    var history := if seen.taskId in l.commits then l.commits[seen.taskId] else [];
    l.(store := Store.Append(l.store, Request(op, seen), now).0,
       commits := l.commits[seen.taskId := history + [Commit(id, op)]])
  }

  function LedgerAfter(s: Sys, id: ProcId, pr: Proc, m: Move): Ledger {
    match m
    case Open => if pr.role.Invocation? then OpenIn(s.ledger, s.now, id, NewTaskOf(pr)) else s.ledger
    case Write(op, seen, _) => if op.Writes() then WriteTo(s.ledger, s.now, id, op, seen) else s.ledger
    case _ => s.ledger
  }

  function ProcAfter(now: Time, pr: Proc, m: Move): Proc {
    match m
    case Stay => pr
    case Goto(pc) => pr.(pc := pc)
    case Open => if pr.role.Invocation? then pr.(pc := Accepting(Store.Fresh(NewTaskOf(pr), now))) else pr
    case Write(_, _, pc) => pr.(pc := pc)
    case Grab(sem, pc) => pr.(pc := pc, held := pr.held + {sem})
    case Release(sem, pc) => pr.(pc := pc, held := pr.held - {sem})
    case Retire(pc) => pr.(pc := pc)
  }

  function AvailableAfter(c: Config, s: Sys, pr: Proc, m: Move): map<Pool, nat> {
    if !pr.role.Invocation? then s.available
    else
      match m
      case Grab(sem, _) =>
        var pool := PoolOf(pr, sem);
        if Available(c, s, pool) > 0 then s.available[pool := Available(c, s, pool) - 1] else s.available
      case Release(sem, _) =>
        var pool := PoolOf(pr, sem);
        s.available[pool := Available(c, s, pool) + 1]
      case _ => s.available
  }

  function ActiveAfter(active: set<TaskId>, pr: Proc, m: Move): set<TaskId> {
    match m
    case Open => active + {pr.task}
    case Retire(_) => active - {pr.task}
    case _ => active
  }

  function Perform(c: Config, s: Sys, id: ProcId, m: Move): Sys
    requires id in s.procs
  {
    var pr := s.procs[id];
    Sys(LedgerAfter(s, id, pr, m), s.now, s.procs[id := ProcAfter(s.now, pr, m)],
        AvailableAfter(c, s, pr, m), ActiveAfter(s.active, pr, m))
  }

  /**
   An invocation resolves to a registered agent, and its task id is fresh: a repeated
   id comes with the caller and key it was first used with.
   */
  predicate MayBegin(c: Config, s: Sys, id: ProcId, role: Role, task: TaskId) {
    && id !in s.procs
    && (role.Invocation? ==>
          && role.agent in c.agents
          && forall q | q in s.procs && s.procs[q].role.Invocation? && s.procs[q].task == task ::
               s.procs[q].role.caller == role.caller && s.procs[q].role.key == role.key)
  }

  /** What an action amounts to in the current state. */
  datatype Effect = Nothing | Spawn(id: ProcId, role: Role, task: TaskId) | Do(id: ProcId, move: Move) | Wait(elapsed: nat)

  function Resolve(c: Config, s: Sys, a: Action): Effect {
    match a
    case Begin(id, role, task) => if MayBegin(c, s, id, role, task) then Spawn(id, role, task) else Nothing
    case Advance(id, env) => if id in s.procs then Do(id, Decide(c, s, s.procs[id], env)) else Nothing
    case Expire(id) =>
      if id in s.procs && s.procs[id].role.Invocation? && s.procs[id].pc.InDriver()
      then Do(id, Goto(FailRead(Exit, Timeout))) else Nothing
    case Tick(elapsed) => Wait(elapsed)
  }

  predicate InScope(s: Sys, e: Effect) {
    e.Do? ==> e.id in s.procs
  }

  function Apply(c: Config, s: Sys, e: Effect): Sys
    requires InScope(s, e)
  {
    match e
    case Nothing => s
    case Spawn(id, role, task) =>
      s.(procs := s.procs[id := Proc(role, task, {}, if role.Invocation? then Creating else CommandRead)])
    case Do(id, move) => Perform(c, s, id, move)
    case Wait(elapsed) => s.(now := s.now + elapsed)
  }

  function Step(c: Config, s: Sys, a: Action): Sys {
    Apply(c, s, Resolve(c, s, a))
  }

  function Run(c: Config, schedule: seq<Action>): Sys {
    if schedule == [] then INITIAL
    else Step(c, Run(c, schedule[..|schedule| - 1]), schedule[|schedule| - 1])
  }
}
