/**
 The limits of the configuration: how many workers run and how many invocations queue, and
 when exactly an invocation is refused a permit and what is then recorded
 (crates/adapter-core/src/lib.rs, lines 80 to 110 and 385 to 462).
 */
module CoreLimits {
  import opened TaskModel
  import opened Lifecycle
  import opened CoreErrors
  import opened Core
  import opened CoreMoves
  import opened CoreHistory
  import opened CoreOwners
  import opened CorePermits
  import opened CoreTheorems
  import opened CoreSteps
  import Store = MemoryStore

  // ---------------------------------------------------------------- who runs and who holds what

  ghost function Running(s: Sys): set<ProcId> {
    set p | p in s.procs && s.procs[p].role.Invocation? && s.procs[p].pc.Worker()
  }

  ghost function RunningOn(s: Sys, agent: AgentId): set<ProcId> {
    set p | p in Running(s) && s.procs[p].role.agent == agent
  }

  ghost function RunningFor(s: Sys, caller: CallerId): set<ProcId> {
    set p | p in Running(s) && s.procs[p].role.caller == caller
  }

  /** The invocations that hold a permit of this kind. */
  ghost function Holding(s: Sys, sem: Sem): set<ProcId> {
    set p | p in s.procs && s.procs[p].role.Invocation? && sem in s.procs[p].held
  }

  ghost function HoldingOn(s: Sys, sem: Sem, agent: AgentId): set<ProcId> {
    set p | p in Holding(s, sem) && s.procs[p].role.agent == agent
  }

  ghost function HoldingFor(s: Sys, sem: Sem, caller: CallerId): set<ProcId> {
    set p | p in Holding(s, sem) && s.procs[p].role.caller == caller
  }

  lemma HoldersOfPool(s: Sys, pool: Pool)
    ensures Holders(s.procs, pool) ==
            match pool
            case QueueOf(agent) => HoldingOn(s, QueueSlot, agent)
            case CallerOf(caller) => HoldingFor(s, CallerSlot, caller)
            case Global => Holding(s, GlobalSlot)
            case AgentOf(agent) => HoldingOn(s, AgentSlot, agent)
  {
    var sem := match pool case QueueOf(_) => QueueSlot case CallerOf(_) => CallerSlot case Global => GlobalSlot
                          case AgentOf(_) => AgentSlot;
    forall p | p in s.procs && s.procs[p].role.Invocation?
      ensures HoldsFrom(s.procs[p], pool) <==> sem in s.procs[p].held && PoolOf(s.procs[p], sem) == pool
    {
    }
  }

  lemma RunningHold(s: Sys, p: ProcId)
    requires AllHeldOk(s) && p in Running(s)
    ensures p in Holding(s, CallerSlot) && p in Holding(s, GlobalSlot) && p in Holding(s, AgentSlot)
  {
    assert HeldOk(s.procs[p]);
  }

  lemma SmallerSet<T>(a: set<T>, b: set<T>)
    requires a <= b
    ensures |a| <= |b|
  {
    assert b == a + (b - a);
  }

  /**
   In every reachable state: the workers of an agent, of a caller and of the whole core,
   and the invocations queued for an agent, are within the limits the configuration names.
   */
  lemma LimitsAreKept(c: Config, schedule: seq<Action>, agent: AgentId, caller: CallerId)
    requires agent in c.agents
    ensures |RunningOn(Run(c, schedule), agent)| <= c.agents[agent].maxConcurrentTasks
    ensures |HoldingOn(Run(c, schedule), QueueSlot, agent)| <= c.agents[agent].maxQueuedTasks
    ensures |RunningFor(Run(c, schedule), caller)| <= c.callerMaxConcurrent
    ensures |Running(Run(c, schedule))| <= c.maxConcurrent
  {
    var s := Run(c, schedule);
    HeldInRun(c, schedule);
    forall p | p in Running(s)
      ensures p in Holding(s, CallerSlot) && p in Holding(s, GlobalSlot) && p in Holding(s, AgentSlot)
    {
      RunningHold(s, p);
    }
    HoldersAreLimited(c, schedule, agent, caller);
    SmallerSet(RunningOn(s, agent), HoldingOn(s, AgentSlot, agent));
    SmallerSet(RunningFor(s, caller), HoldingFor(s, CallerSlot, caller));
    SmallerSet(Running(s), Holding(s, GlobalSlot));
  }

  lemma HeldInRun(c: Config, schedule: seq<Action>)
    ensures AllHeldOk(Run(c, schedule))
  {
    EveryRunKeepsInv(c, schedule);
  }

  lemma HoldersAreLimited(c: Config, schedule: seq<Action>, agent: AgentId, caller: CallerId)
    requires agent in c.agents
    ensures var s := Run(c, schedule);
            && |HoldingOn(s, AgentSlot, agent)| <= c.agents[agent].maxConcurrentTasks
            && |HoldingOn(s, QueueSlot, agent)| <= c.agents[agent].maxQueuedTasks
            && |HoldingFor(s, CallerSlot, caller)| <= c.callerMaxConcurrent
            && |Holding(s, GlobalSlot)| <= c.maxConcurrent
  {
    var s := Run(c, schedule);
    PermitsAreConserved(c, schedule, AgentOf(agent));
    PermitsAreConserved(c, schedule, QueueOf(agent));
    PermitsAreConserved(c, schedule, CallerOf(caller));
    PermitsAreConserved(c, schedule, Global);
    HoldersOfPool(s, AgentOf(agent));
    HoldersOfPool(s, QueueOf(agent));
    HoldersOfPool(s, CallerOf(caller));
    HoldersOfPool(s, Global);
  }

  // ---------------------------------------------------------------- registered agents

  ghost predicate Registered(c: Config, s: Sys) {
    forall p | p in s.procs && s.procs[p].role.Invocation? :: s.procs[p].role.agent in c.agents
  }

  lemma StepKeepsRegistered(c: Config, s: Sys, a: Action)
    requires Registered(c, s)
    ensures Registered(c, Step(c, s, a))
  {
  }

  lemma {:induction false} EveryRunIsRegistered(c: Config, schedule: seq<Action>)
    ensures Registered(c, Run(c, schedule))
  {
    if schedule != [] {
      EveryRunIsRegistered(c, schedule[..|schedule| - 1]);
      StepKeepsRegistered(c, Run(c, schedule[..|schedule| - 1]), schedule[|schedule| - 1]);
    }
  }

  // ---------------------------------------------------------------- when a permit is refused

  /** Everybody else has taken the permits there are of the kind `pr` asks for. */
  ghost predicate Exhausted(c: Config, s: Sys, pr: Proc)
    requires pr.role.Invocation? && pr.role.agent in c.agents && pr.pc.Acquiring?
  {
    match pr.pc.sem
    case QueueSlot => |HoldingOn(s, QueueSlot, pr.role.agent)| == c.agents[pr.role.agent].maxQueuedTasks
    case CallerSlot => |HoldingFor(s, CallerSlot, pr.role.caller)| == c.callerMaxConcurrent
    case GlobalSlot => |Holding(s, GlobalSlot)| == c.maxConcurrent
    case AgentSlot => |HoldingOn(s, AgentSlot, pr.role.agent)| == c.agents[pr.role.agent].maxConcurrentTasks
  }

  /** The text of the refusal. */
  ghost predicate SaysWhy(c: Config, pr: Proc, error: CoreError)
    requires pr.role.Invocation? && pr.role.agent in c.agents && pr.pc.Acquiring?
  {
    match pr.pc.sem
    case QueueSlot =>
      error == ResourceExhausted("agent " + pr.role.agent + " queue full (max_queued_tasks=" +
                                 Decimal(c.agents[pr.role.agent].maxQueuedTasks) + ")")
    case CallerSlot => error == ResourceExhausted("caller " + pr.role.caller + " at concurrency limit")
    case GlobalSlot => error == ResourceExhausted("global task limit reached")
    case AgentSlot => error == ResourceExhausted("agent " + pr.role.agent + " busy")
  }

  /** What a string of decimal digits stands for. */
  function Value(digits: string): nat
    requires forall i | 0 <= i < |digits| :: '0' <= digits[i] <= '9'
  {
    if digits == "" then 0
    else Value(digits[..|digits| - 1]) * 10 + (digits[|digits| - 1] as int - '0' as int)
  }

  /** The limit in the text is the configured number, in decimal digits without leading zeros. */
  lemma {:induction false} DecimalStandsForTheNumber(n: nat)
    ensures forall i | 0 <= i < |Decimal(n)| :: '0' <= Decimal(n)[i] <= '9'
    ensures Value(Decimal(n)) == n
    ensures Decimal(n) != "" && (Decimal(n)[0] == '0' ==> n == 0)
  {
    var last := "0123456789"[n % 10];
    assert last as int - '0' as int == n % 10;
    if n < 10 {
      assert Value([last][..0]) == 0;
    } else {
      DecimalStandsForTheNumber(n / 10);
      assert Decimal(n)[..|Decimal(n)| - 1] == Decimal(n / 10);
    }
  }

  lemma AvailableUnlessExhausted(c: Config, s: Sys, pr: Proc, pool: Pool)
    requires pr.role.Invocation? && pr.role.agent in c.agents && pr.pc.Acquiring? && pool == PoolOf(pr, pr.pc.sem)
    requires ConservedIn(c, s, pool)
    ensures Available(c, s, pool) == 0 <==> Exhausted(c, s, pr)
  {
    HoldersOfPool(s, pool);
  }

  lemma AcquireDecides(c: Config, s: Sys, pr: Proc, env: Env)
    requires pr.role.Invocation? && pr.pc.Acquiring?
    ensures Decide(c, s, pr, env) ==
            if Available(c, s, PoolOf(pr, pr.pc.sem)) > 0 then Grab(pr.pc.sem, AfterGrab(pr.pc.sem))
            else Goto(Dropping(DropOrder(pr.pc.sem), ToReject(ResourceExhausted(LimitText(c, pr, pr.pc.sem)))))
  {
  }

  /** Where asking for a permit leads. */
  ghost predicate GrantedOrRefused(c: Config, s: Sys, s': Sys, p: ProcId)
    requires p in s.procs && s.procs[p].role.Invocation? && s.procs[p].role.agent in c.agents && s.procs[p].pc.Acquiring?
  {
    var pr, sem := s.procs[p], s.procs[p].pc.sem;
    && p in s'.procs && s'.ledger == s.ledger && p !in Holding(s, sem)
    && if Exhausted(c, s, pr) then
         && s'.procs[p].pc.Dropping? && s'.procs[p].pc.landing.ToReject? && SaysWhy(c, pr, s'.procs[p].pc.landing.error)
         && s'.procs[p].held == pr.held == SetOf(s'.procs[p].pc.order)
       else s'.procs[p].held == pr.held + {sem} && s'.procs[p].role == pr.role
  }

  lemma RefusalSaysWhy(c: Config, pr: Proc)
    requires pr.role.Invocation? && pr.role.agent in c.agents && pr.pc.Acquiring?
    ensures SaysWhy(c, pr, ResourceExhausted(LimitText(c, pr, pr.pc.sem)))
  {
  }

  lemma AcquireStep(c: Config, s: Sys, p: ProcId, env: Env, pr: Proc)
    requires p in s.procs && pr == s.procs[p] && pr.role.Invocation? && pr.role.agent in c.agents && pr.pc.Acquiring?
    requires HeldOk(pr) && ConservedIn(c, s, PoolOf(pr, pr.pc.sem))
    ensures GrantedOrRefused(c, s, Step(c, s, Advance(p, env)), p)
  {
    AvailableUnlessExhausted(c, s, pr, PoolOf(pr, pr.pc.sem));
    AcquireDecides(c, s, pr, env);
    RefusalSaysWhy(c, pr);
    DropOrderHeld(pr.pc.sem);
    StepIsPerform(c, s, p, env);
  }

  /**
   From every reachable state in which an invocation asks for a permit: it is refused if and
   only if as many others hold one as the configuration allows for its agent's queue, its
   caller, the whole core or its agent; otherwise it holds one more.
   */
  lemma PermitsAreRefusedExactlyAtTheLimit(c: Config, schedule: seq<Action>, p: ProcId, env: Env)
    requires p in Run(c, schedule).procs
    requires Run(c, schedule).procs[p].role.Invocation? && Run(c, schedule).procs[p].pc.Acquiring?
    ensures Run(c, schedule).procs[p].role.agent in c.agents
    ensures GrantedOrRefused(c, Run(c, schedule), Run(c, schedule + [Advance(p, env)]), p)
  {
    var s := Run(c, schedule);
    EveryRunIsRegistered(c, schedule);
    HeldInRun(c, schedule);
    ConservedInRun(c, schedule, PoolOf(s.procs[p], s.procs[p].pc.sem));
    AcquireStep(c, s, p, env, s.procs[p]);
    RunIsStep(c, schedule, Advance(p, env));
  }

  lemma ConservedInRun(c: Config, schedule: seq<Action>, pool: Pool)
    ensures ConservedIn(c, Run(c, schedule), pool)
  {
    PermitsAreConserved(c, schedule, pool);
  }

  // ---------------------------------------------------------------- a task is live while its owner goes on

  /** Points at which the owner has something left to do. */
  predicate AtWork(pc: Pc) {
    || pc.Accepting? || pc.Acquiring? || pc.Launching? || pc.Receiving?
    || (pc.Dropping? && !pc.landing.ToEnd?)
    || ((pc.FailRead? || pc.FailWrite?) && pc.site.Rejection?)
  }

  ghost predicate LiveTask(l: Ledger, t: TaskId) {
    t in l.store.tasks && !l.store.tasks[t].state.Terminal()
  }

  ghost predicate LiveFor(s: Sys, p: ProcId)
    requires p in s.procs
  {
    s.procs[p].role.Invocation? && AtWork(s.procs[p].pc) ==> LiveTask(s.ledger, s.procs[p].task)
  }

  lemma GotoAtWork(c: Config, s: Sys, pr: Proc, env: Env, pc: Pc)
    requires pr.role.Invocation? && Typed(pr) && Decide(c, s, pr, env) == Goto(pc) && AtWork(pc)
    ensures AtWork(pr.pc) ||
            (pr.pc.Rechecking? && pr.task in s.ledger.store.tasks && !s.ledger.store.tasks[pr.task].state.Terminal())
  {
  }

  lemma QuietAtWork(c: Config, s: Sys, pr: Proc, m: Move)
    requires Sound(c, s, pr, m) && (m.Grab? || m.Release? || m.Retire? || m.Stay?) && AtWork(ProcAfter(s.now, pr, m).pc)
    ensures AtWork(pr.pc)
  {
  }

  lemma WriteAtWork(c: Config, s: Sys, pr: Proc, env: Env, m: Move)
    requires pr.role.Invocation? && m == Decide(c, s, pr, env) && m.Write? && AtWork(m.pc)
    ensures m.op == Accept
  {
  }

  lemma AcceptLeavesLive(c: Config, s: Sys, p: ProcId, m: Move)
    requires Recorded(s.ledger, s.now) && SnapshotsArePast(s) && p in s.procs && m.Write? && m.op == Accept
    requires Sound(c, s, s.procs[p], m)
    ensures LiveTask(LedgerAfter(s, p, s.procs[p], m), s.procs[p].task)
  {
    WriteAdds(c, s, p, m);
    AddsAccept(s.ledger, Perform(c, s, p, m).ledger, s.procs[p].task, Commit(p, m.op));
  }

  lemma AddsAccept(l: Ledger, l': Ledger, t: TaskId, entry: Commit)
    requires Adds(l, l', t, entry) && entry.op == Accept
    ensures LiveTask(l', t)
  {
  }

  lemma OpenedIsLive(s: Sys, p: ProcId, pr: Proc)
    requires pr.role.Invocation? && KeyOf(pr.role) !in s.ledger.store.idempotency
    ensures LiveTask(LedgerAfter(s, p, pr, Open), pr.task)
  {
  }

  lemma OwnMoveLive(c: Config, s: Sys, p: ProcId, env: Env, m: Move, pr: Proc)
    requires Recorded(s.ledger, s.now) && SnapshotsArePast(s) && p in s.procs && pr == s.procs[p] && Typed(pr)
    requires pr.role.Invocation? && LiveFor(s, p) && m == Decide(c, s, pr, env) && Sound(c, s, pr, m)
    requires AtWork(ProcAfter(s.now, pr, m).pc)
    ensures LiveTask(LedgerAfter(s, p, pr, m), pr.task)
  {
    match m
    case Goto(pc) => GotoAtWork(c, s, pr, env, pc);
    case Open => OpenedIsLive(s, p, pr);
    case Write(op, seen, pc) =>
      WriteAtWork(c, s, pr, env, m);
      AcceptLeavesLive(c, s, p, m);
    case _ => QuietAtWork(c, s, pr, m);
  }

  lemma OpenLeavesOthersLive(s: Sys, id: ProcId, pr: Proc, t: TaskId)
    requires pr.role.Invocation? && KeyOf(pr.role) !in s.ledger.store.idempotency && pr.task != t && LiveTask(s.ledger, t)
    ensures LiveTask(LedgerAfter(s, id, pr, Open), t)
  {
  }

  /** A reachable state, as far as the proofs below need it. */
  ghost predicate Sane(s: Sys) {
    Recorded(s.ledger, s.now) && SnapshotsArePast(s) && Owned(s.ledger, s.procs) && AllTyped(s)
  }

  lemma FreshTask(s: Sys, id: ProcId, t: TaskId)
    requires Sane(s) && id in s.procs && s.procs[id].role.Invocation? && s.procs[id].pc.Creating?
    requires KeyOf(s.procs[id].role) !in s.ledger.store.idempotency && t in s.ledger.store.tasks
    ensures s.procs[id].task != t
  {
    OwnedMeansFreshIds(s);
  }

  lemma OthersLeaveLive(c: Config, s: Sys, id: ProcId, m: Move, t: TaskId)
    requires Sane(s) && id in s.procs && Sound(c, s, s.procs[id], m) && LiveTask(s.ledger, t)
    requires t in s.ledger.creator && s.ledger.creator[t] != id
    ensures LiveTask(LedgerAfter(s, id, s.procs[id], m), t)
  {
    if m.Write? {
      OutsidersLeaveTasksLive(c, s, id, m, t);
    } else if m.Open? {
      FreshTask(s, id, t);
      OpenLeavesOthersLive(s, id, s.procs[id], t);
    }
  }

  lemma OwnerOf(s: Sys, p: ProcId)
    requires OwnersAreCreators(s.ledger, s.procs) && p in s.procs && s.procs[p].role.Invocation? && AtWork(s.procs[p].pc)
    ensures s.procs[p].task in s.ledger.creator && s.ledger.creator[s.procs[p].task] == p
  {
  }

  lemma OthersDoKeepsLive(c: Config, s: Sys, id: ProcId, m: Move, p: ProcId)
    requires Sane(s) && p in s.procs && LiveFor(s, p) && id in s.procs && id != p && Sound(c, s, s.procs[id], m)
    ensures p in Perform(c, s, id, m).procs && LiveFor(Perform(c, s, id, m), p)
  {
    PerformParts(c, s, id, m);
    if s.procs[p].role.Invocation? && AtWork(s.procs[p].pc) {
      OwnerOf(s, p);
      OthersLeaveLive(c, s, id, m, s.procs[p].task);
    }
  }

  lemma OwnDoKeepsLive(c: Config, s: Sys, p: ProcId, env: Env, m: Move)
    requires Recorded(s.ledger, s.now) && SnapshotsArePast(s) && p in s.procs && Typed(s.procs[p]) && LiveFor(s, p)
    requires m == Decide(c, s, s.procs[p], env) && Sound(c, s, s.procs[p], m)
    ensures p in Perform(c, s, p, m).procs && LiveFor(Perform(c, s, p, m), p)
  {
    PerformParts(c, s, p, m);
    if s.procs[p].role.Invocation? && AtWork(ProcAfter(s.now, s.procs[p], m).pc) {
      OwnMoveLive(c, s, p, env, m, s.procs[p]);
    }
  }

  lemma ExpireKeepsLive(c: Config, s: Sys, p: ProcId, m: Move)
    requires p in s.procs && m == Goto(FailRead(Exit, Timeout))
    ensures p in Perform(c, s, p, m).procs && LiveFor(Perform(c, s, p, m), p)
  {
  }

  lemma DoKeepsLive(c: Config, s: Sys, a: Action, id: ProcId, m: Move, p: ProcId)
    requires Sane(s) && p in s.procs && LiveFor(s, p) && id in s.procs && Sound(c, s, s.procs[id], m)
    requires if a.Advance? then a.id == id && m == Decide(c, s, s.procs[id], a.env) else m == Goto(FailRead(Exit, Timeout))
    ensures p in Perform(c, s, id, m).procs && LiveFor(Perform(c, s, id, m), p)
  {
    if id != p {
      OthersDoKeepsLive(c, s, id, m, p);
    } else if a.Advance? {
      OwnDoKeepsLive(c, s, p, a.env, m);
    } else {
      ExpireKeepsLive(c, s, p, m);
    }
  }

  lemma RestKeepsLive(c: Config, s: Sys, e: Effect, p: ProcId)
    requires p in s.procs && LiveFor(s, p) && !e.Do? && (e.Spawn? ==> e.id !in s.procs)
    ensures p in Apply(c, s, e).procs && LiveFor(Apply(c, s, e), p)
  {
  }

  lemma StepKeepsLive(c: Config, s: Sys, a: Action, p: ProcId)
    requires Sane(s) && p in s.procs && LiveFor(s, p)
    ensures p in Step(c, s, a).procs && LiveFor(Step(c, s, a), p)
  {
    ResolveIsSound(c, s, a);
    var e := Resolve(c, s, a);
    if e.Do? {
      DoKeepsLive(c, s, a, e.id, e.move, p);
    } else {
      RestKeepsLive(c, s, e, p);
    }
  }

  lemma SaneInRun(c: Config, schedule: seq<Action>)
    ensures Sane(Run(c, schedule))
  {
    EveryRunKeepsInv(c, schedule);
  }

  lemma BornNotAtWork(c: Config, s: Sys, a: Action, p: ProcId)
    requires p !in s.procs && p in Step(c, s, a).procs
    ensures LiveFor(Step(c, s, a), p)
  {
  }

  /** In every run: as long as the owner of a task has something left to do, the task has not ended. */
  lemma {:induction false} OwnersAtWorkHaveLiveTasks(c: Config, schedule: seq<Action>, p: ProcId)
    requires p in Run(c, schedule).procs
    ensures LiveFor(Run(c, schedule), p)
  {
    if schedule != [] {
      var n := |schedule| - 1;
      if p in Run(c, schedule[..n]).procs {
        OwnersAtWorkHaveLiveTasks(c, schedule[..n], p);
        SaneInRun(c, schedule[..n]);
        StepKeepsLive(c, Run(c, schedule[..n]), schedule[n], p);
      } else {
        BornNotAtWork(c, Run(c, schedule[..n]), schedule[n], p);
      }
    }
  }

  // ---------------------------------------------------------------- what a refusal leaves

  function Advancing(schedule: seq<Action>, p: ProcId, env: Env, n: nat): seq<Action> {
    if n == 0 then schedule else Advancing(schedule, p, env, n - 1) + [Advance(p, env)]
  }

  lemma DropDecides(c: Config, s: Sys, pr: Proc, env: Env)
    requires pr.role.Invocation? && pr.pc.Dropping?
    ensures Decide(c, s, pr, env) ==
            if pr.pc.order == [] then Goto(Land(pr.pc.landing))
            else Release(pr.pc.order[0], Dropping(pr.pc.order[1..], pr.pc.landing))
  {
  }

  /** A refused invocation that has given back its first `n` permits. */
  ghost predicate GaveBack(s: Sys, s': Sys, p: ProcId, n: nat)
    requires p in s.procs && s.procs[p].pc.Dropping? && n <= |s.procs[p].pc.order|
  {
    && s'.ledger == s.ledger && s'.now == s.now && p in s'.procs
    && s'.procs[p].role == s.procs[p].role && s'.procs[p].task == s.procs[p].task
    && s'.procs[p].pc == Dropping(s.procs[p].pc.order[n..], s.procs[p].pc.landing)
  }

  lemma GivesBackOne(c: Config, s: Sys, s': Sys, p: ProcId, env: Env, n: nat)
    requires p in s.procs && s.procs[p].role.Invocation? && s.procs[p].pc.Dropping? && n < |s.procs[p].pc.order|
    requires GaveBack(s, s', p, n)
    ensures GaveBack(s, Step(c, s', Advance(p, env)), p, n + 1)
  {
    DropDecides(c, s', s'.procs[p], env);
    StepIsPerform(c, s', p, env);
    assert s.procs[p].pc.order[n..][1..] == s.procs[p].pc.order[n + 1..];
  }

  lemma {:induction false} GivesBack(c: Config, schedule: seq<Action>, p: ProcId, env: Env, n: nat)
    requires p in Run(c, schedule).procs && Run(c, schedule).procs[p].role.Invocation?
    requires Run(c, schedule).procs[p].pc.Dropping? && n <= |Run(c, schedule).procs[p].pc.order|
    ensures GaveBack(Run(c, schedule), Run(c, Advancing(schedule, p, env, n)), p, n)
  {
    var s := Run(c, schedule);
    if n == 0 {
      assert s.procs[p].pc.order[0..] == s.procs[p].pc.order;
    } else {
      GivesBack(c, schedule, p, env, n - 1);
      GivesBackOne(c, s, Run(c, Advancing(schedule, p, env, n - 1)), p, env, n - 1);
      RunIsStep(c, Advancing(schedule, p, env, n - 1), Advance(p, env));
    }
  }

  /** A failure is about to be recorded for the task of `p`, which nobody has touched meanwhile. */
  ghost predicate Failing(s: Sys, s': Sys, p: ProcId, pc: Pc)
    requires p in s.procs
  {
    && s'.ledger == s.ledger && s'.now == s.now && p in s'.procs
    && s'.procs[p].role == s.procs[p].role && s'.procs[p].task == s.procs[p].task && s'.procs[p].pc == pc
  }

  lemma LandsFailing(c: Config, s: Sys, s': Sys, p: ProcId, env: Env, error: CoreError)
    requires p in s.procs && s.procs[p].role.Invocation? && Failing(s, s', p, Dropping([], ToReject(error)))
    ensures Failing(s, Step(c, s', Advance(p, env)), p, FailRead(Rejection, error))
  {
    DropDecides(c, s', s'.procs[p], env);
    GotoStep(c, s', p, env, FailRead(Rejection, error));
  }

  lemma ReadsFailing(c: Config, s: Sys, s': Sys, p: ProcId, env: Env, error: CoreError)
    requires p in s.procs && s.procs[p].role.Invocation? && Failing(s, s', p, FailRead(Rejection, error)) && !env.fault
    requires s.procs[p].task in s.ledger.store.tasks && !s.ledger.store.tasks[s.procs[p].task].state.Terminal()
    ensures Failing(s, Step(c, s', Advance(p, env)), p,
                    FailWrite(Rejection, error, s.ledger.store.tasks[s.procs[p].task]))
  {
    GotoStep(c, s', p, env, FailWrite(Rejection, error, s.ledger.store.tasks[s.procs[p].task]));
  }

  lemma RejectionDecides(c: Config, s: Sys, pr: Proc, env: Env)
    requires pr.role.Invocation? && pr.pc.FailWrite? && pr.pc.site.Rejection?
    requires Verdict(s.ledger.store, s.now, Fail(Failure(pr.pc.error)), pr.pc.seen, env).None?
    ensures Decide(c, s, pr, env) == Write(Fail(Failure(pr.pc.error)), pr.pc.seen, Returned(Rejected(Settled)))
  {
  }

  lemma WritesFailure(c: Config, s: Sys, s': Sys, p: ProcId, env: Env, error: CoreError, t: TaskId)
    requires Recorded(s.ledger, s.now) && p in s.procs && s.procs[p].role.Invocation? && s.procs[p].task == t && !env.fault
    requires t in s.ledger.store.tasks && !s.ledger.store.tasks[t].state.Terminal()
    requires Failing(s, s', p, FailWrite(Rejection, error, s.ledger.store.tasks[t]))
    ensures var s'' := Step(c, s', Advance(p, env));
            && Appended(s.ledger, s''.ledger, s.now, t, FailedEvent(Failure(error)), Failed)
            && p in s''.procs && s''.procs[p].pc == Returned(Rejected(Settled))
  {
    var seen := s.ledger.store.tasks[t];
    CurrentState(s.ledger, s.now, t);
    FailureAppends(s.ledger, s.now, p, error, seen, env);
    RejectionDecides(c, s', s'.procs[p], env);
    WriteStep(c, s', p, env, Fail(Failure(error)), seen, Returned(Rejected(Settled)));
  }

  /** The event a refused invocation leaves on its task. */
  function RefusalEvent(text: string): EventKind {
    FailedEvent(PublicError("runtime_error", "resource exhausted: " + text, false))
  }

  function Rejecting(schedule: seq<Action>, p: ProcId, env: Env, n: nat): seq<Action> {
    Advancing(schedule, p, env, n) + [Advance(p, env)] + [Advance(p, env)] + [Advance(p, env)]
  }

  lemma RejectionEnds(c: Config, schedule: seq<Action>, p: ProcId, env: Env, t: TaskId, n: nat, error: CoreError)
    requires p in Run(c, schedule).procs && Run(c, schedule).procs[p].role.Invocation? && !env.fault
    requires Run(c, schedule).procs[p].pc.Dropping? && Run(c, schedule).procs[p].pc.landing == ToReject(error)
    requires n == |Run(c, schedule).procs[p].pc.order| && t == Run(c, schedule).procs[p].task
    requires t in Run(c, schedule).ledger.store.tasks && !Run(c, schedule).ledger.store.tasks[t].state.Terminal()
    ensures var s, s' := Run(c, schedule), Run(c, Rejecting(schedule, p, env, n));
            && Appended(s.ledger, s'.ledger, s.now, t, FailedEvent(Failure(error)), Failed)
            && p in s'.procs && s'.procs[p].pc == Returned(Rejected(Settled))
  {
    var s, dropped := Run(c, schedule), Advancing(schedule, p, env, n);
    GivesBack(c, schedule, p, env, n);
    assert s.procs[p].pc.order[n..] == [];
    LandsFailing(c, s, Run(c, dropped), p, env, error);
    RunIsStep(c, dropped, Advance(p, env));
    ReadsFailing(c, s, Run(c, dropped + [Advance(p, env)]), p, env, error);
    RunIsStep(c, dropped + [Advance(p, env)], Advance(p, env));
    RecordedInRun(c, schedule);
    WritesFailure(c, s, Run(c, dropped + [Advance(p, env)] + [Advance(p, env)]), p, env, error, t);
    RunIsStep(c, dropped + [Advance(p, env)] + [Advance(p, env)], Advance(p, env));
  }

  /**
   An invocation refused for a limit, undisturbed from there: it gives its permits back,
   records one failure that names the limit, and returns; its task has failed.
   */
  lemma RefusedInvocationsFailTheirTask(c: Config, schedule: seq<Action>, p: ProcId, env: Env, text: string)
    requires p in Run(c, schedule).procs && Run(c, schedule).procs[p].role.Invocation? && !env.fault
    requires Run(c, schedule).procs[p].pc.Dropping? &&
             Run(c, schedule).procs[p].pc.landing == ToReject(ResourceExhausted(text))
    ensures var s, s' := Run(c, schedule), Run(c, Rejecting(schedule, p, env, |Run(c, schedule).procs[p].pc.order|));
            && Appended(s.ledger, s'.ledger, s.now, s.procs[p].task, RefusalEvent(text), Failed)
            && p in s'.procs && s'.procs[p].pc == Returned(Rejected(Settled)) && s'.procs[p].held == {}
  {
    var s := Run(c, schedule);
    OwnersAtWorkHaveLiveTasks(c, schedule, p);
    RejectionEnds(c, schedule, p, env, s.procs[p].task, |s.procs[p].pc.order|, ResourceExhausted(text));
    ReturnedCallsHoldNothing(c, Rejecting(schedule, p, env, |s.procs[p].pc.order|), p);
  }
}
