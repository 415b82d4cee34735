/**
 The store calls of the core's runs: every schedule of the interleaved core makes its
 calls on the state its ledger records, and gets the same replies from the in-memory
 and from the SQLite store.
 */
module CoreStores {
  import opened TaskModel
  import opened Lifecycle
  import opened CoreErrors
  import opened Core
  import opened CoreMoves
  import opened CoreHistory
  import opened CoreOwners
  import opened CoreTheorems
  import opened StoreAgreement
  import ReliableStream
  import Store = MemoryStore
  import Sqlite = SqliteStore

  /** The call an invocation makes at a program point. */
  function InvocationCall(pr: Proc): Option<Call>
    requires pr.role.Invocation?
  {
    match pr.pc
    case Creating => Some(CreateTask(NewTaskOf(pr)))
    case Accepting(seen) => Some(AppendEvent(Request(Accept, seen)))
    case Applying(_) => Some(GetTask(pr.task))
    case Applied(event, seen) =>
      if Drive(event).Writes() then Some(AppendEvent(Request(Drive(event), seen))) else None
    case Rechecking => Some(GetTask(pr.task))
    case FinalCheck => Some(GetTask(pr.task))
    case FailRead(_, _) => Some(GetTask(pr.task))
    case FailWrite(_, error, seen) => Some(AppendEvent(Request(Fail(Failure(error)), seen)))
    case _ => None
  }

  function CommandCall(pr: Proc): Option<Call>
    requires !pr.role.Invocation?
  {
    match pr.pc
    case CommandRead => Some(GetTask(pr.task))
    case CommandWrite(seen) => Some(AppendEvent(Request(CommandOp(pr.role), seen)))
    case _ => None
  }

  /** The call one action makes; a fault keeps it from the store. */
  function CallOf(s: Sys, a: Action): Option<Call> {
    if !a.Advance? || a.id !in s.procs || a.env.fault then None
    else if s.procs[a.id].role.Invocation? then InvocationCall(s.procs[a.id])
    else CommandCall(s.procs[a.id])
  }

  ghost function Calls(c: Config, schedule: seq<Action>): seq<Timed> {
    if schedule == [] then []
    else
      var n := |schedule| - 1;
      var s := Run(c, schedule[..n]);
      var call := CallOf(s, schedule[n]);
      Calls(c, schedule[..n]) + if call.Some? then [Timed(call.value, s.now)] else []
  }

  lemma NoWriteNamesAnEnd(op: Op, seen: TaskSnapshot)
    requires op.Writes()
    ensures Store.SparesEnded(Request(op, seen))
  {
  }

  /** Whatever the core asks of the store, it asks as `CoreCall` says. */
  lemma CallIsCoreCall(s: Sys, a: Action, call: Call)
    requires IdsAreFresh(s) && CallOf(s, a) == Some(call)
    ensures CoreCall(s.ledger.store, call, s.now)
  {
    if call.AppendEvent? {
      AppendsSpareEnded(s.procs[a.id], call);
    }
  }

  lemma AppendsSpareEnded(pr: Proc, call: Call)
    requires call.AppendEvent?
    requires Some(call) == if pr.role.Invocation? then InvocationCall(pr) else CommandCall(pr)
    ensures Store.SparesEnded(call.transition)
  {
    if !pr.role.Invocation? {
      NoWriteNamesAnEnd(CommandOp(pr.role), pr.pc.seen);
    } else if pr.pc.Accepting? {
      NoWriteNamesAnEnd(Accept, pr.pc.seen);
    } else if pr.pc.Applied? {
      NoWriteNamesAnEnd(Drive(pr.pc.event), pr.pc.seen);
    } else {
      NoWriteNamesAnEnd(Fail(Failure(pr.pc.error)), pr.pc.seen);
    }
  }

  // ---------------------------------------------------------------- the store the calls leave

  function StoreAfter(store: Store.State, call: Option<Call>, now: Time): Store.State {
    if call.Some? then OnMemory(store, call.value, now).0 else store
  }

  ghost function StoreOf(s: Sys, pr: Proc, m: Move, id: ProcId): Store.State {
    LedgerAfter(s, id, pr, m).store
  }

  lemma EntryCallsTheStore(c: Config, s: Sys, id: ProcId, pr: Proc, env: Env)
    requires pr.role.Invocation? && pr.pc.Entry()
    ensures StoreOf(s, pr, DecideEntry(c, s, pr, env), id) ==
            StoreAfter(s.ledger.store, if env.fault then None else InvocationCall(pr), s.now)
  {
  }

  lemma DriverCallsTheStore(s: Sys, id: ProcId, pr: Proc, env: Env)
    requires pr.role.Invocation? && pr.pc.Driving()
    ensures StoreOf(s, pr, DecideDriver(s.ledger.store, s.now, pr, env), id) ==
            StoreAfter(s.ledger.store, if env.fault then None else InvocationCall(pr), s.now)
  {
  }

  lemma EndCallsTheStore(s: Sys, id: ProcId, pr: Proc, env: Env)
    requires pr.role.Invocation? && !pr.pc.Entry() && !pr.pc.Driving()
    ensures StoreOf(s, pr, DecideEnd(s.ledger.store, s.now, pr, env), id) ==
            StoreAfter(s.ledger.store, if env.fault then None else InvocationCall(pr), s.now)
  {
  }

  lemma CommandCallsTheStore(s: Sys, id: ProcId, pr: Proc, env: Env)
    requires !pr.role.Invocation?
    ensures StoreOf(s, pr, DecideCommand(s.ledger.store, s.now, pr, env), id) ==
            StoreAfter(s.ledger.store, if env.fault then None else CommandCall(pr), s.now)
  {
  }

  /** A step leaves the store as its call does. */
  lemma StepCallsTheStore(c: Config, s: Sys, a: Action)
    ensures Step(c, s, a).ledger.store == StoreAfter(s.ledger.store, CallOf(s, a), s.now)
  {
    if a.Advance? && a.id in s.procs {
      var pr := s.procs[a.id];
      if !pr.role.Invocation? {
        CommandCallsTheStore(s, a.id, pr, a.env);
      } else if pr.pc.Entry() {
        EntryCallsTheStore(c, s, a.id, pr, a.env);
      } else if pr.pc.Driving() {
        DriverCallsTheStore(s, a.id, pr, a.env);
      } else {
        EndCallsTheStore(s, a.id, pr, a.env);
      }
    }
  }

  lemma {:induction false} RunMakesCoreCalls(c: Config, schedule: seq<Action>)
    ensures MemoryAfter(Store.EMPTY, Calls(c, schedule)) == Run(c, schedule).ledger.store
    ensures CoreCalls(Store.EMPTY, Calls(c, schedule))
  {
    if schedule != [] {
      var n := |schedule| - 1;
      RunMakesCoreCalls(c, schedule[..n]);
      var s, a := Run(c, schedule[..n]), schedule[n];
      StepCallsTheStore(c, s, a);
      FreshInRuns(c, schedule[..n]);
      var call := CallOf(s, a);
      if call.Some? {
        CallIsCoreCall(s, a, call.value);
        CoreCallsSnoc(Store.EMPTY, Calls(c, schedule[..n]), Timed(call.value, s.now));
      } else {
        assert Calls(c, schedule) == Calls(c, schedule[..n]);
      }
    }
  }

  lemma FreshInRuns(c: Config, schedule: seq<Action>)
    ensures IdsAreFresh(Run(c, schedule))
  {
    EveryRunKeepsInv(c, schedule);
    OwnedMeansFreshIds(Run(c, schedule));
  }

  /**
   Every run of the core, whatever the interleaving and however stale its writes, makes
   its calls on the store the run records and would get the same reply to each of them
   from either store.
   */
  lemma EveryRunFitsBothStores(c: Config, schedule: seq<Action>)
    ensures MemoryAfter(Store.EMPTY, Calls(c, schedule)) == Run(c, schedule).ledger.store
    ensures MemoryReplies(Store.EMPTY, Calls(c, schedule)) == SqliteReplies(Sqlite.EMPTY, Calls(c, schedule))
  {
    RunMakesCoreCalls(c, schedule);
    StoresAgreeOnCoreCalls(Calls(c, schedule));
  }

  // ---------------------------------------------------------------- with readers beside

  /** A step of the core, or a reader asking for a page of events, as `subscribe` and `history` do. */
  datatype Moment = Act(action: Action) | Look(task: TaskId, from: EventSeq)

  function Acts(moments: seq<Moment>, n: nat): seq<Action>
    requires n <= |moments|
  {
    if n == 0 then []
    else Acts(moments, n - 1) + if moments[n - 1].Act? then [moments[n - 1].action] else []
  }

  function CallAt(s: Sys, moment: Moment): Option<Call> {
    match moment
    case Act(action) => CallOf(s, action)
    case Look(task, from) => Some(ReadEvents(task, from, ReliableStream.PAGE))
  }

  ghost function AllCalls(c: Config, moments: seq<Moment>, n: nat): seq<Timed>
    requires n <= |moments|
  {
    if n == 0 then []
    else
      var s := Run(c, Acts(moments, n - 1));
      var call := CallAt(s, moments[n - 1]);
      AllCalls(c, moments, n - 1) + if call.Some? then [Timed(call.value, s.now)] else []
  }

  /** A reader asks for a task that exists at that moment. */
  ghost predicate FindsTask(c: Config, moments: seq<Moment>, i: nat)
    requires i < |moments|
  {
    moments[i].Look? ==> moments[i].task in Run(c, Acts(moments, i)).ledger.store.tasks
  }

  ghost predicate AllFindTasks(c: Config, moments: seq<Moment>, n: nat)
    requires n <= |moments|
  {
    n == 0 || (AllFindTasks(c, moments, n - 1) && FindsTask(c, moments, n - 1))
  }

  lemma EndTimesInRuns(c: Config, schedule: seq<Action>)
    ensures EndTimesAreEnds(Run(c, schedule).ledger.store)
  {
    forall t | t in Run(c, schedule).ledger.store.tasks
      ensures Run(c, schedule).ledger.store.tasks[t].terminalAt.Some? ==>
                Run(c, schedule).ledger.store.tasks[t].state.Terminal()
    {
      EveryRunIsEventSourced(c, schedule, t);
    }
  }

  lemma CoreCallIsAlike(s: Store.State, call: Call, now: Time)
    requires EndTimesAreEnds(s) && CoreCall(s, call, now)
    ensures Alike(s, call, now)
  {
  }

  /** The call of one moment: the store it leaves, and when both stores answer it alike. */
  lemma MomentCall(c: Config, schedule: seq<Action>, moment: Moment, s: Sys)
    requires s == Run(c, schedule)
    ensures var call := CallAt(s, moment);
            && (moment.Act? ==> Run(c, schedule + [moment.action]).ledger.store == StoreAfter(s.ledger.store, call, s.now))
            && (moment.Look? ==> StoreAfter(s.ledger.store, call, s.now) == s.ledger.store)
            && (call.Some? ==>
                  (Alike(s.ledger.store, call.value, s.now) <==>
                   (moment.Look? ==> moment.task in s.ledger.store.tasks)))
  {
    if moment.Act? {
      RunSnoc(c, schedule, [moment.action]);
      assert schedule + [moment.action][..0] == schedule;
      StepCallsTheStore(c, s, moment.action);
      if CallAt(s, moment).Some? {
        FreshInRuns(c, schedule);
        EndTimesInRuns(c, schedule);
        CallIsCoreCall(s, moment.action, CallAt(s, moment).value);
        CoreCallIsAlike(s.ledger.store, CallAt(s, moment).value, s.now);
      }
    }
  }

  /** The calls of the first `n` moments lead to the run's store, and are answered alike exactly if all find their tasks. */
  ghost predicate Fits(c: Config, moments: seq<Moment>, n: nat)
    requires n <= |moments|
  {
    && MemoryAfter(Store.EMPTY, AllCalls(c, moments, n)) == Run(c, Acts(moments, n)).ledger.store
    && (AlikeThroughout(Store.EMPTY, AllCalls(c, moments, n)) <==> AllFindTasks(c, moments, n))
  }

  lemma {:induction false} EveryMomentFits(c: Config, moments: seq<Moment>, n: nat)
    requires n <= |moments|
    ensures Fits(c, moments, n)
  {
    if n == 0 {
      NoMomentFits(c, moments, n);
    } else {
      EveryMomentFits(c, moments, n - 1);
      OneMoreMomentFits(c, moments, n - 1, n);
    }
  }

  lemma NoMomentFits(c: Config, moments: seq<Moment>, n: nat)
    requires n == 0
    ensures Fits(c, moments, n)
  {
    assert AllCalls(c, moments, n) == [] && Acts(moments, n) == [];
    assert Run(c, []).ledger.store == Store.EMPTY;
  }

  lemma OneMoreMomentFits(c: Config, moments: seq<Moment>, n: nat, next: nat)
    requires n + 1 == next <= |moments| && Fits(c, moments, n)
    ensures Fits(c, moments, next)
  {
    OneMoreMoment(c, moments, n);
    OneMoreFinds(c, moments, n);
  }

  lemma OneMoreFinds(c: Config, moments: seq<Moment>, n: nat)
    requires n < |moments|
    ensures AllFindTasks(c, moments, n + 1) <==> AllFindTasks(c, moments, n) && FindsTask(c, moments, n)
  {
  }

  lemma OneMoreMoment(c: Config, moments: seq<Moment>, n: nat)
    requires n < |moments|
    requires MemoryAfter(Store.EMPTY, AllCalls(c, moments, n)) == Run(c, Acts(moments, n)).ledger.store
    ensures MemoryAfter(Store.EMPTY, AllCalls(c, moments, n + 1)) == Run(c, Acts(moments, n + 1)).ledger.store
    ensures AlikeThroughout(Store.EMPTY, AllCalls(c, moments, n + 1)) <==>
            AlikeThroughout(Store.EMPTY, AllCalls(c, moments, n)) && FindsTask(c, moments, n)
  {
    var s, moment := Run(c, Acts(moments, n)), moments[n];
    var call := CallAt(s, moment);
    MomentCall(c, Acts(moments, n), moment, s);
    if call.Some? {
      AlikeSnoc(Store.EMPTY, AllCalls(c, moments, n), Timed(call.value, s.now));
    } else {
      assert AllCalls(c, moments, n + 1) == AllCalls(c, moments, n);
    }
    if moment.Look? {
      assert Acts(moments, n + 1) == Acts(moments, n);
    }
  }

  /**
   With readers beside the core, exactly: in every run all replies of both stores are equal
   if and only if no reader asks for a task that does not exist at that moment. (The
   in-memory store reports such a task as missing, the SQLite store answers with no events.)
   */
  lemma WatchedRunsFitBothStoresExactly(c: Config, moments: seq<Moment>)
    ensures var calls := AllCalls(c, moments, |moments|);
            MemoryReplies(Store.EMPTY, calls) == SqliteReplies(Sqlite.EMPTY, calls) <==>
            AllFindTasks(c, moments, |moments|)
  {
    EveryMomentFits(c, moments, |moments|);
    StoresAgree(AllCalls(c, moments, |moments|));
  }

  // ---------------------------------------------------------------- what goes through is true

  lemma AppendIsRequest(pr: Proc, call: Call) returns (op: Op)
    requires call.AppendEvent?
    requires Some(call) == if pr.role.Invocation? then InvocationCall(pr) else CommandCall(pr)
    ensures pr.pc.Holds() && op.Writes() && call.transition == Request(op, pr.pc.seen)
  {
    op := if !pr.role.Invocation? then CommandOp(pr.role)
          else if pr.pc.Accepting? then Accept
          else if pr.pc.Applied? then Drive(pr.pc.event)
          else Fail(Failure(pr.pc.error));
  }

  /** Whatever transition of the core goes through writes the state its event stands for. */
  lemma AppliedTransitionsAreTruthful(c: Config, schedule: seq<Action>, a: Action, call: Call)
    requires CallOf(Run(c, schedule), a) == Some(call) && call.AppendEvent?
    requires var s := Run(c, schedule); Store.Append(s.ledger.store, call.transition, s.now).1.Ok?
    ensures call.transition.nextState == After(call.transition.eventKind)
  {
    var s := Run(c, schedule);
    var pr := s.procs[a.id];
    var op := AppendIsRequest(pr, call);
    EveryRunKeepsInv(c, schedule);
    assert SeenIsPast(s.ledger, pr);
    SuccessMeansFresh(s.ledger, s.now, pr, op);
    NextStateIsAfter(op, pr.pc.seen.state);
  }
}
