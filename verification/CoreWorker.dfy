/**
 A worker of the interleaved core that nobody disturbs is the worker on its own: from every
 reachable state in which it is about to start its driver, whatever the driver does and
 whenever the time is up, the task's log grows by exactly the outcome of what the driver
 did (crates/adapter-core/src/lib.rs, lines 463 to 483 and 559 to 692).
 */
module CoreWorker {
  import opened TaskModel
  import opened Lifecycle
  import opened CoreErrors
  import opened Core
  import opened CoreMoves
  import opened CoreHistory
  import opened CoreOwners
  import opened CoreTheorems
  import opened CoreSteps
  import W = Worker
  import Store = MemoryStore

  // ---------------------------------------------------------------- the worker's way, step by step

  datatype View = View(log: seq<EventKind>, state: TaskState)

  ghost function ViewOf(l: Ledger, t: TaskId): View
    requires t in l.store.tasks && t in l.store.events
  {
    View(Kinds(l.store.events[t]), l.store.tasks[t].state)
  }

  datatype Spot =
    | AtLaunch
    | AtWait
    | AtMessage(event: DriverEvent)
    | AtWrite(event: DriverEvent)
    | AtCheck
    | AtClose
    | AtFailure(handler: bool, error: CoreError, seen: bool)
    | AtEnd
    | AtLoss
    | Elsewhere

  /** A worker that leaves its task ended is at the end; one cut off by the store has lost it. */
  function Left(outcome: Outcome): Spot {
    match outcome
    case Settled => AtEnd
    case Faulted => AtLoss
    case Outrun(_) => Elsewhere
  }

  /** Where a worker stands; a snapshot it holds must be the current one. */
  ghost function SpotOf(l: Ledger, pr: Proc): Spot
    requires pr.task in l.store.tasks
  {
    match pr.pc
    case Launching => AtLaunch
    case Receiving => AtWait
    case Applying(event) => AtMessage(event)
    case Applied(event, seen) =>
      if seen == l.store.tasks[pr.task] && Drive(event).Writes() then AtWrite(event) else Elsewhere
    case Rechecking => AtCheck
    case FinalCheck => AtClose
    case FailRead(site, error) => if site.Rejection? then Elsewhere else AtFailure(site.Handler?, error, false)
    case FailWrite(site, error, seen) =>
      if site.Rejection? || seen != l.store.tasks[pr.task] || seen.state.Terminal() then Elsewhere
      else AtFailure(site.Handler?, error, true)
    case Exiting(outcome) => Left(outcome)
    case Dropping(_, landing) => if landing.ToEnd? then Left(landing.outcome) else Elsewhere
    case Returned(reply) => if reply.Finished? then Left(reply.outcome) else Elsewhere
    case _ => Elsewhere
  }

  function PastFailure(handler: bool): Spot {
    if handler then AtCheck else AtEnd
  }

  /** Where the worker calls the store. */
  predicate Calls(spot: Spot) {
    spot.AtMessage? || spot.AtWrite? || spot.AtCheck? || spot.AtClose? || spot.AtFailure?
  }

  const FAULT := StoreFailure(Unavailable("fault"))

  /** A store fault ends the driver loop; one that strikes the last write is the end of it all. */
  function Struck(spot: Spot): Spot {
    if spot.AtFailure? && !spot.handler then AtLoss else AtFailure(false, FAULT, false)
  }

  /** One step of an undisturbed worker. */
  function Forth(spot: Spot, view: View, env: Env): (Spot, View) {
    if env.fault && Calls(spot) then (Struck(spot), view) else Onwards(spot, view, env.driver)
  }

  function Onwards(spot: Spot, view: View, driver: DriverReply): (Spot, View) {
    match spot
    case AtLaunch =>
      if driver.DriverRefused? then (AtFailure(false, DriverError(driver.message), false), view)
      else if driver.DriverOpened? then (AtWait, view) else (spot, view)
    case AtWait =>
      if driver.Yielded? then (AtMessage(driver.event), view)
      else if driver.DriverClosed? then (AtClose, view) else (spot, view)
    case AtMessage(event) =>
      if event.DriverAccepted? then (AtCheck, view)
      else if event.DriverFailed? then (AtFailure(true, DriverError(event.error.message), false), view)
      else (AtWrite(event), view)
    case AtWrite(event) =>
      var response := W.Respond(view.state, event);
      if response.Put? then (AtCheck, View(view.log + [response.kind], After(response.kind)))
      else if response.End? then (AtFailure(false, response.error, false), view)
      else (spot, view)
    case AtCheck => (if view.state.Terminal() then AtEnd else AtWait, view)
    case AtClose => (if view.state.Terminal() then AtEnd else AtFailure(false, STREAM_CLOSED, false), view)
    case AtFailure(handler, error, seen) =>
      if seen then (PastFailure(handler), View(view.log + [FailedEvent(Failure(error))], Failed))
      else (if view.state.Terminal() then PastFailure(handler) else AtFailure(handler, error, true), view)
    case AtEnd => (spot, view)
    case AtLoss => (spot, view)
    case Elsewhere => (spot, view)
  }

  ghost predicate Stands(s: Sys, p: ProcId, t: TaskId, spot: Spot, view: View) {
    && p in s.procs && s.procs[p].role.Invocation? && s.procs[p].task == t
    && t in s.ledger.store.tasks && t in s.ledger.store.events
    && SpotOf(s.ledger, s.procs[p]) == spot && ViewOf(s.ledger, t) == view
  }

  lemma GotoStands(c: Config, s: Sys, p: ProcId, env: Env, t: TaskId, spot: Spot, view: View, pc: Pc)
    requires Stands(s, p, t, spot, view) && Decide(c, s, s.procs[p], env) == Goto(pc)
    ensures Stands(Step(c, s, Advance(p, env)), p, t, SpotOf(s.ledger, s.procs[p].(pc := pc)), view)
  {
    GotoStep(c, s, p, env, pc);
  }

  lemma AppendedView(l: Ledger, l': Ledger, now: Time, t: TaskId, kind: EventKind, state: TaskState)
    requires Appended(l, l', now, t, kind, state)
    ensures t in l'.store.tasks && t in l'.store.events
    ensures ViewOf(l', t) == View(ViewOf(l, t).log + [kind], state)
  {
  }

  lemma WriteStands(c: Config, s: Sys, p: ProcId, env: Env, t: TaskId, spot: Spot, view: View, op: Op,
                    seen: TaskSnapshot, pc: Pc, kind: EventKind, state: TaskState)
    requires Stands(s, p, t, spot, view) && op.Writes() && Decide(c, s, s.procs[p], env) == Write(op, seen, pc)
    requires Appended(s.ledger, WriteTo(s.ledger, s.now, p, op, seen), s.now, t, kind, state)
    requires pc == Rechecking || pc == Exiting(Settled)
    ensures Stands(Step(c, s, Advance(p, env)), p, t, if pc.Rechecking? then AtCheck else AtEnd,
                   View(view.log + [kind], state))
  {
    WriteStep(c, s, p, env, op, seen, pc);
    AppendedView(s.ledger, WriteTo(s.ledger, s.now, p, op, seen), s.now, t, kind, state);
  }

  lemma AppliedMove(c: Config, s: Sys, pr: Proc, env: Env, verdict: Option<CoreError>)
    requires pr.role.Invocation? && pr.pc.Applied? && Drive(pr.pc.event).Writes()
    requires verdict == Verdict(s.ledger.store, s.now, Drive(pr.pc.event), pr.pc.seen, env)
    ensures Decide(c, s, pr, env) ==
            if verdict.None? then Write(Drive(pr.pc.event), pr.pc.seen, Rechecking)
            else Goto(FailRead(Exit, verdict.value))
  {
  }

  lemma ForthAtWrite(event: DriverEvent, view: View, env: Env)
    requires Drive(event).Writes() && !env.fault
    ensures Forth(AtWrite(event), view, env) ==
            if view.state in Allowed(Drive(event))
            then (AtCheck, View(view.log + [KindOf(Drive(event))], After(KindOf(Drive(event)))))
            else (AtFailure(false, W.Refusal(view.state), false), view)
  {
  }

  /** What the store says to a write from the current snapshot, and what the write then leaves. */
  ghost predicate Answered(l: Ledger, now: Time, p: ProcId, op: Op, seen: TaskSnapshot, env: Env)
    requires op.Writes()
  {
    && Verdict(l.store, now, op, seen, env) ==
       (if seen.state in Allowed(op) then None else Some(W.Refusal(seen.state)))
    && (seen.state in Allowed(op) ==>
          Appended(l, WriteTo(l, now, p, op, seen), now, seen.taskId, KindOf(op), After(KindOf(op))))
  }

  ghost predicate Ready(l: Ledger, now: Time, p: ProcId, t: TaskId, env: Env) {
    t in l.store.tasks ==>
      && l.store.tasks[t].taskId == t
      && forall op: Op | op.Writes() :: Answered(l, now, p, op, l.store.tasks[t], env)
  }

  lemma CurrentWrite(l: Ledger, now: Time, p: ProcId, op: Op, seen: TaskSnapshot, env: Env)
    requires Recorded(l, now) && op.Writes() && !env.fault && seen.taskId in l.store.tasks
    requires seen == l.store.tasks[seen.taskId]
    ensures Answered(l, now, p, op, seen, env)
  {
    CurrentVerdict(l, now, op, seen, env);
    if seen.state in Allowed(op) {
      WriteAppends(l, now, p, op, seen);
    }
  }

  lemma RecordedIsReady(l: Ledger, now: Time, p: ProcId, t: TaskId, env: Env)
    requires Recorded(l, now) && !env.fault
    ensures Ready(l, now, p, t, env)
  {
    if t in l.store.tasks {
      CurrentState(l, now, t);
      forall op: Op | op.Writes()
        ensures Answered(l, now, p, op, l.store.tasks[t], env)
      {
        CurrentWrite(l, now, p, op, l.store.tasks[t], env);
      }
    }
  }

  lemma WriteForth(c: Config, s: Sys, p: ProcId, env: Env, t: TaskId, view: View, event: DriverEvent)
    requires Ready(s.ledger, s.now, p, t, env) && Stands(s, p, t, AtWrite(event), view) && !env.fault
    ensures var next := Forth(AtWrite(event), view, env);
            Stands(Step(c, s, Advance(p, env)), p, t, next.0, next.1)
  {
    ForthAtWrite(event, view, env);
    assert Answered(s.ledger, s.now, p, Drive(event), s.ledger.store.tasks[t], env);
    WriteOrEnd(c, s, p, env, t, view, event, s.ledger.store.tasks[t]);
  }

  lemma WriteOrEnd(c: Config, s: Sys, p: ProcId, env: Env, t: TaskId, view: View, event: DriverEvent, seen: TaskSnapshot)
    requires Stands(s, p, t, AtWrite(event), view) && seen == s.ledger.store.tasks[t]
    requires Verdict(s.ledger.store, s.now, Drive(event), seen, env) ==
             if view.state in Allowed(Drive(event)) then None else Some(W.Refusal(view.state))
    requires view.state in Allowed(Drive(event)) ==>
               Appended(s.ledger, WriteTo(s.ledger, s.now, p, Drive(event), seen), s.now, t, KindOf(Drive(event)),
                        After(KindOf(Drive(event))))
    ensures Stands(Step(c, s, Advance(p, env)), p, t,
                   if view.state in Allowed(Drive(event)) then AtCheck else AtFailure(false, W.Refusal(view.state), false),
                   if view.state in Allowed(Drive(event))
                   then View(view.log + [KindOf(Drive(event))], After(KindOf(Drive(event)))) else view)
  {
    var op := Drive(event);
    AppliedMove(c, s, s.procs[p], env, Verdict(s.ledger.store, s.now, op, seen, env));
    if view.state in Allowed(op) {
      WriteStands(c, s, p, env, t, AtWrite(event), view, op, seen, Rechecking, KindOf(op), After(KindOf(op)));
    } else {
      GotoStands(c, s, p, env, t, AtWrite(event), view, FailRead(Exit, W.Refusal(view.state)));
    }
  }

  lemma FailMove(c: Config, s: Sys, pr: Proc, env: Env)
    requires pr.role.Invocation? && pr.pc.FailWrite? && !pr.pc.site.Rejection?
    requires Verdict(s.ledger.store, s.now, Fail(Failure(pr.pc.error)), pr.pc.seen, env).None?
    ensures Decide(c, s, pr, env) ==
            Write(Fail(Failure(pr.pc.error)), pr.pc.seen, if pr.pc.site.Handler? then Rechecking else Exiting(Settled))
  {
  }

  lemma FailureForth(c: Config, s: Sys, p: ProcId, env: Env, t: TaskId, view: View, handler: bool, error: CoreError)
    requires Ready(s.ledger, s.now, p, t, env) && Stands(s, p, t, AtFailure(handler, error, true), view) && !env.fault
    ensures var next := Forth(AtFailure(handler, error, true), view, env);
            Stands(Step(c, s, Advance(p, env)), p, t, next.0, next.1)
  {
    FailTable(error, view.state);
    assert Answered(s.ledger, s.now, p, Fail(Failure(error)), s.ledger.store.tasks[t], env);
    FailureStands(c, s, p, env, t, view, handler, error, s.ledger.store.tasks[t]);
  }

  lemma FailureStands(c: Config, s: Sys, p: ProcId, env: Env, t: TaskId, view: View, handler: bool, error: CoreError,
                      seen: TaskSnapshot)
    requires Stands(s, p, t, AtFailure(handler, error, true), view) && seen == s.ledger.store.tasks[t]
    requires Verdict(s.ledger.store, s.now, Fail(Failure(error)), seen, env).None?
    requires Appended(s.ledger, WriteTo(s.ledger, s.now, p, Fail(Failure(error)), seen), s.now, t,
                      FailedEvent(Failure(error)), Failed)
    ensures Stands(Step(c, s, Advance(p, env)), p, t, PastFailure(handler),
                   View(view.log + [FailedEvent(Failure(error))], Failed))
  {
    FailMove(c, s, s.procs[p], env);
    WriteStands(c, s, p, env, t, AtFailure(handler, error, true), view, Fail(Failure(error)), seen,
                if handler then Rechecking else Exiting(Settled), FailedEvent(Failure(error)), Failed);
  }

  predicate JustReads(spot: Spot) {
    || spot.AtLaunch? || spot.AtWait? || spot.AtMessage? || spot.AtCheck? || spot.AtClose?
    || (spot.AtFailure? && !spot.seen)
  }

  /** At these points the worker only reads, or is told something. */
  lemma ReadMove(c: Config, s: Sys, pr: Proc, env: Env, view: View)
    requires pr.role.Invocation? && pr.task in s.ledger.store.tasks && pr.task in s.ledger.store.events && !env.fault
    requires view == ViewOf(s.ledger, pr.task)
    requires JustReads(SpotOf(s.ledger, pr))
    ensures var m, next := Decide(c, s, pr, env), Forth(SpotOf(s.ledger, pr), view, env);
            && next.1 == view
            && (m.Goto? ==> SpotOf(s.ledger, pr.(pc := m.pc)) == next.0)
            && (m.Stay? ==> SpotOf(s.ledger, pr) == next.0)
            && (m.Goto? || m.Stay?)
  {
  }

  lemma StayStep(c: Config, s: Sys, p: ProcId, env: Env)
    requires p in s.procs && Decide(c, s, s.procs[p], env) == Stay
    ensures Step(c, s, Advance(p, env)) == s
  {
  }

  lemma ReadForth(c: Config, s: Sys, p: ProcId, env: Env, t: TaskId, spot: Spot, view: View)
    requires Stands(s, p, t, spot, view) && !env.fault && JustReads(spot)
    ensures var next := Forth(spot, view, env); Stands(Step(c, s, Advance(p, env)), p, t, next.0, next.1)
  {
    ReadMove(c, s, s.procs[p], env, view);
    var m := Decide(c, s, s.procs[p], env);
    if m.Goto? {
      GotoStands(c, s, p, env, t, spot, view, m.pc);
    } else {
      StayStep(c, s, p, env);
    }
  }

  /** A worker that is told something hears it also while the store fails. */
  lemma ToldMove(c: Config, s: Sys, pr: Proc, env: Env)
    requires pr.role.Invocation? && (pr.pc.Launching? || pr.pc.Receiving?)
    ensures Decide(c, s, pr, env) == Decide(c, s, pr, env.(fault := false))
  {
  }

  lemma ToldForth(c: Config, s: Sys, p: ProcId, env: Env, t: TaskId, spot: Spot, view: View)
    requires Stands(s, p, t, spot, view) && (spot.AtLaunch? || spot.AtWait?)
    ensures var next := Forth(spot, view, env); Stands(Step(c, s, Advance(p, env)), p, t, next.0, next.1)
  {
    ToldMove(c, s, s.procs[p], env);
    StepIsPerform(c, s, p, env);
    StepIsPerform(c, s, p, env.(fault := false));
    ReadForth(c, s, p, env.(fault := false), t, spot, view);
  }

  lemma FaultMove(c: Config, s: Sys, pr: Proc, env: Env)
    requires pr.role.Invocation? && pr.task in s.ledger.store.tasks && env.fault && Calls(SpotOf(s.ledger, pr))
    ensures var m := Decide(c, s, pr, env);
            m.Goto? && SpotOf(s.ledger, pr.(pc := m.pc)) == Struck(SpotOf(s.ledger, pr))
  {
  }

  lemma FaultForth(c: Config, s: Sys, p: ProcId, env: Env, t: TaskId, spot: Spot, view: View)
    requires Stands(s, p, t, spot, view) && env.fault && Calls(spot)
    ensures Stands(Step(c, s, Advance(p, env)), p, t, Struck(spot), view)
  {
    FaultMove(c, s, s.procs[p], env);
    GotoStands(c, s, p, env, t, spot, view, Decide(c, s, s.procs[p], env).pc);
  }

  lemma EndMove(c: Config, s: Sys, pr: Proc, env: Env)
    requires pr.role.Invocation? && pr.task in s.ledger.store.tasks
    requires SpotOf(s.ledger, pr).AtEnd? || SpotOf(s.ledger, pr).AtLoss?
    ensures var m := Decide(c, s, pr, env);
            && !m.Write? && !m.Open?
            && SpotOf(s.ledger, ProcAfter(s.now, pr, m)) == SpotOf(s.ledger, pr)
            && ProcAfter(s.now, pr, m).role == pr.role && ProcAfter(s.now, pr, m).task == pr.task
  {
  }

  lemma EndForth(c: Config, s: Sys, p: ProcId, env: Env, t: TaskId, spot: Spot, view: View)
    requires Stands(s, p, t, spot, view) && (spot.AtEnd? || spot.AtLoss?)
    ensures Stands(Step(c, s, Advance(p, env)), p, t, spot, view)
  {
    EndMove(c, s, s.procs[p], env);
    StepIsPerform(c, s, p, env);
  }

  /** Every step of an undisturbed worker goes `Forth`. */
  lemma AdvanceGoesForth(c: Config, s: Sys, p: ProcId, env: Env, t: TaskId, spot: Spot, view: View)
    requires !env.fault ==> Ready(s.ledger, s.now, p, t, env)
    requires Stands(s, p, t, spot, view) && !spot.Elsewhere?
    ensures var next := Forth(spot, view, env); Stands(Step(c, s, Advance(p, env)), p, t, next.0, next.1)
  {
    if spot.AtEnd? || spot.AtLoss? {
      EndForth(c, s, p, env, t, spot, view);
    } else if spot.AtLaunch? || spot.AtWait? {
      ToldForth(c, s, p, env, t, spot, view);
    } else if env.fault {
      FaultForth(c, s, p, env, t, spot, view);
    } else if spot.AtWrite? {
      WriteForth(c, s, p, env, t, view, spot.event);
    } else if spot.AtFailure? && spot.seen {
      FailureForth(c, s, p, env, t, view, spot.handler, spot.error);
    } else {
      ReadForth(c, s, p, env, t, spot, view);
    }
  }

  /** Where the time may run out: anywhere in the driver loop. */
  predicate InLoop(spot: Spot) {
    spot.AtLaunch? || spot.AtWait? || spot.AtMessage? || spot.AtWrite? || spot.AtCheck? || spot.AtClose? ||
    (spot.AtFailure? && spot.handler)
  }

  lemma ExpireStands(c: Config, s: Sys, p: ProcId, t: TaskId, spot: Spot, view: View)
    requires Stands(s, p, t, spot, view) && !spot.Elsewhere?
    ensures Stands(Step(c, s, Expire(p)), p, t, if InLoop(spot) then AtFailure(false, Timeout, false) else spot, view)
  {
  }

  lemma TickStands(c: Config, s: Sys, elapsed: nat, p: ProcId, t: TaskId, spot: Spot, view: View)
    requires Stands(s, p, t, spot, view)
    ensures Stands(Step(c, s, Tick(elapsed)), p, t, spot, view)
  {
  }

  // ---------------------------------------------------------------- what the driver did

  /** The messages the worker dealt with, or is dealing with, and why it stopped listening. */
  datatype Account = Account(heard: seq<DriverEvent>, stop: Option<CoreError>)

  /** A message is in hand and not dealt with. */
  predicate Midway(spot: Spot) {
    spot.AtMessage? || spot.AtWrite? || (spot.AtFailure? && spot.handler)
  }

  /** The messages dealt with. */
  function Dealt(account: Account, spot: Spot): seq<DriverEvent> {
    if Midway(spot) && account.heard != [] then account.heard[..|account.heard| - 1] else account.heard
  }

  /** The driver loop is left; a message in hand is not dealt with any more. */
  function Cut(account: Account, spot: Spot, reason: CoreError): Account {
    Account(Dealt(account, spot), Some(reason))
  }

  function Recount(account: Account, spot: Spot, a: Action): Account {
    match a
    case Advance(_, env) =>
      if env.fault && Calls(spot) then if InLoop(spot) then Cut(account, spot, FAULT) else account
      else if spot.AtLaunch? && env.driver.DriverRefused? then account.(stop := Some(DriverError(env.driver.message)))
      else if spot.AtWait? && env.driver.Yielded? then account.(heard := account.heard + [env.driver.event])
      else if spot.AtWait? && env.driver.DriverClosed? then account.(stop := Some(STREAM_CLOSED))
      else account
    case Expire(_) => if InLoop(spot) then Cut(account, spot, Timeout) else account
    case _ => account
  }

  predicate Alone(a: Action, p: ProcId) {
    (a.Advance? && a.id == p) || (a.Expire? && a.id == p) || a.Tick?
  }

  function Reason(account: Account): CoreError {
    if account.stop.Some? then account.stop.value else STREAM_CLOSED
  }

  function StageOf(state: TaskState, events: seq<DriverEvent>): W.Stage {
    W.HandleAll(W.Going([], state), events)
  }

  /** The view is what the worker has written so far, and it is still going. */
  predicate Going(view: View, first: View, stage: W.Stage) {
    stage.Going? && view.log == first.log + stage.written && view.state == stage.state
  }

  /** The log is all of `whole`, if the task has ended, or all but a failure at its end. */
  predicate LacksTheEnd(view: View, whole: seq<EventKind>) {
    if view.state.Terminal() then view.log == whole
    else whole != [] && view.log == whole[..|whole| - 1] && whole[|whole| - 1].FailedEvent?
  }

  /** How what is on record follows from what was heard, by the place the worker has come to. */
  predicate Abreast(spot: Spot, view: View, first: View, account: Account) {
    var stage := StageOf(first.state, Dealt(account, spot));
    match spot
    case AtLaunch => account.heard == [] && Going(view, first, stage)
    case AtWait => Going(view, first, stage)
    case AtMessage(event) =>
      account.heard != [] && account.heard[|account.heard| - 1] == event && Going(view, first, stage)
    case AtWrite(event) =>
      && account.heard != [] && account.heard[|account.heard| - 1] == event && Going(view, first, stage)
      && Drive(event).Writes()
    case AtCheck =>
      || (Going(view, first, stage) && !view.state.Terminal())
      || (stage.Gone? && view.log == first.log + stage.written && view.state.Terminal())
    case AtClose => account.stop == Some(STREAM_CLOSED) && Going(view, first, stage)
    case AtFailure(handler, error, seen) =>
      && (seen ==> !view.state.Terminal())
      && if handler
         then && account.heard != [] && account.heard[|account.heard| - 1].DriverFailed?
              && error == DriverError(account.heard[|account.heard| - 1].error.message) && Going(view, first, stage)
         else view.log + W.Ending(view.state, error) == first.log + W.Conclude(stage, Reason(account))
    case AtEnd => view.log == first.log + W.Conclude(stage, Reason(account)) && view.state.Terminal()
    case AtLoss => LacksTheEnd(view, first.log + W.Conclude(stage, Reason(account)))
    case Elsewhere => false
  }

  lemma StageSnoc(state: TaskState, events: seq<DriverEvent>)
    requires events != []
    ensures StageOf(state, events) == W.Handle(StageOf(state, events[..|events| - 1]), events[|events| - 1])
  {
  }

  lemma Concluded(view: View, first: View, stage: W.Stage, stop: CoreError)
    requires Going(view, first, stage)
    ensures view.log + W.Ending(view.state, stop) == first.log + W.Conclude(stage, stop)
  {
    assert first.log + stage.written + W.Ending(view.state, stop) == first.log + (stage.written + W.Ending(view.state, stop));
  }

  lemma LaunchAbreast(view: View, first: View, account: Account, env: Env)
    requires Abreast(AtLaunch, view, first, account)
    ensures var next := Forth(AtLaunch, view, env);
            Abreast(next.0, next.1, first, Recount(account, AtLaunch, Advance(0, env)))
  {
    if env.driver.DriverRefused? {
      Concluded(view, first, StageOf(first.state, account.heard), DriverError(env.driver.message));
    }
  }

  lemma WaitAbreast(view: View, first: View, account: Account, env: Env)
    requires Abreast(AtWait, view, first, account)
    ensures var next := Forth(AtWait, view, env);
            Abreast(next.0, next.1, first, Recount(account, AtWait, Advance(0, env)))
  {
    if env.driver.Yielded? {
      assert (account.heard + [env.driver.event])[..|account.heard|] == account.heard;
    }
  }

  lemma MessageAbreast(view: View, first: View, account: Account, event: DriverEvent, env: Env)
    requires !env.fault && Abreast(AtMessage(event), view, first, account)
    ensures var next := Forth(AtMessage(event), view, env); Abreast(next.0, next.1, first, account)
  {
    if event.DriverAccepted? {
      StageSnoc(first.state, account.heard);
    }
  }

  lemma WriteAbreast(view: View, first: View, account: Account, event: DriverEvent, env: Env)
    requires !env.fault && Abreast(AtWrite(event), view, first, account)
    ensures var next := Forth(AtWrite(event), view, env); Abreast(next.0, next.1, first, account)
  {
    var stage := StageOf(first.state, account.heard[..|account.heard| - 1]);
    StageSnoc(first.state, account.heard);
    var response := W.Respond(view.state, event);
    if response.Put? {
      assert first.log + stage.written + [response.kind] == first.log + (stage.written + [response.kind]);
      W.PutTerminal(view.state, event);
    } else {
      assert first.log + stage.written + W.Ending(view.state, response.error) ==
             first.log + (stage.written + W.Ending(view.state, response.error));
    }
  }

  lemma CheckAbreast(view: View, first: View, account: Account, env: Env)
    requires !env.fault && Abreast(AtCheck, view, first, account)
    ensures var next := Forth(AtCheck, view, env); Abreast(next.0, next.1, first, account)
  {
  }

  lemma CloseAbreast(view: View, first: View, account: Account, env: Env)
    requires !env.fault && Abreast(AtClose, view, first, account)
    ensures var next := Forth(AtClose, view, env); Abreast(next.0, next.1, first, account)
  {
    Concluded(view, first, StageOf(first.state, account.heard), STREAM_CLOSED);
    assert view.log + [] == view.log;
  }

  lemma HandlerAbreast(view: View, first: View, account: Account, error: CoreError, seen: bool, env: Env)
    requires !env.fault && Abreast(AtFailure(true, error, seen), view, first, account)
    ensures var next := Forth(AtFailure(true, error, seen), view, env); Abreast(next.0, next.1, first, account)
  {
    var stage := StageOf(first.state, account.heard[..|account.heard| - 1]);
    StageSnoc(first.state, account.heard);
    assert first.log + stage.written + W.Ending(view.state, error) ==
           first.log + (stage.written + W.Ending(view.state, error));
    assert view.log + [] == view.log;
  }

  lemma ExitAbreast(view: View, first: View, account: Account, error: CoreError, seen: bool, env: Env)
    requires !env.fault && Abreast(AtFailure(false, error, seen), view, first, account)
    ensures var next := Forth(AtFailure(false, error, seen), view, env); Abreast(next.0, next.1, first, account)
  {
    assert view.log + [] == view.log;
  }

  lemma CutAbreast(spot: Spot, view: View, first: View, account: Account, reason: CoreError)
    requires Abreast(spot, view, first, account) && InLoop(spot)
    ensures Abreast(AtFailure(false, reason, false), view, first, Cut(account, spot, reason))
  {
    var stage := StageOf(first.state, Dealt(account, spot));
    if stage.Going? {
      Concluded(view, first, stage, reason);
    } else {
      assert view.log + [] == view.log;
    }
  }

  lemma LossAbreast(view: View, first: View, account: Account, error: CoreError, seen: bool)
    requires Abreast(AtFailure(false, error, seen), view, first, account)
    ensures Abreast(AtLoss, view, first, account)
  {
    assert view.log + [] == view.log;
  }

  lemma FaultAbreast(spot: Spot, view: View, first: View, account: Account, p: ProcId, env: Env)
    requires Abreast(spot, view, first, account) && env.fault && Calls(spot)
    ensures Abreast(Struck(spot), view, first, Recount(account, spot, Advance(p, env)))
  {
    if InLoop(spot) {
      CutAbreast(spot, view, first, account, FAULT);
    } else {
      LossAbreast(view, first, account, spot.error, spot.seen);
    }
  }

  lemma AdvanceAbreast(spot: Spot, view: View, first: View, account: Account, p: ProcId, env: Env)
    requires Abreast(spot, view, first, account)
    ensures var next := Forth(spot, view, env);
            Abreast(next.0, next.1, first, Recount(account, spot, Advance(p, env)))
  {
    if env.fault && Calls(spot) {
      FaultAbreast(spot, view, first, account, p, env);
    } else {
      match spot
      case AtLaunch => LaunchAbreast(view, first, account, env);
      case AtWait => WaitAbreast(view, first, account, env);
      case AtMessage(event) => MessageAbreast(view, first, account, event, env);
      case AtWrite(event) => WriteAbreast(view, first, account, event, env);
      case AtCheck => CheckAbreast(view, first, account, env);
      case AtClose => CloseAbreast(view, first, account, env);
      case AtFailure(handler, error, seen) =>
        if handler {
          HandlerAbreast(view, first, account, error, seen, env);
        } else {
          ExitAbreast(view, first, account, error, seen, env);
        }
      case AtEnd =>
      case AtLoss =>
    }
  }

  lemma ExpireAbreast(spot: Spot, view: View, first: View, account: Account, p: ProcId)
    requires Abreast(spot, view, first, account)
    ensures Abreast(if InLoop(spot) then AtFailure(false, Timeout, false) else spot, view, first,
                    Recount(account, spot, Expire(p)))
  {
    if InLoop(spot) {
      CutAbreast(spot, view, first, account, Timeout);
    }
  }

  // ---------------------------------------------------------------- whole runs of one worker

  /** The worker's place, the task's view and the account after the first `n` actions. */
  datatype Progress = Progress(spot: Spot, view: View, account: Account)

  function Onward(progress: Progress, a: Action): Progress {
    var account := Recount(progress.account, progress.spot, a);
    match a
    case Advance(_, env) =>
      var next := Forth(progress.spot, progress.view, env);
      Progress(next.0, next.1, account)
    case Expire(_) =>
      Progress(if InLoop(progress.spot) then AtFailure(false, Timeout, false) else progress.spot, progress.view, account)
    case _ => progress.(account := account)
  }

  /** What the driver and the clock did along the actions, as an undisturbed worker experiences it. */
  function Course(first: View, actions: seq<Action>, n: nat): Progress
    requires n <= |actions|
  {
    if n == 0 then Progress(AtLaunch, first, Account([], None))
    else Onward(Course(first, actions, n - 1), actions[n - 1])
  }

  lemma OnwardAbreast(progress: Progress, first: View, a: Action, p: ProcId)
    requires Alone(a, p) && Abreast(progress.spot, progress.view, first, progress.account)
    ensures var next := Onward(progress, a); Abreast(next.spot, next.view, first, next.account)
  {
    match a
    case Advance(_, env) => AdvanceAbreast(progress.spot, progress.view, first, progress.account, p, env);
    case Expire(_) => ExpireAbreast(progress.spot, progress.view, first, progress.account, p);
    case Tick(_) =>
  }

  lemma {:induction false} CourseAbreast(first: View, actions: seq<Action>, n: nat, p: ProcId)
    requires n <= |actions| && forall i | 0 <= i < |actions| :: Alone(actions[i], p)
    ensures var progress := Course(first, actions, n);
            Abreast(progress.spot, progress.view, first, progress.account)
  {
    if n == 0 {
      assert first.log + [] == first.log;
    } else {
      CourseAbreast(first, actions, n - 1, p);
      OnwardAbreast(Course(first, actions, n - 1), first, actions[n - 1], p);
    }
  }

  lemma OnwardStands(c: Config, s: Sys, p: ProcId, t: TaskId, progress: Progress, a: Action)
    requires Alone(a, p) && Stands(s, p, t, progress.spot, progress.view)
    requires a.Advance? && !a.env.fault ==> Ready(s.ledger, s.now, p, t, a.env)
    requires !progress.spot.Elsewhere?
    ensures var next := Onward(progress, a); Stands(Step(c, s, a), p, t, next.spot, next.view)
  {
    match a
    case Advance(_, env) => AdvanceGoesForth(c, s, p, env, t, progress.spot, progress.view);
    case Expire(_) => ExpireStands(c, s, p, t, progress.spot, progress.view);
    case Tick(elapsed) => TickStands(c, s, elapsed, p, t, progress.spot, progress.view);
  }

  ghost predicate Follows(c: Config, schedule: seq<Action>, actions: seq<Action>, n: nat, p: ProcId, t: TaskId, first: View)
    requires n <= |actions|
  {
    var progress := Course(first, actions, n);
    Stands(Run(c, schedule + actions[..n]), p, t, progress.spot, progress.view)
  }

  lemma RunOnward(c: Config, schedule: seq<Action>, a: Action, p: ProcId, t: TaskId, progress: Progress)
    requires Alone(a, p) && Stands(Run(c, schedule), p, t, progress.spot, progress.view) && !progress.spot.Elsewhere?
    ensures var next := Onward(progress, a); Stands(Run(c, schedule + [a]), p, t, next.spot, next.view)
  {
    RunIsStep(c, schedule, a);
    if a.Advance? && !a.env.fault {
      RecordedInRun(c, schedule);
      RecordedIsReady(Run(c, schedule).ledger, Run(c, schedule).now, p, t, a.env);
    }
    OnwardStands(c, Run(c, schedule), p, t, progress, a);
  }

  lemma FollowsNext(c: Config, schedule: seq<Action>, actions: seq<Action>, n: nat, p: ProcId, t: TaskId, first: View)
    requires 0 < n <= |actions| && forall i | 0 <= i < |actions| :: Alone(actions[i], p)
    requires Follows(c, schedule, actions, n - 1, p, t, first)
    ensures Follows(c, schedule, actions, n, p, t, first)
  {
    CourseAbreast(first, actions, n - 1, p);
    RunOnward(c, schedule + actions[..n - 1], actions[n - 1], p, t, Course(first, actions, n - 1));
    assert schedule + actions[..n - 1] + [actions[n - 1]] == schedule + actions[..n];
  }

  lemma {:induction false} CourseFollows(c: Config, schedule: seq<Action>, actions: seq<Action>, n: nat, p: ProcId,
                                         t: TaskId, first: View)
    requires n <= |actions| && forall i | 0 <= i < |actions| :: Alone(actions[i], p)
    requires Stands(Run(c, schedule), p, t, AtLaunch, first)
    ensures Follows(c, schedule, actions, n, p, t, first)
  {
    if n == 0 {
      assert schedule + actions[..0] == schedule;
    } else {
      CourseFollows(c, schedule, actions, n - 1, p, t, first);
      FollowsNext(c, schedule, actions, n, p, t, first);
    }
  }

  lemma ConcludedIsOutcome(first: View, account: Account)
    ensures W.Conclude(StageOf(first.state, account.heard), Reason(account)) ==
            W.Outcome(first.state, account.heard, Reason(account))
  {
    W.OutcomeByMessages([], first.state, account.heard, Reason(account));
    assert [] + W.Outcome(first.state, account.heard, Reason(account)) ==
           W.Outcome(first.state, account.heard, Reason(account));
  }

  /** The worker is done with its task: it has left the driver loop, and given up its permits or is about to. */
  predicate Done(pc: Pc) {
    pc.Exiting? || (pc.Dropping? && pc.landing.ToEnd?) || (pc.Returned? && pc.reply.Finished?)
  }

  function HowDone(pc: Pc): Outcome
    requires Done(pc)
  {
    if pc.Exiting? then pc.outcome else if pc.Dropping? then pc.landing.outcome else pc.reply.outcome
  }

  lemma DoneSpot(s: Sys, p: ProcId, t: TaskId, spot: Spot, view: View)
    requires Stands(s, p, t, spot, view) && Done(s.procs[p].pc)
    ensures spot == Left(HowDone(s.procs[p].pc))
  {
  }

  lemma LaunchStands(c: Config, schedule: seq<Action>, p: ProcId)
    requires p in Run(c, schedule).procs && Run(c, schedule).procs[p].role.Invocation?
    requires Run(c, schedule).procs[p].pc == Launching
    ensures var s, t := Run(c, schedule), Run(c, schedule).procs[p].task;
            && t in s.ledger.store.tasks && t in s.ledger.store.events
            && Stands(s, p, t, AtLaunch, ViewOf(s.ledger, t))
  {
    GroundInRun(c, schedule);
  }

  /**
   From every reachable state in which a worker is about to start its driver, whatever the
   driver does, whenever the time runs out and whenever the store fails, as long as no other
   call acts: once the worker is done with its task, the log has grown by exactly the outcome
   of the messages it dealt with and of its reason to stop, and the task has ended. Only if
   the store also fails while the end is being recorded can that one event be missing.
   */
  lemma UndisturbedWorkersReachTheOutcome(c: Config, schedule: seq<Action>, actions: seq<Action>, p: ProcId)
    requires p in Run(c, schedule).procs && Run(c, schedule).procs[p].role.Invocation?
    requires Run(c, schedule).procs[p].pc == Launching
    requires forall i | 0 <= i < |actions| :: Alone(actions[i], p)
    requires p in Run(c, schedule + actions).procs && Done(Run(c, schedule + actions).procs[p].pc)
    ensures var s, s', t := Run(c, schedule), Run(c, schedule + actions), Run(c, schedule).procs[p].task;
            && t in s.ledger.store.tasks && t in s.ledger.store.events
            && t in s'.ledger.store.tasks && t in s'.ledger.store.events
            && var account, how := Course(ViewOf(s.ledger, t), actions, |actions|).account, HowDone(s'.procs[p].pc);
               var whole := LogOf(s, t) + W.Outcome(s.ledger.store.tasks[t].state, account.heard, Reason(account));
               && !how.Outrun?
               && (how.Settled? ==> LogOf(s', t) == whole && s'.ledger.store.tasks[t].state.Terminal())
               && (how.Faulted? ==> LacksTheEnd(ViewOf(s'.ledger, t), whole))
  {
    var s, t := Run(c, schedule), Run(c, schedule).procs[p].task;
    LaunchStands(c, schedule, p);
    var first := ViewOf(s.ledger, t);
    CourseFollows(c, schedule, actions, |actions|, p, t, first);
    assert actions[..|actions|] == actions;
    CourseAbreast(first, actions, |actions|, p);
    var progress := Course(first, actions, |actions|);
    DoneSpot(Run(c, schedule + actions), p, t, progress.spot, progress.view);
    ConcludedIsOutcome(first, progress.account);
  }
}
