/**
 Who owns a task and who wrote what. Exactly one invocation creates a task and is the
 only one to accept, drive or end it; cancel and input commands write nothing else.
 From this follow idempotency of `invoke` and what a worker leaves behind.
 */
module CoreOwners {
  import opened TaskModel
  import opened Lifecycle
  import opened CoreErrors
  import opened Core
  import opened CoreMoves
  import opened CoreHistory
  import Store = MemoryStore

  // ---------------------------------------------------------------- ownership

  function KeyOf(role: Role): (CallerId, string)
    requires role.Invocation?
  {
    (role.caller, role.key)
  }

  ghost predicate IsCreator(l: Ledger, procs: map<ProcId, Proc>, t: TaskId, p: ProcId) {
    && p in procs && procs[p].role.Invocation? && procs[p].task == t && procs[p].pc.Owns()
    && KeyOf(procs[p].role) in l.store.idempotency && l.store.idempotency[KeyOf(procs[p].role)] == t
  }

  ghost predicate TasksHaveCreators(l: Ledger, procs: map<ProcId, Proc>) {
    forall t | t in l.creator :: IsCreator(l, procs, t, l.creator[t])
  }

  ghost predicate OwnersAreCreators(l: Ledger, procs: map<ProcId, Proc>) {
    forall p | p in procs && procs[p].pc.Owns() && procs[p].role.Invocation? ::
      procs[p].task in l.creator && l.creator[procs[p].task] == p
  }

  /** `id` was created under `key`. */
  ghost predicate CreatedUnder(l: Ledger, procs: map<ProcId, Proc>, key: (CallerId, string), id: TaskId) {
    && id in l.creator && l.creator[id] in procs
    && procs[l.creator[id]].role.Invocation? && KeyOf(procs[l.creator[id]].role) == key
  }

  ghost predicate KeysNameTheirTasks(l: Ledger, procs: map<ProcId, Proc>) {
    forall key | key in l.store.idempotency :: CreatedUnder(l, procs, key, l.store.idempotency[key])
  }

  ghost predicate IdsDetermineKeys(procs: map<ProcId, Proc>) {
    forall p, q | p in procs && q in procs && procs[p].role.Invocation? && procs[q].role.Invocation? &&
                  procs[p].task == procs[q].task ::
      KeyOf(procs[p].role) == KeyOf(procs[q].role)
  }

  /** Every task has its creator, every owning invocation is one, and keys point at their tasks. */
  ghost predicate Owned(l: Ledger, procs: map<ProcId, Proc>) {
    && TasksHaveCreators(l, procs)
    && OwnersAreCreators(l, procs)
    && KeysNameTheirTasks(l, procs)
    && IdsDetermineKeys(procs)
  }

  lemma OwnedMeansFreshIds(s: Sys)
    requires Keyed(s.ledger) && Owned(s.ledger, s.procs)
    ensures IdsAreFresh(s)
  {
    forall id | id in s.procs && s.procs[id].role.Invocation? && s.procs[id].pc.Creating? &&
                s.procs[id].task in s.ledger.store.tasks
      ensures (s.procs[id].role.caller, s.procs[id].role.key) in s.ledger.store.idempotency
    {
      var t := s.procs[id].task;
      var q := s.ledger.creator[t];
      assert IsCreator(s.ledger, s.procs, t, q);
      assert KeyOf(s.procs[q].role) == KeyOf(s.procs[id].role);
    }
  }

  /** A move that does not create keeps the process's role, task and ownership. */
  lemma MoverKeepsIdentity(c: Config, s: Sys, pr: Proc, m: Move)
    requires Sound(c, s, pr, m) && !m.Open?
    ensures var pr' := ProcAfter(s.now, pr, m);
            pr'.role == pr.role && pr'.task == pr.task && (pr'.pc.Owns() <==> pr.pc.Owns())
  {
    match m
    case Stay =>
    case Goto(pc) =>
    case Write(op, seen, pc) =>
    case Grab(sem, pc) =>
    case Release(sem, pc) =>
    case Retire(pc) =>
  }

  /** The processes are the same but for their program counters, ownership included. */
  ghost predicate SameIdentities(procs: map<ProcId, Proc>, procs': map<ProcId, Proc>) {
    && procs'.Keys == procs.Keys
    && forall p | p in procs ::
         && procs'[p].role == procs[p].role && procs'[p].task == procs[p].task
         && (procs'[p].pc.Owns() <==> procs[p].pc.Owns())
  }

  lemma OwnedCarries(l: Ledger, procs: map<ProcId, Proc>, l': Ledger, procs': map<ProcId, Proc>)
    requires Owned(l, procs)
    requires l'.creator == l.creator && l'.store.idempotency == l.store.idempotency
    requires SameIdentities(procs, procs')
    ensures Owned(l', procs')
  {
    forall t | t in l'.creator ensures IsCreator(l', procs', t, l'.creator[t]) {
      assert IsCreator(l, procs, t, l.creator[t]);
    }
    forall key | key in l'.store.idempotency ensures CreatedUnder(l', procs', key, l'.store.idempotency[key]) {
      assert CreatedUnder(l, procs, key, l.store.idempotency[key]);
    }
  }

  lemma SpawnKeepsOwned(l: Ledger, procs: map<ProcId, Proc>, id: ProcId, pr: Proc)
    requires Owned(l, procs) && id !in procs && !pr.pc.Owns()
    requires pr.role.Invocation? ==>
               forall q | q in procs && procs[q].role.Invocation? && procs[q].task == pr.task ::
                 KeyOf(procs[q].role) == KeyOf(pr.role)
    ensures Owned(l, procs[id := pr])
  {
    forall t | t in l.creator ensures IsCreator(l, procs[id := pr], t, l.creator[t]) {
      assert IsCreator(l, procs, t, l.creator[t]);
    }
    forall key | key in l.store.idempotency ensures CreatedUnder(l, procs[id := pr], key, l.store.idempotency[key]) {
      assert CreatedUnder(l, procs, key, l.store.idempotency[key]);
    }
  }

  /** `id` creates its task: the ledger and the process afterwards. */
  ghost predicate Opens(l: Ledger, l': Ledger, procs: map<ProcId, Proc>, id: ProcId, pr': Proc) {
    && id in procs && procs[id].role.Invocation? && !procs[id].pc.Owns()
    && KeyOf(procs[id].role) !in l.store.idempotency && procs[id].task !in l.creator
    && pr'.role == procs[id].role && pr'.task == procs[id].task && pr'.pc.Owns()
    && l'.creator == l.creator[pr'.task := id]
    && l'.store.idempotency == l.store.idempotency[KeyOf(pr'.role) := pr'.task]
  }

  lemma OpenKeepsCreators(l: Ledger, l': Ledger, procs: map<ProcId, Proc>, id: ProcId, pr': Proc)
    requires TasksHaveCreators(l, procs) && Opens(l, l', procs, id, pr')
    ensures TasksHaveCreators(l', procs[id := pr'])
  {
    forall u | u in l'.creator ensures IsCreator(l', procs[id := pr'], u, l'.creator[u]) {
      if u != pr'.task {
        assert IsCreator(l, procs, u, l.creator[u]);
      }
    }
  }

  lemma OpenKeepsKeys(l: Ledger, l': Ledger, procs: map<ProcId, Proc>, id: ProcId, pr': Proc)
    requires KeysNameTheirTasks(l, procs) && Opens(l, l', procs, id, pr')
    ensures KeysNameTheirTasks(l', procs[id := pr'])
  {
    forall key | key in l'.store.idempotency
      ensures CreatedUnder(l', procs[id := pr'], key, l'.store.idempotency[key])
    {
      if key != KeyOf(pr'.role) {
        assert CreatedUnder(l, procs, key, l.store.idempotency[key]);
      }
    }
  }

  lemma OpenKeepsOwners(l: Ledger, l': Ledger, procs: map<ProcId, Proc>, id: ProcId, pr': Proc)
    requires OwnersAreCreators(l, procs) && IdsDetermineKeys(procs) && Opens(l, l', procs, id, pr')
    ensures OwnersAreCreators(l', procs[id := pr']) && IdsDetermineKeys(procs[id := pr'])
  {
  }

  lemma OpenKeepsOwned(l: Ledger, l': Ledger, procs: map<ProcId, Proc>, id: ProcId, pr': Proc)
    requires Owned(l, procs) && Opens(l, l', procs, id, pr')
    ensures Owned(l', procs[id := pr'])
  {
    OpenKeepsCreators(l, l', procs, id, pr');
    OpenKeepsKeys(l, l', procs, id, pr');
    OpenKeepsOwners(l, l', procs, id, pr');
  }

  lemma EffectKeepsOwned(c: Config, s: Sys, e: Effect)
    requires Recorded(s.ledger, s.now) && SnapshotsArePast(s) && Owned(s.ledger, s.procs)
    requires SoundEffect(c, s, e)
    ensures var s' := Apply(c, s, e); Owned(s'.ledger, s'.procs)
  {
    var s' := Apply(c, s, e);
    match e
    case Nothing =>
    case Wait(_) =>
    case Spawn(id, role, task) => SpawnKeepsOwned(s.ledger, s.procs, id, s'.procs[id]);
    case Do(id, m) =>
      if m.Open? {
        OwnedMeansFreshIds(s);
        OpenKeepsOwned(s.ledger, s'.ledger, s.procs, id, s'.procs[id]);
      } else {
        MoverKeepsIdentity(c, s, s.procs[id], m);
        KeysAreKept(c, s, id, m);
        OwnedCarries(s.ledger, s.procs, s'.ledger, s'.procs);
      }
  }

  lemma KeysAreKept(c: Config, s: Sys, id: ProcId, m: Move)
    requires id in s.procs && !m.Open?
    ensures var l' := Perform(c, s, id, m).ledger;
            l'.creator == s.ledger.creator && l'.store.idempotency == s.ledger.store.idempotency
  {
  }

  // ---------------------------------------------------------------- authorship

  ghost predicate AuthorOk(l: Ledger, procs: map<ProcId, Proc>, t: TaskId, entry: Commit)
    requires t in l.creator
  {
    && entry.author in procs
    && procs[entry.author].task == t
    && WritesAs(procs[entry.author].role, entry.op)
    && (procs[entry.author].role.Invocation? ==> entry.author == l.creator[t])
  }

  ghost predicate Authored(l: Ledger, procs: map<ProcId, Proc>)
    requires Keyed(l)
  {
    forall t | t in l.commits :: forall i | 0 <= i < |l.commits[t]| :: AuthorOk(l, procs, t, l.commits[t][i])
  }

  /** One effect adds at most one commit to one task. */
  ghost predicate Adds(l: Ledger, l': Ledger, t: TaskId, entry: Commit) {
    && Keyed(l) && Keyed(l') && t in l.commits
    && l'.creator == l.creator && l'.store.idempotency == l.store.idempotency
    && l'.commits == l.commits[t := l.commits[t] + [entry]]
    && !l.store.tasks[t].state.Terminal()
    && l'.store.tasks[t].state == (if entry.op.Writes() then After(KindOf(entry.op)) else Created)
    && (forall u | u in l.store.tasks && u != t :: l'.store.tasks[u] == l.store.tasks[u])
  }

  lemma WriteAdds(c: Config, s: Sys, id: ProcId, m: Move)
    requires Recorded(s.ledger, s.now) && SnapshotsArePast(s) && id in s.procs
    requires m.Write? && Sound(c, s, s.procs[id], m)
    ensures Adds(s.ledger, Perform(c, s, id, m).ledger, s.procs[id].task, Commit(id, m.op))
  {
    var pr := s.procs[id];
    assert SeenIsPast(s.ledger, pr);
    WriteIsPut(s.ledger, s.now, id, pr, m.op);
    WriteKeepsRecords(s.ledger, s.now, id, pr, m.op);
    NextStateIsAfter(m.op, s.ledger.store.tasks[pr.task].state);
  }

  /** Known processes keep role and task. */
  ghost predicate RolesStay(procs: map<ProcId, Proc>, procs': map<ProcId, Proc>) {
    forall p | p in procs ::
      p in procs' && procs'[p].role == procs[p].role && procs'[p].task == procs[p].task
  }

  lemma EffectKeepsRoles(c: Config, s: Sys, e: Effect)
    requires SoundEffect(c, s, e)
    ensures RolesStay(s.procs, Apply(c, s, e).procs)
  {
    if e.Do? && !e.move.Open? {
      MoverKeepsIdentity(c, s, s.procs[e.id], e.move);
    }
  }

  lemma AuthorsCarry(l: Ledger, procs: map<ProcId, Proc>, l': Ledger, procs': map<ProcId, Proc>,
                     t: TaskId, entry: Commit)
    requires Keyed(l) && Grows(l, l') && RolesStay(procs, procs')
    requires t in l.commits && AuthorOk(l, procs, t, entry)
    ensures AuthorOk(l', procs', t, entry)
  {
  }

  /** Which commits an effect can add: one by a writer, none otherwise. */
  lemma NewCommitIsByTheWriter(c: Config, s: Sys, e: Effect, t: TaskId, i: nat)
    requires Recorded(s.ledger, s.now) && SnapshotsArePast(s) && SoundEffect(c, s, e)
    requires var l' := Apply(c, s, e).ledger;
             t in l'.commits && i < |l'.commits[t]| && (t in s.ledger.commits ==> i >= |s.ledger.commits[t]|)
    ensures e.Do? && e.move.Write? && t == s.procs[e.id].task
    ensures Apply(c, s, e).ledger.commits[t][i] == Commit(e.id, e.move.op)
  {
    if e.Do? && e.move.Write? {
      WriteAdds(c, s, e.id, e.move);
      AddsOneCommit(s.ledger, Apply(c, s, e).ledger, s.procs[e.id].task, Commit(e.id, e.move.op), t, i);
    } else {
      QuietEffectsAddNoCommit(c, s, e, t);
    }
  }

  lemma AddsOneCommit(l: Ledger, l': Ledger, u: TaskId, entry: Commit, t: TaskId, i: nat)
    requires Adds(l, l', u, entry)
    requires t in l'.commits && i < |l'.commits[t]| && (t in l.commits ==> i >= |l.commits[t]|)
    ensures t == u && l'.commits[t][i] == entry
  {
  }

  lemma QuietEffectsAddNoCommit(c: Config, s: Sys, e: Effect, t: TaskId)
    requires SoundEffect(c, s, e) && !(e.Do? && e.move.Write?) && t in Apply(c, s, e).ledger.commits
    ensures var after := Apply(c, s, e).ledger.commits[t];
            after == [] || (t in s.ledger.commits && after == s.ledger.commits[t])
  {
    if e.Do? {
      match e.move
      case Stay =>
      case Goto(_) =>
      case Open =>
      case Grab(_, _) =>
      case Release(_, _) =>
      case Retire(_) =>
    }
  }

  lemma EffectKeepsAuthored(c: Config, s: Sys, e: Effect)
    requires Recorded(s.ledger, s.now) && SnapshotsArePast(s) && Owned(s.ledger, s.procs)
    requires Authored(s.ledger, s.procs) && SoundEffect(c, s, e)
    ensures var s' := Apply(c, s, e); Keyed(s'.ledger) && Authored(s'.ledger, s'.procs)
  {
    var s' := Apply(c, s, e);
    var l, l' := s.ledger, s'.ledger;
    OwnedMeansFreshIds(s);
    EffectKeepsRecords(c, s, e);
    EffectKeepsRoles(c, s, e);
    forall t | t in l'.commits
      ensures forall i | 0 <= i < |l'.commits[t]| :: AuthorOk(l', s'.procs, t, l'.commits[t][i])
    {
      forall i | 0 <= i < |l'.commits[t]| ensures AuthorOk(l', s'.procs, t, l'.commits[t][i]) {
        if t in l.commits && i < |l.commits[t]| {
          assert l.commits[t] <= l'.commits[t];
          AuthorsCarry(l, s.procs, l', s'.procs, t, l.commits[t][i]);
        } else {
          NewCommitIsByTheWriter(c, s, e, t, i);
          WriterIsAuthor(c, s, e.id, e.move);
          AuthorsCarry(l, s.procs, l', s'.procs, t, Commit(e.id, e.move.op));
        }
      }
    }
  }

  lemma WriterIsAuthor(c: Config, s: Sys, id: ProcId, m: Move)
    requires Keyed(s.ledger) && SnapshotsArePast(s) && Owned(s.ledger, s.procs)
    requires id in s.procs && m.Write? && Sound(c, s, s.procs[id], m)
    ensures s.procs[id].task in s.ledger.creator
    ensures AuthorOk(s.ledger, s.procs, s.procs[id].task, Commit(id, m.op))
  {
    assert SeenIsPast(s.ledger, s.procs[id]);
  }

  // ---------------------------------------------------------------- where the owner stands

  ghost predicate NotBy(commits: seq<Commit>, from: nat, p: ProcId) {
    forall i | from <= i < |commits| :: commits[i].author != p
  }

  /** What the program counter of a task's owner says about the task. */
  ghost predicate Standing(snapshot: TaskSnapshot, commits: seq<Commit>, p: ProcId, pc: Pc) {
    && (pc.PastAccept() ==> |commits| > 0 && commits[0] == Commit(p, Accept))
    && (!pc.PastAccept() ==> NotBy(commits, 0, p))
    && (pc.Accepting? ==> pc.seen.revision == 0)
    && (pc.Applied? || pc.FailWrite? ==> NotBy(commits, pc.seen.revision, p))
    && (pc.FailWrite? ==> !pc.seen.state.Terminal())
    && (OutcomeOf(pc) == Some(Settled) ==> snapshot.state.Terminal())
    && (OutcomeOf(pc).Some? && OutcomeOf(pc).value.Outrun? ==>
          OutcomeOf(pc).value.revision < |commits| && NotBy(commits, OutcomeOf(pc).value.revision, p))
  }

  ghost predicate Stands(l: Ledger, p: ProcId, pr: Proc)
    requires Keyed(l)
  {
    pr.role.Invocation? && pr.pc.Owns() ==>
      pr.task in l.store.tasks && Standing(l.store.tasks[pr.task], l.commits[pr.task], p, pr.pc)
  }

  ghost predicate AllStand(s: Sys)
    requires Keyed(s.ledger)
  {
    forall p | p in s.procs :: Stands(s.ledger, p, s.procs[p])
  }

  lemma OthersKeepStanding(l: Ledger, l': Ledger, t: TaskId, entry: Commit, p: ProcId, pr: Proc)
    requires Adds(l, l', t, entry) && entry.author != p && Stands(l, p, pr)
    ensures Stands(l', p, pr)
  {
  }

  lemma GotoKeepsStanding(l: Ledger, now: Time, p: ProcId, pr: Proc, pc: Pc)
    requires Recorded(l, now) && SeenIsPast(l, pr) && Stands(l, p, pr) && pr.role.Invocation?
    requires SoundGoto(l.store, now, pr, pc)
    ensures Stands(l, p, pr.(pc := pc))
  {
    if pc.Owns() {
      CurrentState(l, now, pr.task);
      if OutcomeOf(pc) != OutcomeOf(pr.pc) && OutcomeOf(pc).value.Outrun? {
        RejectedFailWasOvertaken(l, now, pr);
      }
    }
  }

  /** `fail_active`'s write is refused only when another write came in between. */
  lemma RejectedFailWasOvertaken(l: Ledger, now: Time, pr: Proc)
    requires Recorded(l, now) && SeenIsPast(l, pr) && pr.pc.FailWrite? && !pr.pc.seen.state.Terminal()
    requires Store.Append(l.store, Request(Fail(Failure(pr.pc.error)), pr.pc.seen), now).1.Err?
    ensures pr.pc.seen.revision < |l.commits[pr.task]|
  {
    CurrentState(l, now, pr.task);
    FailIsAllowed(Failure(pr.pc.error), pr.pc.seen.state);
  }

  lemma FailIsAllowed(error: PublicError, state: TaskState)
    requires !error.retryable && !state.Terminal()
    ensures state in Allowed(Fail(error))
  {
  }

  lemma StandingAfterWrite(snapshot: TaskSnapshot, commits: seq<Commit>, p: ProcId, op: Op, pc: Pc)
    requires op.Writes() && snapshot.state == After(KindOf(op))
    requires pc.PastAccept() && !pc.Holds()
    requires OutcomeOf(pc).Some? ==> OutcomeOf(pc).value == Settled && op.Fail?
    requires |commits| > 0 && commits[0] == Commit(p, Accept)
    ensures Standing(snapshot, commits, p, pc)
  {
  }

  lemma FirstCommitOfWriter(l: Ledger, now: Time, p: ProcId, pr: Proc, op: Op)
    requires Recorded(l, now) && SeenIsPast(l, pr) && Stands(l, p, pr) && pr.role.Invocation?
    requires pr.pc.Holds() && pr.pc.Owns() && op.Writes() && (op.Accept? <==> pr.pc.Accepting?)
    requires Store.Append(l.store, Request(op, pr.pc.seen), now).1.Ok?
    ensures (l.commits[pr.task] + [Commit(p, op)])[0] == Commit(p, Accept)
  {
    SuccessMeansFresh(l, now, pr, op);
    CurrentState(l, now, pr.task);
  }

  lemma WriteKeepsStanding(l: Ledger, l': Ledger, now: Time, p: ProcId, pr: Proc, op: Op, pc: Pc)
    requires Recorded(l, now) && SeenIsPast(l, pr) && Stands(l, p, pr) && pr.role.Invocation? && pr.pc.Holds()
    requires SoundWrite(l.store, now, pr, op, pr.pc.seen, pc)
    requires Adds(l, l', pr.task, Commit(p, op))
    ensures Stands(l', p, pr.(pc := pc))
  {
    FirstCommitOfWriter(l, now, p, pr, op);
    StandingAfterWrite(l'.store.tasks[pr.task], l'.commits[pr.task], p, op, pc);
  }

  lemma PermitMovesKeepStanding(c: Config, s: Sys, p: ProcId, m: Move)
    requires Keyed(s.ledger) && p in s.procs && Stands(s.ledger, p, s.procs[p])
    requires Sound(c, s, s.procs[p], m) && (m.Grab? || m.Release? || m.Retire? || m.Stay?)
    ensures Stands(s.ledger, p, ProcAfter(s.now, s.procs[p], m))
  {
    match m
    case Stay =>
    case Grab(sem, pc) => GrabKeepsStanding(s.ledger, p, s.procs[p], sem);
    case Release(sem, pc) => DropKeepsStanding(s.ledger, p, s.procs[p], pc);
    case Retire(pc) => DropKeepsStanding(s.ledger, p, s.procs[p], pc);
  }

  lemma GrabKeepsStanding(l: Ledger, p: ProcId, pr: Proc, sem: Sem)
    requires Keyed(l) && Stands(l, p, pr) && pr.pc == Acquiring(sem)
    ensures Stands(l, p, pr.(pc := AfterGrab(sem), held := pr.held + {sem}))
  {
  }

  /** Dropping permits, also on the way out, leaves the outcome as it is. */
  lemma DropKeepsStanding(l: Ledger, p: ProcId, pr: Proc, pc: Pc)
    requires Keyed(l) && Stands(l, p, pr) && pc.Dropping?
    requires (pr.pc.Dropping? && pc.landing == pr.pc.landing) || (pr.pc.Exiting? && pc.landing == ToEnd(pr.pc.outcome))
    ensures forall held :: Stands(l, p, pr.(pc := pc, held := held))
  {
  }

  lemma OpenStands(l: Ledger, now: Time, p: ProcId, pr: Proc)
    requires Keyed(l) && pr.role.Invocation?
    requires Keyed(OpenIn(l, now, p, NewTaskOf(pr))) && KeyOf(pr.role) !in l.store.idempotency
    ensures Stands(OpenIn(l, now, p, NewTaskOf(pr)), p, pr.(pc := Accepting(Store.Fresh(NewTaskOf(pr), now))))
  {
  }

  lemma MoverStands(c: Config, s: Sys, id: ProcId, m: Move)
    requires Recorded(s.ledger, s.now) && SnapshotsArePast(s) && Owned(s.ledger, s.procs) && AllStand(s)
    requires id in s.procs && Sound(c, s, s.procs[id], m)
    requires Keyed(Perform(c, s, id, m).ledger)
    ensures var s' := Perform(c, s, id, m); Stands(s'.ledger, id, s'.procs[id])
  {
    var pr := s.procs[id];
    assert SeenIsPast(s.ledger, pr);
    assert Stands(s.ledger, id, pr);
    if pr.role.Invocation? {
      match m
      case Goto(pc) => GotoKeepsStanding(s.ledger, s.now, id, pr, pc);
      case Open => OpenStands(s.ledger, s.now, id, pr);
      case Write(op, seen, pc) =>
        WriteAdds(c, s, id, m);
        WriteKeepsStanding(s.ledger, Perform(c, s, id, m).ledger, s.now, id, pr, op, pc);
      case _ => PermitMovesKeepStanding(c, s, id, m);
    }
  }

  lemma OpenKeepsOthersStanding(l: Ledger, now: Time, id: ProcId, task: NewTask, p: ProcId, pr: Proc)
    requires Keyed(l) && Keyed(OpenIn(l, now, id, task)) && task.taskId !in l.store.tasks
    requires (task.callerId, task.idempotencyKey) !in l.store.idempotency
    requires Stands(l, p, pr)
    ensures Stands(OpenIn(l, now, id, task), p, pr)
  {
  }

  lemma FreshTask(s: Sys, id: ProcId)
    requires Keyed(s.ledger) && Owned(s.ledger, s.procs) && id in s.procs
    requires s.procs[id].role.Invocation? && s.procs[id].pc.Creating?
    requires KeyOf(s.procs[id].role) !in s.ledger.store.idempotency
    ensures s.procs[id].task !in s.ledger.store.tasks
  {
    OwnedMeansFreshIds(s);
  }

  lemma BystanderStands(c: Config, s: Sys, e: Effect, p: ProcId)
    requires Recorded(s.ledger, s.now) && SnapshotsArePast(s) && Owned(s.ledger, s.procs)
    requires SoundEffect(c, s, e) && Keyed(Apply(c, s, e).ledger)
    requires p in s.procs && Stands(s.ledger, p, s.procs[p]) && (e.Do? ==> e.id != p)
    ensures Stands(Apply(c, s, e).ledger, p, s.procs[p])
  {
    if e.Do? && e.move.Write? {
      WriteAdds(c, s, e.id, e.move);
      OthersKeepStanding(s.ledger, Apply(c, s, e).ledger, s.procs[e.id].task, Commit(e.id, e.move.op), p, s.procs[p]);
    } else if e.Do? && e.move.Open? {
      FreshTask(s, e.id);
      OpenKeepsOthersStanding(s.ledger, s.now, e.id, NewTaskOf(s.procs[e.id]), p, s.procs[p]);
    }
  }

  lemma EffectKeepsStanding(c: Config, s: Sys, e: Effect)
    requires Recorded(s.ledger, s.now) && SnapshotsArePast(s) && Owned(s.ledger, s.procs) && AllStand(s)
    requires SoundEffect(c, s, e) && Keyed(Apply(c, s, e).ledger)
    ensures AllStand(Apply(c, s, e))
  {
    var s' := Apply(c, s, e);
    forall p | p in s'.procs ensures Stands(s'.ledger, p, s'.procs[p]) {
      if e.Do? && e.id == p {
        MoverStands(c, s, p, e.move);
      } else if p in s.procs && !(e.Spawn? && e.id == p) {
        assert Stands(s.ledger, p, s.procs[p]);
        BystanderStands(c, s, e, p);
      }
    }
  }
}
