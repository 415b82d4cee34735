/**
 Every schedule of the core keeps the store a faithful record: the log of each task
 is what an atomic read-modify-write system would have written, and the snapshot is
 the fold of that log. The argument is the compare-and-set: a snapshot whose revision
 is still current carries the current state, so nothing stale is ever written.
 */
module CoreHistory {
  import opened TaskModel
  import opened Lifecycle
  import opened CoreErrors
  import opened Core
  import opened CoreMoves
  import Store = MemoryStore

  function Ops(commits: seq<Commit>): (ops: seq<Op>)
    ensures |ops| == |commits|
    ensures forall i | 0 <= i < |ops| :: ops[i] == commits[i].op
  {
    seq(|commits|, i requires 0 <= i < |commits| => commits[i].op)
  }

  // ---------------------------------------------------------------- one task's record

  /** Log, snapshot and history of one task agree with each other and with the clock. */
  ghost predicate Record(id: TaskId, snapshot: TaskSnapshot, log: seq<CoreEvent>, commits: seq<Commit>, now: Time) {
    && snapshot.taskId == id
    && Store.Sourced(snapshot, log)
    && |commits| == |log|
    && AllWrite(Ops(commits))
    && AtomicRun(Ops(commits)) == Kinds(log)
    && Store.Chronological(log)
    && (forall i | 0 <= i < |log| :: log[i].at <= now)
  }

  lemma WriteExtendsSourced(snapshot: TaskSnapshot, log: seq<CoreEvent>, now: Time, op: Op, event: CoreEvent)
    requires Store.Sourced(snapshot, log) && op.Writes() && snapshot.state in Allowed(op)
    requires event == CoreEvent(snapshot.taskId, snapshot.lastSeq + 1, now, KindOf(op))
    ensures Store.Sourced(Store.Bump(snapshot, NextState(op, snapshot.state), now), log + [event])
  {
    NextStateIsAfter(op, snapshot.state);
    OperationIsEnabled(op, snapshot.state);
    assert Kinds(log + [event])[|log|] == KindOf(op);
  }

  lemma WriteExtendsRun(log: seq<CoreEvent>, commits: seq<Commit>, op: Op, author: ProcId, event: CoreEvent)
    requires AllWrite(Ops(commits)) && AtomicRun(Ops(commits)) == Kinds(log)
    requires op.Writes() && StateOf(Kinds(log)) in Allowed(op) && event.kind == KindOf(op)
    ensures var ops := Ops(commits + [Commit(author, op)]);
            AllWrite(ops) && AtomicRun(ops) == Kinds(log + [event])
  {
    assert Kinds(log + [event]) == Kinds(log) + [KindOf(op)];
    assert Ops(commits + [Commit(author, op)]) == Ops(commits) + [op];
    AtomicRunSnoc(Ops(commits), op);
  }

  lemma LateEventIsChronological(log: seq<CoreEvent>, event: CoreEvent, now: Time)
    requires Store.Chronological(log) && event.at == now && forall i | 0 <= i < |log| :: log[i].at <= now
    ensures Store.Chronological(log + [event]) && forall i | 0 <= i < |log + [event]| :: (log + [event])[i].at <= now
  {
  }

  lemma WriteExtendsRecord(id: TaskId, snapshot: TaskSnapshot, log: seq<CoreEvent>, commits: seq<Commit>,
                           now: Time, op: Op, author: ProcId, event: CoreEvent)
    requires Record(id, snapshot, log, commits, now)
    requires op.Writes() && snapshot.state in Allowed(op)
    requires event == CoreEvent(id, snapshot.lastSeq + 1, now, KindOf(op))
    ensures Record(id, Store.Bump(snapshot, NextState(op, snapshot.state), now), log + [event],
                   commits + [Commit(author, op)], now)
  {
    WriteExtendsSourced(snapshot, log, now, op, event);
    WriteExtendsRun(log, commits, op, author, event);
    LateEventIsChronological(log, event, now);
  }

  // ---------------------------------------------------------------- the ledger as a whole

  ghost predicate Keyed(l: Ledger) {
    l.store.tasks.Keys == l.store.events.Keys == l.commits.Keys == l.creator.Keys
  }

  ghost predicate RecordOf(l: Ledger, now: Time, t: TaskId)
    requires Keyed(l) && t in l.store.tasks
  {
    Record(t, l.store.tasks[t], l.store.events[t], l.commits[t], now)
  }

  ghost predicate Recorded(l: Ledger, now: Time) {
    && Keyed(l)
    && forall t | t in l.store.tasks :: RecordOf(l, now, t)
  }

  lemma RecordedLater(l: Ledger, now: Time, later: Time)
    requires Recorded(l, now) && now <= later
    ensures Recorded(l, later)
  {
    forall t | t in l.store.tasks ensures RecordOf(l, later, t) {
      assert RecordOf(l, now, t);
    }
  }

  /** The state a task had when its log held `revision` events. */
  ghost function StateAt(l: Ledger, t: TaskId, revision: nat): TaskState
    requires t in l.store.events && revision <= |l.store.events[t]|
  {
    StateOf(Kinds(l.store.events[t])[..revision])
  }

  lemma CurrentState(l: Ledger, now: Time, t: TaskId)
    requires Recorded(l, now) && t in l.store.tasks
    ensures l.store.tasks[t].taskId == t
    ensures l.store.tasks[t].revision == |l.store.events[t]| == |l.commits[t]|
    ensures StateAt(l, t, l.store.tasks[t].revision) == l.store.tasks[t].state
  {
    assert RecordOf(l, now, t);
    var log := Kinds(l.store.events[t]);
    assert log[..|log|] == log;
  }

  /** A held snapshot is a past state of its task: the one the log had at that revision. */
  ghost predicate SeenIsPast(l: Ledger, pr: Proc)
    requires Keyed(l)
  {
    pr.pc.Holds() ==>
      && pr.task in l.store.tasks
      && pr.pc.seen.taskId == pr.task
      && pr.pc.seen.revision <= |l.store.events[pr.task]|
      && pr.pc.seen.state == StateAt(l, pr.task, pr.pc.seen.revision)
  }

  /** A compare-and-set that succeeds was computed from the current state. */
  lemma SuccessMeansFresh(l: Ledger, now: Time, pr: Proc, op: Op)
    requires Recorded(l, now) && SeenIsPast(l, pr) && pr.pc.Holds() && op.Writes()
    requires Store.Append(l.store, Request(op, pr.pc.seen), now).1.Ok?
    ensures pr.pc.seen.revision == |l.store.events[pr.task]|
    ensures pr.pc.seen.state == l.store.tasks[pr.task].state
    ensures l.store.tasks[pr.task].state in Allowed(op)
  {
    CurrentState(l, now, pr.task);
  }

  // ---------------------------------------------------------------- growth

  /** Tasks stay, logs and histories only grow, creators never change. */
  ghost predicate Grows(l: Ledger, l': Ledger) {
    && Keyed(l) && Keyed(l')
    && l.store.tasks.Keys <= l'.store.tasks.Keys
    && forall t | t in l.store.tasks ::
         && l.store.events[t] <= l'.store.events[t]
         && l.commits[t] <= l'.commits[t]
         && l.creator[t] == l'.creator[t]
  }

  lemma StateAtIsStable(l: Ledger, l': Ledger, t: TaskId, revision: nat)
    requires Grows(l, l') && t in l.store.tasks && revision <= |l.store.events[t]|
    ensures StateAt(l', t, revision) == StateAt(l, t, revision)
  {
    var log, log' := l.store.events[t], l'.store.events[t];
    assert log <= log';
    assert Kinds(log')[..revision] == Kinds(log)[..revision];
  }

  lemma SeenStaysPast(l: Ledger, l': Ledger, pr: Proc)
    requires Grows(l, l') && SeenIsPast(l, pr)
    ensures SeenIsPast(l', pr)
  {
    if pr.pc.Holds() {
      StateAtIsStable(l, l', pr.task, pr.pc.seen.revision);
    }
  }

  /** The ledger with one task's snapshot, log and history replaced. */
  ghost function Put(l: Ledger, t: TaskId, snapshot: TaskSnapshot, log: seq<CoreEvent>, commits: seq<Commit>): Ledger {
    l.(store := l.store.(tasks := l.store.tasks[t := snapshot], events := l.store.events[t := log]),
       commits := l.commits[t := commits])
  }

  /** A task whose snapshot, log and history are untouched keeps its record. */
  lemma RecordCarries(l: Ledger, l': Ledger, now: Time, u: TaskId)
    requires Keyed(l) && Keyed(l') && u in l.store.tasks && u in l'.store.tasks
    requires l'.store.tasks[u] == l.store.tasks[u]
    requires l'.store.events[u] == l.store.events[u] && l'.commits[u] == l.commits[u]
    ensures RecordOf(l, now, u) ==> RecordOf(l', now, u)
  {
  }

  lemma PutGrows(l: Ledger, t: TaskId, snapshot: TaskSnapshot, log: seq<CoreEvent>, commits: seq<Commit>)
    requires Keyed(l) && t in l.store.tasks
    requires l.store.events[t] <= log && l.commits[t] <= commits
    ensures Grows(l, Put(l, t, snapshot, log, commits))
  {
    var l' := Put(l, t, snapshot, log, commits);
    assert l'.store.tasks.Keys == l.store.tasks.Keys;
    assert l'.store.events.Keys == l.store.events.Keys;
    assert l'.commits.Keys == l.commits.Keys;
  }

  lemma PutKeepsRecords(l: Ledger, now: Time, t: TaskId, snapshot: TaskSnapshot, log: seq<CoreEvent>,
                        commits: seq<Commit>)
    requires Recorded(l, now) && t in l.store.tasks
    requires Record(t, snapshot, log, commits, now)
    requires l.store.events[t] <= log && l.commits[t] <= commits
    ensures Recorded(Put(l, t, snapshot, log, commits), now)
  {
    PutGrows(l, t, snapshot, log, commits);
    forall u | u in Put(l, t, snapshot, log, commits).store.tasks
      ensures RecordOf(Put(l, t, snapshot, log, commits), now, u)
    {
      PutKeepsRecord(l, now, t, snapshot, log, commits, u);
    }
  }

  lemma PutKeepsRecord(l: Ledger, now: Time, t: TaskId, snapshot: TaskSnapshot, log: seq<CoreEvent>,
                       commits: seq<Commit>, u: TaskId)
    requires Recorded(l, now) && u in l.store.tasks
    requires Record(t, snapshot, log, commits, now) && Keyed(Put(l, t, snapshot, log, commits))
    ensures RecordOf(Put(l, t, snapshot, log, commits), now, u)
  {
    if u != t {
      RecordCarries(l, Put(l, t, snapshot, log, commits), now, u);
    }
  }

  ghost function EventOf(l: Ledger, now: Time, t: TaskId, op: Op): CoreEvent
    requires t in l.store.tasks && op.Writes()
  {
    CoreEvent(t, l.store.tasks[t].lastSeq + 1, now, KindOf(op))
  }

  lemma AppendIsPut(l: Ledger, now: Time, id: ProcId, op: Op, seen: TaskSnapshot)
    requires Keyed(l) && op.Writes() && Store.Append(l.store, Request(op, seen), now).1.Ok?
    requires NextState(op, seen.state) == After(KindOf(op))
    ensures seen.taskId in l.store.tasks
    ensures WriteTo(l, now, id, op, seen) ==
            Put(l, seen.taskId, Store.Bump(l.store.tasks[seen.taskId], After(KindOf(op)), now),
                l.store.events[seen.taskId] + [EventOf(l, now, seen.taskId, op)],
                l.commits[seen.taskId] + [Commit(id, op)])
  {
  }

  lemma WriteIsPut(l: Ledger, now: Time, id: ProcId, pr: Proc, op: Op)
    requires Recorded(l, now) && SeenIsPast(l, pr) && pr.pc.Holds() && op.Writes()
    requires Store.Append(l.store, Request(op, pr.pc.seen), now).1.Ok?
    ensures pr.task in l.store.tasks && l.store.tasks[pr.task].state in Allowed(op)
    ensures WriteTo(l, now, id, op, pr.pc.seen) ==
            Put(l, pr.task, Store.Bump(l.store.tasks[pr.task], After(KindOf(op)), now),
                l.store.events[pr.task] + [EventOf(l, now, pr.task, op)],
                l.commits[pr.task] + [Commit(id, op)])
  {
    SuccessMeansFresh(l, now, pr, op);
    NextStateIsAfter(op, l.store.tasks[pr.task].state);
    AppendIsPut(l, now, id, op, pr.pc.seen);
  }

  /** What one write does to the ledger. */
  lemma WriteKeepsRecords(l: Ledger, now: Time, id: ProcId, pr: Proc, op: Op)
    requires Recorded(l, now) && SeenIsPast(l, pr) && pr.pc.Holds() && op.Writes()
    requires Store.Append(l.store, Request(op, pr.pc.seen), now).1.Ok?
    ensures var l' := WriteTo(l, now, id, op, pr.pc.seen);
            Grows(l, l') && Recorded(l', now)
  {
    var t := pr.task;
    WriteIsPut(l, now, id, pr, op);
    assert RecordOf(l, now, t);
    WriteExtendsRecord(t, l.store.tasks[t], l.store.events[t], l.commits[t], now, op, id, EventOf(l, now, t, op));
    NextStateIsAfter(op, l.store.tasks[t].state);
    var snapshot := Store.Bump(l.store.tasks[t], After(KindOf(op)), now);
    var log, commits := l.store.events[t] + [EventOf(l, now, t, op)], l.commits[t] + [Commit(id, op)];
    PutGrows(l, t, snapshot, log, commits);
    PutKeepsRecords(l, now, t, snapshot, log, commits);
  }

  lemma FreshRecord(task: NewTask, now: Time)
    ensures Record(task.taskId, Store.Fresh(task, now), [], [], now)
  {
    assert Ops([]) == [];
    assert Kinds([]) == [];
  }

  lemma OpenGrows(l: Ledger, now: Time, id: ProcId, task: NewTask)
    requires Keyed(l)
    requires task.taskId !in l.store.tasks && (task.callerId, task.idempotencyKey) !in l.store.idempotency
    ensures Grows(l, OpenIn(l, now, id, task))
  {
  }

  lemma OpenKeepsRecords(l: Ledger, now: Time, id: ProcId, task: NewTask)
    requires Recorded(l, now)
    requires task.taskId !in l.store.tasks && (task.callerId, task.idempotencyKey) !in l.store.idempotency
    ensures Recorded(OpenIn(l, now, id, task), now)
  {
    var l' := OpenIn(l, now, id, task);
    OpenGrows(l, now, id, task);
    FreshRecord(task, now);
    forall u | u in l'.store.tasks ensures RecordOf(l', now, u) {
      if u != task.taskId {
        RecordCarries(l, l', now, u);
      }
    }
  }

  // ---------------------------------------------------------------- every effect

  ghost predicate SnapshotsArePast(s: Sys)
    requires Keyed(s.ledger)
  {
    forall p | p in s.procs :: SeenIsPast(s.ledger, s.procs[p])
  }

  /** An id already in the store came with a caller and key already in the store. */
  ghost predicate IdsAreFresh(s: Sys) {
    forall id | id in s.procs && s.procs[id].role.Invocation? && s.procs[id].pc.Creating? &&
                s.procs[id].task in s.ledger.store.tasks ::
      (s.procs[id].role.caller, s.procs[id].role.key) in s.ledger.store.idempotency
  }

  lemma EffectKeepsRecords(c: Config, s: Sys, e: Effect)
    requires Recorded(s.ledger, s.now) && SnapshotsArePast(s) && IdsAreFresh(s)
    requires SoundEffect(c, s, e)
    ensures var s' := Apply(c, s, e); Grows(s.ledger, s'.ledger) && Recorded(s'.ledger, s'.now)
  {
    if e.Do? && e.move.Write? {
      assert SeenIsPast(s.ledger, s.procs[e.id]);
      WriteKeepsRecords(s.ledger, s.now, e.id, s.procs[e.id], e.move.op);
    } else if e.Do? && e.move.Open? {
      OpenGrows(s.ledger, s.now, e.id, NewTaskOf(s.procs[e.id]));
      OpenKeepsRecords(s.ledger, s.now, e.id, NewTaskOf(s.procs[e.id]));
    } else if e.Wait? {
      RecordedLater(s.ledger, s.now, s.now + e.elapsed);
    }
  }

  /** A snapshot that enters a process is the task's current one. */
  lemma CurrentIsPast(l: Ledger, now: Time, pr: Proc)
    requires Recorded(l, now)
    requires pr.pc.Holds() ==> pr.task in l.store.tasks && pr.pc.seen == l.store.tasks[pr.task]
    ensures SeenIsPast(l, pr)
  {
    if pr.pc.Holds() {
      CurrentState(l, now, pr.task);
    }
  }

  lemma MoverSnapshotIsCurrent(c: Config, s: Sys, id: ProcId, m: Move)
    requires id in s.procs && Sound(c, s, s.procs[id], m) && !m.Stay?
    ensures var s' := Perform(c, s, id, m);
            var pr := s'.procs[id];
            pr.pc.Holds() ==> pr.task in s'.ledger.store.tasks && pr.pc.seen == s'.ledger.store.tasks[pr.task]
  {
    match m
    case Goto(pc) =>
    case Open =>
    case Write(op, seen, pc) =>
    case Grab(sem, pc) =>
    case Release(sem, pc) =>
    case Retire(pc) =>
  }

  lemma EffectKeepsSnapshotsPast(c: Config, s: Sys, e: Effect)
    requires Recorded(s.ledger, s.now) && SnapshotsArePast(s) && IdsAreFresh(s)
    requires SoundEffect(c, s, e)
    ensures var s' := Apply(c, s, e); Keyed(s'.ledger) && SnapshotsArePast(s')
  {
    var s' := Apply(c, s, e);
    EffectKeepsRecords(c, s, e);
    if e.Do? && !e.move.Stay? {
      MoverSnapshotIsCurrent(c, s, e.id, e.move);
      CurrentIsPast(s'.ledger, s'.now, s'.procs[e.id]);
    }
    forall p | p in s'.procs ensures SeenIsPast(s'.ledger, s'.procs[p]) {
      if p in s.procs && s'.procs[p] == s.procs[p] {
        assert SeenIsPast(s.ledger, s.procs[p]);
        SeenStaysPast(s.ledger, s'.ledger, s.procs[p]);
      }
    }
  }
}
