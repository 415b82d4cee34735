/**
 The in-memory store and the SQLite store behind one contract
 (crates/adapter-store-contract/src/lib.rs, `TaskStore`): for each call the exact
 condition under which both answer alike, lifted to every sequence of calls, and the
 reason the calls of the core meet it.
 */
module StoreAgreement {
  import opened OrderedMaps
  import opened TaskModel
  import opened Lifecycle
  import Memory = MemoryStore
  import Sqlite = SqliteStore

  datatype Call =
    | CreateTask(task: NewTask)
    | GetTask(id: TaskId)
    | AppendEvent(transition: TaskTransition)
    | ReadEvents(id: TaskId, after: EventSeq, limit: nat)
    | AcquireLease(lease: Memory.Lease)
    | RenewLease(lease: Memory.Lease)

  datatype Reply =
    | CreateReply(created: Result<CreateTaskResult, StoreError>)
    | SnapshotReply(snapshot: Result<Option<TaskSnapshot>, StoreError>)
    | AppendReply(applied: Result<AppliedTransition, StoreError>)
    | EventsReply(events: Result<seq<CoreEvent>, StoreError>)
    | LeaseReply(held: Result<bool, StoreError>)

  function OnMemory(s: Memory.State, call: Call, now: Time): (Memory.State, Reply) {
    match call
    case CreateTask(task) => var r := Memory.Create(s, task, now); (r.0, CreateReply(r.1))
    case GetTask(id) => (s, SnapshotReply(Ok(if id in s.tasks then Some(s.tasks[id]) else None)))
    case AppendEvent(t) => var r := Memory.Append(s, t, now); (r.0, AppendReply(r.1))
    case ReadEvents(id, after, limit) => (s, EventsReply(Memory.EventsAfter(s, id, after, limit)))
    case AcquireLease(lease) => var r := Memory.Acquire(s, lease, now); (r.0, LeaseReply(r.1))
    case RenewLease(lease) => var r := Memory.Renew(s, lease, now); (r.0, LeaseReply(r.1))
  }

  ghost function OnSqlite(db: Sqlite.Tables, call: Call, now: Time): (Sqlite.Tables, Reply) {
    match call
    case CreateTask(task) => var r := Sqlite.Create(db, task, now); (r.0, CreateReply(r.1))
    case GetTask(id) => (db, SnapshotReply(Sqlite.Get(db, id)))
    case AppendEvent(t) => var r := Sqlite.Append(db, t, now); (r.0, AppendReply(r.1))
    case ReadEvents(id, after, limit) => (db, EventsReply(Ok(Sqlite.EventsAfter(db, id, after, limit))))
    case AcquireLease(lease) => var r := Sqlite.Acquire(db, lease, now); (r.0, LeaseReply(r.1))
    case RenewLease(lease) => var r := Sqlite.Renew(db, lease, now); (r.0, LeaseReply(r.1))
  }

  // ---------------------------------------------------------------- when one call is answered alike

  predicate Applies(s: Memory.State, t: TaskTransition) {
    && t.taskId in s.tasks
    && s.tasks[t.taskId].revision == t.expectedRevision
    && s.tasks[t.taskId].state in t.allowedStates
  }

  /** A transition that would move the end time of a task that already has one. */
  predicate Restamps(s: Memory.State, t: TaskTransition, now: Time) {
    && Applies(s, t)
    && t.nextState.Terminal()
    && s.tasks[t.taskId].terminalAt.Some?
    && s.tasks[t.taskId].terminalAt.value != now
  }

  /** The leases an acquiring owner finds, and whether both stores read the same verdict from them. */
  predicate LeaseAlike(s: Memory.State, lease: Memory.Lease, now: Time) {
    if lease.taskId in s.leases
    then s.leases[lease.taskId].expiresAt != now || s.leases[lease.taskId].ownerId == lease.ownerId
    else lease.taskId in s.tasks
  }

  predicate Alike(s: Memory.State, call: Call, now: Time) {
    match call
    case CreateTask(task) => (task.callerId, task.idempotencyKey) in s.idempotency || task.taskId !in s.tasks
    case GetTask(_) => true
    case AppendEvent(t) => !Restamps(s, t, now)
    case ReadEvents(id, after, limit) =>
      && id in s.tasks
      && (limit <= 10_000 || |Memory.SeqAfter(Memory.EventsOf(s, id), after)| <= 10_000)
    case AcquireLease(lease) => lease.expiresIn > Memory.MAX_DURATION || LeaseAlike(s, lease, now)
    case RenewLease(_) => true
  }

  // ---------------------------------------------------------------- the relation between the stores

  ghost predicate SameTasks(tasks: map<TaskId, TaskSnapshot>, rows: map<TaskId, Sqlite.TaskRow>) {
    && tasks.Keys == rows.Keys
    && forall id | id in tasks :: Sqlite.Snapshot(id, rows[id]) == Ok(tasks[id])
  }

  function KeyOf(row: Sqlite.TaskRow): (CallerId, string) {
    (row.callerId, row.idempotencyKey)
  }

  /** The idempotency map is the key columns of the task table, read the other way. */
  ghost predicate SameKeys(idempotency: map<(CallerId, string), TaskId>, rows: map<TaskId, Sqlite.TaskRow>) {
    forall id: TaskId, key: (CallerId, string) ::
      (id in rows && KeyOf(rows[id]) == key) <==> (key in idempotency && idempotency[key] == id)
  }

  ghost predicate SameLog(id: TaskId, log: seq<CoreEvent>, rows: map<(TaskId, EventSeq), Sqlite.EventRow>) {
    && (forall n: EventSeq :: (id, n) in rows <==> 1 <= n <= |log|)
    && (forall i | 0 <= i < |log| ::
          log[i] == CoreEvent(id, i + 1, rows[(id, i + 1)].createdAt, rows[(id, i + 1)].kind))
  }

  ghost predicate SameEvents(events: map<TaskId, seq<CoreEvent>>,
                             rows: map<(TaskId, EventSeq), Sqlite.EventRow>) {
    && (forall id | id in events :: SameLog(id, events[id], rows))
    && (forall key | key in rows :: key.0 in events)
  }

  ghost predicate Counted(tasks: map<TaskId, TaskSnapshot>, events: map<TaskId, seq<CoreEvent>>) {
    && events.Keys == tasks.Keys
    && forall id | id in tasks :: tasks[id].lastSeq == |events[id]|
  }

  ghost predicate SameLeases(leases: map<TaskId, Memory.LeaseRecord>, rows: map<TaskId, Sqlite.LeaseRow>) {
    && leases.Keys == rows.Keys
    && forall id | id in rows :: leases[id] == Memory.LeaseRecord(rows[id].ownerId, rows[id].expiresAt)
  }

  ghost predicate Mirrors(s: Memory.State, db: Sqlite.Tables) {
    && SameTasks(s.tasks, db.tasks)
    && SameKeys(s.idempotency, db.tasks)
    && Counted(s.tasks, s.events)
    && SameEvents(s.events, db.events)
    && SameLeases(s.leases, db.leases)
    && s.leases.Keys <= s.tasks.Keys
  }

  // ---------------------------------------------------------------- call by call

  /** Whether both calls answer alike is `alike`, and if they do the stores still mirror each other. */
  ghost predicate Agrees(alike: bool, s': Memory.State, db': Sqlite.Tables, same: bool) {
    && (same <==> alike)
    && (alike ==> Mirrors(s', db'))
  }

  lemma LookupFinds(s: Memory.State, db: Sqlite.Tables, caller: CallerId, key: string)
    requires SameKeys(s.idempotency, db.tasks)
    ensures Sqlite.Holders(db.tasks, caller, key) ==
            if (caller, key) in s.idempotency then {s.idempotency[(caller, key)]} else {}
  {
    var holders := Sqlite.Holders(db.tasks, caller, key);
    forall id | id in holders
      ensures (caller, key) in s.idempotency && s.idempotency[(caller, key)] == id
    {
    }
  }

  lemma RowEntersTasks(tasks: map<TaskId, TaskSnapshot>, rows: map<TaskId, Sqlite.TaskRow>, id: TaskId,
                       snapshot: TaskSnapshot, row: Sqlite.TaskRow)
    requires SameTasks(tasks, rows) && Sqlite.Snapshot(id, row) == Ok(snapshot)
    ensures SameTasks(tasks[id := snapshot], rows[id := row])
  {
  }

  lemma RowEntersKeys(idempotency: map<(CallerId, string), TaskId>, rows: map<TaskId, Sqlite.TaskRow>,
                      id: TaskId, row: Sqlite.TaskRow)
    requires SameKeys(idempotency, rows)
    requires id !in rows && (row.callerId, row.idempotencyKey) !in idempotency
    ensures SameKeys(idempotency[(row.callerId, row.idempotencyKey) := id], rows[id := row])
  {
  }

  lemma EmptyLogEnters(events: map<TaskId, seq<CoreEvent>>, rows: map<(TaskId, EventSeq), Sqlite.EventRow>,
                       id: TaskId)
    requires SameEvents(events, rows) && id !in events
    ensures SameEvents(events[id := []], rows)
  {
    forall n: EventSeq ensures (id, n) !in rows {
      assert (id, n).0 == id;
    }
    assert SameLog(id, [], rows);
  }

  lemma CreationMirrors(s: Memory.State, db: Sqlite.Tables, id: TaskId, snapshot: TaskSnapshot, row: Sqlite.TaskRow)
    requires Mirrors(s, db) && id !in s.tasks
    requires (row.callerId, row.idempotencyKey) !in s.idempotency
    requires Sqlite.Snapshot(id, row) == Ok(snapshot) && snapshot.lastSeq == 0
    ensures Mirrors(Memory.State(s.tasks[id := snapshot], s.events[id := []],
                                 s.idempotency[(row.callerId, row.idempotencyKey) := id], s.leases),
                    Sqlite.Tables(db.tasks[id := row], db.events, db.leases))
  {
    RowEntersTasks(s.tasks, db.tasks, id, snapshot, row);
    RowEntersKeys(s.idempotency, db.tasks, id, row);
    EmptyLogEnters(s.events, db.events, id);
  }

  lemma CreateAgrees(s: Memory.State, db: Sqlite.Tables, task: NewTask, now: Time)
    requires Mirrors(s, db)
    ensures Agrees(Alike(s, CreateTask(task), now), Memory.Create(s, task, now).0, Sqlite.Create(db, task, now).0,
                   Memory.Create(s, task, now).1 == Sqlite.Create(db, task, now).1)
  {
    LookupFinds(s, db, task.callerId, task.idempotencyKey);
    var key := (task.callerId, task.idempotencyKey);
    if key in s.idempotency {
      assert Sqlite.Snapshot(s.idempotency[key], db.tasks[s.idempotency[key]]) == Ok(s.tasks[s.idempotency[key]]);
    } else if task.taskId !in s.tasks {
      CreationMirrors(s, db, task.taskId, Memory.Fresh(task, now), Sqlite.NewRow(task, now));
    }
  }

  lemma RowKeepsKeys(idempotency: map<(CallerId, string), TaskId>, rows: map<TaskId, Sqlite.TaskRow>,
                     id: TaskId, row: Sqlite.TaskRow)
    requires SameKeys(idempotency, rows) && id in rows
    requires row.callerId == rows[id].callerId && row.idempotencyKey == rows[id].idempotencyKey
    ensures SameKeys(idempotency, rows[id := row])
  {
  }

  lemma EventEnters(events: map<TaskId, seq<CoreEvent>>, rows: map<(TaskId, EventSeq), Sqlite.EventRow>,
                    id: TaskId, kind: EventKind, now: Time)
    requires SameEvents(events, rows) && id in events
    ensures (id, |events[id]| + 1) !in rows
    ensures SameEvents(events[id := events[id] + [CoreEvent(id, |events[id]| + 1, now, kind)]],
                       rows[(id, |events[id]| + 1) := Sqlite.EventRow(kind, now)])
  {
    var log := events[id];
    var rows' := rows[(id, |log| + 1) := Sqlite.EventRow(kind, now)];
    assert SameLog(id, log, rows);
    LogGrows(id, log, rows, kind, now);
    forall other | other in events && other != id ensures SameLog(other, events[other], rows') {
      OtherLogsStay(other, events[other], rows, id, |log| + 1, Sqlite.EventRow(kind, now));
    }
  }

  lemma OtherLogsStay(other: TaskId, log: seq<CoreEvent>, rows: map<(TaskId, EventSeq), Sqlite.EventRow>,
                      id: TaskId, n: EventSeq, row: Sqlite.EventRow)
    requires SameLog(other, log, rows) && other != id
    ensures SameLog(other, log, rows[(id, n) := row])
  {
  }

  lemma CommitMirrors(s: Memory.State, db: Sqlite.Tables, id: TaskId, snapshot: TaskSnapshot, row: Sqlite.TaskRow,
                      kind: EventKind, now: Time)
    requires Mirrors(s, db) && id in s.tasks
    requires Sqlite.Snapshot(id, row) == Ok(snapshot)
    requires row.callerId == db.tasks[id].callerId && row.idempotencyKey == db.tasks[id].idempotencyKey
    requires snapshot.lastSeq == s.tasks[id].lastSeq + 1
    ensures Mirrors(Memory.State(s.tasks[id := snapshot],
                                 s.events[id := s.events[id] + [CoreEvent(id, snapshot.lastSeq, now, kind)]],
                                 s.idempotency, s.leases),
                    Sqlite.Tables(db.tasks[id := row],
                                  db.events[(id, snapshot.lastSeq) := Sqlite.EventRow(kind, now)], db.leases))
  {
    assert snapshot.lastSeq == |s.events[id]| + 1;
    RowEntersTasks(s.tasks, db.tasks, id, snapshot, row);
    RowKeepsKeys(s.idempotency, db.tasks, id, row);
    EventEnters(s.events, db.events, id, kind, now);
    CountGrows(s.tasks, s.events, id, snapshot, CoreEvent(id, snapshot.lastSeq, now, kind));
  }

  lemma CountGrows(tasks: map<TaskId, TaskSnapshot>, events: map<TaskId, seq<CoreEvent>>, id: TaskId,
                   snapshot: TaskSnapshot, event: CoreEvent)
    requires Counted(tasks, events) && id in tasks && snapshot.lastSeq == tasks[id].lastSeq + 1
    ensures Counted(tasks[id := snapshot], events[id := events[id] + [event]])
  {
  }

  /** What a row becomes reads as what the snapshot becomes, unless the end time would move. */
  lemma UpdatesAgree(id: TaskId, snapshot: TaskSnapshot, row: Sqlite.TaskRow, next: TaskState, now: Time)
    requires Sqlite.Snapshot(id, row) == Ok(snapshot)
    ensures Sqlite.Snapshot(id, Sqlite.Updated(row, next, now)).Ok?
    ensures Sqlite.Snapshot(id, Sqlite.Updated(row, next, now)) == Ok(Memory.Bump(snapshot, next, now)) <==>
            !(next.Terminal() && snapshot.terminalAt.Some? && snapshot.terminalAt.value != now)
  {
    Sqlite.StateTextRoundTrips(next, Sqlite.StateDb(next));
  }

  /** Both stores refuse for the same reason, or both write and differ at most in the end time. */
  lemma AppendVerdicts(s: Memory.State, db: Sqlite.Tables, t: TaskTransition, now: Time)
    requires t.taskId in s.tasks <==> t.taskId in db.tasks
    requires t.taskId in s.tasks ==>
               && Sqlite.Snapshot(t.taskId, db.tasks[t.taskId]) == Ok(s.tasks[t.taskId])
               && (t.taskId, s.tasks[t.taskId].lastSeq + 1) !in db.events
    ensures Memory.Append(s, t, now).1 == Sqlite.Append(db, t, now).1 <==> !Restamps(s, t, now)
    ensures !Applies(s, t) ==> Memory.Append(s, t, now).0 == s && Sqlite.Append(db, t, now).0 == db
    ensures Applies(s, t) ==>
              var id := t.taskId;
              var snapshot, row := Memory.Bump(s.tasks[id], t.nextState, now), Sqlite.Updated(db.tasks[id], t.nextState, now);
              var event := CoreEvent(id, snapshot.lastSeq, now, t.eventKind);
              && Memory.Append(s, t, now).0 ==
                 s.(tasks := s.tasks[id := snapshot], events := s.events[id := Memory.EventsOf(s, id) + [event]])
              && Sqlite.Append(db, t, now).0 ==
                 db.(tasks := db.tasks[id := row],
                     events := db.events[(id, snapshot.lastSeq) := Sqlite.EventRow(t.eventKind, now)])
  {
    if Applies(s, t) {
      UpdatesAgree(t.taskId, s.tasks[t.taskId], db.tasks[t.taskId], t.nextState, now);
      assert Sqlite.Append(db, t, now) == Sqlite.Commit(db, t, db.tasks[t.taskId], now);
    }
  }

  lemma AppendAgrees(s: Memory.State, db: Sqlite.Tables, t: TaskTransition, now: Time)
    requires Mirrors(s, db)
    ensures Agrees(Alike(s, AppendEvent(t), now), Memory.Append(s, t, now).0, Sqlite.Append(db, t, now).0,
                   Memory.Append(s, t, now).1 == Sqlite.Append(db, t, now).1)
  {
    var id := t.taskId;
    if id in s.tasks {
      NoSuchEvent(s, db, id);
    }
    AppendVerdicts(s, db, t, now);
    if Applies(s, t) && !Restamps(s, t, now) {
      UpdatesAgree(id, s.tasks[id], db.tasks[id], t.nextState, now);
      CommitMirrors(s, db, id, Memory.Bump(s.tasks[id], t.nextState, now),
                    Sqlite.Updated(db.tasks[id], t.nextState, now), t.eventKind, now);
    }
  }

  lemma NoSuchEvent(s: Memory.State, db: Sqlite.Tables, id: TaskId)
    requires Counted(s.tasks, s.events) && SameEvents(s.events, db.events) && id in s.tasks
    ensures (id, s.tasks[id].lastSeq + 1) !in db.events
  {
    assert SameLog(id, s.events[id], db.events);
  }

  lemma LogGrows(id: TaskId, log: seq<CoreEvent>, rows: map<(TaskId, EventSeq), Sqlite.EventRow>,
                 kind: EventKind, now: Time)
    requires SameLog(id, log, rows)
    ensures SameLog(id, log + [CoreEvent(id, |log| + 1, now, kind)],
                    rows[(id, |log| + 1) := Sqlite.EventRow(kind, now)])
  {
  }

  lemma SelectedNumbers(id: TaskId, log: seq<CoreEvent>, rows: map<(TaskId, EventSeq), Sqlite.EventRow>,
                        after: EventSeq)
    requires SameLog(id, log, rows)
    ensures Sqlite.RowsAfter(rows, id, after).Keys == Range(after, |log|)
    ensures forall n | after < n <= |log| :: Sqlite.RowsAfter(rows, id, after)[n] == log[n - 1]
  {
    var m := Sqlite.RowsAfter(rows, id, after);
    forall n: EventSeq | after < n <= |log| ensures n in m && m[n] == log[n - 1] {
      assert (id, n) in rows;
    }
    forall n: EventSeq | n in m ensures after < n <= |log| {
      assert (id, n) in rows;
    }
  }

  /** The selected rows in order are the tail of the log. */
  lemma RowsAreTheTail(id: TaskId, log: seq<CoreEvent>, rows: map<(TaskId, EventSeq), Sqlite.EventRow>,
                       after: EventSeq)
    requires SameLog(id, log, rows)
    ensures var m := Sqlite.RowsAfter(rows, id, after);
            Ascending(m, m.Keys) == Memory.SeqAfter(log, after)
  {
    var m := Sqlite.RowsAfter(rows, id, after);
    SelectedNumbers(id, log, rows, after);
    Memory.SeqAfterIsSlice(log, 0, after);
    InOrder(m, log, after);
  }

  lemma InOrder(m: map<EventSeq, CoreEvent>, log: seq<CoreEvent>, after: EventSeq)
    requires m.Keys == Range(after, |log|)
    requires forall n | after < n <= |log| :: m[n] == log[n - 1]
    ensures Ascending(m, m.Keys) == if after <= |log| then log[after..] else []
  {
    if after <= |log| {
      assert m.Keys == Range(after, |log|) + {};
      AscendingSlice(m, log, after, |log|, {});
      assert log[after..|log|] + [] == log[after..];
    }
  }

  lemma EventsAgree(s: Memory.State, db: Sqlite.Tables, id: TaskId, after: EventSeq, limit: nat, now: Time)
    requires Mirrors(s, db)
    ensures Memory.EventsAfter(s, id, after, limit) == Ok(Sqlite.EventsAfter(db, id, after, limit)) <==>
            Alike(s, ReadEvents(id, after, limit), now)
  {
    if id in s.tasks {
      ExistingEventsAgree(s, db, id, after, limit);
    }
  }

  lemma ExistingEventsAgree(s: Memory.State, db: Sqlite.Tables, id: TaskId, after: EventSeq, limit: nat)
    requires Mirrors(s, db) && id in s.tasks
    ensures Memory.EventsAfter(s, id, after, limit) == Ok(Sqlite.EventsAfter(db, id, after, limit)) <==>
            limit <= Sqlite.MAX_PAGE || |Memory.SeqAfter(Memory.EventsOf(s, id), after)| <= Sqlite.MAX_PAGE
  {
    RowsAreTheTail(id, s.events[id], db.events, after);
    CapMatters(Memory.SeqAfter(s.events[id], after), limit);
  }

  lemma CapMatters(tail: seq<CoreEvent>, limit: nat)
    ensures Memory.Take(tail, limit) == Memory.Take(tail, Memory.Min(limit, Sqlite.MAX_PAGE)) <==>
            limit <= Sqlite.MAX_PAGE || |tail| <= Sqlite.MAX_PAGE
  {
  }

  lemma LeaseEnters(leases: map<TaskId, Memory.LeaseRecord>, rows: map<TaskId, Sqlite.LeaseRow>, id: TaskId,
                    owner: string, expiresAt: Time, now: Time)
    requires SameLeases(leases, rows)
    ensures SameLeases(leases[id := Memory.LeaseRecord(owner, expiresAt)],
                       rows[id := Sqlite.LeaseRow(owner, expiresAt, now)])
  {
  }

  lemma LeasingMirrors(s: Memory.State, db: Sqlite.Tables, lease: Memory.Lease, now: Time)
    requires Mirrors(s, db) && lease.taskId in s.tasks
    ensures Mirrors(Leased(s, lease, now), RowLeased(db, lease, now))
  {
    LeaseEnters(s.leases, db.leases, lease.taskId, lease.ownerId, now + lease.expiresIn, now);
  }

  lemma SameLease(s: Memory.State, db: Sqlite.Tables, id: TaskId)
    requires Mirrors(s, db)
    ensures id in s.leases <==> id in db.leases
    ensures id in s.leases ==>
              s.leases[id] == Memory.LeaseRecord(db.leases[id].ownerId, db.leases[id].expiresAt) && id in s.tasks
    ensures id in s.tasks <==> id in db.tasks
  {
  }

  function Leased(s: Memory.State, lease: Memory.Lease, now: Time): Memory.State {
    s.(leases := s.leases[lease.taskId := Memory.LeaseRecord(lease.ownerId, now + lease.expiresIn)])
  }

  function RowLeased(db: Sqlite.Tables, lease: Memory.Lease, now: Time): Sqlite.Tables {
    db.(leases := db.leases[lease.taskId := Sqlite.LeaseRow(lease.ownerId, now + lease.expiresIn, now)])
  }

  /** Both stores read the same verdict, and write the same lease, exactly in the cases of `Alike`. */
  lemma AcquireVerdicts(s: Memory.State, db: Sqlite.Tables, lease: Memory.Lease, now: Time) returns (taken: bool)
    requires lease.taskId in s.leases <==> lease.taskId in db.leases
    requires lease.taskId in s.leases ==>
               && s.leases[lease.taskId] ==
                  Memory.LeaseRecord(db.leases[lease.taskId].ownerId, db.leases[lease.taskId].expiresAt)
               && lease.taskId in s.tasks
    requires lease.taskId in s.tasks <==> lease.taskId in db.tasks
    ensures Memory.Acquire(s, lease, now).1 == Sqlite.Acquire(db, lease, now).1 <==>
            Alike(s, AcquireLease(lease), now)
    ensures taken ==> lease.taskId in s.tasks
    ensures Alike(s, AcquireLease(lease), now) ==>
              && Memory.Acquire(s, lease, now).0 == (if taken then Leased(s, lease, now) else s)
              && Sqlite.Acquire(db, lease, now).0 == (if taken then RowLeased(db, lease, now) else db)
  {
    taken := Memory.Acquire(s, lease, now).1 == Ok(true) && lease.taskId in s.tasks;
  }

  lemma AcquireAgrees(s: Memory.State, db: Sqlite.Tables, lease: Memory.Lease, now: Time)
    requires Mirrors(s, db)
    ensures Agrees(Alike(s, AcquireLease(lease), now), Memory.Acquire(s, lease, now).0,
                   Sqlite.Acquire(db, lease, now).0,
                   Memory.Acquire(s, lease, now).1 == Sqlite.Acquire(db, lease, now).1)
  {
    SameLease(s, db, lease.taskId);
    var taken := AcquireVerdicts(s, db, lease, now);
    if taken {
      LeasingMirrors(s, db, lease, now);
    }
  }

  lemma RenewVerdicts(s: Memory.State, db: Sqlite.Tables, lease: Memory.Lease, now: Time) returns (taken: bool)
    requires lease.taskId in s.leases <==> lease.taskId in db.leases
    requires lease.taskId in s.leases ==>
               && s.leases[lease.taskId] ==
                  Memory.LeaseRecord(db.leases[lease.taskId].ownerId, db.leases[lease.taskId].expiresAt)
               && lease.taskId in s.tasks
    ensures Memory.Renew(s, lease, now).1 == Sqlite.Renew(db, lease, now).1
    ensures taken ==> lease.taskId in s.tasks
    ensures Memory.Renew(s, lease, now).0 == if taken then Leased(s, lease, now) else s
    ensures Sqlite.Renew(db, lease, now).0 == if taken then RowLeased(db, lease, now) else db
  {
    taken := Memory.Renew(s, lease, now).1 == Ok(true);
  }

  lemma RenewAgrees(s: Memory.State, db: Sqlite.Tables, lease: Memory.Lease, now: Time)
    requires Mirrors(s, db)
    ensures Agrees(true, Memory.Renew(s, lease, now).0, Sqlite.Renew(db, lease, now).0,
                   Memory.Renew(s, lease, now).1 == Sqlite.Renew(db, lease, now).1)
  {
    SameLease(s, db, lease.taskId);
    var taken := RenewVerdicts(s, db, lease, now);
    if taken {
      LeasingMirrors(s, db, lease, now);
    }
  }

  /** Each call is answered alike exactly when `Alike` says so, and then the stores stay mirrored. */
  lemma CallsAgree(s: Memory.State, db: Sqlite.Tables, call: Call, now: Time)
    requires Mirrors(s, db)
    ensures OnMemory(s, call, now).1 == OnSqlite(db, call, now).1 <==> Alike(s, call, now)
    ensures Alike(s, call, now) ==> Mirrors(OnMemory(s, call, now).0, OnSqlite(db, call, now).0)
  {
    match call
    case CreateTask(task) => CreateAgrees(s, db, task, now);
    case GetTask(id) =>
    case AppendEvent(t) => AppendAgrees(s, db, t, now);
    case ReadEvents(id, after, limit) => EventsAgree(s, db, id, after, limit, now);
    case AcquireLease(lease) => AcquireAgrees(s, db, lease, now);
    case RenewLease(lease) => RenewAgrees(s, db, lease, now);
  }

  // ---------------------------------------------------------------- every sequence of calls

  /** A call and the time both clocks show when it is made. */
  datatype Timed = Timed(call: Call, now: Time)

  function MemoryReplies(s: Memory.State, calls: seq<Timed>): seq<Reply>
    decreases |calls|
  {
    if calls == [] then []
    else
      var r := OnMemory(s, calls[0].call, calls[0].now);
      [r.1] + MemoryReplies(r.0, calls[1..])
  }

  ghost function SqliteReplies(db: Sqlite.Tables, calls: seq<Timed>): seq<Reply>
    decreases |calls|
  {
    if calls == [] then []
    else
      var r := OnSqlite(db, calls[0].call, calls[0].now);
      [r.1] + SqliteReplies(r.0, calls[1..])
  }

  predicate AlikeThroughout(s: Memory.State, calls: seq<Timed>)
    decreases |calls|
  {
    calls == [] ||
    (&& Alike(s, calls[0].call, calls[0].now)
     && AlikeThroughout(OnMemory(s, calls[0].call, calls[0].now).0, calls[1..]))
  }

  lemma {:induction false} MirroredStoresAgree(s: Memory.State, db: Sqlite.Tables, calls: seq<Timed>)
    requires Mirrors(s, db)
    ensures MemoryReplies(s, calls) == SqliteReplies(db, calls) <==> AlikeThroughout(s, calls)
    decreases |calls|
  {
    if calls != [] {
      var call, now := calls[0].call, calls[0].now;
      CallsAgree(s, db, call, now);
      var ms, ss := MemoryReplies(s, calls), SqliteReplies(db, calls);
      assert ms[0] == OnMemory(s, call, now).1 && ss[0] == OnSqlite(db, call, now).1;
      if Alike(s, call, now) {
        var s', db' := OnMemory(s, call, now).0, OnSqlite(db, call, now).0;
        MirroredStoresAgree(s', db', calls[1..]);
        assert ms[1..] == MemoryReplies(s', calls[1..]) && ss[1..] == SqliteReplies(db', calls[1..]);
        assert ms == [ms[0]] + ms[1..] && ss == [ss[0]] + ss[1..];
      }
    }
  }

  /** From empty stores, all replies are equal exactly when every call is one answered alike. */
  lemma StoresAgree(calls: seq<Timed>)
    ensures MemoryReplies(Memory.EMPTY, calls) == SqliteReplies(Sqlite.EMPTY, calls) <==>
            AlikeThroughout(Memory.EMPTY, calls)
  {
    MirroredStoresAgree(Memory.EMPTY, Sqlite.EMPTY, calls);
  }

  // ---------------------------------------------------------------- calls as the core makes them

  /**
   What is asked of one call: a repeated task id comes with a known key, a transition
   names no terminal state, pages are at most 10000 long and of an existing task, and no
   lease is acquired at the instant it expires.
   */
  ghost predicate CoreCall(s: Memory.State, call: Call, now: Time) {
    match call
    case CreateTask(task) => (task.callerId, task.idempotencyKey) in s.idempotency || task.taskId !in s.tasks
    case GetTask(_) => true
    case AppendEvent(t) => Memory.SparesEnded(t)
    case ReadEvents(id, _, limit) => id in s.tasks && limit <= Sqlite.MAX_PAGE
    case AcquireLease(lease) =>
      && lease.taskId in s.tasks
      && (lease.taskId in s.leases ==> s.leases[lease.taskId].expiresAt != now)
    case RenewLease(_) => true
  }

  ghost predicate CoreCalls(s: Memory.State, calls: seq<Timed>)
    decreases |calls|
  {
    calls == [] ||
    (&& CoreCall(s, calls[0].call, calls[0].now)
     && CoreCalls(OnMemory(s, calls[0].call, calls[0].now).0, calls[1..]))
  }

  function MemoryAfter(s: Memory.State, calls: seq<Timed>): Memory.State
    decreases |calls|
  {
    if calls == [] then s else MemoryAfter(OnMemory(s, calls[0].call, calls[0].now).0, calls[1..])
  }

  /** One more call at the end. */
  lemma {:induction false} CoreCallsSnoc(s: Memory.State, calls: seq<Timed>, last: Timed)
    ensures CoreCalls(s, calls + [last]) <==>
            CoreCalls(s, calls) && CoreCall(MemoryAfter(s, calls), last.call, last.now)
    ensures MemoryAfter(s, calls + [last]) == OnMemory(MemoryAfter(s, calls), last.call, last.now).0
    decreases |calls|
  {
    if calls == [] {
      assert (calls + [last])[1..] == [];
    } else {
      assert (calls + [last])[0] == calls[0] && (calls + [last])[1..] == calls[1..] + [last];
      CoreCallsSnoc(OnMemory(s, calls[0].call, calls[0].now).0, calls[1..], last);
    }
  }

  lemma {:induction false} AlikeSnoc(s: Memory.State, calls: seq<Timed>, last: Timed)
    ensures AlikeThroughout(s, calls + [last]) <==>
            AlikeThroughout(s, calls) && Alike(MemoryAfter(s, calls), last.call, last.now)
    ensures MemoryAfter(s, calls + [last]) == OnMemory(MemoryAfter(s, calls), last.call, last.now).0
    decreases |calls|
  {
    if calls == [] {
      assert (calls + [last])[1..] == [];
    } else {
      assert (calls + [last])[0] == calls[0] && (calls + [last])[1..] == calls[1..] + [last];
      AlikeSnoc(OnMemory(s, calls[0].call, calls[0].now).0, calls[1..], last);
    }
  }

  /** An end time is only ever set on a task that has ended. */
  ghost predicate EndTimesAreEnds(s: Memory.State) {
    forall id | id in s.tasks :: s.tasks[id].terminalAt.Some? ==> s.tasks[id].state.Terminal()
  }

  lemma {:induction false} CoreCallsAreAlike(s: Memory.State, calls: seq<Timed>)
    requires EndTimesAreEnds(s) && CoreCalls(s, calls)
    ensures AlikeThroughout(s, calls)
    decreases |calls|
  {
    if calls != [] {
      CoreCallsAreAlike(OnMemory(s, calls[0].call, calls[0].now).0, calls[1..]);
    }
  }

  /**
   Terminal states are never left, so overwriting the end time and keeping the first
   one are the same: on such calls, stale ones included, both stores give equal replies
   throughout.
   */
  lemma StoresAgreeOnCoreCalls(calls: seq<Timed>)
    requires CoreCalls(Memory.EMPTY, calls)
    ensures MemoryReplies(Memory.EMPTY, calls) == SqliteReplies(Sqlite.EMPTY, calls)
  {
    CoreCallsAreAlike(Memory.EMPTY, calls);
    StoresAgree(calls);
  }
}
