/**
 The SQLite task store (crates/sqlite-task-store-adapter/src/lib.rs): three tables, one
 of which holds the tasks together with their idempotency keys. Tables are maps from
 primary keys to rows and timestamps are numbers. `Tables` is the content of the
 database and the functions on it give the result of each call; the class carries the
 calls out statement by statement, each inside one transaction under the write guard.
 */
module SqliteStore {
  import opened OrderedMaps
  import opened TaskModel
  import Memory = MemoryStore

  datatype TaskRow = TaskRow(
    sessionId: Option<SessionId>,
    agentId: AgentId,
    callerId: CallerId,
    idempotencyKey: string,
    state: string,
    revision: nat,
    lastSeq: EventSeq,
    deadlineAt: Option<Time>,
    createdAt: Time,
    updatedAt: Time,
    terminalAt: Option<Time>)

  datatype EventRow = EventRow(kind: EventKind, createdAt: Time)
  datatype LeaseRow = LeaseRow(ownerId: string, expiresAt: Time, updatedAt: Time)

  datatype Tables = Tables(
    tasks: map<TaskId, TaskRow>,
    events: map<(TaskId, EventSeq), EventRow>,
    leases: map<TaskId, LeaseRow>)

  const EMPTY := Tables(map[], map[], map[])

  /** The largest page `events_after` returns. */
  const MAX_PAGE := 10_000

  const TASK_EXISTS := "error returned from database: (code: 1555) UNIQUE constraint failed: tasks.task_id"
  const EVENT_EXISTS :=
    "error returned from database: (code: 1555) UNIQUE constraint failed: task_events.task_id, task_events.seq"
  const NO_SUCH_TASK := "error returned from database: (code: 787) FOREIGN KEY constraint failed"

  // ---------------------------------------------------------------- rows and values

  function StateDb(state: TaskState): string {
    match state
    case Created => "created"
    case Accepted => "accepted"
    case Running => "running"
    case WaitingForInput => "waiting_for_input"
    case CancelRequested => "cancel_requested"
    case Completed => "completed"
    case Failed => "failed"
    case Cancelled => "cancelled"
  }

  function ParseState(value: string): Result<TaskState, StoreError> {
    if value == "created" then Ok(Created)
    else if value == "accepted" then Ok(Accepted)
    else if value == "running" then Ok(Running)
    else if value == "waiting_for_input" then Ok(WaitingForInput)
    else if value == "cancel_requested" then Ok(CancelRequested)
    else if value == "completed" then Ok(Completed)
    else if value == "failed" then Ok(Failed)
    else if value == "cancelled" then Ok(Cancelled)
    else Err(Corrupt("state=" + value))
  }

  /** Reading inverts writing, and nothing else reads as a state. */
  lemma StateTextRoundTrips(state: TaskState, value: string)
    ensures ParseState(StateDb(state)) == Ok(state)
    ensures ParseState(value) == Ok(state) <==> value == StateDb(state)
  {
    var text := StateDb(state);
    assert text[0] == 'c' || text[0] == 'a' || text[0] == 'r' || text[0] == 'w' || text[0] == 'f';
  }

  function Snapshot(id: TaskId, row: TaskRow): Result<TaskSnapshot, StoreError> {
    match ParseState(row.state)
    case Err(e) => Err(e)
    case Ok(state) =>
      Ok(TaskSnapshot(id, row.sessionId, row.agentId, row.callerId, state, row.revision, row.lastSeq,
                      row.createdAt, row.updatedAt, row.terminalAt))
  }

  function NewRow(task: NewTask, now: Time): TaskRow {
    TaskRow(task.sessionId, task.agentId, task.callerId, task.idempotencyKey, "created", 0, 0,
            task.deadlineAt, now, now, None)
  }

  function Coalesce<T>(first: Option<T>, second: Option<T>): Option<T> {
    if first.Some? then first else second
  }

  /** The row after one committed transition; an end time once set stays. */
  function Updated(row: TaskRow, next: TaskState, now: Time): TaskRow {
    row.(state := StateDb(next),
         revision := row.revision + 1,
         lastSeq := row.lastSeq + 1,
         updatedAt := now,
         terminalAt := Coalesce(row.terminalAt, if next.Terminal() then Some(now) else None))
  }

  // ---------------------------------------------------------------- the calls on values

  /** The rows a lookup by caller and key selects. */
  function Holders(tasks: map<TaskId, TaskRow>, caller: CallerId, key: string): set<TaskId> {
    set id | id in tasks && tasks[id].callerId == caller && tasks[id].idempotencyKey == key
  }

  function Existing(snapshot: Result<TaskSnapshot, StoreError>): Result<CreateTaskResult, StoreError> {
    if snapshot.Ok? then Ok(TaskExisting(snapshot.value)) else Err(snapshot.error)
  }

  ghost function Create(db: Tables, task: NewTask, now: Time): (Tables, Result<CreateTaskResult, StoreError>) {
    var holders := Holders(db.tasks, task.callerId, task.idempotencyKey);
    if holders != {} then
      var id :| id in holders;
      (db, Existing(Snapshot(id, db.tasks[id])))
    else if task.taskId in db.tasks then (db, Err(Unavailable(TASK_EXISTS)))
    else
      var row := NewRow(task, now);
      (db.(tasks := db.tasks[task.taskId := row]), Ok(TaskCreated(Snapshot(task.taskId, row).value)))
  }

  function Get(db: Tables, id: TaskId): Result<Option<TaskSnapshot>, StoreError> {
    if id !in db.tasks then Ok(None)
    else
      var snapshot := Snapshot(id, db.tasks[id]);
      if snapshot.Ok? then Ok(Some(snapshot.value)) else Err(snapshot.error)
  }

  function Commit(db: Tables, t: TaskTransition, row: TaskRow, now: Time)
    : (Tables, Result<AppliedTransition, StoreError>)
  {
    var row' := Updated(row, t.nextState, now);
    if (t.taskId, row'.lastSeq) in db.events then (db, Err(Unavailable(EVENT_EXISTS)))
    else
      var snapshot := Snapshot(t.taskId, row');
      StateTextRoundTrips(t.nextState, row'.state);
      (db.(tasks := db.tasks[t.taskId := row'],
           events := db.events[(t.taskId, row'.lastSeq) := EventRow(t.eventKind, now)]),
       Ok(AppliedTransition(snapshot.value, CoreEvent(t.taskId, row'.lastSeq, now, t.eventKind))))
  }

  function Append(db: Tables, t: TaskTransition, now: Time): (Tables, Result<AppliedTransition, StoreError>) {
    if t.taskId !in db.tasks then (db, Err(NotFound(t.taskId)))
    else
      var read := Snapshot(t.taskId, db.tasks[t.taskId]);
      if read.Err? then (db, Err(read.error))
      else if read.value.revision != t.expectedRevision then (db, Err(Conflict))
      else if read.value.state !in t.allowedStates then
        (db, Err(InvalidTransition("current=" + read.value.state.Name())))
      else Commit(db, t, db.tasks[t.taskId], now)
  }

  /** The events of a task numbered above `after`, by number. */
  function RowsAfter(events: map<(TaskId, EventSeq), EventRow>, id: TaskId, after: EventSeq)
    : map<EventSeq, CoreEvent>
  {
    map k | k in events && k.0 == id && k.1 > after :: k.1 := CoreEvent(id, k.1, events[k].createdAt, events[k].kind)
  }

  ghost function EventsAfter(db: Tables, id: TaskId, after: EventSeq, limit: nat): seq<CoreEvent> {
    var rows := RowsAfter(db.events, id, after);
    Memory.Take(Ascending(rows, rows.Keys), Memory.Min(limit, MAX_PAGE))
  }

  function Acquire(db: Tables, lease: Memory.Lease, now: Time): (Tables, Result<bool, StoreError>) {
    match Memory.FromStd(lease.expiresIn)
    case Err(e) => (db, Err(e))
    case Ok(span) =>
      var row := LeaseRow(lease.ownerId, now + span, now);
      if lease.taskId in db.leases then
        if db.leases[lease.taskId].expiresAt < now || db.leases[lease.taskId].ownerId == lease.ownerId
        then (db.(leases := db.leases[lease.taskId := row]), Ok(true))
        else (db, Ok(false))
      else if lease.taskId !in db.tasks then (db, Err(Unavailable(NO_SUCH_TASK)))
      else (db.(leases := db.leases[lease.taskId := row]), Ok(true))
  }

  function Renew(db: Tables, lease: Memory.Lease, now: Time): (Tables, Result<bool, StoreError>) {
    match Memory.FromStd(lease.expiresIn)
    case Err(e) => (db, Err(e))
    case Ok(span) =>
      if lease.taskId in db.leases && db.leases[lease.taskId].ownerId == lease.ownerId &&
         db.leases[lease.taskId].expiresAt >= now
      then (db.(leases := db.leases[lease.taskId := LeaseRow(lease.ownerId, now + span, now)]), Ok(true))
      else (db, Ok(false))
  }

  // ---------------------------------------------------------------- what the rows hold

  /** A new task's row holds all of the task; a committed transition changes its five columns and adds one event row. */
  lemma RowsHoldTheTask(db: Tables, task: NewTask, now: Time)
    requires Holders(db.tasks, task.callerId, task.idempotencyKey) == {} && task.taskId !in db.tasks
    ensures var db' := Create(db, task, now).0;
            && db'.events == db.events && db'.leases == db.leases
            && db'.tasks == db.tasks[task.taskId :=
                 TaskRow(task.sessionId, task.agentId, task.callerId, task.idempotencyKey, "created", 0, 0,
                         task.deadlineAt, now, now, None)]
  {
  }

  lemma TransitionUpdatesTheRow(db: Tables, t: TaskTransition, now: Time)
    requires t.taskId in db.tasks && Append(db, t, now).1.Ok?
    ensures var db', row := Append(db, t, now).0, db.tasks[t.taskId];
            && db'.leases == db.leases
            && db'.events == db.events[(t.taskId, row.lastSeq + 1) := EventRow(t.eventKind, now)]
            && (t.taskId, row.lastSeq + 1) !in db.events
            && db'.tasks == db.tasks[t.taskId :=
                 TaskRow(row.sessionId, row.agentId, row.callerId, row.idempotencyKey, StateDb(t.nextState),
                         row.revision + 1, row.lastSeq + 1, row.deadlineAt, row.createdAt, now,
                         if row.terminalAt.Some? || t.nextState !in [Completed, Failed, Cancelled] then row.terminalAt
                         else Some(now))]
  {
  }

  // ---------------------------------------------------------------- the store object

  /** The constraints the schema declares: UNIQUE(caller, key) and the two foreign keys. */
  ghost predicate Schema(db: Tables) {
    && (forall a, b | a in db.tasks && b in db.tasks &&
                      db.tasks[a].callerId == db.tasks[b].callerId &&
                      db.tasks[a].idempotencyKey == db.tasks[b].idempotencyKey :: a == b)
    && (forall key | key in db.events :: key.0 in db.tasks)
    && db.leases.Keys <= db.tasks.Keys
  }

  class SqliteTaskStore {
    var tasks: map<TaskId, TaskRow>
    var events: map<(TaskId, EventSeq), EventRow>
    var leases: map<TaskId, LeaseRow>

    ghost function View(): Tables
      reads this
    {
      Tables(tasks, events, leases)
    }

    constructor ()
      ensures View() == EMPTY && Schema(View())
    {
      tasks, events, leases := map[], map[], map[];
    }

    method CreateOrGetIdempotent(task: NewTask, now: Time)
      returns (r: Result<CreateTaskResult, StoreError>)
      requires Schema(View())
      modifies this`tasks
      ensures Schema(View())
      ensures (View(), r) == Create(old(View()), task, now)
    {
      var rows := Holders(tasks, task.callerId, task.idempotencyKey);
      if rows != {} {
        var id :| id in rows;
        return Existing(Snapshot(id, tasks[id]));
      }
      if task.taskId in tasks {
        return Err(Unavailable(TASK_EXISTS));
      }
      tasks := tasks[task.taskId := NewRow(task, now)];
      var snapshot := Snapshot(task.taskId, tasks[task.taskId]);
      assert forall id | id in old(tasks) :: id in rows <==>
        old(tasks)[id].callerId == task.callerId && old(tasks)[id].idempotencyKey == task.idempotencyKey;
      r := Ok(TaskCreated(snapshot.value));
    }

    /** The update names the revision just read, so inside the transaction it always finds its row. */
    method AppendEventAndTransition(t: TaskTransition, now: Time)
      returns (r: Result<AppliedTransition, StoreError>)
      requires Schema(View())
      modifies this`tasks, this`events
      ensures Schema(View())
      ensures (View(), r) == Append(old(View()), t, now)
    {
      if t.taskId !in tasks {
        return Err(NotFound(t.taskId));
      }
      var row := tasks[t.taskId];
      var current := Snapshot(t.taskId, row);
      if current.Err? {
        return Err(current.error);
      }
      if current.value.revision != t.expectedRevision {
        return Err(Conflict);
      }
      if current.value.state !in t.allowedStates {
        return Err(InvalidTransition("current=" + current.value.state.Name()));
      }
      var seqNo, revision := current.value.lastSeq + 1, current.value.revision + 1;
      var ended := if t.nextState.Terminal() then Some(now) else None;
      if (t.taskId, seqNo) in events {
        return Err(Unavailable(EVENT_EXISTS));
      }
      tasks := tasks[t.taskId := row.(state := StateDb(t.nextState), revision := revision, lastSeq := seqNo,
                                      updatedAt := now, terminalAt := Coalesce(row.terminalAt, ended))];
      events := events[(t.taskId, seqNo) := EventRow(t.eventKind, now)];
      StateTextRoundTrips(t.nextState, tasks[t.taskId].state);
      var snapshot := Snapshot(t.taskId, tasks[t.taskId]);
      r := Ok(AppliedTransition(snapshot.value, CoreEvent(t.taskId, seqNo, now, t.eventKind)));
    }

    method GetEvents(id: TaskId, after: EventSeq, limit: nat) returns (r: seq<CoreEvent>)
      ensures r == EventsAfter(View(), id, after, limit)
    {
      var rows := RowsAfter(events, id, after);
      var ordered := IntoValues(rows);
      r := Memory.Take(ordered, Memory.Min(limit, MAX_PAGE));
    }

    method AcquireLease(lease: Memory.Lease, now: Time) returns (r: Result<bool, StoreError>)
      requires Schema(View())
      modifies this`leases
      ensures Schema(View())
      ensures (View(), r) == Acquire(old(View()), lease, now)
    {
      var span := Memory.FromStd(lease.expiresIn);
      if span.Err? {
        return Err(span.error);
      }
      if lease.taskId in leases {
        var held := leases[lease.taskId];
        if !(held.expiresAt < now || held.ownerId == lease.ownerId) {
          return Ok(false);
        }
      } else if lease.taskId !in tasks {
        return Err(Unavailable(NO_SUCH_TASK));
      }
      leases := leases[lease.taskId := LeaseRow(lease.ownerId, now + span.value, now)];
      r := Ok(true);
    }

    method RenewLease(lease: Memory.Lease, now: Time) returns (r: Result<bool, StoreError>)
      requires Schema(View())
      modifies this`leases
      ensures Schema(View())
      ensures (View(), r) == Renew(old(View()), lease, now)
    {
      var span := Memory.FromStd(lease.expiresIn);
      if span.Err? {
        return Err(span.error);
      }
      if lease.taskId in leases {
        var held := leases[lease.taskId];
        if held.ownerId == lease.ownerId && held.expiresAt >= now {
          leases := leases[lease.taskId := held.(expiresAt := now + span.value, updatedAt := now)];
          return Ok(true);
        }
      }
      r := Ok(false);
    }
  }
}
