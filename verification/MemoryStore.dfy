/**
 The in-memory task store (crates/memory-task-store/src/lib.rs): four maps behind
 one mutex. `State` is the value the mutex guards and the functions on it give the
 result of each call; the class updates the four maps in place. The clock is a
 parameter of every call that reads it.
 */
module MemoryStore {
  import opened TaskModel
  import opened Lifecycle

  datatype LeaseRecord = LeaseRecord(ownerId: string, expiresAt: Time)
  datatype Lease = Lease(taskId: TaskId, ownerId: string, expiresIn: nat)
  datatype RetentionPolicy =
    RetentionPolicy(taskTtl: nat, eventTtl: nat, idempotencyTtl: nat, cleanupBatchSize: nat)
  datatype CleanupReport =
    CleanupReport(tasksDeleted: nat, eventsDeleted: nat, idempotencyDeleted: nat)

  datatype State = State(
    tasks: map<TaskId, TaskSnapshot>,
    events: map<TaskId, seq<CoreEvent>>,
    idempotency: map<(CallerId, string), TaskId>,
    leases: map<TaskId, LeaseRecord>)

  const EMPTY := State(map[], map[], map[], map[])

  /** Durations are in milliseconds; chrono refuses those beyond a signed 64-bit count. */
  const MAX_DURATION := 0x7FFF_FFFF_FFFF_FFFF

  function FromStd(duration: nat): Result<int, StoreError> {
    if duration <= MAX_DURATION then Ok(duration)
    else Err(Internal("Source duration value is out of range for the target type"))
  }

  // ---------------------------------------------------------------- the calls on values

  function Fresh(task: NewTask, now: Time): TaskSnapshot {
    TaskSnapshot(task.taskId, task.sessionId, task.agentId, task.callerId,
                 Created, 0, 0, now, now, None)
  }

  function Create(s: State, task: NewTask, now: Time): (State, Result<CreateTaskResult, StoreError>) {
    var key := (task.callerId, task.idempotencyKey);
    if key in s.idempotency then
      if s.idempotency[key] in s.tasks then (s, Ok(TaskExisting(s.tasks[s.idempotency[key]])))
      else (s, Err(Corrupt("idempotency references absent task")))
    else
      var snapshot := Fresh(task, now);
      (State(s.tasks[task.taskId := snapshot],
             s.events[task.taskId := []],
             s.idempotency[key := task.taskId],
             s.leases),
       Ok(TaskCreated(snapshot)))
  }

  function Bump(snapshot: TaskSnapshot, next: TaskState, now: Time): TaskSnapshot {
    snapshot.(state := next,
              revision := snapshot.revision + 1,
              lastSeq := snapshot.lastSeq + 1,
              updatedAt := now,
              terminalAt := if next.Terminal() then Some(now) else snapshot.terminalAt)
  }

  function EventsOf(s: State, id: TaskId): seq<CoreEvent> {
    if id in s.events then s.events[id] else []
  }

  function Append(s: State, t: TaskTransition, now: Time): (State, Result<AppliedTransition, StoreError>) {
    if t.taskId !in s.tasks then (s, Err(NotFound(t.taskId)))
    else
      var current := s.tasks[t.taskId];
      if current.revision != t.expectedRevision then (s, Err(Conflict))
      else if current.state !in t.allowedStates then
        (s, Err(InvalidTransition("current=" + current.state.Name())))
      else
        var snapshot := Bump(current, t.nextState, now);
        var event := CoreEvent(t.taskId, snapshot.lastSeq, now, t.eventKind);
        (s.(tasks := s.tasks[t.taskId := snapshot],
            events := s.events[t.taskId := EventsOf(s, t.taskId) + [event]]),
         Ok(AppliedTransition(snapshot, event)))
  }

  function SeqAfter(log: seq<CoreEvent>, after: EventSeq): seq<CoreEvent> {
    if log == [] then []
    else (if log[0].seqNo > after then [log[0]] else []) + SeqAfter(log[1..], after)
  }

  function Take<T>(s: seq<T>, limit: nat): seq<T> {
    if limit < |s| then s[..limit] else s
  }

  function EventsAfter(s: State, id: TaskId, after: EventSeq, limit: nat): Result<seq<CoreEvent>, StoreError> {
    if id !in s.tasks then Err(NotFound(id)) else Ok(Take(SeqAfter(EventsOf(s, id), after), limit))
  }

  function Acquire(s: State, lease: Lease, now: Time): (State, Result<bool, StoreError>) {
    match FromStd(lease.expiresIn)
    case Err(e) => (s, Err(e))
    case Ok(span) =>
      if lease.taskId in s.leases && s.leases[lease.taskId].expiresAt > now &&
         s.leases[lease.taskId].ownerId != lease.ownerId
      then (s, Ok(false))
      else (s.(leases := s.leases[lease.taskId := LeaseRecord(lease.ownerId, now + span)]), Ok(true))
  }

  function Renew(s: State, lease: Lease, now: Time): (State, Result<bool, StoreError>) {
    match FromStd(lease.expiresIn)
    case Err(e) => (s, Err(e))
    case Ok(span) =>
      if lease.taskId in s.leases && s.leases[lease.taskId].ownerId == lease.ownerId &&
         s.leases[lease.taskId].expiresAt >= now
      then (s.(leases := s.leases[lease.taskId := LeaseRecord(lease.ownerId, now + span)]), Ok(true))
      else (s, Ok(false))
  }

  // ---------------------------------------------------------------- retention on values

  /** The terminal tasks that ended before the cutoff. */
  function Expired(s: State, cutoff: Time): set<TaskId> {
    set id | id in s.tasks && s.tasks[id].terminalAt.Some? && s.tasks[id].terminalAt.value < cutoff
  }

  function Retained(log: seq<CoreEvent>, cutoff: Time): seq<CoreEvent> {
    if log == [] then []
    else (if log[0].at >= cutoff then [log[0]] else []) + Retained(log[1..], cutoff)
  }

  /** The key cleanup removes; `create` inserts the caller's own key instead. */
  function MemoryKey(snapshot: TaskSnapshot, id: TaskId): (CallerId, string) {
    (snapshot.callerId, "memory:" + id)
  }

  ghost function MemoryKeys(tasks: map<TaskId, TaskSnapshot>, ids: set<TaskId>): set<(CallerId, string)>
    requires ids <= tasks.Keys
  {
    set id | id in ids :: MemoryKey(tasks[id], id)
  }

  lemma MemoryKeysAdd(tasks: map<TaskId, TaskSnapshot>, ids: set<TaskId>, id: TaskId)
    requires ids <= tasks.Keys && id in tasks
    ensures MemoryKeys(tasks, ids + {id}) == MemoryKeys(tasks, ids) + {MemoryKey(tasks[id], id)}
  {
    forall key | key in MemoryKeys(tasks, ids) + {MemoryKey(tasks[id], id)}
      ensures key in MemoryKeys(tasks, ids + {id})
    {
      if key in MemoryKeys(tasks, ids) {
        var t :| t in ids && MemoryKey(tasks[t], t) == key;
        assert t in ids + {id};
      } else {
        assert id in ids + {id};
      }
    }
  }

  lemma RemoveOneMore<K, V>(m: map<K, V>, keys: set<K>, key: K)
    ensures m - keys - {key} == m - (keys + {key})
  {
  }

  /** The store once the tasks `ids` are removed. */
  ghost function Without(s: State, ids: set<TaskId>): State
    requires ids <= s.tasks.Keys
  {
    State(s.tasks - ids, s.events - ids, s.idempotency - MemoryKeys(s.tasks, ids), s.leases - ids)
  }

  lemma WithoutNone(s: State)
    ensures Without(s, {}) == s
  {
    assert MemoryKeys(s.tasks, {}) == {};
  }

  lemma WithoutOneMore(s: State, ids: set<TaskId>, id: TaskId)
    requires ids <= s.tasks.Keys && id in s.tasks && id !in ids
    ensures id in Without(s, ids).tasks && Without(s, ids).tasks[id] == s.tasks[id]
    ensures Without(s, ids + {id}) ==
            var w := Without(s, ids);
            State(w.tasks - {id}, w.events - {id}, w.idempotency - {MemoryKey(s.tasks[id], id)}, w.leases - {id})
  {
    MemoryKeysAdd(s.tasks, ids, id);
    RemoveOneMore(s.tasks, ids, id);
    RemoveOneMore(s.events, ids, id);
    RemoveOneMore(s.leases, ids, id);
    RemoveOneMore(s.idempotency, MemoryKeys(s.tasks, ids), MemoryKey(s.tasks[id], id));
  }

  /** How many events the logs of `ids` hold together. */
  ghost function Total(events: map<TaskId, seq<CoreEvent>>, ids: set<TaskId>): nat
    requires ids <= events.Keys
  {
    if ids == {} then 0
    else
      var id :| id in ids;
      |events[id]| + Total(events, ids - {id})
  }

  lemma {:induction false} TotalSplit(events: map<TaskId, seq<CoreEvent>>, ids: set<TaskId>, id: TaskId)
    requires ids <= events.Keys && id in ids
    ensures Total(events, ids) == |events[id]| + Total(events, ids - {id})
    decreases |ids|
  {
    var first :| first in ids && Total(events, ids) == |events[first]| + Total(events, ids - {first});
    if first != id {
      TotalSplit(events, ids - {first}, id);
      TotalSplit(events, ids - {id}, first);
      assert ids - {first} - {id} == ids - {id} - {first};
    }
  }

  lemma {:induction false} TotalAgrees(one: map<TaskId, seq<CoreEvent>>, two: map<TaskId, seq<CoreEvent>>,
                                       ids: set<TaskId>)
    requires ids <= one.Keys && ids <= two.Keys
    requires forall id | id in ids :: one[id] == two[id]
    ensures Total(one, ids) == Total(two, ids)
    decreases |ids|
  {
    if ids != {} {
      var id :| id in ids;
      TotalSplit(one, ids, id);
      TotalSplit(two, ids, id);
      TotalAgrees(one, two, ids - {id});
    }
  }

  lemma TotalUpdate(events: map<TaskId, seq<CoreEvent>>, id: TaskId, log: seq<CoreEvent>)
    requires id in events
    ensures Total(events[id := log], events.Keys) == Total(events, events.Keys) - |events[id]| + |log|
  {
    TotalSplit(events, events.Keys, id);
    TotalSplit(events[id := log], events.Keys, id);
    TotalAgrees(events, events[id := log], events.Keys - {id});
  }

  /** How many events of a log are older than the cutoff. */
  function Older(log: seq<CoreEvent>, cutoff: Time): nat {
    if log == [] then 0
    else Older(log[..|log| - 1], cutoff) + if log[|log| - 1].at < cutoff then 1 else 0
  }

  /** How many events in the logs of `ids` are older than the cutoff. */
  ghost function TotalOlder(events: map<TaskId, seq<CoreEvent>>, ids: set<TaskId>, cutoff: Time): nat
    requires ids <= events.Keys
  {
    if ids == {} then 0
    else
      var id :| id in ids;
      Older(events[id], cutoff) + TotalOlder(events, ids - {id}, cutoff)
  }

  lemma {:induction false} RetainedSnoc(log: seq<CoreEvent>, event: CoreEvent, cutoff: Time)
    ensures Retained(log + [event], cutoff) == Retained(log, cutoff) + if event.at >= cutoff then [event] else []
  {
    if log == [] {
      assert log + [event] == [event];
    } else {
      RetainedSnoc(log[1..], event, cutoff);
      assert (log + [event])[1..] == log[1..] + [event];
    }
  }

  lemma {:induction false} RetainedLeavesOutTheOlder(log: seq<CoreEvent>, cutoff: Time)
    ensures |Retained(log, cutoff)| + Older(log, cutoff) == |log|
  {
    if log != [] {
      var n := |log| - 1;
      RetainedLeavesOutTheOlder(log[..n], cutoff);
      RetainedSnoc(log[..n], log[n], cutoff);
      assert log[..n] + [log[n]] == log;
    }
  }

  /** The places of the events at or after the cutoff. */
  function RecentPlaces(log: seq<CoreEvent>, cutoff: Time): (places: seq<nat>)
    ensures forall i | 0 <= i < |places| :: places[i] < |log| && log[places[i]].at >= cutoff
    ensures forall i, j | 0 <= i < j < |places| :: places[i] < places[j]
    ensures forall k | 0 <= k < |log| && log[k].at >= cutoff :: k in places
  {
    if log == [] then []
    else
      var n := |log| - 1;
      RecentPlaces(log[..n], cutoff) + if log[n].at >= cutoff then [n] else []
  }

  /** `kept` is `log` at the given places. */
  ghost predicate Selected(log: seq<CoreEvent>, places: seq<nat>, kept: seq<CoreEvent>) {
    |kept| == |places| && forall i | 0 <= i < |kept| :: places[i] < |log| && kept[i] == log[places[i]]
  }

  lemma SelectedGrows(log: seq<CoreEvent>, event: CoreEvent, places: seq<nat>, kept: seq<CoreEvent>)
    requires Selected(log, places, kept)
    ensures Selected(log + [event], places, kept)
    ensures Selected(log + [event], places + [|log|], kept + [event])
  {
  }

  /** Trimming keeps the events at or after the cutoff, each once and in their order, and no others. */
  lemma {:induction false} RetainedIsTheRecent(log: seq<CoreEvent>, cutoff: Time)
    ensures Selected(log, RecentPlaces(log, cutoff), Retained(log, cutoff))
  {
    if log != [] {
      var n := |log| - 1;
      RetainedIsTheRecent(log[..n], cutoff);
      RetainedSnoc(log[..n], log[n], cutoff);
      assert log[..n] + [log[n]] == log;
      SelectedGrows(log[..n], log[n], RecentPlaces(log[..n], cutoff), Retained(log[..n], cutoff));
    }
  }

  /** Every log is left with exactly its events at or after the cutoff. */
  ghost predicate KeepsTheRecent(events: map<TaskId, seq<CoreEvent>>, kept: map<TaskId, seq<CoreEvent>>, cutoff: Time) {
    && kept.Keys <= events.Keys
    && forall id | id in kept :: Selected(events[id], RecentPlaces(events[id], cutoff), kept[id])
  }

  lemma TrimmingKeepsTheRecent(events: map<TaskId, seq<CoreEvent>>, kept: map<TaskId, seq<CoreEvent>>, cutoff: Time)
    requires kept.Keys <= events.Keys && forall id | id in kept :: kept[id] == Retained(events[id], cutoff)
    ensures KeepsTheRecent(events, kept, cutoff)
  {
    forall id | id in kept ensures Selected(events[id], RecentPlaces(events[id], cutoff), kept[id]) {
      RetainedIsTheRecent(events[id], cutoff);
    }
  }

  lemma {:induction false} TotalOlderSplit(events: map<TaskId, seq<CoreEvent>>, ids: set<TaskId>, id: TaskId, cutoff: Time)
    requires ids <= events.Keys && id in ids
    ensures TotalOlder(events, ids, cutoff) == Older(events[id], cutoff) + TotalOlder(events, ids - {id}, cutoff)
    decreases |ids|
  {
    var first :| first in ids &&
      TotalOlder(events, ids, cutoff) == Older(events[first], cutoff) + TotalOlder(events, ids - {first}, cutoff);
    if first != id {
      TotalOlderSplit(events, ids - {first}, id, cutoff);
      TotalOlderSplit(events, ids - {id}, first, cutoff);
      assert ids - {first} - {id} == ids - {id} - {first};
    }
  }

  /** What trimming the logs of `ids` takes away is what they hold from before the cutoff. */
  lemma {:induction false} TrimmingTakesTheOlder(events: map<TaskId, seq<CoreEvent>>, kept: map<TaskId, seq<CoreEvent>>,
                                                 ids: set<TaskId>, cutoff: Time)
    requires ids <= events.Keys && ids <= kept.Keys
    requires forall id | id in ids :: kept[id] == Retained(events[id], cutoff)
    ensures Total(kept, ids) + TotalOlder(events, ids, cutoff) == Total(events, ids)
    decreases |ids|
  {
    if ids != {} {
      var id :| id in ids;
      TotalSplit(events, ids, id);
      TotalSplit(kept, ids, id);
      TotalOlderSplit(events, ids, id, cutoff);
      TrimmingTakesTheOlder(events, kept, ids - {id}, cutoff);
      RetainedLeavesOutTheOlder(events[id], cutoff);
    }
  }

  /** Which tasks one cleanup may have removed, and what it leaves of the rest. */
  ghost predicate Swept(s: State, s': State, gone: set<TaskId>, policy: RetentionPolicy, now: Time) {
    && gone <= Expired(s, now - policy.taskTtl)
    && |gone| == Min(policy.cleanupBatchSize, |Expired(s, now - policy.taskTtl)|)
    && s'.tasks == s.tasks - gone
    && s'.leases == s.leases - gone
    && s'.idempotency == s.idempotency - MemoryKeys(s.tasks, gone)
    && s'.events.Keys == s.events.Keys - gone
    && forall id | id in s'.events :: s'.events[id] == Retained(s.events[id], now - policy.eventTtl)
  }

  function Min(a: nat, b: nat): nat {
    if a < b then a else b
  }

  lemma SubsetOfEqualSize<T>(a: set<T>, b: set<T>)
    requires a <= b && |a| == |b|
    ensures a == b
  {
    assert |b - a| == |b| - |a|;
  }

  /** `take(limit)` over the expired tasks, in an order the map does not specify. */
  method TakeBatch(expired: set<TaskId>, limit: nat) returns (batch: set<TaskId>)
    ensures batch <= expired
    ensures |batch| == Min(limit, |expired|)
  {
    batch := {};
    var rest := expired;
    while |batch| < limit && rest != {}
      invariant batch !! rest && batch + rest == expired
      invariant |batch| <= limit && |batch| + |rest| == |expired|
      decreases |rest|
    {
      var id :| id in rest;
      batch, rest := batch + {id}, rest - {id};
    }
  }

  // ---------------------------------------------------------------- the store object

  class MemoryTaskStore {
    var tasks: map<TaskId, TaskSnapshot>
    var events: map<TaskId, seq<CoreEvent>>
    var idempotency: map<(CallerId, string), TaskId>
    var leases: map<TaskId, LeaseRecord>

    ghost function View(): State
      reads this
    {
      State(tasks, events, idempotency, leases)
    }

    constructor ()
      ensures View() == EMPTY
    {
      tasks, events, idempotency, leases := map[], map[], map[], map[];
    }

    method CreateOrGetIdempotent(task: NewTask, now: Time)
      returns (r: Result<CreateTaskResult, StoreError>)
      modifies this
      ensures (View(), r) == Create(old(View()), task, now)
    {
      var key := (task.callerId, task.idempotencyKey);
      if key in idempotency {
        var id := idempotency[key];
        if id !in tasks {
          return Err(Corrupt("idempotency references absent task"));
        }
        return Ok(TaskExisting(tasks[id]));
      }
      var snapshot := TaskSnapshot(task.taskId, task.sessionId, task.agentId, task.callerId,
                                   Created, 0, 0, now, now, None);
      idempotency := idempotency[key := task.taskId];
      tasks := tasks[task.taskId := snapshot];
      events := events[task.taskId := []];
      r := Ok(TaskCreated(snapshot));
    }

    method GetSnapshot(id: TaskId) returns (r: Option<TaskSnapshot>)
      ensures r == if id in tasks then Some(tasks[id]) else None
    {
      r := if id in tasks then Some(tasks[id]) else None;
    }

    method AppendEventAndTransition(t: TaskTransition, now: Time)
      returns (r: Result<AppliedTransition, StoreError>)
      modifies this`tasks, this`events
      ensures (View(), r) == Append(old(View()), t, now)
    {
      if t.taskId !in tasks {
        return Err(NotFound(t.taskId));
      }
      var snapshot := tasks[t.taskId];
      if snapshot.revision != t.expectedRevision {
        return Err(Conflict);
      }
      if snapshot.state !in t.allowedStates {
        return Err(InvalidTransition("current=" + snapshot.state.Name()));
      }
      snapshot := snapshot.(state := t.nextState);
      snapshot := snapshot.(revision := snapshot.revision + 1);
      snapshot := snapshot.(lastSeq := snapshot.lastSeq + 1);
      snapshot := snapshot.(updatedAt := now);
      if snapshot.state.Terminal() {
        snapshot := snapshot.(terminalAt := Some(now));
      }
      tasks := tasks[t.taskId := snapshot];
      var event := CoreEvent(t.taskId, snapshot.lastSeq, now, t.eventKind);
      var log := if t.taskId in events then events[t.taskId] else [];
      events := events[t.taskId := log + [event]];
      r := Ok(AppliedTransition(snapshot, event));
    }

    method AcquireLease(lease: Lease, now: Time) returns (r: Result<bool, StoreError>)
      modifies this`leases
      ensures (View(), r) == Acquire(old(View()), lease, now)
    {
      var span := FromStd(lease.expiresIn);
      if span.Err? {
        return Err(span.error);
      }
      if lease.taskId in leases {
        var existing := leases[lease.taskId];
        if existing.expiresAt > now && existing.ownerId != lease.ownerId {
          return Ok(false);
        }
      }
      leases := leases[lease.taskId := LeaseRecord(lease.ownerId, now + span.value)];
      r := Ok(true);
    }

    method RenewLease(lease: Lease, now: Time) returns (r: Result<bool, StoreError>)
      modifies this`leases
      ensures (View(), r) == Renew(old(View()), lease, now)
    {
      var span := FromStd(lease.expiresIn);
      if span.Err? {
        return Err(span.error);
      }
      if lease.taskId in leases {
        var existing := leases[lease.taskId];
        if existing.ownerId == lease.ownerId && existing.expiresAt >= now {
          leases := leases[lease.taskId := existing.(expiresAt := now + span.value)];
          return Ok(true);
        }
      }
      r := Ok(false);
    }

    /**
     Removes one batch of expired tasks, then trims every remaining log; a duration
     out of range leaves the store alone.
     */
    method Cleanup(policy: RetentionPolicy, now: Time)
      returns (r: Result<CleanupReport, StoreError>, ghost gone: set<TaskId>)
      modifies this
      ensures r.Ok? <==> policy.taskTtl <= MAX_DURATION && policy.eventTtl <= MAX_DURATION
      ensures r.Err? ==> View() == old(View())
      ensures r.Ok? ==>
        && Swept(old(View()), View(), gone, policy, now)
        && r.value.tasksDeleted == |gone|
        && r.value.eventsDeleted == Total(old(events), old(events.Keys) - gone) - Total(events, events.Keys)
        && r.value.eventsDeleted == TotalOlder(old(events), old(events.Keys) - gone, now - policy.eventTtl)
        && r.value.idempotencyDeleted == 0
    {
      gone := {};
      var taskSpan, eventSpan := FromStd(policy.taskTtl), FromStd(policy.eventTtl);
      if taskSpan.Err? {
        return Err(taskSpan.error), gone;
      }
      if eventSpan.Err? {
        return Err(eventSpan.error), gone;
      }
      var taskCutoff, eventCutoff := now - taskSpan.value, now - eventSpan.value;
      var expired := set id | id in tasks && tasks[id].terminalAt.Some? &&
                              tasks[id].terminalAt.value < taskCutoff;
      assert expired == Expired(View(), taskCutoff);
      var batch := TakeBatch(expired, policy.cleanupBatchSize);
      var tasksDeleted, eventsDeleted := Sweep(batch, eventCutoff);
      gone := batch;
      TrimmingTakesTheOlder(old(events), events, events.Keys, eventCutoff);
      r := Ok(CleanupReport(tasksDeleted, eventsDeleted, 0));
    }

    method Sweep(batch: set<TaskId>, cutoff: Time) returns (removed: nat, deleted: nat)
      requires batch <= tasks.Keys
      modifies this
      ensures tasks == old(tasks) - batch
      ensures leases == old(leases) - batch
      ensures idempotency == old(idempotency) - MemoryKeys(old(tasks), batch)
      ensures events.Keys == old(events.Keys) - batch
      ensures forall id | id in events :: events[id] == Retained(old(events)[id], cutoff)
      ensures removed == |batch|
      ensures deleted == Total(old(events), old(events.Keys) - batch) - Total(events, events.Keys)
    {
      removed := RemoveTasks(batch);
      ghost var between := events;
      assert between.Keys == old(events.Keys) - batch;
      deleted := TrimLogs(cutoff);
      TotalAgrees(old(events), between, between.Keys);
    }

    method RemoveTasks(batch: set<TaskId>) returns (removed: nat)
      requires batch <= tasks.Keys
      modifies this
      ensures View() == Without(old(View()), batch)
      ensures removed == |batch|
    {
      removed := 0;
      var todo := batch;
      ghost var done: set<TaskId> := {};
      WithoutNone(View());
      while todo != {}
        invariant todo !! done && todo + done == batch
        invariant View() == Without(old(View()), done)
        invariant removed == |done|
        decreases |todo|
      {
        var id :| id in todo;
        WithoutOneMore(old(View()), done, id);
        RemoveTask(id);
        removed := removed + 1;
        todo, done := todo - {id}, done + {id};
      }
      assert done == batch;
    }

    method RemoveTask(id: TaskId)
      requires id in tasks
      modifies this
      ensures View() == State(old(tasks) - {id}, old(events) - {id},
                              old(idempotency) - {MemoryKey(old(tasks)[id], id)}, old(leases) - {id})
    {
      var snapshot := tasks[id];
      tasks := tasks - {id};
      idempotency := idempotency - {MemoryKey(snapshot, id)};
      events := events - {id};
      leases := leases - {id};
    }

    method TrimLogs(cutoff: Time) returns (deleted: nat)
      modifies this`events
      ensures events.Keys == old(events.Keys)
      ensures forall id | id in events :: events[id] == Retained(old(events)[id], cutoff)
      ensures KeepsTheRecent(old(events), events, cutoff)
      ensures deleted == Total(old(events), old(events.Keys)) - Total(events, events.Keys)
      ensures deleted == TotalOlder(old(events), old(events.Keys), cutoff)
    {
      deleted := 0;
      var todo := events.Keys;
      while todo != {}
        invariant todo <= events.Keys == old(events.Keys)
        invariant forall id | id in events ::
            events[id] == if id in todo then old(events)[id] else Retained(old(events)[id], cutoff)
        invariant deleted == Total(old(events), old(events.Keys)) - Total(events, events.Keys)
        decreases |todo|
      {
        var id :| id in todo;
        var before := events[id];
        var kept := Retained(before, cutoff);
        RetainedIsNoLonger(before, cutoff);
        TotalUpdate(events, id, kept);
        events := events[id := kept];
        deleted := deleted + (|before| - |kept|);
        todo := todo - {id};
      }
      TrimmingTakesTheOlder(old(events), events, events.Keys, cutoff);
      TrimmingKeepsTheRecent(old(events), events, cutoff);
    }
  }

  lemma {:induction false} RetainedIsNoLonger(log: seq<CoreEvent>, cutoff: Time)
    ensures |Retained(log, cutoff)| <= |log|
  {
    if log != [] {
      RetainedIsNoLonger(log[1..], cutoff);
    }
  }

  // ---------------------------------------------------------------- what the calls promise

  /**
   Creating under a new caller and key stores the task as it was given, in its first
   state, and leaves everything else alone; from then on every creation under that caller
   and key, whatever it asks for, is answered with this task and changes nothing.
   */
  lemma CreateIsIdempotent(s: State, task: NewTask, now: Time, again: NewTask, later: Time)
    requires (task.callerId, task.idempotencyKey) !in s.idempotency
    requires again.callerId == task.callerId && again.idempotencyKey == task.idempotencyKey
    ensures var s', r := Create(s, task, now).0, Create(s, task, now).1;
            && task.taskId in s'.tasks && r == Ok(TaskCreated(s'.tasks[task.taskId]))
            && s'.tasks[task.taskId] ==
               TaskSnapshot(task.taskId, task.sessionId, task.agentId, task.callerId, Created, 0, 0, now, now, None)
            && task.taskId in s'.events && s'.events[task.taskId] == [] && s'.leases == s.leases
            && (forall id | id != task.taskId :: id in s'.tasks <==> id in s.tasks)
            && (forall id | id != task.taskId && id in s.tasks :: s'.tasks[id] == s.tasks[id])
            && (forall id | id != task.taskId && id in s.events :: id in s'.events && s'.events[id] == s.events[id])
            && (forall key | key in s.idempotency :: key in s'.idempotency && s'.idempotency[key] == s.idempotency[key])
            && Create(s', again, later) == (s', Ok(TaskExisting(s'.tasks[task.taskId])))
  {
  }

  predicate MayApply(s: State, t: TaskTransition) {
    t.taskId in s.tasks && s.tasks[t.taskId].revision == t.expectedRevision && s.tasks[t.taskId].state in t.allowedStates
  }

  /**
   The compare-and-set: it goes through exactly when the task exists, has the expected
   revision and is in one of the allowed states. Otherwise the first of these that fails is
   reported and nothing changes; if it goes through, the task moves on by one revision and
   one event, and nothing else changes.
   */
  lemma AppendIsCompareAndSet(s: State, t: TaskTransition, now: Time)
    ensures var s', r := Append(s, t, now).0, Append(s, t, now).1;
            && (r.Ok? <==> MayApply(s, t))
            && (r.Err? ==>
                  && s' == s
                  && (t.taskId !in s.tasks ==> r.error == NotFound(t.taskId))
                  && (t.taskId in s.tasks && s.tasks[t.taskId].revision != t.expectedRevision ==> r.error == Conflict)
                  && (t.taskId in s.tasks && s.tasks[t.taskId].revision == t.expectedRevision ==>
                        r.error == InvalidTransition("current=" + s.tasks[t.taskId].state.Name())))
            && (r.Ok? ==>
                  var before, after := s.tasks[t.taskId], r.value.snapshot;
                  var event := CoreEvent(t.taskId, before.lastSeq + 1, now, t.eventKind);
                  && after == TaskSnapshot(before.taskId, before.sessionId, before.agentId, before.callerId, t.nextState,
                                           before.revision + 1, before.lastSeq + 1, before.createdAt, now,
                                           if t.nextState in [Completed, Failed, Cancelled] then Some(now)
                                           else before.terminalAt)
                  && r.value.event == event
                  && s'.tasks == s.tasks[t.taskId := after]
                  && s'.events == s.events[t.taskId := EventsOf(s, t.taskId) + [event]]
                  && s'.idempotency == s.idempotency && s'.leases == s.leases)
  {
  }

  /** A lease is refused exactly while another owner's has not run out, and is otherwise the caller's from now on. */
  lemma AcquireIsExclusive(s: State, lease: Lease, now: Time)
    requires lease.expiresIn <= MAX_DURATION
    ensures var s', r := Acquire(s, lease, now).0, Acquire(s, lease, now).1;
            && (r == Ok(false) <==>
                  lease.taskId in s.leases && s.leases[lease.taskId].ownerId != lease.ownerId &&
                  now < s.leases[lease.taskId].expiresAt)
            && (r == Ok(false) ==> s' == s)
            && (r != Ok(false) ==>
                  r == Ok(true) &&
                  s' == s.(leases := s.leases[lease.taskId := LeaseRecord(lease.ownerId, now + lease.expiresIn)]))
  {
  }

  // ---------------------------------------------------------------- event sourcing

  /** The snapshot is what its log says: numbering, state and end time. */
  ghost predicate Sourced(snapshot: TaskSnapshot, log: seq<CoreEvent>) {
    && snapshot.revision == snapshot.lastSeq == |log|
    && (forall i | 0 <= i < |log| :: log[i].seqNo == i + 1 && log[i].taskId == snapshot.taskId)
    && snapshot.state == StateOf(Kinds(log))
    && snapshot.terminalAt == (if snapshot.state.Terminal() && log != [] then Some(log[|log| - 1].at) else None)
  }

  /** A request that is never applied to a task that has ended. */
  predicate SparesEnded(t: TaskTransition) {
    forall allowed | allowed in t.allowedStates :: !allowed.Terminal()
  }

  /** A request the core may issue, seen from the state it is applied in. */
  ghost predicate CoreIssued(t: TaskTransition, state: TaskState) {
    && SparesEnded(t)
    && (state in t.allowedStates ==> t.nextState == After(t.eventKind) && Enabled(state, t.eventKind))
  }

  lemma AppendKeepsSourced(s: State, t: TaskTransition, now: Time)
    requires t.taskId in s.tasks && s.tasks[t.taskId].taskId == t.taskId
    requires Sourced(s.tasks[t.taskId], EventsOf(s, t.taskId))
    requires CoreIssued(t, s.tasks[t.taskId].state)
    requires Append(s, t, now).1.Ok?
    ensures Sourced(Append(s, t, now).0.tasks[t.taskId], EventsOf(Append(s, t, now).0, t.taskId))
  {
    var s' := Append(s, t, now).0;
    var log, log' := EventsOf(s, t.taskId), EventsOf(s', t.taskId);
    assert log' == log + [Append(s, t, now).1.value.event];
    assert Kinds(log')[|log|] == t.eventKind;
  }

  ghost predicate Numbered(log: seq<CoreEvent>, base: nat) {
    forall i | 0 <= i < |log| :: log[i].seqNo == base + i + 1
  }

  /** The events numbered `after + 1` to `after + limit`, as far as the log goes. */
  function Page(log: seq<CoreEvent>, after: EventSeq, limit: nat): seq<CoreEvent> {
    log[Min(after, |log|)..Min(after + limit, |log|)]
  }

  lemma {:induction false} SeqAfterIsSlice(log: seq<CoreEvent>, base: nat, after: EventSeq)
    requires Numbered(log, base)
    ensures SeqAfter(log, after) ==
            if after <= base then log else if after - base <= |log| then log[after - base..] else []
  {
    if log != [] {
      SeqAfterIsSlice(log[1..], base + 1, after);
      assert log == [log[0]] + log[1..];
      if base < after <= base + |log| {
        assert log[1..][after - base - 1..] == log[after - base..];
      }
    }
  }

  /** On a gapless log, filtering by number and taking the first few is a slice. */
  lemma EventsAfterIsPage(log: seq<CoreEvent>, after: EventSeq, limit: nat)
    requires Numbered(log, 0)
    ensures Take(SeqAfter(log, after), limit) == Page(log, after, limit)
  {
    SeqAfterIsSlice(log, 0, after);
    if after <= |log| {
      if after + limit < |log| {
        assert log[after..][..limit] == log[after..after + limit];
      } else {
        assert log[after..] == log[after..|log|];
      }
    }
  }

  // ---------------------------------------------------------------- retention

  /** Timestamps never go back along the log. */
  ghost predicate Chronological(log: seq<CoreEvent>) {
    forall i, j | 0 <= i <= j < |log| :: log[i].at <= log[j].at
  }

  lemma {:induction false} AllRetained(log: seq<CoreEvent>, cutoff: Time)
    requires forall i | 0 <= i < |log| :: log[i].at >= cutoff
    ensures Retained(log, cutoff) == log
  {
    if log != [] {
      AllRetained(log[1..], cutoff);
    }
  }

  /** With a clock that never goes back, trimming cuts a prefix. */
  lemma {:induction false} RetainedIsSuffix(log: seq<CoreEvent>, cutoff: Time) returns (k: nat)
    requires Chronological(log)
    ensures k <= |log| && Retained(log, cutoff) == log[k..]
    ensures forall i | 0 <= i < k :: log[i].at < cutoff
    ensures forall i | k <= i < |log| :: log[i].at >= cutoff
  {
    if log == [] {
      k := 0;
    } else if log[0].at >= cutoff {
      AllRetained(log, cutoff);
      k := 0;
    } else {
      var tail := log[1..];
      assert Chronological(tail) by {
        TailIsChronological(log);
      }
      var rest := RetainedIsSuffix(tail, cutoff);
      k := rest + 1;
      assert tail[rest..] == log[k..];
      forall i | k <= i < |log| ensures log[i].at >= cutoff {
        assert log[i] == tail[i - 1];
      }
      forall i | 0 <= i < k ensures log[i].at < cutoff {
        assert i > 0 ==> log[i] == tail[i - 1];
      }
    }
  }

  lemma TailIsChronological(log: seq<CoreEvent>)
    requires Chronological(log) && log != []
    ensures Chronological(log[1..])
  {
  }

  lemma {:induction false} TotalOfParts(events: map<TaskId, seq<CoreEvent>>, ids: set<TaskId>,
                                        gone: set<TaskId>)
    requires gone <= ids <= events.Keys
    ensures Total(events, ids) == Total(events, ids - gone) + Total(events, gone)
    decreases |gone|
  {
    if gone == {} {
      assert ids - gone == ids;
    } else {
      var id :| id in gone;
      TotalSplit(events, ids, id);
      TotalSplit(events, gone, id);
      TotalOfParts(events, ids - {id}, gone - {id});
      assert ids - {id} - (gone - {id}) == ids - gone;
    }
  }

  /**
   What holds of a task whose log may have been trimmed before: the log is numbered up to
   the last number, in time order, and an end time is only set on an ended task.
   */
  ghost predicate Trimmed(snapshot: TaskSnapshot, log: seq<CoreEvent>) {
    && |log| <= snapshot.lastSeq
    && (forall i | 0 <= i < |log| ::
          log[i].seqNo == snapshot.lastSeq - |log| + i + 1 && log[i].taskId == snapshot.taskId)
    && Chronological(log)
    && (snapshot.terminalAt.Some? ==> snapshot.state.Terminal())
  }

  ghost predicate EndOf(log: seq<CoreEvent>, kept: seq<CoreEvent>) {
    |kept| <= |log| && kept == log[|log| - |kept|..]
  }

  lemma TrimmingKeepsTrimmed(snapshot: TaskSnapshot, log: seq<CoreEvent>, cutoff: Time)
    requires Trimmed(snapshot, log)
    ensures Trimmed(snapshot, Retained(log, cutoff)) && EndOf(log, Retained(log, cutoff))
  {
    var k := RetainedIsSuffix(log, cutoff);
  }

  /**
   What one cleanup takes and what it leaves, in terms of the times alone: a removed task
   had ended before the cutoff, a batch not used up means no such task is left, and every
   remaining log holds exactly its events at or after the cutoff.
   */
  lemma CleanupGoesByTheTimes(s: State, s': State, gone: set<TaskId>, policy: RetentionPolicy, now: Time)
    requires Swept(s, s', gone, policy, now)
    ensures forall id | id in s.tasks && id !in s'.tasks ::
              s.tasks[id].terminalAt.Some? && s.tasks[id].terminalAt.value < now - policy.taskTtl
    ensures |gone| < policy.cleanupBatchSize ==>
              forall id | id in s'.tasks && s'.tasks[id].terminalAt.Some? ::
                s'.tasks[id].terminalAt.value >= now - policy.taskTtl
    ensures |gone| <= policy.cleanupBatchSize && s'.events.Keys == s.events.Keys - gone
    ensures KeepsTheRecent(s.events, s'.events, now - policy.eventTtl)
  {
    TrimmingKeepsTheRecent(s.events, s'.events, now - policy.eventTtl);
    if |gone| < policy.cleanupBatchSize {
      SubsetOfEqualSize(gone, Expired(s, now - policy.taskTtl));
    }
  }

  /** One cleanup accounts for every event: kept, reported as deleted, or part of a removed task. */
  lemma CleanupConserves(s: State, s': State, gone: set<TaskId>, policy: RetentionPolicy, now: Time,
                         deleted: nat)
    requires Swept(s, s', gone, policy, now)
    requires s.tasks.Keys == s.events.Keys
    requires deleted == Total(s.events, s.events.Keys - gone) - Total(s'.events, s'.events.Keys)
    ensures Total(s.events, s.events.Keys) ==
            Total(s'.events, s'.events.Keys) + deleted + Total(s.events, gone)
  {
    TotalOfParts(s.events, s.events.Keys, gone);
  }

  /**
   Only ended tasks are removed; a survivor keeps its snapshot and loses a prefix of its
   log, so the numbering goes on where it stopped, also when the log was trimmed before.
   */
  lemma CleanupRemovesOnlyEnded(s: State, s': State, gone: set<TaskId>, policy: RetentionPolicy, now: Time,
                                id: TaskId)
    requires Swept(s, s', gone, policy, now)
    requires s.tasks.Keys == s.events.Keys
    requires id in s.tasks && Trimmed(s.tasks[id], s.events[id])
    ensures id !in s'.tasks ==> s.tasks[id].state.Terminal()
    ensures id in s'.tasks ==>
              && s'.tasks[id] == s.tasks[id]
              && Trimmed(s'.tasks[id], s'.events[id]) && EndOf(s.events[id], s'.events[id])
  {
    if id in s'.tasks {
      TrimmingKeepsTrimmed(s.tasks[id], s.events[id], now - policy.eventTtl);
      assert id in s'.events;
    }
  }

  /**
   Cleanup deletes the key "memory:<id>", not the key the task was created under, so
   a later create under that caller and key finds a dangling entry. It reports
   corruption unless the caller's own key happens to be "memory:<id>" for a task of
   the same caller in the removed batch.
   */
  lemma CleanupOrphansTheKey(s: State, s': State, gone: set<TaskId>, policy: RetentionPolicy, now: Time,
                             task: NewTask, later: Time)
    requires Swept(s, s', gone, policy, now)
    requires (task.callerId, task.idempotencyKey) in s.idempotency
    requires s.idempotency[(task.callerId, task.idempotencyKey)] in gone
    ensures Create(s', task, later).1 == Err(Corrupt("idempotency references absent task")) <==>
            forall t | t in gone ::
              s.tasks[t].callerId == task.callerId ==> task.idempotencyKey != "memory:" + t
  {
    var key := (task.callerId, task.idempotencyKey);
    var removed := MemoryKeys(s.tasks, gone);
    assert key in removed <==> exists t :: t in gone && MemoryKey(s.tasks[t], t) == key;
    assert key in s'.idempotency <==> key !in removed;
    forall t | t in gone
      ensures MemoryKey(s.tasks[t], t) == key <==>
              s.tasks[t].callerId == task.callerId && task.idempotencyKey == "memory:" + t
    {
    }
  }
}
