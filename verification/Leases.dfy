/**
 Leases over whole runs, for both stores: any sequence of acquire and renew calls by
 any owners, with a clock that never goes back. A call that answers `true` is a grant;
 an owner may act on a grant until it expires or the same owner replaces it.
 (crates/memory-task-store/src/lib.rs and crates/sqlite-task-store-adapter/src/lib.rs,
 `acquire_lease` and `renew_lease`.)
 */
module Leases {
  import opened TaskModel
  import Memory = MemoryStore
  import Sqlite = SqliteStore

  datatype Store = InMemory(state: Memory.State) | InSqlite(db: Sqlite.Tables)
  datatype Call = Acquire(lease: Memory.Lease) | Renew(lease: Memory.Lease)
  datatype Turn = Turn(call: Call, now: Time)

  /** The owner's view of one call that answered `true`. */
  datatype Grant = Grant(taskId: TaskId, owner: string, start: Time, expiry: Time)

  function Answer(store: Store, call: Call, now: Time): (Store, Result<bool, StoreError>) {
    match store
    case InMemory(s) =>
      var r := if call.Acquire? then Memory.Acquire(s, call.lease, now) else Memory.Renew(s, call.lease, now);
      (InMemory(r.0), r.1)
    case InSqlite(db) =>
      var r := if call.Acquire? then Sqlite.Acquire(db, call.lease, now) else Sqlite.Renew(db, call.lease, now);
      (InSqlite(r.0), r.1)
  }

  /** The lease a store has on record for a task. */
  function Held(store: Store, id: TaskId): Option<Memory.LeaseRecord> {
    match store
    case InMemory(s) => if id in s.leases then Some(s.leases[id]) else None
    case InSqlite(db) =>
      if id in db.leases then Some(Memory.LeaseRecord(db.leases[id].ownerId, db.leases[id].expiresAt)) else None
  }

  function GrantOf(turn: Turn): Grant {
    var lease := turn.call.lease;
    Grant(lease.taskId, lease.ownerId, turn.now, turn.now + lease.expiresIn)
  }

  function Final(store: Store, turns: seq<Turn>): Store {
    if turns == [] then store
    else
      var n := |turns| - 1;
      Answer(Final(store, turns[..n]), turns[n].call, turns[n].now).0
  }

  function Grants(store: Store, turns: seq<Turn>): seq<Grant> {
    if turns == [] then []
    else
      var n := |turns| - 1;
      var before := Grants(store, turns[..n]);
      if Answer(Final(store, turns[..n]), turns[n].call, turns[n].now).1 == Ok(true)
      then before + [GrantOf(turns[n])] else before
  }

  ghost predicate Clocked(turns: seq<Turn>) {
    forall i, j | 0 <= i <= j < |turns| :: turns[i].now <= turns[j].now
  }

  ghost predicate Unleased(store: Store) {
    forall id :: Held(store, id) == None
  }

  // ---------------------------------------------------------------- one call

  /** A grant displaces another owner only by acquiring a lease that has run out. */
  lemma AnswerEffect(store: Store, call: Call, now: Time)
    ensures var id, owner := call.lease.taskId, call.lease.ownerId;
            var held, r := Held(store, id), Answer(store, call, now);
            if r.1 == Ok(true) then
              && (held == None ==> call.Acquire?)
              && (held.Some? && held.value.ownerId != owner ==> call.Acquire? && held.value.expiresAt <= now)
              && Held(r.0, id) == Some(Memory.LeaseRecord(owner, now + call.lease.expiresIn))
              && forall other | other != id :: Held(r.0, other) == Held(store, other)
            else r.0 == store
  {
  }

  /** Either store grants a lease on an existing task unless another owner's runs; SQLite counts the instant of expiry. */
  lemma AcquireAnswer(store: Store, lease: Memory.Lease, now: Time)
    requires lease.expiresIn <= Memory.MAX_DURATION
    requires store.InSqlite? && Held(store, lease.taskId).None? ==> lease.taskId in store.db.tasks
    ensures Answer(store, Acquire(lease), now).1 ==
            Ok(var held := Held(store, lease.taskId);
               held.None? || held.value.ownerId == lease.ownerId ||
               (if store.InMemory? then held.value.expiresAt <= now else held.value.expiresAt < now))
  {
  }

  lemma RenewAnswer(store: Store, lease: Memory.Lease, now: Time)
    ensures Answer(store, Renew(lease), now).1 == Ok(true) <==>
            && lease.expiresIn <= Memory.MAX_DURATION
            && Held(store, lease.taskId).Some?
            && Held(store, lease.taskId).value.ownerId == lease.ownerId
            && Held(store, lease.taskId).value.expiresAt >= now
  {
  }

  // ---------------------------------------------------------------- the history of grants

  /** `q` is the last grant on its task before position `j`. */
  ghost predicate LastBefore(grants: seq<Grant>, q: int, j: int, id: TaskId) {
    && 0 <= q < j <= |grants| && grants[q].taskId == id
    && forall k | q < k < j :: grants[k].taskId != id
  }

  ghost predicate NoneBefore(grants: seq<Grant>, j: nat, id: TaskId) {
    j <= |grants| && forall k | 0 <= k < j :: grants[k].taskId != id
  }

  ghost predicate OnRecord(store: Store, grants: seq<Grant>, id: TaskId) {
    if Held(store, id).None? then NoneBefore(grants, |grants|, id)
    else exists q :: LastBefore(grants, q, |grants|, id) &&
           Held(store, id) == Some(Memory.LeaseRecord(grants[q].owner, grants[q].expiry))
  }

  ghost predicate Handed(grants: seq<Grant>) {
    && (forall i, j | 0 <= i <= j < |grants| :: grants[i].start <= grants[j].start)
    && forall p, j | 0 <= j < |grants| && LastBefore(grants, p, j, grants[j].taskId) ::
         grants[p].owner != grants[j].owner ==> grants[p].expiry <= grants[j].start
  }

  ghost predicate UpTo(grants: seq<Grant>, now: Time) {
    forall i | 0 <= i < |grants| :: grants[i].start <= now
  }

  lemma RecordKept(store: Store, store': Store, grants: seq<Grant>, grant: Grant, id: TaskId)
    requires id != grant.taskId && Held(store', id) == Held(store, id)
    requires OnRecord(store, grants, id)
    ensures OnRecord(store', grants + [grant], id)
  {
    if Held(store, id).Some? {
      var q :| LastBefore(grants, q, |grants|, id) &&
               Held(store, id) == Some(Memory.LeaseRecord(grants[q].owner, grants[q].expiry));
      assert LastBefore(grants + [grant], q, |grants| + 1, id);
    }
  }

  lemma HandedOn(store: Store, grants: seq<Grant>, grant: Grant)
    requires Handed(grants) && UpTo(grants, grant.start)
    requires OnRecord(store, grants, grant.taskId)
    requires var held := Held(store, grant.taskId);
             held.Some? && held.value.ownerId != grant.owner ==> held.value.expiresAt <= grant.start
    ensures Handed(grants + [grant])
  {
    var grants' := grants + [grant];
    forall p, j | 0 <= j < |grants'| && LastBefore(grants', p, j, grants'[j].taskId)
      ensures grants'[p].owner != grants'[j].owner ==> grants'[p].expiry <= grants'[j].start
    {
      assert forall k | 0 <= k < |grants| :: grants'[k] == grants[k];
      assert LastBefore(grants, p, j, grants'[j].taskId);
      if j == |grants| {
        assert Held(store, grant.taskId).Some?;
        var q :| LastBefore(grants, q, |grants|, grant.taskId) &&
                 Held(store, grant.taskId) == Some(Memory.LeaseRecord(grants[q].owner, grants[q].expiry));
        OneLast(grants, q, j, grant.taskId);
      }
    }
  }

  /** The store's records are the owners' latest grants, and every change of owner waited for the expiry. */
  lemma {:induction false} RunsHandOver(store: Store, turns: seq<Turn>)
    requires Unleased(store) && Clocked(turns)
    ensures Handed(Grants(store, turns))
    ensures forall id :: OnRecord(Final(store, turns), Grants(store, turns), id)
    ensures turns != [] ==> UpTo(Grants(store, turns), turns[|turns| - 1].now)
  {
    if turns != [] {
      var n := |turns| - 1;
      var before, turn := turns[..n], turns[n];
      RunsHandOver(store, before);
      var mid, grants := Final(store, before), Grants(store, before);
      assert UpTo(grants, turn.now);
      TurnHandsOver(mid, grants, turn);
    }
  }

  lemma TurnHandsOver(mid: Store, grants: seq<Grant>, turn: Turn)
    requires Handed(grants) && UpTo(grants, turn.now)
    requires forall id :: OnRecord(mid, grants, id)
    ensures var r := Answer(mid, turn.call, turn.now);
            var grants' := if r.1 == Ok(true) then grants + [GrantOf(turn)] else grants;
            Handed(grants') && UpTo(grants', turn.now) && forall id :: OnRecord(r.0, grants', id)
  {
    var r := Answer(mid, turn.call, turn.now);
    AnswerEffect(mid, turn.call, turn.now);
    if r.1 == Ok(true) {
      var grant := GrantOf(turn);
      assert OnRecord(mid, grants, grant.taskId);
      HandedOn(mid, grants, grant);
      forall id ensures OnRecord(r.0, grants + [grant], id) {
        if id == grant.taskId {
          assert LastBefore(grants + [grant], |grants|, |grants| + 1, id);
        } else {
          RecordKept(mid, r.0, grants, grant, id);
        }
      }
    }
  }

  // ---------------------------------------------------------------- mutual exclusion

  predicate Own(grants: seq<Grant>, i: nat, k: nat)
    requires i < |grants| && k < |grants|
  {
    grants[k].taskId == grants[i].taskId && grants[k].owner == grants[i].owner
  }

  /** The first grant from `k` on by the owner of grant `i` on the same task. */
  function NextOwn(grants: seq<Grant>, i: nat, k: nat): (next: nat)
    requires i < |grants| && k <= |grants|
    ensures k <= next <= |grants| && (next < |grants| ==> Own(grants, i, next))
    ensures forall j | k <= j < next :: !Own(grants, i, j)
    decreases |grants| - k
  {
    if k == |grants| || Own(grants, i, k) then k else NextOwn(grants, i, k + 1)
  }

  /** When grant `i` stops counting: at its expiry, or when its owner replaces it. */
  function End(grants: seq<Grant>, i: nat): Time
    requires i < |grants|
  {
    var next := NextOwn(grants, i, i + 1);
    if next < |grants| && grants[next].start < grants[i].expiry then grants[next].start else grants[i].expiry
  }

  predicate InForce(grants: seq<Grant>, i: nat, t: Time)
    requires i < |grants|
  {
    grants[i].start <= t < End(grants, i)
  }

  lemma {:induction false} FindLast(grants: seq<Grant>, i: nat, j: nat, id: TaskId) returns (p: nat)
    requires i < j <= |grants| && grants[i].taskId == id
    ensures i <= p && LastBefore(grants, p, j, id)
    decreases j
  {
    if grants[j - 1].taskId == id {
      p := j - 1;
    } else {
      p := FindLast(grants, i, j - 1, id);
    }
  }

  lemma {:induction false} EndsBeforeOthersStart(grants: seq<Grant>, i: nat, j: nat)
    requires Handed(grants) && i < j < |grants|
    requires grants[i].taskId == grants[j].taskId && grants[i].owner != grants[j].owner
    ensures End(grants, i) <= grants[j].start
    decreases j
  {
    var p := FindLast(grants, i, j, grants[j].taskId);
    if grants[p].owner != grants[i].owner {
      EndsBeforeOthersStart(grants, i, p);
    } else if p > i {
      assert Own(grants, i, p);
    }
  }

  /** At no time do two owners hold grants in force on one task, in any run of either store. */
  lemma LeasesExclude(store: Store, turns: seq<Turn>, i: nat, j: nat, t: Time)
    requires Unleased(store) && Clocked(turns)
    requires i < |Grants(store, turns)| && j < |Grants(store, turns)|
    requires Grants(store, turns)[i].taskId == Grants(store, turns)[j].taskId
    requires InForce(Grants(store, turns), i, t) && InForce(Grants(store, turns), j, t)
    ensures Grants(store, turns)[i].owner == Grants(store, turns)[j].owner
  {
    var grants := Grants(store, turns);
    RunsHandOver(store, turns);
    if grants[i].owner != grants[j].owner {
      if i < j {
        EndsBeforeOthersStart(grants, i, j);
      } else {
        EndsBeforeOthersStart(grants, j, i);
      }
    }
  }

  /** `owner` has the last grant on the task and it has not run out. */
  ghost predicate Current(grants: seq<Grant>, id: TaskId, owner: string, now: Time) {
    exists q :: LastBefore(grants, q, |grants|, id) && grants[q].owner == owner && now <= grants[q].expiry
  }

  lemma RecordIsCurrent(store: Store, grants: seq<Grant>, id: TaskId, owner: string, now: Time)
    requires OnRecord(store, grants, id)
    ensures Current(grants, id, owner, now) <==>
            var held := Held(store, id);
            held.Some? && held.value.ownerId == owner && held.value.expiresAt >= now
  {
    if Held(store, id).Some? {
      var p :| LastBefore(grants, p, |grants|, id) &&
               Held(store, id) == Some(Memory.LeaseRecord(grants[p].owner, grants[p].expiry));
      OneLast(grants, p, |grants|, id);
    } else {
      NoLast(grants, id);
    }
  }

  /** A renewal succeeds exactly for the owner of the task's last grant, up to and including its expiry. */
  lemma RenewNeedsTheLastGrant(store: Store, turns: seq<Turn>, lease: Memory.Lease, now: Time)
    requires Unleased(store) && Clocked(turns)
    ensures Answer(Final(store, turns), Renew(lease), now).1 == Ok(true) <==>
            && lease.expiresIn <= Memory.MAX_DURATION
            && Current(Grants(store, turns), lease.taskId, lease.ownerId, now)
  {
    RunsHandOver(store, turns);
    RenewAnswer(Final(store, turns), lease, now);
    RecordIsCurrent(Final(store, turns), Grants(store, turns), lease.taskId, lease.ownerId, now);
  }

  lemma OneLast(grants: seq<Grant>, p: int, j: int, id: TaskId)
    requires LastBefore(grants, p, j, id)
    ensures forall q | LastBefore(grants, q, j, id) :: q == p
  {
    forall q | LastBefore(grants, q, j, id) ensures q == p {
    }
  }

  lemma NoLast(grants: seq<Grant>, id: TaskId)
    requires NoneBefore(grants, |grants|, id)
    ensures forall q :: !LastBefore(grants, q, |grants|, id)
  {
  }

  /** Once another owner has been granted the task, renewing fails until a new acquire succeeds. */
  lemma DisplacedOwnersCannotRenew(store: Store, turns: seq<Turn>, j: nat, lease: Memory.Lease, now: Time)
    requires Unleased(store) && Clocked(turns)
    requires j < |Grants(store, turns)|
    requires Grants(store, turns)[j].taskId == lease.taskId && Grants(store, turns)[j].owner != lease.ownerId
    requires forall k | j < k < |Grants(store, turns)| ::
               !(Grants(store, turns)[k].taskId == lease.taskId && Grants(store, turns)[k].owner == lease.ownerId)
    ensures Answer(Final(store, turns), Renew(lease), now).1 != Ok(true)
    ensures Answer(Final(store, turns), Renew(lease), now).0 == Final(store, turns)
  {
    var grants := Grants(store, turns);
    RenewNeedsTheLastGrant(store, turns, lease, now);
    AnswerEffect(Final(store, turns), Renew(lease), now);
    LastIsAnother(grants, j, lease.taskId, lease.ownerId);
  }

  lemma LastIsAnother(grants: seq<Grant>, j: nat, id: TaskId, owner: string)
    requires j < |grants| && grants[j].taskId == id && grants[j].owner != owner
    requires forall k | j < k < |grants| :: !(grants[k].taskId == id && grants[k].owner == owner)
    ensures forall q | LastBefore(grants, q, |grants|, id) :: grants[q].owner != owner
  {
    forall q | LastBefore(grants, q, |grants|, id) ensures q >= j {
    }
  }
}
