/**
 Permits are conserved across all interleaved invocations: in every pool, what is
 available plus what processes hold is the pool's capacity. A process holds exactly
 the permits its program counter says, so every rejection path gives all of them back
 and running workers never exceed the limits.
 */
module CorePermits {
  import opened TaskModel
  import opened Core
  import opened CoreMoves
  import opened CoreHistory
  import opened CoreOwners

  ghost predicate HeldOk(pr: Proc) {
    && pr.held == (if pr.role.Invocation? then Expected(pr.pc) else {})
    && OrderOk(pr.pc)
  }

  lemma DropFirst(order: seq<Sem>)
    requires order != [] && Distinct(order)
    ensures Distinct(order[1..])
    ensures SetOf(order[1..]) == SetOf(order) - {order[0]}
  {
    assert order == [order[0]] + order[1..];
  }

  lemma MoverHolds(c: Config, s: Sys, pr: Proc, m: Move)
    requires Sound(c, s, pr, m) && HeldOk(pr)
    ensures HeldOk(ProcAfter(s.now, pr, m))
  {
    match m
    case Stay =>
    case Goto(pc) =>
    case Open =>
    case Write(op, seen, pc) =>
    case Grab(sem, pc) =>
    case Release(sem, pc) => DropFirst(pr.pc.order);
    case Retire(pc) =>
  }

  // ---------------------------------------------------------------- conservation

  predicate HoldsFrom(pr: Proc, pool: Pool) {
    pr.role.Invocation? && exists sem :: sem in pr.held && PoolOf(pr, sem) == pool
  }

  ghost function Holders(procs: map<ProcId, Proc>, pool: Pool): set<ProcId> {
    set p | p in procs && HoldsFrom(procs[p], pool)
  }

  ghost predicate ConservedIn(c: Config, s: Sys, pool: Pool) {
    Available(c, s, pool) + |Holders(s.procs, pool)| == Capacity(c, pool)
  }

  ghost predicate Conserved(c: Config, s: Sys) {
    forall pool :: ConservedIn(c, s, pool)
  }

  /** Different permits of one invocation come from different pools. */
  lemma PoolsDiffer(pr: Proc, one: Sem, two: Sem)
    requires pr.role.Invocation? && PoolOf(pr, one) == PoolOf(pr, two)
    ensures one == two
  {
  }

  lemma HoldersUpdate(procs: map<ProcId, Proc>, id: ProcId, pr': Proc, pool: Pool)
    requires id in procs
    ensures Holders(procs[id := pr'], pool) ==
            if HoldsFrom(pr', pool) then Holders(procs, pool) + {id} else Holders(procs, pool) - {id}
  {
  }

  /** One process changes what it holds; the pool changes by the same amount. */
  lemma ConservedUpdate(c: Config, s: Sys, s': Sys, id: ProcId, pr': Proc, pool: Pool)
    requires ConservedIn(c, s, pool) && id in s.procs && s'.procs == s.procs[id := pr']
    requires Available(c, s', pool) ==
             Available(c, s, pool)
             + (if HoldsFrom(s.procs[id], pool) then 1 else 0)
             - (if HoldsFrom(pr', pool) then 1 else 0)
    ensures ConservedIn(c, s', pool)
  {
    HoldersUpdate(s.procs, id, pr', pool);
    assert HoldsFrom(s.procs[id], pool) <==> id in Holders(s.procs, pool);
  }

  lemma GrabMovesOne(pr: Proc, pr': Proc, sem: Sem, pool: Pool)
    requires pr.role.Invocation? && pr'.role == pr.role && sem !in pr.held && pr'.held == pr.held + {sem}
    ensures HoldsFrom(pr', pool) <==> HoldsFrom(pr, pool) || pool == PoolOf(pr, sem)
    ensures !HoldsFrom(pr, PoolOf(pr, sem))
  {
    forall other | other in pr.held ensures PoolOf(pr, other) != PoolOf(pr, sem) {
      if PoolOf(pr, other) == PoolOf(pr, sem) {
        PoolsDiffer(pr, other, sem);
      }
    }
    assert sem in pr'.held;
    if HoldsFrom(pr, pool) {
      var other :| other in pr.held && PoolOf(pr, other) == pool;
      assert other in pr'.held && PoolOf(pr', other) == pool;
    }
    if pool == PoolOf(pr, sem) {
      assert PoolOf(pr', sem) == pool;
    }
  }

  lemma GrabConserves(c: Config, s: Sys, id: ProcId, m: Move, pool: Pool)
    requires id in s.procs && m.Grab? && Sound(c, s, s.procs[id], m) && HeldOk(s.procs[id])
    requires ConservedIn(c, s, pool)
    ensures ConservedIn(c, Perform(c, s, id, m), pool)
  {
    var pr, s' := s.procs[id], Perform(c, s, id, m);
    GrabMovesOne(pr, s'.procs[id], m.sem, pool);
    ConservedUpdate(c, s, s', id, s'.procs[id], pool);
  }

  lemma ReleaseGivesBack(c: Config, s: Sys, pr: Proc, m: Move)
    requires m.Release? && Sound(c, s, pr, m) && HeldOk(pr)
    ensures pr.role.Invocation? && m.sem in pr.held
    ensures ProcAfter(s.now, pr, m).role == pr.role
    ensures ProcAfter(s.now, pr, m).held == pr.held - {m.sem}
    ensures pr.held == ProcAfter(s.now, pr, m).held + {m.sem}
  {
    DropFirst(pr.pc.order);
  }

  lemma ReleaseRefills(c: Config, s: Sys, id: ProcId, m: Move, pool: Pool)
    requires id in s.procs && m.Release? && s.procs[id].role.Invocation?
    ensures Available(c, Perform(c, s, id, m), pool) ==
            Available(c, s, pool) + if pool == PoolOf(s.procs[id], m.sem) then 1 else 0
  {
  }

  lemma ReleaseConserves(c: Config, s: Sys, id: ProcId, m: Move, pool: Pool)
    requires id in s.procs && m.Release? && Sound(c, s, s.procs[id], m) && HeldOk(s.procs[id])
    requires ConservedIn(c, s, pool)
    ensures ConservedIn(c, Perform(c, s, id, m), pool)
  {
    var pr, pr' := s.procs[id], ProcAfter(s.now, s.procs[id], m);
    ReleaseGivesBack(c, s, pr, m);
    ReleaseRefills(c, s, id, m, pool);
    GrabMovesOne(pr', pr, m.sem, pool);
    ConservedUpdate(c, s, Perform(c, s, id, m), id, pr', pool);
  }

  lemma OtherMovesConserve(c: Config, s: Sys, id: ProcId, m: Move, pool: Pool)
    requires id in s.procs && !m.Grab? && !m.Release?
    requires ConservedIn(c, s, pool)
    ensures ConservedIn(c, Perform(c, s, id, m), pool)
  {
    var s' := Perform(c, s, id, m);
    ConservedUpdate(c, s, s', id, s'.procs[id], pool);
  }

  lemma SpawnConserves(c: Config, s: Sys, s': Sys, id: ProcId, pr: Proc, pool: Pool)
    requires ConservedIn(c, s, pool) && id !in s.procs && pr.held == {}
    requires s'.procs == s.procs[id := pr] && s'.available == s.available
    ensures ConservedIn(c, s', pool)
  {
    assert Holders(s'.procs, pool) == Holders(s.procs, pool);
  }

  ghost predicate AllHeldOk(s: Sys) {
    forall p | p in s.procs :: HeldOk(s.procs[p])
  }

  lemma EffectConserves(c: Config, s: Sys, e: Effect)
    requires AllHeldOk(s) && Conserved(c, s) && SoundEffect(c, s, e)
    ensures AllHeldOk(Apply(c, s, e)) && Conserved(c, Apply(c, s, e))
  {
    var s' := Apply(c, s, e);
    if e.Do? {
      MoverHolds(c, s, s.procs[e.id], e.move);
    }
    forall pool ensures ConservedIn(c, s', pool) {
      assert ConservedIn(c, s, pool);
      match e
      case Nothing =>
      case Wait(_) =>
      case Spawn(id, role, task) => SpawnConserves(c, s, s', id, s'.procs[id], pool);
      case Do(id, m) =>
        if m.Grab? {
          GrabConserves(c, s, id, m, pool);
        } else if m.Release? {
          ReleaseConserves(c, s, id, m, pool);
        } else {
          OtherMovesConserve(c, s, id, m, pool);
        }
    }
  }

  // ---------------------------------------------------------------- the `active` map

  /** A task has its live channel from creation until its worker removes it. */
  ghost predicate ActiveFor(s: Sys, t: TaskId) {
    t in s.active <==>
      t in s.ledger.creator && s.ledger.creator[t] in s.procs && !Retired(s.procs[s.ledger.creator[t]].pc)
  }

  ghost predicate ActiveOk(s: Sys) {
    forall t :: ActiveFor(s, t)
  }

  lemma MoverRetires(c: Config, s: Sys, pr: Proc, m: Move)
    requires Sound(c, s, pr, m) && !m.Retire?
    ensures Retired(ProcAfter(s.now, pr, m).pc) <==> Retired(pr.pc)
  {
    match m
    case Stay =>
    case Goto(pc) =>
    case Open =>
    case Write(op, seen, pc) =>
    case Grab(sem, pc) =>
    case Release(sem, pc) =>
  }

  lemma OpenActivates(c: Config, s: Sys, id: ProcId, m: Move)
    requires Keyed(s.ledger) && Owned(s.ledger, s.procs) && ActiveOk(s)
    requires id in s.procs && m.Open? && Sound(c, s, s.procs[id], m)
    ensures ActiveOk(Perform(c, s, id, m))
  {
    var s' := Perform(c, s, id, m);
    OwnedMeansFreshIds(s);
    forall t ensures ActiveFor(s', t) {
      assert ActiveFor(s, t);
      assert t in s.ledger.creator ==> IsCreator(s.ledger, s.procs, t, s.ledger.creator[t]);
    }
  }

  lemma RetireDeactivates(c: Config, s: Sys, id: ProcId, m: Move)
    requires Owned(s.ledger, s.procs) && ActiveOk(s)
    requires id in s.procs && m.Retire? && Sound(c, s, s.procs[id], m)
    ensures ActiveOk(Perform(c, s, id, m))
  {
    var s' := Perform(c, s, id, m);
    assert s.ledger.creator[s.procs[id].task] == id;
    forall t ensures ActiveFor(s', t) {
      assert ActiveFor(s, t);
      assert t in s.ledger.creator ==> IsCreator(s.ledger, s.procs, t, s.ledger.creator[t]);
    }
  }

  lemma OthersKeepActive(s: Sys, s': Sys)
    requires ActiveOk(s) && s'.active == s.active && s'.ledger.creator == s.ledger.creator
    requires forall p | p in s.procs :: p in s'.procs && (Retired(s'.procs[p].pc) <==> Retired(s.procs[p].pc))
    requires TasksHaveCreators(s.ledger, s.procs)
    ensures ActiveOk(s')
  {
    forall t ensures ActiveFor(s', t) {
      assert ActiveFor(s, t);
      assert t in s.ledger.creator ==> IsCreator(s.ledger, s.procs, t, s.ledger.creator[t]);
    }
  }

  lemma EffectKeepsActive(c: Config, s: Sys, e: Effect)
    requires Keyed(s.ledger) && Owned(s.ledger, s.procs) && ActiveOk(s) && SoundEffect(c, s, e)
    ensures ActiveOk(Apply(c, s, e))
  {
    if e.Do? && e.move.Open? {
      OpenActivates(c, s, e.id, e.move);
    } else if e.Do? && e.move.Retire? {
      RetireDeactivates(c, s, e.id, e.move);
    } else {
      if e.Do? {
        KeysAreKept(c, s, e.id, e.move);
        MoverRetires(c, s, s.procs[e.id], e.move);
      }
      OthersKeepActive(s, Apply(c, s, e));
    }
  }
}
