/**
 Event maps read in key order: what iterating an ordered map and an `ORDER BY seq`
 query both give.
 */
module OrderedMaps {
  import opened TaskModel

  ghost predicate IsLeast(k: EventSeq, keys: set<EventSeq>) {
    k in keys && forall j | j in keys :: k <= j
  }

  lemma {:induction false} HasLeast(keys: set<EventSeq>)
    requires keys != {}
    ensures exists k :: IsLeast(k, keys)
    decreases |keys|
  {
    var k :| k in keys;
    if keys - {k} == {} {
      assert keys == {k};
      assert IsLeast(k, keys);
    } else {
      HasLeast(keys - {k});
      var rest :| IsLeast(rest, keys - {k});
      var least := if rest < k then rest else k;
      forall j | j in keys ensures least <= j {
        assert j == k || j in keys - {k};
      }
      assert IsLeast(least, keys);
    }
  }

  ghost function Least(keys: set<EventSeq>): (k: EventSeq)
    requires keys != {}
    ensures IsLeast(k, keys)
  {
    HasLeast(keys);
    var k :| IsLeast(k, keys);
    k
  }

  /** The values of the map under `keys`, in ascending key order. */
  ghost function Ascending(m: map<EventSeq, CoreEvent>, keys: set<EventSeq>): seq<CoreEvent>
    requires keys <= m.Keys
    decreases |keys|
  {
    if keys == {} then [] else [m[Least(keys)]] + Ascending(m, keys - {Least(keys)})
  }

  /** `into_values` of an ordered map. */
  method IntoValues(m: map<EventSeq, CoreEvent>) returns (values: seq<CoreEvent>)
    ensures values == Ascending(m, m.Keys)
  {
    values := [];
    var rest := m.Keys;
    while rest != {}
      invariant rest <= m.Keys
      invariant Ascending(m, m.Keys) == values + Ascending(m, rest)
      decreases |rest|
    {
      HasLeast(rest);
      var k :| k in rest && forall j | j in rest :: k <= j;
      assert k == Least(rest);
      values := values + [m[k]];
      rest := rest - {k};
    }
  }

  /** The numbers lo + 1 to hi. */
  ghost function Range(lo: nat, hi: nat): (keys: set<EventSeq>)
    ensures forall k :: k in keys <==> lo < k <= hi
  {
    if hi <= lo then {} else Range(lo, hi - 1) + {hi}
  }

  /** A run of consecutive numbers comes out as a slice of the log, with whatever lies above it behind. */
  lemma {:induction false} AscendingSlice(m: map<EventSeq, CoreEvent>, log: seq<CoreEvent>, lo: nat, hi: nat,
                                          above: set<EventSeq>)
    requires lo <= hi <= |log|
    requires Range(lo, hi) + above <= m.Keys && forall k | k in above :: hi < k
    requires forall k | lo < k <= hi :: m[k] == log[k - 1]
    ensures Ascending(m, Range(lo, hi) + above) == log[lo..hi] + Ascending(m, above)
    decreases hi - lo
  {
    if lo == hi {
      assert Range(lo, hi) + above == above;
    } else {
      var keys := Range(lo, hi) + above;
      assert lo + 1 in keys;
      assert Least(keys) == lo + 1;
      assert keys - {lo + 1} == Range(lo + 1, hi) + above;
      AscendingSlice(m, log, lo + 1, hi, above);
      assert log[lo..hi] == [log[lo]] + log[lo + 1..hi];
    }
  }
}
