/**
 * Counting maps. Go's `m[k] += 1` reads a missing key as 0; `Inc` is that update and `Tally` is
 * what a run of them leaves behind, stated per key rather than step by step.
 */
module Tallies {

  /** A map read the way Go reads it: a missing key yields the zero value. */
  function Get<K(==)>(m: map<K, int>, k: K): int
  {
    if k in m then m[k] else 0
  }

  /** `m[k] += 1` */
  function Inc<K(==)>(m: map<K, int>, k: K): (r: map<K, int>)
    ensures r.Keys == m.Keys + {k}
  {
    m[k := Get(m, k) + 1]
  }

  /** How many times `k` occurs in `ks`. */
  function Occurrences<K(==)>(ks: seq<K>, k: K): nat
  {
    if ks == [] then 0
    else Occurrences(ks[..|ks| - 1], k) + (if ks[|ks| - 1] == k then 1 else 0)
  }

  /** `base` after one increment per element of `ks`: every key of either, at its base value plus its count. */
  function Tally<K(==)>(base: map<K, int>, ks: seq<K>): (r: map<K, int>)
  {
    map k | k in base.Keys + (set x | x in ks) :: Get(base, k) + Occurrences(ks, k)
  }

  lemma {:induction false} OccurrencesAbsent<K>(ks: seq<K>, k: K)
    requires k !in ks
    ensures Occurrences(ks, k) == 0
  {
    if ks != [] {
      OccurrencesAbsent(ks[..|ks| - 1], k);
    }
  }

  lemma {:induction false} OccurrencesAppend<K>(a: seq<K>, b: seq<K>, k: K)
    ensures Occurrences(a + b, k) == Occurrences(a, k) + Occurrences(b, k)
  {
    if b == [] {
      assert a + b == a;
    } else {
      assert (a + b)[..|a + b| - 1] == a + b[..|b| - 1];
      OccurrencesAppend(a, b[..|b| - 1], k);
    }
  }

  lemma OccurrencesSnoc<K>(ks: seq<K>, k: K, x: K)
    ensures Occurrences(ks + [k], x) == Occurrences(ks, x) + (if x == k then 1 else 0)
  {
    assert (ks + [k])[..|ks|] == ks;
  }

  lemma {:induction false} OccurrencesTotal<K>(ks: seq<K>, k: K)
    ensures Occurrences(ks, k) <= |ks|
    ensures Occurrences(ks, k) > 0 <==> k in ks
  {
    if ks != [] {
      OccurrencesTotal(ks[..|ks| - 1], k);
      assert ks == ks[..|ks| - 1] + [ks[|ks| - 1]];
    }
  }

  lemma TallyEmpty<K>(base: map<K, int>)
    ensures Tally(base, []) == base
  {
  }

  /** One more element is one more `+= 1`. */
  lemma TallyStep<K>(base: map<K, int>, ks: seq<K>, k: K)
    ensures Tally(base, ks + [k]) == Inc(Tally(base, ks), k)
  {
    var l, r := Tally(base, ks + [k]), Inc(Tally(base, ks), k);
    TallyAppendKeys(base, ks, [k]);
    forall x | x in l ensures l[x] == r[x] {
      OccurrencesSnoc(ks, k, x);
      if x !in ks {
        OccurrencesAbsent(ks, x);
      }
    }
  }

  /** Creating a missing key at 0 and then adding one is `m[k] += 1`. */
  /** One more element counted, with the longer sequence and both maps named by the caller. */
  lemma TallyThrough<K>(base: map<K, int>, ks: seq<K>, k: K, longer: seq<K>, before: map<K, int>, after: map<K, int>)
    requires longer == ks + [k] && Tally(base, ks) == before && after == Inc(before, k)
    ensures Tally(base, longer) == after
  {
    TallyStep(base, ks, k);
  }

  lemma SeededInc<K>(m: map<K, int>, k: K)
    requires k !in m
    ensures m[k := 0][k := m[k := 0][k] + 1] == Inc(m, k)
  {
    assert m[k := 0][k := 1] == m[k := 1];
  }

  /** The increments of a loop over `ks`, one after the other. */
  function IncAll<K(==)>(base: map<K, int>, ks: seq<K>): map<K, int>
  {
    if ks == [] then base else Inc(IncAll(base, ks[..|ks| - 1]), ks[|ks| - 1])
  }

  /** A loop of increments leaves the tally behind. */
  lemma {:induction false} IncAllIsTally<K>(base: map<K, int>, ks: seq<K>)
    ensures IncAll(base, ks) == Tally(base, ks)
  {
    if ks != [] {
      var init := ks[..|ks| - 1];
      IncAllIsTally(base, init);
      assert ks == init + [ks[|ks| - 1]];
      TallyStep(base, init, ks[|ks| - 1]);
    }
  }

  /** One more element of a run, as a loop over the run's prefixes sees it. */
  lemma IncAllPrefixStep<K>(base: map<K, int>, ks: seq<K>, i: nat)
    requires i < |ks|
    ensures IncAll(base, ks[..i + 1]) == Inc(IncAll(base, ks[..i]), ks[i])
  {
    assert ks[..i + 1][..i] == ks[..i];
  }

  /** The `+= 1` of step `i` of a loop over `ks`, on the counts `cur` of the steps before it. */
  /** The increments of the first `i` elements of `ks` have been made, leaving `cur`. */
  ghost predicate IncAllUpTo<K>(base: map<K, int>, ks: seq<K>, i: nat, cur: map<K, int>)
    requires i <= |ks|
  {
    cur == IncAll(base, ks[..i])
  }

  lemma IncAllUpToStart<K>(base: map<K, int>, ks: seq<K>)
    ensures IncAllUpTo(base, ks, 0, base)
  {
    assert ks[..0] == [];
  }

  lemma IncAllUpToNext<K>(base: map<K, int>, ks: seq<K>, i: nat, cur: map<K, int>, k: K)
    requires i < |ks| && k == ks[i] && IncAllUpTo(base, ks, i, cur)
    ensures IncAllUpTo(base, ks, i + 1, cur[k := Get(cur, k) + 1])
  {
    IncAllNext(base, ks, i, cur, k);
  }

  lemma IncAllUpToEnd<K>(base: map<K, int>, ks: seq<K>, cur: map<K, int>)
    requires IncAllUpTo(base, ks, |ks|, cur)
    ensures cur == Tally(base, ks)
  {
    IncAllWhole(base, ks);
  }

  lemma IncAllNext<K>(base: map<K, int>, ks: seq<K>, i: nat, cur: map<K, int>, k: K)
    requires i < |ks| && k == ks[i]
    requires cur == IncAll(base, ks[..i])
    ensures cur[k := Get(cur, k) + 1] == IncAll(base, ks[..i + 1])
  {
    assert ks[..i + 1][..i] == ks[..i];
  }

  /** The same step when a missing key is first created at 0, as `m[k] += 1` after a seeding check. */
  lemma IncAllNextSeeded<K>(base: map<K, int>, ks: seq<K>, i: nat, cur: map<K, int>, seeded: map<K, int>, k: K)
    requires i < |ks| && k == ks[i]
    requires cur == IncAll(base, ks[..i])
    requires seeded == if k in cur then cur else cur[k := 0]
    ensures k in seeded
    ensures seeded[k := seeded[k] + 1] == IncAll(base, ks[..i + 1])
  {
    IncAllNext(base, ks, i, cur, k);
    if k !in cur {
      assert seeded[k := seeded[k] + 1] == cur[k := Get(cur, k) + 1];
    }
  }

  lemma IncAllWhole<K>(base: map<K, int>, ks: seq<K>)
    ensures IncAll(base, ks[..|ks|]) == Tally(base, ks)
  {
    assert ks[..|ks|] == ks;
    IncAllIsTally(base, ks);
  }

  /** Tallying two runs one after the other is tallying their concatenation. */
  lemma TallyAppend<K>(base: map<K, int>, a: seq<K>, b: seq<K>)
    ensures Tally(base, a + b) == Tally(Tally(base, a), b)
  {
    var l, r := Tally(base, a + b), Tally(Tally(base, a), b);
    TallyAppendKeys(base, a, b);
    forall k | k in l ensures l[k] == r[k] {
      OccurrencesAppend(a, b, k);
      if k !in a {
        OccurrencesAbsent(a, k);
      }
    }
  }

  lemma TallyAppendKeys<K>(base: map<K, int>, a: seq<K>, b: seq<K>)
    ensures Tally(base, a + b).Keys == Tally(Tally(base, a), b).Keys
  {
    forall x ensures x in a + b <==> x in a || x in b {
      if x in a + b {
        var i :| 0 <= i < |a + b| && (a + b)[i] == x;
        if i < |a| { assert a[i] == x; } else { assert b[i - |a|] == x; }
      }
    }
  }

  /** Some key of a non-empty map, the one `MapSum` takes out first. */
  ghost function Pick<K>(m: map<K, int>): (k: K)
    requires |m| != 0
    ensures k in m
  {
    var k :| k in m; k
  }

  /** The sum of all the values of a map. */
  ghost function MapSum<K>(m: map<K, int>): int
    decreases |m|
  {
    if |m| == 0 then 0
    else
      MapRemoveSize(m, Pick(m));
      m[Pick(m)] + MapSum(m - {Pick(m)})
  }

  lemma MapRemoveSize<K>(m: map<K, int>, k: K)
    requires k in m
    ensures |m - {k}| == |m| - 1
  {
    assert (m - {k}).Keys == m.Keys - {k};
  }

  lemma RemoveCommutes<K>(m: map<K, int>, j: K, k: K)
    ensures m - {j} - {k} == m - {k} - {j}
  {
  }

  /** The sum does not depend on which key is taken out first. */
  lemma {:induction false} MapSumRemove<K>(m: map<K, int>, k: K)
    requires k in m
    ensures MapSum(m) == m[k] + MapSum(m - {k})
    decreases |m|
  {
    MapRemoveSize(m, k);
    var j := Pick(m);
    if j != k {
      MapRemoveSize(m, j);
      MapSumRemove(m - {j}, k);
      MapSumRemove(m - {k}, j);
      RemoveCommutes(m, j, k);
    }
  }

  lemma MapSumInc<K>(m: map<K, int>, k: K)
    ensures MapSum(Inc(m, k)) == MapSum(m) + 1
  {
    MapSumUpdate(m, k, Get(m, k) + 1);
  }

  /** Each tallied element adds exactly one to the sum of the map. */
  lemma {:induction false} TallySum<K>(base: map<K, int>, ks: seq<K>)
    ensures MapSum(Tally(base, ks)) == MapSum(base) + |ks|
    decreases |ks|
  {
    if ks == [] {
      TallyEmpty(base);
    } else {
      var init := ks[..|ks| - 1];
      assert ks == init + [ks[|ks| - 1]];
      TallyStep(base, init, ks[|ks| - 1]);
      TallySum(base, init);
      MapSumInc(Tally(base, init), ks[|ks| - 1]);
    }
  }

  lemma MapSumZeros<K>(m: map<K, int>)
    requires forall k :: k in m ==> m[k] == 0
    ensures MapSum(m) == 0
    decreases |m|
  {
    if |m| != 0 {
      MapRemoveSize(m, Pick(m));
      MapSumZeros(m - {Pick(m)});
    }
  }

  /** Overwriting one value changes the sum by the difference. */
  lemma MapSumUpdate<K>(m: map<K, int>, k: K, v: int)
    ensures MapSum(m[k := v]) == MapSum(m) - (if k in m then m[k] else 0) + v
  {
    MapSumRemove(m[k := v], k);
    RemoveUpdated(m, k, v);
    if k in m {
      MapSumRemove(m, k);
    } else {
      RemoveAbsent(m, k);
    }
  }

  lemma RemoveUpdated<K>(m: map<K, int>, k: K, v: int)
    ensures m[k := v] - {k} == m - {k}
  {
  }

  lemma RemoveAbsent<K>(m: map<K, int>, k: K)
    requires k !in m
    ensures m - {k} == m
  {
  }

  /** `for k, v := range b { a[k] += v }`: every key of either map, at the sum of its two values. */
  function AddMaps<K(==)>(a: map<K, int>, b: map<K, int>): map<K, int>
  {
    map k | k in a.Keys + b.Keys :: Get(a, k) + Get(b, k)
  }

  /** Adding one map into another adds their sums. */
  lemma {:induction false} MapSumAdd<K>(a: map<K, int>, b: map<K, int>)
    ensures MapSum(AddMaps(a, b)) == MapSum(a) + MapSum(b)
    decreases |b|
  {
    if |b| == 0 {
      assert b == map[];
      AddMapsEmpty(a, b);
    } else {
      var k := Pick(b);
      MapRemoveSize(b, k);
      MapSumAdd(a, b - {k});
      MapSumAddStep(a, b, k);
    }
  }

  /** A map that agrees with the sum map key by key is the sum map. */
  lemma AddMapsPointwise<K>(a: map<K, int>, b: map<K, int>, r: map<K, int>)
    requires forall k :: k in r <==> k in a || k in b
    requires forall k | k in r :: r[k] == Get(a, k) + Get(b, k)
    ensures r == AddMaps(a, b)
  {
    assert r.Keys == AddMaps(a, b).Keys;
  }

  lemma AddMapsEmpty<K>(a: map<K, int>, b: map<K, int>)
    requires b == map[]
    ensures AddMaps(a, b) == a
  {
  }

  lemma MapSumAddStep<K>(a: map<K, int>, b: map<K, int>, k: K)
    requires k in b
    requires MapSum(AddMaps(a, b - {k})) == MapSum(a) + MapSum(b - {k})
    ensures MapSum(AddMaps(a, b)) == MapSum(a) + MapSum(b)
  {
    MapSumRemove(b, k);
    AddOneKeySum(a, b, k);
  }

  lemma AddOneKeySum<K>(a: map<K, int>, b: map<K, int>, k: K)
    requires k in b
    ensures MapSum(AddMaps(a, b)) == MapSum(AddMaps(a, b - {k})) + b[k]
  {
    var partial := AddMaps(a, b - {k});
    var v := Get(a, k) + b[k];
    assert AddMaps(a, b) == partial[k := v] by {
      AddMapsStep(a, b, k);
    }
    assert MapSum(partial[k := v]) == MapSum(partial) + b[k] by {
      assert (if k in partial then partial[k] else 0) == Get(a, k);
      MapSumUpdate(partial, k, v);
    }
  }

  lemma AddMapsStep<K>(a: map<K, int>, b: map<K, int>, k: K)
    requires k in b
    ensures AddMaps(a, b) == AddMaps(a, b - {k})[k := Get(a, k) + b[k]]
  {
    var l := AddMaps(a, b);
    var r := AddMaps(a, b - {k})[k := Get(a, k) + b[k]];
    assert l.Keys == r.Keys;
    forall x | x in l ensures l[x] == r[x] {
      if x != k {
        assert Get(b, x) == Get(b - {k}, x);
      }
    }
  }

  /** The entries of `m` whose keys are in `keys`. */
  function Restrict<K(==)>(m: map<K, int>, keys: set<K>): (r: map<K, int>)
    ensures r.Keys == m.Keys * keys
  {
    map k | k in m && k in keys :: m[k]
  }

  /** Taking one more key of `m` into the restriction adds its value to the sum. */
  lemma RestrictStep<K>(m: map<K, int>, keys: set<K>, k: K)
    requires k in m && k !in keys
    ensures Restrict(m, keys + {k}) == Restrict(m, keys)[k := m[k]]
    ensures MapSum(Restrict(m, keys + {k})) == MapSum(Restrict(m, keys)) + m[k]
  {
    assert Restrict(m, keys + {k}) == Restrict(m, keys)[k := m[k]];
    MapSumUpdate(Restrict(m, keys), k, m[k]);
  }

  /** Restricted to all of its keys, a map is itself. */
  lemma RestrictAll<K>(m: map<K, int>)
    ensures Restrict(m, m.Keys) == m
  {
  }

  /** Adding one more entry of `m` into `a` is `a[k] += m[k]` on the partial sum `cur`. */
  lemma AddRestrictStep<K>(a: map<K, int>, m: map<K, int>, keys: set<K>, k: K, cur: map<K, int>)
    requires k in m && k !in keys
    requires cur == AddMaps(a, Restrict(m, keys))
    ensures AddMaps(a, Restrict(m, keys + {k})) == cur[k := Get(cur, k) + m[k]]
  {
    var l := AddMaps(a, Restrict(m, keys + {k}));
    var r := cur[k := Get(cur, k) + m[k]];
    assert l.Keys == r.Keys;
    forall x | x in l ensures l[x] == r[x] {
      if x != k {
        assert Get(Restrict(m, keys + {k}), x) == Get(Restrict(m, keys), x);
      }
    }
  }

  /** `a[k] += m[k]` for each key `k` of `ks` in turn (a missing key counts zero). */
  function AddKeys<K(==)>(a: map<K, int>, m: map<K, int>, ks: seq<K>): map<K, int>
  {
    if ks == [] then a
    else var p := AddKeys(a, m, ks[..|ks| - 1]); p[ks[|ks| - 1] := Get(p, ks[|ks| - 1]) + Get(m, ks[|ks| - 1])]
  }

  lemma AddKeysAppend<K>(a: map<K, int>, m: map<K, int>, ks: seq<K>, k: K, cur: map<K, int>)
    requires cur == AddKeys(a, m, ks)
    ensures AddKeys(a, m, ks + [k]) == cur[k := Get(cur, k) + Get(m, k)]
  {
    assert (ks + [k])[..|ks|] == ks;
  }

  /** Adding the keys of `ks`, each once and each a key of `m`, adds the restriction of `m` to them. */
  lemma {:induction false} AddKeysRestrict<K>(a: map<K, int>, m: map<K, int>, ks: seq<K>)
    requires Distinct(ks)
    requires forall k | k in ks :: k in m
    ensures AddKeys(a, m, ks) == AddMaps(a, Restrict(m, SetOf(ks)))
    decreases |ks|
  {
    if ks == [] {
      AddKeysNone(a, m);
    } else {
      var p, k := ks[..|ks| - 1], ks[|ks| - 1];
      DistinctSnoc(ks);
      AddKeysRestrict(a, m, p);
      AddRestrictStep(a, m, SetOf(p), k, AddKeys(a, m, p));
    }
  }

  lemma AddKeysNone<K>(a: map<K, int>, m: map<K, int>)
    ensures AddKeys(a, m, []) == AddMaps(a, Restrict(m, SetOf([])))
  {
    assert Restrict(m, SetOf([])) == map[];
    assert AddMaps(a, map[]) == a;
  }

  /** No element of `ks` occurs twice. */
  ghost predicate Distinct<K>(ks: seq<K>)
  {
    forall i, j | 0 <= i < j < |ks| :: ks[i] != ks[j]
  }

  /** The elements of `ks`. */
  ghost function SetOf<K>(ks: seq<K>): set<K>
  {
    set k | k in ks
  }

  /** Dropping the last element of a sequence without repetitions: the rest has none and lacks it. */
  lemma DistinctSnoc<K>(ks: seq<K>)
    requires |ks| > 0 && Distinct(ks)
    ensures Distinct(ks[..|ks| - 1]) && ks[|ks| - 1] !in SetOf(ks[..|ks| - 1])
    ensures forall x | x in ks[..|ks| - 1] :: x in ks
    ensures SetOf(ks) == SetOf(ks[..|ks| - 1]) + {ks[|ks| - 1]}
  {
    var p, k := ks[..|ks| - 1], ks[|ks| - 1];
    assert ks == p + [k];
    assert forall i | 0 <= i < |p| :: ks[i] == p[i];
    forall x | x in p ensures x != k {
      var i :| 0 <= i < |p| && p[i] == x;
      assert ks[i] == x && ks[|p|] == k;
    }
  }

  /** Adding every key of `m` exactly once, in any order, is adding the maps. */
  lemma AddKeysAddMaps<K>(a: map<K, int>, m: map<K, int>, ks: seq<K>)
    requires Distinct(ks)
    requires forall k | k in ks :: k in m
    requires forall k | k in m :: k in ks
    ensures AddKeys(a, m, ks) == AddMaps(a, m)
  {
    AddKeysRestrict(a, m, ks);
    assert SetOf(ks) == m.Keys;
    RestrictAll(m);
  }

  /** The values of `m` at the keys `ks`, in order (a missing key counts zero). */
  function SumKeys<K(==)>(m: map<K, int>, ks: seq<K>): int
  {
    if ks == [] then 0 else SumKeys(m, ks[..|ks| - 1]) + Get(m, ks[|ks| - 1])
  }

  lemma SumKeysAppend<K>(m: map<K, int>, ks: seq<K>, k: K)
    ensures SumKeys(m, ks + [k]) == SumKeys(m, ks) + Get(m, k)
  {
    assert (ks + [k])[..|ks|] == ks;
  }

  /** A key outside `ks` does not contribute to their sum. */
  lemma {:induction false} SumKeysIgnore<K>(m: map<K, int>, ks: seq<K>, k: K)
    requires k !in ks
    ensures SumKeys(m - {k}, ks) == SumKeys(m, ks)
    decreases |ks|
  {
    if ks != [] {
      assert ks[..|ks| - 1] + [ks[|ks| - 1]] == ks;
      SumKeysIgnore(m, ks[..|ks| - 1], k);
    }
  }

  /** Visiting every key of `m` exactly once, in any order, sums the whole map. */
  lemma {:induction false} SumKeysMapSum<K>(m: map<K, int>, ks: seq<K>)
    requires Distinct(ks)
    requires forall k | k in ks :: k in m
    requires forall k | k in m :: k in ks
    ensures SumKeys(m, ks) == MapSum(m)
    decreases |ks|
  {
    if ks == [] {
      assert m.Keys == {};
    } else {
      var p, k := ks[..|ks| - 1], ks[|ks| - 1];
      DistinctSnoc(ks);
      var m' := m - {k};
      forall x | x in m' ensures x in p {
        assert x in SetOf(ks);
      }
      SumKeysMapSum(m', p);
      SumKeysIgnore(m, p, k);
      MapSumRemove(m, k);
    }
  }

  /** Read the Go way, a tally is its base plus the count, present key or not. */
  lemma TallyGet<K>(base: map<K, int>, ks: seq<K>, k: K)
    ensures Get(Tally(base, ks), k) == Get(base, k) + Occurrences(ks, k)
  {
    if k !in ks {
      OccurrencesAbsent(ks, k);
    }
  }

  /** Two tallies over the same all-zero base add up to the tally of both runs. */
  lemma AddZeroBasedTallies<K>(base: map<K, int>, a: seq<K>, b: seq<K>)
    requires forall k | k in base :: base[k] == 0
    ensures AddMaps(Tally(base, a), Tally(base, b)) == Tally(base, a + b)
  {
    var r := Tally(base, a + b);
    forall k ensures k in a + b <==> k in a || k in b {
      if k in a + b {
        var i :| 0 <= i < |a + b| && (a + b)[i] == k;
        if i < |a| { assert a[i] == k; } else { assert b[i - |a|] == k; }
      }
    }
    forall k | k in r
      ensures r[k] == Get(Tally(base, a), k) + Get(Tally(base, b), k)
    {
      OccurrencesAppend(a, b, k);
      TallyGet(base, a, k);
      TallyGet(base, b, k);
    }
    AddMapsPointwise(Tally(base, a), Tally(base, b), r);
  }
}
