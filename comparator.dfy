/** `analyze_diff_from_cost_model` and `compare_circuits`: two circuits analysed one after
    the other against the same cost database, and the differences between their analyses
    when their constraint counts differ by at least 100. */
module Comparator {
  import opened Optional
  import opened Sorting
  import opened Tallies
  import opened CostModel
  import opened Analyzer
  import opened Feedback

  /** Constraint counts closer than this are not compared further. */
  const MinConstraintDelta: int := 100

  /** The differences found between two analyses: the change of the constraint count, the
      changed operation counts ordered by size of change, largest first, and the changed
      black-box call counts, in map order. */
  datatype CostModelDiff = CostModelDiff(delta: int, operationDiffs: seq<(string, int)>, externalDiffs: seq<(string, int)>)

  /** Absolute value of an `i64`; the counts compared are far below its range. */
  function Abs(x: int): nat {
    if x < 0 then -x else x
  }

  /** The map collected from (name, count) pairs: a later pair for a name overrides an
      earlier one. */
  function CountsMap(pairs: seq<(string, nat)>): map<string, nat> {
    if |pairs| == 0 then map[]
    else
      var n := |pairs| - 1;
      CountsMap(pairs[..n])[pairs[n].0 := pairs[n].1]
  }

  /** The (name, count) pairs of a black-box table. */
  function UseCounts(t: seq<BlackBoxUse>): (pairs: seq<(string, nat)>)
    ensures |pairs| == |t|
    ensures forall i :: 0 <= i < |t| ==> pairs[i] == (t[i].name, t[i].count)
  {
    if |t| == 0 then [] else UseCounts(t[..|t| - 1]) + [(t[|t| - 1].name, t[|t| - 1].count)]
  }

  /** The count of `k` in `m`, 0 when it has none (`unwrap_or(&0)`, `or_insert((0, 0))`). */
  function Lookup(m: map<string, nat>, k: string): nat {
    if k in m then m[k] else 0
  }

  /** Every name of either map with its count in each. */
  function Joined(m1: map<string, nat>, m2: map<string, nat>): map<string, (nat, nat)> {
    map k | k in m1.Keys + m2.Keys :: (Lookup(m1, k), Lookup(m2, k))
  }

  /** The nonzero changes `count2 - count1` of the names `order`, in that order. */
  function DiffList(order: seq<string>, all: map<string, (nat, nat)>): seq<(string, int)> {
    if |order| == 0 then []
    else
      var n := |order| - 1;
      var k := order[n];
      DiffList(order[..n], all)
      + (if k in all && all[k].1 as int - all[k].0 as int != 0 then [(k, all[k].1 as int - all[k].0 as int)] else [])
  }

  /** `diffs` holds, once each, every name of `m1` or `m2` whose count changes, with the
      change, and nothing else. */
  ghost predicate DiffsOf(diffs: seq<(string, int)>, m1: map<string, nat>, m2: map<string, nat>) {
    && (forall i :: 0 <= i < |diffs| ==>
          (diffs[i].0 in m1 || diffs[i].0 in m2)
          && diffs[i].1 == Lookup(m2, diffs[i].0) as int - Lookup(m1, diffs[i].0) as int
          && diffs[i].1 != 0)
    && (forall k :: (k in m1 || k in m2) && Lookup(m1, k) != Lookup(m2, k) ==>
          exists i :: 0 <= i < |diffs| && diffs[i].0 == k)
    && (forall i, j :: 0 <= i < j < |diffs| ==> diffs[i].0 != diffs[j].0)
  }

  /** Sort key for "by size of change, largest first". */
  function ChangeKey(d: (string, int)): real {
    -(Abs(d.1) as real)
  }

  /** One more pair sets its name's count and leaves every other name's. */
  lemma {:induction false} CountsMapAppend(pairs: seq<(string, nat)>, p: (string, nat))
    ensures CountsMap(pairs + [p]) == CountsMap(pairs)[p.0 := p.1]
  {
    assert (pairs + [p])[..|pairs|] == pairs;
  }

  /** A name of the collected map is a name of some pair, and its count is that of the
      last pair with the name. */
  lemma {:induction false} CountsMapSpec(pairs: seq<(string, nat)>, k: string)
    ensures k in CountsMap(pairs) <==> exists i :: 0 <= i < |pairs| && pairs[i].0 == k
    ensures forall i :: (0 <= i < |pairs| && pairs[i].0 == k && (forall j :: i < j < |pairs| ==> pairs[j].0 != k))
              ==> CountsMap(pairs)[k] == pairs[i].1
  {
    if |pairs| > 0 {
      var n := |pairs| - 1;
      var init := pairs[..n];
      CountsMapSpec(init, k);
      if pairs[n].0 != k {
        if k in CountsMap(init) {
          var i :| 0 <= i < n && init[i].0 == k;
          assert pairs[i] == init[i];
        }
        forall i | 0 <= i < |pairs| && pairs[i].0 == k
          ensures k in CountsMap(init) && (i < n && (forall j :: i < j < |pairs| ==> pairs[j].0 != k) ==> CountsMap(pairs)[k] == pairs[i].1)
        {
          assert pairs[i] == init[i];
          if forall j :: i < j < |pairs| ==> pairs[j].0 != k {
            forall j | i < j < n
              ensures init[j].0 != k
            {
              assert init[j] == pairs[j];
            }
          }
        }
      }
    }
  }

  /** Distinct names have counts that are their own. */
  lemma {:induction false} CountsMapOfDistinct(pairs: seq<(string, nat)>)
    requires DistinctKeys(pairs)
    ensures forall i :: 0 <= i < |pairs| ==> pairs[i].0 in CountsMap(pairs) && CountsMap(pairs)[pairs[i].0] == pairs[i].1
  {
    forall i | 0 <= i < |pairs|
      ensures pairs[i].0 in CountsMap(pairs) && CountsMap(pairs)[pairs[i].0] == pairs[i].1
    {
      CountsMapSpec(pairs, pairs[i].0);
    }
  }

  /** The joined map picks up the first map's counts one pair at a time. */
  lemma {:induction false} JoinedFirst(m: map<string, nat>, k: string, v: nat)
    ensures Joined(m[k := v], map[]) == Joined(m, map[])[k := (v, 0)]
  {
  }

  /** The joined map picks up the second map's counts one pair at a time. */
  lemma {:induction false} JoinedSecond(m1: map<string, nat>, m2: map<string, nat>, k: string, v: nat)
    ensures Joined(m1, m2[k := v]) == Joined(m1, m2)[k := (Lookup(m1, k), v)]
  {
    var l, r := Joined(m1, m2[k := v]), Joined(m1, m2)[k := (Lookup(m1, k), v)];
    assert l.Keys == r.Keys;
    forall x | x in l
      ensures l[x] == r[x]
    {
      if x != k {
        assert Lookup(m2[k := v], x) == Lookup(m2, x);
      }
    }
  }

  /** The changes listed for an enumeration of a joined map's names. */
  lemma {:induction false} DiffListMembers(order: seq<string>, all: map<string, (nat, nat)>)
    ensures forall i :: 0 <= i < |DiffList(order, all)| ==>
              var d := DiffList(order, all)[i];
              d.0 in order && d.0 in all && d.1 == all[d.0].1 as int - all[d.0].0 as int && d.1 != 0
  {
    if |order| > 0 {
      var n := |order| - 1;
      DiffListMembers(order[..n], all);
      forall i | 0 <= i < |DiffList(order[..n], all)|
        ensures DiffList(order[..n], all)[i].0 in order
      {
        var k := DiffList(order[..n], all)[i].0;
        var j :| 0 <= j < n && order[..n][j] == k;
        assert order[j] == k;
      }
    }
  }

  /** A name of the order with a change is listed. */
  lemma {:induction false} DiffListCovers(order: seq<string>, all: map<string, (nat, nat)>, k: string)
    requires k in order && k in all && all[k].1 != all[k].0
    ensures exists i :: 0 <= i < |DiffList(order, all)| && DiffList(order, all)[i].0 == k
  {
    var n := |order| - 1;
    var prev := DiffList(order[..n], all);
    if order[n] == k {
      assert DiffList(order, all)[|prev|].0 == k;
    } else {
      var j :| 0 <= j < |order| && order[j] == k;
      assert order[..n][j] == k;
      DiffListCovers(order[..n], all, k);
      var i :| 0 <= i < |prev| && prev[i].0 == k;
      assert DiffList(order, all)[i] == prev[i];
    }
  }

  /** Over distinct names, the listed changes have distinct names. */
  lemma {:induction false} DiffListDistinct(order: seq<string>, all: map<string, (nat, nat)>)
    requires forall i, j :: 0 <= i < j < |order| ==> order[i] != order[j]
    ensures forall i, j :: 0 <= i < j < |DiffList(order, all)| ==> DiffList(order, all)[i].0 != DiffList(order, all)[j].0
  {
    if |order| > 0 {
      var n := |order| - 1;
      var init := order[..n];
      DiffListDistinct(init, all);
      DiffListMembers(init, all);
      var prev, r := DiffList(init, all), DiffList(order, all);
      forall i, j | 0 <= i < j < |r|
        ensures r[i].0 != r[j].0
      {
        assert r[i] == prev[i];
        if j < |prev| {
          assert r[j] == prev[j];
        } else {
          assert r[j].0 == order[n];
          var m :| 0 <= m < n && init[m] == r[i].0;
          assert order[m] == r[i].0;
        }
      }
    }
  }

  /** The changes listed over an enumeration of the names of two maps are the changes
      between them. */
  lemma {:induction false} DiffListSpec(order: seq<string>, m1: map<string, nat>, m2: map<string, nat>)
    requires Enumerates(order, m1.Keys + m2.Keys)
    ensures DiffsOf(DiffList(order, Joined(m1, m2)), m1, m2)
  {
    var all := Joined(m1, m2);
    DiffListMembers(order, all);
    DiffListDistinct(order, all);
    forall k | (k in m1 || k in m2) && Lookup(m1, k) != Lookup(m2, k)
      ensures exists i :: 0 <= i < |DiffList(order, all)| && DiffList(order, all)[i].0 == k
    {
      DiffListCovers(order, all, k);
    }
  }

  /** Reordering changes keeps them the changes between the maps. */
  lemma {:induction false} DiffsOfReordered(diffs: seq<(string, int)>, sorted: seq<(string, int)>, m1: map<string, nat>, m2: map<string, nat>)
    requires DiffsOf(diffs, m1, m2)
    requires |sorted| == |diffs| && Distinct(sorted)
    requires forall d :: d in sorted <==> d in diffs
    ensures DiffsOf(sorted, m1, m2)
  {
    forall i | 0 <= i < |sorted|
      ensures (sorted[i].0 in m1 || sorted[i].0 in m2)
              && sorted[i].1 == Lookup(m2, sorted[i].0) as int - Lookup(m1, sorted[i].0) as int && sorted[i].1 != 0
    {
      assert sorted[i] in diffs;
    }
    forall k | (k in m1 || k in m2) && Lookup(m1, k) != Lookup(m2, k)
      ensures exists i :: 0 <= i < |sorted| && sorted[i].0 == k
    {
      var j :| 0 <= j < |diffs| && diffs[j].0 == k;
      assert diffs[j] in sorted;
    }
    forall i, j | 0 <= i < j < |sorted|
      ensures sorted[i].0 != sorted[j].0
    {
      assert sorted[i] in diffs && sorted[j] in diffs;
      var p :| 0 <= p < |diffs| && diffs[p] == sorted[i];
      var q :| 0 <= q < |diffs| && diffs[q] == sorted[j];
      assert p != q;
    }
  }

  /** Changes with distinct names are distinct changes. */
  lemma {:induction false} DistinctChanges(diffs: seq<(string, int)>)
    requires forall i, j :: 0 <= i < j < |diffs| ==> diffs[i].0 != diffs[j].0
    ensures Distinct(diffs)
  {
    forall i, j | 0 <= i < j < |diffs|
      ensures diffs[i] != diffs[j]
    {
      assert diffs[i].0 != diffs[j].0;
    }
  }

  /** The map collected from (name, count) pairs, one insertion per pair. */
  method CollectCounts(pairs: seq<(string, nat)>) returns (m: map<string, nat>)
    ensures m == CountsMap(pairs)
  {
    m := map[];
    for i := 0 to |pairs|
      invariant m == CountsMap(pairs[..i])
    {
      CountsMapAppend(pairs[..i], pairs[i]);
      assert pairs[..i + 1] == pairs[..i] + [pairs[i]];
      m := m[pairs[i].0 := pairs[i].1];
    }
    assert pairs[..|pairs|] == pairs;
  }

  /** `all_ops`: the first analysis's operation counts, then the second's, each name with
      its pair of counts, 0 for a side without it. */
  method JoinCounts(p1: seq<(string, nat)>, p2: seq<(string, nat)>) returns (all: map<string, (nat, nat)>)
    ensures all == Joined(CountsMap(p1), CountsMap(p2))
  {
    all := map[];
    for i := 0 to |p1|
      invariant all == Joined(CountsMap(p1[..i]), map[])
    {
      var (name, count) := p1[i];
      CountsMapAppend(p1[..i], p1[i]);
      assert p1[..i + 1] == p1[..i] + [p1[i]];
      JoinedFirst(CountsMap(p1[..i]), name, count);
      all := all[name := (count, if name in all then all[name].1 else 0)];
    }
    assert p1[..|p1|] == p1;
    ghost var m1 := CountsMap(p1);
    for i := 0 to |p2|
      invariant all == Joined(m1, CountsMap(p2[..i]))
    {
      var (name, count) := p2[i];
      CountsMapAppend(p2[..i], p2[i]);
      assert p2[..i + 1] == p2[..i] + [p2[i]];
      JoinedSecond(m1, CountsMap(p2[..i]), name, count);
      all := all[name := (if name in all then all[name].0 else 0, count)];
    }
    assert p2[..|p2|] == p2;
  }

  /** The nonzero changes of the names of `all`, in the map's order. */
  method ListChanges(all: map<string, (nat, nat)>) returns (diffs: seq<(string, int)>, order: seq<string>)
    ensures Enumerates(order, all.Keys)
    ensures diffs == DiffList(order, all)
  {
    order := KeyOrder(all.Keys);
    diffs := [];
    for i := 0 to |order|
      invariant diffs == DiffList(order[..i], all)
    {
      var name := order[i];
      var (count1, count2) := all[name];
      var change := count2 as int - count1 as int;
      assert order[..i + 1][..i] == order[..i];
      if change != 0 {
        diffs := diffs + [(name, change)];
      }
    }
    assert order[..|order|] == order;
  }

  /** Changes ordered by size, largest first. */
  ghost predicate LargestFirst(diffs: seq<(string, int)>) {
    forall i, j :: 0 <= i < j < |diffs| ==> Abs(diffs[i].1) >= Abs(diffs[j].1)
  }

  /** Sorting by `ChangeKey` puts the largest change first. */
  lemma {:induction false} SortedLargestFirst(diffs: seq<(string, int)>)
    requires SortedBy(diffs, ChangeKey)
    ensures LargestFirst(diffs)
  {
    forall i, j | 0 <= i < j < |diffs|
      ensures Abs(diffs[i].1) >= Abs(diffs[j].1)
    {
      assert ChangeKey(diffs[i]) <= ChangeKey(diffs[j]);
    }
  }

  /** Sorting the changes between two maps by size keeps them those changes. */
  lemma {:induction false} SortedChanges(diffs: seq<(string, int)>, m1: map<string, nat>, m2: map<string, nat>)
    requires DiffsOf(diffs, m1, m2)
    ensures DiffsOf(SortBy(diffs, ChangeKey), m1, m2)
    ensures LargestFirst(SortBy(diffs, ChangeKey))
  {
    DistinctChanges(diffs);
    var sorted := SortBy(diffs, ChangeKey);
    SortByMembers(diffs, ChangeKey);
    DiffsOfReordered(diffs, sorted, m1, m2);
    SortedLargestFirst(sorted);
  }

  /** `op_diffs`: the changed operation counts, sorted by size of change, largest first
      (`sort_by` on the absolute change, descending). */
  method OperationChanges(p1: seq<(string, nat)>, p2: seq<(string, nat)>) returns (sorted: seq<(string, int)>)
    ensures DiffsOf(sorted, CountsMap(p1), CountsMap(p2))
    ensures LargestFirst(sorted)
  {
    var allOps := JoinCounts(p1, p2);
    var diffs, order := ListChanges(allOps);
    DiffListSpec(order, CountsMap(p1), CountsMap(p2));
    sorted := SortBy(diffs, ChangeKey);
    SortedChanges(diffs, CountsMap(p1), CountsMap(p2));
  }

  /** `external_diffs`: the changed black-box call counts, over the union of the callee
      names of both tables. */
  method ExternalChanges(t1: seq<BlackBoxUse>, t2: seq<BlackBoxUse>) returns (diffs: seq<(string, int)>)
    ensures DiffsOf(diffs, CountsMap(UseCounts(t1)), CountsMap(UseCounts(t2)))
  {
    var bb1 := CollectCounts(UseCounts(t1));
    var bb2 := CollectCounts(UseCounts(t2));
    var order;
    diffs, order := ListChanges(Joined(bb1, bb2));
    DiffListSpec(order, bb1, bb2);
  }

  /** `analyze_diff_from_cost_model`: nothing when the constraint counts differ by less
      than 100; otherwise the change of the constraint count, every changed operation count
      once, largest change first, and every changed black-box call count once. */
  method DiffFromCostModel(a1: CircuitAnalysis, a2: CircuitAnalysis) returns (r: Option<CostModelDiff>)
    ensures r.None? <==> Abs(a2.constraints as int - a1.constraints as int) < MinConstraintDelta
    ensures r.Some? ==> r.value.delta == a2.constraints as int - a1.constraints as int
    ensures r.Some? ==> DiffsOf(r.value.operationDiffs, CountsMap(a1.operationCounts), CountsMap(a2.operationCounts))
    ensures r.Some? ==> LargestFirst(r.value.operationDiffs)
    ensures r.Some? ==> DiffsOf(r.value.externalDiffs, CountsMap(UseCounts(a1.blackBoxFunctions)),
                                CountsMap(UseCounts(a2.blackBoxFunctions)))
  {
    var delta := a2.constraints as int - a1.constraints as int;
    if Abs(delta) < MinConstraintDelta {
      return None;
    }
    var operationDiffs := OperationChanges(a1.operationCounts, a2.operationCounts);
    var externalDiffs := ExternalChanges(a1.blackBoxFunctions, a2.blackBoxFunctions);
    return Some(CostModelDiff(delta, operationDiffs, externalDiffs));
  }

  /** `compare_circuits`: the first circuit analysed against the database, then the second
      against the database as the first analysis's feedback left it, then the difference of
      the two analyses, which the source computes and drops. */
  method CompareCircuits(db: CostDatabase, c1: Circuit, c2: Circuit, seeds1: seq<nat>, seeds2: seq<nat>,
                         clock1: nat -> nat, stamps1: nat -> string, clock2: nat -> nat, stamps2: nat -> string)
    returns (a1: CircuitAnalysis, a2: CircuitAnalysis, ghost order1: seq<string>, ghost order2: seq<string>)
    requires |seeds1| == |c1.opcodes| && |seeds2| == |c2.opcodes|
    modifies db
    ensures Describes(a1, old(db.costs), c1, seeds1)
    ensures Enumerates(order1, Tally(BucketNames(c1.opcodes)).Keys)
    ensures var mid := ApplyUpdates(old(db.costs), FeedbackCalls(order1, BucketUpdates(Tally(BucketNames(c1.opcodes)), a1)), clock1);
            && Describes(a2, mid, c2, seeds2)
            && Enumerates(order2, Tally(BucketNames(c2.opcodes)).Keys)
            && db.costs == ApplyUpdates(mid, FeedbackCalls(order2, BucketUpdates(Tally(BucketNames(c2.opcodes)), a2)), clock2)
    ensures var stamp := Stamped(old(db.lastUpdated), |FeedbackCalls(order1, BucketUpdates(Tally(BucketNames(c1.opcodes)), a1))|, stamps1);
            db.lastUpdated == Stamped(stamp, |FeedbackCalls(order2, BucketUpdates(Tally(BucketNames(c2.opcodes)), a2))|, stamps2)
  {
    a1, order1 := AnalyzeCircuit(db, c1, seeds1, clock1, stamps1);
    a2, order2 := AnalyzeCircuit(db, c2, seeds2, clock2, stamps2);
    var _ := DiffFromCostModel(a1, a2);
  }
}
