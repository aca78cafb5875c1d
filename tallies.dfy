/** Histograms over string keys — the `*map.entry(key).or_insert(0) += 1` counters of the
    analyzer — and listings of such a map as a sequence of (key, count) pairs, the form
    `into_iter().collect()` gives it. */
module Tallies {
  import opened Sorting

  /** The histogram `m` with one more occurrence of `k`: `*m.entry(k).or_insert(0) += 1`. */
  function Bump(m: map<string, nat>, k: string): (r: map<string, nat>)
    ensures r.Keys == m.Keys + {k}
    ensures r[k] == (if k in m then m[k] else 0) + 1
    ensures forall x :: x in m && x != k ==> r[x] == m[x]
  {
    m[k := (if k in m then m[k] else 0) + 1]
  }

  /** How often each key occurs in `ks`. */
  function Tally(ks: seq<string>): map<string, nat> {
    if |ks| == 0 then map[] else Bump(Tally(ks[..|ks| - 1]), ks[|ks| - 1])
  }

  /** Counting one more key bumps its count. */
  lemma {:induction false} TallyAppend(ks: seq<string>, k: string)
    ensures Tally(ks + [k]) == Bump(Tally(ks), k)
  {
    assert (ks + [k])[..|ks|] == ks;
  }

  /** The number of positions of `ks` holding `k`. */
  function CountOf(ks: seq<string>, k: string): nat {
    if |ks| == 0 then 0
    else CountOf(ks[..|ks| - 1], k) + (if ks[|ks| - 1] == k then 1 else 0)
  }

  /** Appending a key counts it once more and leaves every other count. */
  lemma {:induction false} CountOfAppend(ks: seq<string>, k: string, x: string)
    ensures CountOf(ks + [k], x) == CountOf(ks, x) + (if x == k then 1 else 0)
    ensures x in ks + [k] <==> x in ks || x == k
  {
    assert (ks + [k])[..|ks|] == ks;
  }

  /** A key that does not occur is counted zero times. */
  lemma {:induction false} CountOfAbsent(ks: seq<string>, k: string)
    requires k !in ks
    ensures CountOf(ks, k) == 0
  {
    if |ks| > 0 {
      assert k !in ks[..|ks| - 1];
      CountOfAbsent(ks[..|ks| - 1], k);
    }
  }

  /** Tally holds exactly the keys that occur, each with its number of occurrences. */
  lemma {:induction false} TallyCounts(ks: seq<string>)
    ensures forall k :: k in Tally(ks) <==> k in ks
    ensures forall k :: k in Tally(ks) ==> Tally(ks)[k] == CountOf(ks, k)
  {
    if |ks| > 0 {
      var init, k := ks[..|ks| - 1], ks[|ks| - 1];
      TallyCounts(init);
      assert ks == init + [k];
      var m, m' := Tally(init), Tally(ks);
      assert m' == Bump(m, k);
      forall x
        ensures x in m' <==> x in ks
        ensures x in m' ==> m'[x] == CountOf(ks, x)
      {
        CountOfAppend(init, k, x);
        if x == k && k !in init {
          CountOfAbsent(init, k);
        }
      }
    }
  }

  /** The first components of a sequence of pairs. */
  function Names(pairs: seq<(string, nat)>): (ns: seq<string>)
    ensures |ns| == |pairs|
    ensures forall i :: 0 <= i < |pairs| ==> ns[i] == pairs[i].0
  {
    if |pairs| == 0 then [] else Names(pairs[..|pairs| - 1]) + [pairs[|pairs| - 1].0]
  }

  /** The sum of the second components. */
  function Total(pairs: seq<(string, nat)>): nat {
    if |pairs| == 0 then 0 else Total(pairs[..|pairs| - 1]) + pairs[|pairs| - 1].1
  }

  /** No key occurs twice among the pairs. */
  ghost predicate DistinctKeys(pairs: seq<(string, nat)>) {
    forall i, j :: 0 <= i < j < |pairs| ==> pairs[i].0 != pairs[j].0
  }

  /** `pairs` lists every entry of `m` exactly once, in some order. */
  ghost predicate Lists(pairs: seq<(string, nat)>, m: map<string, nat>) {
    && (forall i :: 0 <= i < |pairs| ==> pairs[i].0 in m && pairs[i].1 == m[pairs[i].0])
    && (forall k :: k in m ==> exists i :: 0 <= i < |pairs| && pairs[i].0 == k)
    && DistinctKeys(pairs)
  }

  /** Sort key for "by count, descending". */
  function CountKey(p: (string, nat)): real {
    -(p.1 as real)
  }

  /** Pairs with distinct keys are distinct pairs. */
  lemma {:induction false} DistinctKeysDistinct(pairs: seq<(string, nat)>)
    requires DistinctKeys(pairs)
    ensures Distinct(pairs)
  {
    forall i, j | 0 <= i < j < |pairs|
      ensures pairs[i] != pairs[j]
    {
      assert pairs[i].0 != pairs[j].0;
    }
  }

  /** Reordering a listing by any key leaves it a listing of the same map. */
  lemma {:induction false} SortedListing(pairs: seq<(string, nat)>, m: map<string, nat>, key: ((string, nat)) -> real)
    requires Lists(pairs, m)
    ensures Lists(SortBy(pairs, key), m)
  {
    var r := SortBy(pairs, key);
    SortByMembers(pairs, key);
    DistinctKeysDistinct(pairs);
    assert Distinct(r);
    forall i | 0 <= i < |r|
      ensures r[i].0 in m && r[i].1 == m[r[i].0]
    {
      assert r[i] in pairs;
    }
    forall k | k in m
      ensures exists i :: 0 <= i < |r| && r[i].0 == k
    {
      var i :| 0 <= i < |pairs| && pairs[i].0 == k;
      assert pairs[i] in r;
    }
    forall i, j | 0 <= i < j < |r|
      ensures r[i].0 != r[j].0
    {
      assert r[i] in pairs && r[j] in pairs;
      assert r[i] != r[j];
    }
  }

  /** The number of pairs whose key is `k`. */
  function Occurrences(pairs: seq<(string, nat)>, k: string): nat {
    if |pairs| == 0 then 0
    else Occurrences(pairs[..|pairs| - 1], k) + (if pairs[|pairs| - 1].0 == k then 1 else 0)
  }

  /** In a listing with distinct keys, a key that occurs occurs exactly once. */
  lemma {:induction false} OccurrencesOnce(pairs: seq<(string, nat)>, k: string)
    requires DistinctKeys(pairs)
    ensures (exists i :: 0 <= i < |pairs| && pairs[i].0 == k) ==> Occurrences(pairs, k) == 1
    ensures (forall i :: 0 <= i < |pairs| ==> pairs[i].0 != k) ==> Occurrences(pairs, k) == 0
  {
    if |pairs| > 0 {
      var init := pairs[..|pairs| - 1];
      assert DistinctKeys(init);
      OccurrencesOnce(init, k);
      if pairs[|pairs| - 1].0 == k {
        assert forall i :: 0 <= i < |init| ==> init[i].0 != k;
      } else if exists i :: 0 <= i < |pairs| && pairs[i].0 == k {
        var i :| 0 <= i < |pairs| && pairs[i].0 == k;
        assert init[i].0 == k;
      }
    }
  }

  /** The sum, over the keys of `pairs`, of how often each occurs in `ks`. */
  function SumOfCounts(pairs: seq<(string, nat)>, ks: seq<string>): nat {
    if |pairs| == 0 then 0
    else SumOfCounts(pairs[..|pairs| - 1], ks) + CountOf(ks, pairs[|pairs| - 1].0)
  }

  /** Dropping the last key of `ks` lowers the sum by the occurrences of that key. */
  lemma {:induction false} SumOfCountsStep(pairs: seq<(string, nat)>, ks: seq<string>)
    requires |ks| > 0
    ensures SumOfCounts(pairs, ks) == SumOfCounts(pairs, ks[..|ks| - 1]) + Occurrences(pairs, ks[|ks| - 1])
  {
    if |pairs| > 0 {
      SumOfCountsStep(pairs[..|pairs| - 1], ks);
    }
  }

  /** Some pair carries key `k`. */
  ghost predicate HasKey(pairs: seq<(string, nat)>, k: string) {
    exists j :: 0 <= j < |pairs| && pairs[j].0 == k
  }

  /** When each key of `ks` occurs once among the distinct keys of `pairs`, the sum of
      their counts is the length of `ks`. */
  lemma {:induction false} SumOfCountsCovers(pairs: seq<(string, nat)>, ks: seq<string>)
    requires DistinctKeys(pairs)
    requires forall k :: k in ks ==> HasKey(pairs, k)
    ensures SumOfCounts(pairs, ks) == |ks|
  {
    if |ks| == 0 {
      SumOfCountsEmpty(pairs, ks);
    } else {
      var init := ks[..|ks| - 1];
      assert forall k :: k in init ==> k in ks;
      SumOfCountsCovers(pairs, init);
      SumOfCountsStep(pairs, ks);
      assert ks[|ks| - 1] in ks;
      OccurrencesOnce(pairs, ks[|ks| - 1]);
    }
  }

  /** Nothing is counted in an empty sequence of keys. */
  lemma {:induction false} SumOfCountsEmpty(pairs: seq<(string, nat)>, ks: seq<string>)
    requires |ks| == 0
    ensures SumOfCounts(pairs, ks) == 0
  {
    if |pairs| > 0 {
      SumOfCountsEmpty(pairs[..|pairs| - 1], ks);
    }
  }

  /** When every pair carries the count of its key in `ks`, the total is that sum. */
  lemma {:induction false} TotalIsSumOfCounts(pairs: seq<(string, nat)>, ks: seq<string>)
    requires forall i :: 0 <= i < |pairs| ==> pairs[i].1 == CountOf(ks, pairs[i].0)
    ensures Total(pairs) == SumOfCounts(pairs, ks)
  {
    if |pairs| > 0 {
      TotalIsSumOfCounts(pairs[..|pairs| - 1], ks);
    }
  }

  /** The counts of any listing of a histogram add up to the number of keys counted. */
  lemma {:induction false} ListingTotal(ks: seq<string>, pairs: seq<(string, nat)>)
    requires Lists(pairs, Tally(ks))
    ensures Total(pairs) == |ks|
  {
    TallyCounts(ks);
    TotalIsSumOfCounts(pairs, ks);
    forall k | k in ks
      ensures HasKey(pairs, k)
    {
      assert k in Tally(ks);
    }
    SumOfCountsCovers(pairs, ks);
  }

  /** A listing of the tally of `ks` lists the keys of `ks`, each once with its number of
      occurrences, and its counts add up to `|ks|`. */
  lemma {:induction false} ListingOfTally(ks: seq<string>, pairs: seq<(string, nat)>)
    requires Lists(pairs, Tally(ks))
    ensures Total(pairs) == |ks|
    ensures forall i :: 0 <= i < |pairs| ==> pairs[i].0 in ks && pairs[i].1 == CountOf(ks, pairs[i].0)
    ensures forall i :: 0 <= i < |ks| ==> exists j :: 0 <= j < |pairs| && pairs[j].0 == ks[i]
  {
    ListingTotal(ks, pairs);
    TallyCounts(ks);
    forall i | 0 <= i < |ks|
      ensures exists j :: 0 <= j < |pairs| && pairs[j].0 == ks[i]
    {
      assert ks[i] in Tally(ks);
    }
  }

  /** `HashMap::into_iter().collect()`: a listing of `m`, in whatever order the map
      yields its entries. */
  method ListEntries(m: map<string, nat>) returns (pairs: seq<(string, nat)>)
    ensures Lists(pairs, m)
  {
    pairs := [];
    var remaining := m.Keys;
    while remaining != {}
      invariant remaining <= m.Keys
      invariant forall i :: 0 <= i < |pairs| ==>
                  pairs[i].0 in m && pairs[i].0 !in remaining && pairs[i].1 == m[pairs[i].0]
      invariant forall k :: k in m && k !in remaining ==> exists i :: 0 <= i < |pairs| && pairs[i].0 == k
      invariant DistinctKeys(pairs)
      decreases remaining
    {
      var k :| k in remaining;
      ghost var before := pairs;
      pairs := pairs + [(k, m[k])];
      assert forall i :: 0 <= i < |before| ==> pairs[i] == before[i];
      assert pairs[|before|].0 == k;
      remaining := remaining - {k};
    }
  }

  /** `order` visits every key of `keys` exactly once: the iteration of a map. */
  ghost predicate Enumerates(order: seq<string>, keys: set<string>) {
    && (forall i, j :: 0 <= i < j < |order| ==> order[i] != order[j])
    && (forall k :: k in keys <==> k in order)
  }

  /** The keys of a map in the order its iteration yields them, which is unspecified. */
  method KeyOrder(keys: set<string>) returns (order: seq<string>)
    ensures Enumerates(order, keys)
  {
    order := [];
    var remaining := keys;
    while remaining != {}
      invariant remaining <= keys
      invariant forall i, j :: 0 <= i < j < |order| ==> order[i] != order[j]
      invariant forall k :: k in keys <==> k in order || k in remaining
      invariant forall k :: k in order ==> k !in remaining
      decreases remaining
    {
      var k :| k in remaining;
      order := order + [k];
      remaining := remaining - {k};
    }
  }
}
