/** A stable insertion sort by a real-valued key. It stands for the standard-library
    `sort_by` calls of the source: each of them orders by a key whose comparison is a
    total preorder, so sorting ascending by that key gives the same order up to ties. */
module Sorting {

  /** `s` is ascending by `key`. */
  ghost predicate SortedBy<T>(s: seq<T>, key: T -> real) {
    forall i, j :: 0 <= i < j < |s| ==> key(s[i]) <= key(s[j])
  }

  /** No element occurs twice in `s`. */
  ghost predicate Distinct<T>(s: seq<T>) {
    forall i, j :: 0 <= i < j < |s| ==> s[i] != s[j]
  }

  /** The head of a duplicate-free sequence does not recur in its tail. */
  lemma {:induction false} DistinctHead<T>(s: seq<T>)
    requires |s| > 0
    ensures Distinct(s) ==> s[0] !in s[1..] && Distinct(s[1..])
  {
    if Distinct(s) {
      forall k | 0 <= k < |s| - 1
        ensures s[1..][k] != s[0]
      {
        assert s[1..][k] == s[k + 1];
      }
    }
  }

  /** Every element of a sequence whose multiset is that of `t` plus `x` is `x` or in `t`. */
  lemma {:induction false} MembersOfMultiset<T>(r: seq<T>, t: seq<T>, x: T)
    requires multiset(r) == multiset(t) + multiset{x}
    ensures forall k :: 0 <= k < |r| ==> r[k] == x || r[k] in t
  {
    forall k | 0 <= k < |r|
      ensures r[k] == x || r[k] in t
    {
      assert r[k] in multiset(r);
    }
  }

  /** Putting the head of a sorted sequence in front of a sorted sequence of larger
      elements keeps it sorted and, when nothing repeats, duplicate-free. */
  lemma {:induction false} ConsSorted<T>(s: seq<T>, x: T, rest: seq<T>, key: T -> real)
    requires |s| > 0 && SortedBy(s, key) && SortedBy(rest, key)
    requires key(s[0]) < key(x)
    requires multiset(rest) == multiset(s[1..]) + multiset{x}
    ensures SortedBy([s[0]] + rest, key)
    ensures Distinct(s) && x !in s && Distinct(rest) ==> Distinct([s[0]] + rest)
  {
    MembersOfMultiset(rest, s[1..], x);
    var r := [s[0]] + rest;
    forall i, j | 0 <= i < j < |r|
      ensures key(r[i]) <= key(r[j])
    {
      if i == 0 {
        assert r[j] == rest[j - 1];
        if rest[j - 1] != x {
          var k :| 0 <= k < |s[1..]| && s[1..][k] == rest[j - 1];
          assert s[k + 1] == rest[j - 1];
        }
      } else {
        assert r[i] == rest[i - 1] && r[j] == rest[j - 1];
      }
    }
    DistinctHead(s);
    if Distinct(s) && x !in s && Distinct(rest) {
      forall j | 0 <= j < |rest|
        ensures rest[j] != s[0]
      {
      }
      forall i, j | 0 <= i < j < |r|
        ensures r[i] != r[j]
      {
        if i == 0 {
          assert r[j] == rest[j - 1];
        } else {
          assert r[i] == rest[i - 1] && r[j] == rest[j - 1];
        }
      }
    }
  }

  /** Inserts `x` into the sorted `s` before the first element with a larger key. */
  function Insert<T>(x: T, s: seq<T>, key: T -> real): (r: seq<T>)
    requires SortedBy(s, key)
    ensures SortedBy(r, key)
    ensures multiset(r) == multiset(s) + multiset{x}
    ensures Distinct(s) && x !in s ==> Distinct(r)
  {
    if |s| == 0 then [x]
    else if key(x) <= key(s[0]) then [x] + s
    else
      assert s == [s[0]] + s[1..];
      var rest := Insert(x, s[1..], key);
      DistinctHead(s);
      ConsSorted(s, x, rest, key);
      [s[0]] + rest
  }

  /** `s` sorted ascending by `key`: a permutation of `s` that is sorted. */
  function SortBy<T>(s: seq<T>, key: T -> real): (r: seq<T>)
    ensures SortedBy(r, key)
    ensures multiset(r) == multiset(s)
    ensures |r| == |s|
    ensures Distinct(s) ==> Distinct(r)
  {
    if |s| == 0 then []
    else
      assert s == [s[0]] + s[1..];
      var sorted := SortBy(s[1..], key);
      DistinctHead(s);
      assert s[0] in sorted <==> s[0] in multiset(s[1..]);
      Insert(s[0], sorted, key)
  }

  /** Sorting keeps exactly the elements of its input. */
  lemma {:induction false} SortByMembers<T>(s: seq<T>, key: T -> real)
    ensures forall x :: x in SortBy(s, key) <==> x in s
  {
    var r := SortBy(s, key);
    forall x
      ensures x in r <==> x in s
    {
      assert x in r <==> x in multiset(r);
      assert x in s <==> x in multiset(s);
    }
  }
}
