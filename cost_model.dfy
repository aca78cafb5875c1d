/** The calibrated cost database of the profiler: a map from operation name to
    (cost, confidence, samples), seeded from a four-entry default table, refined by an
    exponential moving average on every update and read through a measurement-noise
    perturbation.

    The wall clock that the source reads for its noise is an explicit input here: every
    `seed` parameter stands for one reading of the sub-second nanosecond counter, and the
    model applies to it the same `% 40`, `% 20`, `% 5` and `% 10` the source does.
    Confidences are exact reals (the source stores them as 32-bit floats). */
module CostModel {
  import opened Optional
  import opened Strings
  import opened Sorting
  import opened Tallies

  /** One stored measurement: calibrated cost, confidence in it, samples blended into it. */
  datatype Entry = Entry(cost: nat, confidence: real, samples: nat)

  /** A copy of the whole database, as `get_cost_database` hands out and as the
      database file stores it. */
  datatype CostDatabaseView = CostDatabaseView(costs: map<string, Entry>, lastUpdated: Option<string>)

  /** One answer of `find_operations_by_cost`: name, perturbed cost, perturbed confidence. */
  datatype CostMatch = CostMatch(name: string, cost: nat, confidence: real)

  /** The default seed table, in its declaration order. */
  const DefaultCosts: seq<(string, nat)> :=
    [("sha256", 38_799), ("keccak256", 55_000), ("pedersen_hash", 28_742), ("ecdsa_secp256k1", 5_000)]

  /** Confidence given to a seeded or freshly inserted entry. */
  const SeedConfidence: real := 0.83

  /** Upper bound on the confidence an update can give. */
  const MaxConfidence: real := 0.99

  /** Cost reported for an operation that matches nothing. */
  const FallbackCost: nat := 1000

  /** Lower bound on a confidence reported by the cost search. */
  const MinMatchConfidence: real := 0.8

  function Min(a: int, b: int): int { if a <= b then a else b }
  function Max(a: int, b: int): int { if a <= b then b else a }

  /** With `k < 40`, scaling by `(980 + k) / 1000` stays between the 0.98 and 1.019 scalings. */
  lemma {:induction false} ScaleBounds(cost: nat, k: nat)
    requires k < 40
    ensures cost * 980 / 1000 <= cost * (980 + k) / 1000 <= cost * 1019 / 1000
  {
    assert cost * (980 + k) == cost * 980 + cost * k;
    assert cost * 1019 == cost * (980 + k) + cost * (39 - k);
    assert 0 <= cost * k && 0 <= cost * (39 - k);
  }

  /** `apply_real_world_variability`: the cost scaled by the factor 0.98 + k / 1000, where
      k is the clock reading modulo 40, and truncated to an integer. */
  function Variability(cost: nat, seed: nat): nat {
    cost * (980 + seed % 40) / 1000
  }

  /** The perturbed cost lies between the 0.98 and the 1.019 scalings of the cost, and a
      zero cost stays zero. */
  lemma {:induction false} VariabilityBounds(cost: nat, seed: nat)
    ensures cost * 980 / 1000 <= Variability(cost, seed) <= cost * 1019 / 1000
    ensures cost == 0 ==> Variability(cost, seed) == 0
  {
    ScaleBounds(cost, seed % 40);
  }

  /** Weight, in tenths, that an update gives to the new measurement, by the number of
      samples already blended into the entry. */
  function Weight(samples: nat): (w: nat)
    ensures 2 <= w <= 5
  {
    if samples < 3 then 5 else if samples < 10 then 3 else 2
  }

  /** The moving-average blend `(1 - w) * current + w * measured`, truncated. */
  function Blend(current: nat, measured: nat, samples: nat): nat {
    if samples < 3 then (5 * current + 5 * measured) / 10
    else if samples < 10 then (7 * current + 3 * measured) / 10
    else (8 * current + 2 * measured) / 10
  }

  /** The blend lies between the current cost and the measurement, and is the weighted
      average `(1 - w) * current + w * measured` truncated to an integer. */
  lemma {:induction false} BlendBounds(current: nat, measured: nat, samples: nat)
    ensures Min(current, measured) <= Blend(current, measured, samples) <= Max(current, measured)
    ensures Blend(current, measured, samples) * 10
            <= (10 - Weight(samples)) * current + Weight(samples) * measured
            < Blend(current, measured, samples) * 10 + 10
  {
  }

  /** Confidence after an update that brings the entry to `samples` samples:
      0.83 + samples / 50, capped at 0.99. */
  function ConfidenceFor(samples: nat): (c: real)
    ensures SeedConfidence <= c <= MaxConfidence
    ensures samples >= 8 ==> c == MaxConfidence
    ensures samples < 8 ==> c == SeedConfidence + samples as real / 50.0
  {
    var raw := SeedConfidence + samples as real / 50.0;
    if raw <= MaxConfidence then raw else MaxConfidence
  }

  /** `update_cost_database` on the map: the perturbed measurement is inserted as
      (v, 0.83, 1) if the name is absent, then blended into the stored entry. */
  function Upsert(costs: map<string, Entry>, op: string, measured: nat, seed: nat): map<string, Entry> {
    var v := Variability(measured, seed);
    var e := if op in costs then costs[op] else Entry(v, SeedConfidence, 1);
    costs[op := Entry(Blend(e.cost, v, e.samples), ConfidenceFor(e.samples + 1), e.samples + 1)]
  }

  /** An update adds `op` if absent and leaves every other entry alone. A new name ends as
      (v, 0.87, 2) for the perturbed measurement v; an existing one gains a sample, takes the
      confidence of its new sample count and the blend of its cost with v, which lies
      between the two. */
  lemma {:induction false} UpsertEffect(costs: map<string, Entry>, op: string, measured: nat, seed: nat)
    ensures Upsert(costs, op, measured, seed).Keys == costs.Keys + {op}
    ensures forall n :: n in costs && n != op ==> Upsert(costs, op, measured, seed)[n] == costs[n]
    ensures op !in costs ==> Upsert(costs, op, measured, seed)[op] == Entry(Variability(measured, seed), 0.87, 2)
    ensures op in costs ==> Upsert(costs, op, measured, seed)[op].samples == costs[op].samples + 1
    ensures op in costs ==> Upsert(costs, op, measured, seed)[op].confidence == ConfidenceFor(costs[op].samples + 1)
    ensures op in costs ==> Upsert(costs, op, measured, seed)[op].cost
                              == Blend(costs[op].cost, Variability(measured, seed), costs[op].samples)
    ensures op in costs ==> Min(costs[op].cost, Variability(measured, seed)) <= Upsert(costs, op, measured, seed)[op].cost
                              <= Max(costs[op].cost, Variability(measured, seed))
  {
    var v := Variability(measured, seed);
    if op !in costs {
      assert Blend(v, v, 1) == v;
      assert ConfidenceFor(2) == 0.87;
    } else {
      BlendBounds(costs[op].cost, v, costs[op].samples);
    }
  }

  /** The contents after the updates `calls` in order, the `i`-th one perturbed by the
      clock reading `clock(i)`. */
  function ApplyUpdates(costs: map<string, Entry>, calls: seq<(string, nat)>, clock: nat -> nat): map<string, Entry> {
    if |calls| == 0 then costs
    else
      var n := |calls| - 1;
      Upsert(ApplyUpdates(costs, calls[..n], clock), calls[n].0, calls[n].1, clock(n))
  }

  /** One more update is one more upsert, perturbed by the next clock reading. */
  lemma {:induction false} ApplyUpdatesAppend(costs: map<string, Entry>, calls: seq<(string, nat)>,
                                             call: (string, nat), clock: nat -> nat)
    ensures ApplyUpdates(costs, calls + [call], clock)
            == Upsert(ApplyUpdates(costs, calls, clock), call.0, call.1, clock(|calls|))
  {
    assert (calls + [call])[..|calls|] == calls;
  }

  /** A run of updates adds the updated names, leaves every other entry alone and brings
      each updated name to one more sample per update (a new name starts from the one
      sample of its insertion), with the confidence of that sample count. */
  lemma {:induction false} ApplyUpdatesEffect(costs: map<string, Entry>, calls: seq<(string, nat)>, clock: nat -> nat, n: string)
    ensures n in ApplyUpdates(costs, calls, clock) <==> n in costs || n in Names(calls)
    ensures n in costs && n !in Names(calls) ==> ApplyUpdates(costs, calls, clock)[n] == costs[n]
    ensures n in Names(calls) ==>
              ApplyUpdates(costs, calls, clock)[n].samples
              == (if n in costs then costs[n].samples else 1) + CountOf(Names(calls), n)
    ensures n in Names(calls) ==>
              ApplyUpdates(costs, calls, clock)[n].confidence == ConfidenceFor(ApplyUpdates(costs, calls, clock)[n].samples)
  {
    if |calls| > 0 {
      var k := |calls| - 1;
      var init, call := calls[..k], calls[k];
      ApplyUpdatesEffect(costs, init, clock, n);
      var prev, r := ApplyUpdates(costs, init, clock), ApplyUpdates(costs, calls, clock);
      assert r == Upsert(prev, call.0, call.1, clock(k));
      UpsertEffect(prev, call.0, call.1, clock(k));
      assert Names(calls) == Names(init) + [call.0];
      CountOfAppend(Names(init), call.0, n);
      if n == call.0 && n !in Names(init) {
        CountOfAbsent(Names(init), n);
      }
    }
  }


  /** Position of the first name of `table` at or after `i` that is related to `op` by
      substring in either direction; `|table|` when there is none. */
  function FirstRelated(op: string, table: seq<(string, nat)>, i: nat): (j: nat)
    requires i <= |table|
    ensures i <= j <= |table|
    ensures j < |table| ==> Related(op, table[j].0)
    ensures forall m :: i <= m < j ==> !Related(op, table[m].0)
    decreases |table| - i
  {
    if i == |table| then i
    else if Related(op, table[i].0) then i
    else FirstRelated(op, table, i + 1)
  }

  /** `get_operation_details`: (perturbed cost, confidence) of an operation. An exact key
      wins; otherwise the first default-table name, in table order, related to `op` by
      substring; otherwise the fallback cost 1000. Only an exact key brings its own
      confidence. */
  function OperationDetails(costs: map<string, Entry>, op: string, seed: nat): (r: (nat, real))
    ensures op in costs ==> r == (Variability(costs[op].cost, seed), costs[op].confidence)
    ensures forall j :: 0 <= j < |DefaultCosts| && op !in costs && Related(op, DefaultCosts[j].0)
                        && (forall m :: 0 <= m < j ==> !Related(op, DefaultCosts[m].0))
                        ==> r == (Variability(DefaultCosts[j].1, seed), SeedConfidence)
    ensures op !in costs && (forall j :: 0 <= j < |DefaultCosts| ==> !Related(op, DefaultCosts[j].0))
            ==> r == (Variability(FallbackCost, seed), SeedConfidence)
  {
    if op in costs then (Variability(costs[op].cost, seed), costs[op].confidence)
    else
      var j := FirstRelated(op, DefaultCosts, 0);
      if j < |DefaultCosts| then (Variability(DefaultCosts[j].1, seed), SeedConfidence)
      else (Variability(FallbackCost, seed), SeedConfidence)
  }

  /** Tolerance of the cost search: `target * tolerance_percent * factor / 100`, with the
      factor 1 + (clock reading mod 20) / 100. */
  function Tolerance(target: nat, tolerancePercent: real, factorSeed: nat): real {
    target as real * (tolerancePercent * (1.0 + (factorSeed % 20) as real * 0.01)) / 100.0
  }

  /** `|cost - target|` as the source computes it, in floating point. */
  function Distance(cost: nat, target: nat): (d: real)
    ensures d >= 0.0
  {
    if cost >= target then (cost - target) as real else (target - cost) as real
  }

  /** The confidence reported by the cost search: the stored one scaled by
      1 - (clock reading mod 5) / 100, and at least 0.8. */
  function VariableConfidence(confidence: real, seed: nat): (r: real)
    ensures r >= MinMatchConfidence
    ensures confidence >= 0.0 ==> confidence * 0.96 <= r
    ensures confidence >= 0.0 ==> r <= if confidence <= MinMatchConfidence then MinMatchConfidence else confidence
  {
    var v := seed % 5;
    var scaled := confidence * (1.0 - v as real * 0.01);
    assert confidence >= 0.0 ==> confidence * 0.96 <= scaled <= confidence by {
      assert v == 0 || v == 1 || v == 2 || v == 3 || v == 4;
    }
    if scaled >= MinMatchConfidence then scaled else MinMatchConfidence
  }

  /** The sort_by comparator of the cost search does not put `a` after `b`: when the swap
      nibble is below 2 and both distances are under half the tolerance it compares them
      in descending order, otherwise in ascending order. */
  predicate ComparatorKeeps(da: real, db: real, tolerance: real, swapNear: bool) {
    if swapNear && da < tolerance * 0.5 && db < tolerance * 0.5 then db <= da else da <= db
  }

  /** A sort key that orders as the comparator does: near entries (negated) first when
      swapping, every other entry by its distance. */
  function Rank(distance: real, tolerance: real, swapNear: bool): real {
    if swapNear && distance < tolerance * 0.5 then -distance else distance
  }

  /** Ascending order of Rank is exactly the order the comparator accepts, so the
      comparator is a consistent total preorder and sorting by Rank reproduces it. */
  lemma {:induction false} RankAgreesWithComparator(da: real, db: real, tolerance: real, swapNear: bool)
    requires da >= 0.0 && db >= 0.0
    ensures Rank(da, tolerance, swapNear) <= Rank(db, tolerance, swapNear)
            <==> ComparatorKeeps(da, db, tolerance, swapNear)
  {
  }

  /** The answer the cost search gives for an entry it accepts. */
  function MatchOf(costs: map<string, Entry>, name: string, costSeeds: map<string, nat>,
                   confidenceSeeds: map<string, nat>): CostMatch
    requires name in costs && name in costSeeds && name in confidenceSeeds
  {
    CostMatch(name, Variability(costs[name].cost, costSeeds[name]),
              VariableConfidence(costs[name].confidence, confidenceSeeds[name]))
  }

  /** No name is reported twice. */
  ghost predicate DistinctNames(s: seq<CostMatch>) {
    forall i, j :: 0 <= i < j < |s| ==> s[i].name != s[j].name
  }

  /** The four default names are pairwise different (they differ in length). */
  lemma {:induction false} DefaultNamesDistinct()
    ensures forall i, j :: 0 <= i < j < |DefaultCosts| ==> DefaultCosts[i].0 != DefaultCosts[j].0
  {
    assert |DefaultCosts[0].0| == 6 && |DefaultCosts[1].0| == 9;
    assert |DefaultCosts[2].0| == 13 && |DefaultCosts[3].0| == 15;
  }

  /** The default table seeded into a database that has no stored state: each name of
      `defaults` with its perturbed cost, confidence 0.83 and one sample. */
  method SeedDefaults(defaults: seq<(string, nat)>, seeds: seq<nat>) returns (m: map<string, Entry>)
    requires |seeds| == |defaults|
    requires forall i, j :: 0 <= i < j < |defaults| ==> defaults[i].0 != defaults[j].0
    ensures forall n :: n in m <==> exists i :: 0 <= i < |defaults| && defaults[i].0 == n
    ensures |m| == |defaults|
    ensures forall i :: 0 <= i < |defaults| ==>
              m[defaults[i].0] == Entry(Variability(defaults[i].1, seeds[i]), SeedConfidence, 1)
  {
    m := map[];
    for i := 0 to |defaults|
      invariant forall n :: n in m <==> exists j :: 0 <= j < i && defaults[j].0 == n
      invariant |m| == i
      invariant forall j :: 0 <= j < i ==>
                  m[defaults[j].0] == Entry(Variability(defaults[j].1, seeds[j]), SeedConfidence, 1)
    {
      var op := defaults[i].0;
      assert op !in m;
      ghost var before := m;
      m := m[op := Entry(Variability(defaults[i].1, seeds[i]), SeedConfidence, 1)];
      assert |m| == |before| + 1;
    }
  }

  /** The scan of the cost search: every entry whose perturbed cost lies within
      `tolerance` of `target`, once each, in the order the map yields them. */
  method CollectMatches(costs: map<string, Entry>, target: nat, tolerance: real,
                        costSeeds: map<string, nat>, confidenceSeeds: map<string, nat>)
    returns (found: seq<CostMatch>)
    requires costs.Keys <= costSeeds.Keys && costs.Keys <= confidenceSeeds.Keys
    ensures forall m :: m in found ==>
              m.name in costs && m == MatchOf(costs, m.name, costSeeds, confidenceSeeds)
              && Distance(m.cost, target) <= tolerance
    ensures forall n :: n in costs && Distance(Variability(costs[n].cost, costSeeds[n]), target) <= tolerance
              ==> exists m :: m in found && m.name == n
    ensures DistinctNames(found)
  {
    found := [];
    var remaining := costs.Keys;
    while remaining != {}
      invariant remaining <= costs.Keys
      invariant forall m :: m in found ==>
                  m.name in costs && m.name !in remaining && m == MatchOf(costs, m.name, costSeeds, confidenceSeeds)
                  && Distance(m.cost, target) <= tolerance
      invariant forall n :: n in costs && n !in remaining
                  && Distance(Variability(costs[n].cost, costSeeds[n]), target) <= tolerance
                  ==> exists m :: m in found && m.name == n
      invariant DistinctNames(found)
      decreases remaining
    {
      var n :| n in remaining;
      var variableCost := Variability(costs[n].cost, costSeeds[n]);
      if Distance(variableCost, target) <= tolerance {
        var confidence := VariableConfidence(costs[n].confidence, confidenceSeeds[n]);
        found := found + [CostMatch(n, variableCost, confidence)];
      }
      remaining := remaining - {n};
    }
  }

  /** The process-wide cost database. */
  class CostDatabase {
    var costs: map<string, Entry>
    var lastUpdated: Option<string>

    /** `load_cost_database`: the stored state when one could be read, otherwise a fresh
        database seeded from the default table. Reading and decoding the file is not part
        of this model; `stored` is its outcome. */
    constructor Load(stored: Option<CostDatabaseView>, seeds: seq<nat>)
      requires stored.None? ==> |seeds| == |DefaultCosts|
      ensures stored.Some? ==> costs == stored.value.costs && lastUpdated == stored.value.lastUpdated
      ensures stored.None? ==> lastUpdated == None
      ensures stored.None? ==> forall n :: n in costs <==> exists i :: 0 <= i < |DefaultCosts| && DefaultCosts[i].0 == n
      ensures stored.None? ==> forall i :: 0 <= i < |DefaultCosts| ==>
                costs[DefaultCosts[i].0] == Entry(Variability(DefaultCosts[i].1, seeds[i]), SeedConfidence, 1)
    {
      if stored.Some? {
        costs := stored.value.costs;
        lastUpdated := stored.value.lastUpdated;
      } else {
        DefaultNamesDistinct();
        var seeded := SeedDefaults(DefaultCosts, seeds);
        costs := seeded;
        lastUpdated := None;
      }
    }

    /** `get_cost_database`: a copy of the current state; loading it back restores it. */
    function Snapshot(): (v: CostDatabaseView)
      reads this
      ensures v.costs == costs && v.lastUpdated == lastUpdated
    {
      CostDatabaseView(costs, lastUpdated)
    }

    /** `update_cost_database`: blends a measurement into the entry for `op` and stamps
        the database with `stamp`, the local time of the update. */
    method Update(op: string, measured: nat, seed: nat, stamp: string)
      modifies this
      ensures costs == Upsert(old(costs), op, measured, seed)
      ensures lastUpdated == Some(stamp)
    {
      var variableCost := Variability(measured, seed);
      var entry := if op in costs then costs[op] else Entry(variableCost, SeedConfidence, 1);
      var newSamples := entry.samples + 1;
      var newCost := Blend(entry.cost, variableCost, entry.samples);
      var newConfidence := ConfidenceFor(newSamples);
      costs := costs[op := Entry(newCost, newConfidence, newSamples)];
      lastUpdated := Some(stamp);
    }

    /** `get_operation_cost`: the stored (unperturbed) cost of `op`; without an exact key,
        the cost of some key related to `op` by substring, whichever the map visits first. */
    method GetOperationCost(op: string) returns (r: Option<nat>)
      ensures op in costs ==> r == Some(costs[op].cost)
      ensures op !in costs && r.Some? ==> exists n :: n in costs && Related(op, n) && costs[n].cost == r.value
      ensures r.None? <==> forall n :: n in costs ==> !Related(op, n)
    {
      if op in costs {
        RelatedReflexive(op);
        return Some(costs[op].cost);
      }
      var remaining := costs.Keys;
      while remaining != {}
        invariant remaining <= costs.Keys
        invariant forall n :: n in costs && n !in remaining ==> !Related(op, n)
        decreases remaining
      {
        var n :| n in remaining;
        if Related(op, n) {
          return Some(costs[n].cost);
        }
        remaining := remaining - {n};
      }
      return None;
    }

    /** `find_operations_by_cost`: every entry whose perturbed cost lies within the
        perturbed tolerance of `target`, with its perturbed cost and confidence, ordered by
        the source's comparator. `costSeeds` and `confidenceSeeds` give the clock reading
        taken for each entry, `factorSeed` the one for the tolerance factor and `sortSeed`
        the one for the comparator. */
    method FindOperationsByCost(target: nat, tolerancePercent: real, factorSeed: nat,
                                costSeeds: map<string, nat>, confidenceSeeds: map<string, nat>,
                                sortSeed: nat)
      returns (matches: seq<CostMatch>)
      requires costs.Keys <= costSeeds.Keys && costs.Keys <= confidenceSeeds.Keys
      ensures forall m :: m in matches ==>
                m.name in costs && m == MatchOf(costs, m.name, costSeeds, confidenceSeeds)
                && Distance(m.cost, target) <= Tolerance(target, tolerancePercent, factorSeed)
                && m.confidence >= MinMatchConfidence
      ensures forall n :: n in costs
                && Distance(Variability(costs[n].cost, costSeeds[n]), target) <= Tolerance(target, tolerancePercent, factorSeed)
                ==> exists m :: m in matches && m.name == n
      ensures DistinctNames(matches)
      ensures forall i, j :: 0 <= i < j < |matches| ==>
                ComparatorKeeps(Distance(matches[i].cost, target), Distance(matches[j].cost, target),
                                Tolerance(target, tolerancePercent, factorSeed), sortSeed % 10 < 2)
      ensures sortSeed % 10 >= 2 ==> forall i, j :: 0 <= i < j < |matches| ==>
                Distance(matches[i].cost, target) <= Distance(matches[j].cost, target)
    {
      var tolerance := Tolerance(target, tolerancePercent, factorSeed);
      var swapNear := sortSeed % 10 < 2;
      var found := CollectMatches(costs, target, tolerance, costSeeds, confidenceSeeds);
      var key := (m: CostMatch) => Rank(Distance(m.cost, target), tolerance, swapNear);
      assert Distinct(found);
      matches := SortBy(found, key);
      SortByMembers(found, key);
      forall i, j | 0 <= i < j < |matches|
        ensures matches[i].name != matches[j].name
        ensures ComparatorKeeps(Distance(matches[i].cost, target), Distance(matches[j].cost, target), tolerance, swapNear)
      {
        assert matches[i] in found && matches[j] in found;
        RankAgreesWithComparator(Distance(matches[i].cost, target), Distance(matches[j].cost, target), tolerance, swapNear);
      }
    }
  }
}
