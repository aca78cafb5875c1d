/** `update_cost_database_from_circuit` and `analyze_circuit` as a whole: after the opcode
    loop, every bucket of `operation_types` may feed a measurement back into the cost
    database. A callee called exactly once gives its unit cost; the AssertZero bucket,
    once it holds at least ten opcodes, gives the circuit's total constraint count, black-box
    costs included, divided by the number of AssertZero opcodes. */
module Feedback {
  import opened Optional
  import opened Tallies
  import opened CostModel
  import opened Analyzer

  /** The bucket name that is never fed back. */
  const SkippedBucket: string := "BlackBoxFunction"

  /** The bucket fed back with the circuit's constraints per opcode of that bucket. */
  const AverageBucket: string := "AssertZero"

  /** Opcodes that bucket needs before its measurement is fed back. */
  const MinAverageInstances: nat := 10

  /** The integer average `total / count`, truncated as the source's `usize` division. */
  function Average(total: nat, count: nat): nat
    requires count > 0
  {
    total / count
  }

  /** The first record of `t` named `name` with exactly one call (`iter().find`). */
  function FindSingleUse(t: seq<BlackBoxUse>, name: string): (r: Option<BlackBoxUse>)
    ensures r.Some? ==> exists i :: 0 <= i < |t| && t[i] == r.value
    ensures r.Some? ==> r.value.name == name && r.value.count == 1
    ensures r.None? <==> forall i :: 0 <= i < |t| ==> !(t[i].name == name && t[i].count == 1)
  {
    if |t| == 0 then None
    else if t[0].name == name && t[0].count == 1 then Some(t[0])
    else
      var r := FindSingleUse(t[1..], name);
      assert forall i :: 1 <= i < |t| ==> t[1..][i - 1] == t[i];
      r
  }

  /** A bucket takes part in the feedback: it is not empty and not the skipped one. */
  predicate Eligible(name: string, instances: nat) {
    instances >= 1 && name != SkippedBucket
  }

  /** The updates, (name, measurement), that the bucket `name` of `instances` opcodes
      causes, in the order the source makes them. */
  function BucketCalls(name: string, instances: nat, a: CircuitAnalysis): seq<(string, nat)> {
    if !Eligible(name, instances) then []
    else
      var single := FindSingleUse(a.blackBoxFunctions, name);
      (if single.Some? then [(name, single.value.unitCost)] else [])
      + (if name == AverageBucket && instances >= MinAverageInstances then [(name, Average(a.constraints, instances))] else [])
  }

  /** A bucket that takes no part causes no update. An eligible one causes an update with
      the unit cost of the callee's record exactly when that record counts one call, and one
      with the integer average `constraints / instances` exactly when it is the AssertZero
      bucket with at least ten opcodes; every update is under the bucket's own name. */
  lemma {:induction false} BucketCallsSpec(name: string, instances: nat, a: CircuitAnalysis)
    requires forall i, j :: 0 <= i < j < |a.blackBoxFunctions| ==> a.blackBoxFunctions[i].name != a.blackBoxFunctions[j].name
    ensures !Eligible(name, instances) ==> BucketCalls(name, instances, a) == []
    ensures Eligible(name, instances) ==>
              |BucketCalls(name, instances, a)|
              == (if exists i :: 0 <= i < |a.blackBoxFunctions| && a.blackBoxFunctions[i].name == name
                                 && a.blackBoxFunctions[i].count == 1 then 1 else 0)
                 + (if name == AverageBucket && instances >= MinAverageInstances then 1 else 0)
    ensures Eligible(name, instances) ==>
              forall i :: 0 <= i < |a.blackBoxFunctions| && a.blackBoxFunctions[i].name == name
                          && a.blackBoxFunctions[i].count == 1
                          ==> BucketCalls(name, instances, a)[0] == (name, a.blackBoxFunctions[i].unitCost)
    ensures Eligible(name, instances) && name == AverageBucket && instances >= MinAverageInstances ==>
              var calls := BucketCalls(name, instances, a);
              calls[|calls| - 1] == (name, Average(a.constraints, instances))
  {
    var t := a.blackBoxFunctions;
    var single := FindSingleUse(t, name);
    if Eligible(name, instances) && single.Some? {
      var j :| 0 <= j < |t| && t[j] == single.value;
      forall i | 0 <= i < |t| && t[i].name == name && t[i].count == 1
        ensures BucketCalls(name, instances, a)[0] == (name, t[i].unitCost)
      {
        assert i == j;
      }
    }
  }

  /** The updates each bucket causes, by bucket name. */
  function BucketUpdates(buckets: map<string, nat>, a: CircuitAnalysis): map<string, seq<(string, nat)>> {
    map name | name in buckets :: BucketCalls(name, buckets[name], a)
  }

  /** Every bucket's updates are under the bucket's own name. */
  ghost predicate Labelled(per: map<string, seq<(string, nat)>>) {
    forall name, call :: name in per && call in per[name] ==> call.0 == name
  }

  /** The updates of the buckets `order`, visited in that order. */
  function FeedbackCalls(order: seq<string>, per: map<string, seq<(string, nat)>>): seq<(string, nat)> {
    if |order| == 0 then []
    else
      var n := |order| - 1;
      FeedbackCalls(order[..n], per) + (if order[n] in per then per[order[n]] else [])
  }

  /** Visiting one more bucket appends its updates. */
  lemma {:induction false} FeedbackCallsAppend(order: seq<string>, name: string, per: map<string, seq<(string, nat)>>)
    requires name in per
    ensures FeedbackCalls(order + [name], per) == FeedbackCalls(order, per) + per[name]
  {
    assert (order + [name])[..|order|] == order;
  }

  /** The updates among `calls` that are under the name `name`, in order. */
  function CallsFor(calls: seq<(string, nat)>, name: string): seq<(string, nat)> {
    if |calls| == 0 then []
    else
      var n := |calls| - 1;
      CallsFor(calls[..n], name) + (if calls[n].0 == name then [calls[n]] else [])
  }

  /** Picking the updates of one name distributes over concatenation. */
  lemma {:induction false} CallsForConcat(xs: seq<(string, nat)>, ys: seq<(string, nat)>, name: string)
    ensures CallsFor(xs + ys, name) == CallsFor(xs, name) + CallsFor(ys, name)
    decreases |ys|
  {
    if |ys| == 0 {
      assert xs + ys == xs;
    } else {
      var n := |ys| - 1;
      CallsForConcat(xs, ys[..n], name);
      assert (xs + ys)[..|xs| + n] == xs + ys[..n];
      assert (xs + ys)[|xs| + n] == ys[n];
    }
  }

  /** The updates all under one name are all picked for it and none for any other. */
  lemma {:induction false} CallsForUniform(calls: seq<(string, nat)>, m: string, name: string)
    requires forall call :: call in calls ==> call.0 == m
    ensures CallsFor(calls, name) == if m == name then calls else []
  {
    if |calls| > 0 {
      var n := |calls| - 1;
      assert forall call :: call in calls[..n] ==> call in calls;
      CallsForUniform(calls[..n], m, name);
      assert calls[n] in calls;
      assert calls[..n] + [calls[n]] == calls;
    }
  }

  /** Every update of the buckets `order` is under the name of one of them. */
  lemma {:induction false} FeedbackCallsNames(order: seq<string>, per: map<string, seq<(string, nat)>>)
    requires Labelled(per)
    ensures forall call :: call in FeedbackCalls(order, per) ==> call.0 in order
  {
    if |order| > 0 {
      var n := |order| - 1;
      var init, last := order[..n], order[n];
      FeedbackCallsNames(init, per);
      var mine := if last in per then per[last] else [];
      assert FeedbackCalls(order, per) == FeedbackCalls(init, per) + mine;
      assert forall k :: k in init ==> k in order;
    }
  }

  /** Every update a bucket causes is under the bucket's name. */
  lemma {:induction false} BucketCallsName(name: string, instances: nat, a: CircuitAnalysis)
    ensures forall call :: call in BucketCalls(name, instances, a) ==> call.0 == name
  {
  }

  /** The updates of all buckets are labelled by their buckets. */
  lemma {:induction false} BucketUpdatesLabelled(buckets: map<string, nat>, a: CircuitAnalysis)
    ensures Labelled(BucketUpdates(buckets, a))
  {
    forall name | name in buckets {
      BucketCallsName(name, buckets[name], a);
    }
  }

  /** Over the distinct buckets `order`, the updates under each name are exactly that
      bucket's updates when it is visited and none otherwise. */
  lemma {:induction false} FeedbackCallsByName(order: seq<string>, per: map<string, seq<(string, nat)>>, name: string)
    requires Labelled(per)
    requires forall i, j :: 0 <= i < j < |order| ==> order[i] != order[j]
    ensures CallsFor(FeedbackCalls(order, per), name)
            == if name in order && name in per then per[name] else []
  {
    if |order| > 0 {
      var n := |order| - 1;
      var init, last := order[..n], order[n];
      FeedbackCallsByName(init, per, name);
      var prev, mine := FeedbackCalls(init, per), if last in per then per[last] else [];
      assert FeedbackCalls(order, per) == prev + mine;
      CallsForConcat(prev, mine, name);
      CallsForUniform(mine, last, name);
      if name == last {
        assert order[n] == name;
        assert name !in init;
      } else if name in order {
        var j :| 0 <= j < |order| && order[j] == name;
        assert init[j] == name;
      }
    }
  }

  /** The feedback over an enumeration of the buckets: every update is under a bucket's
      name, and the updates under each bucket's name are that bucket's. */
  lemma {:induction false} FeedbackCallsSpec(order: seq<string>, buckets: map<string, nat>, a: CircuitAnalysis)
    requires Enumerates(order, buckets.Keys)
    ensures forall call :: call in FeedbackCalls(order, BucketUpdates(buckets, a)) ==> call.0 in buckets
    ensures forall name :: name in buckets ==>
              CallsFor(FeedbackCalls(order, BucketUpdates(buckets, a)), name) == BucketCalls(name, buckets[name], a)
  {
    var per := BucketUpdates(buckets, a);
    BucketUpdatesLabelled(buckets, a);
    FeedbackCallsNames(order, per);
    forall name | name in buckets
      ensures CallsFor(FeedbackCalls(order, per), name) == BucketCalls(name, buckets[name], a)
    {
      FeedbackCallsByName(order, per, name);
    }
  }

  /** The body of the feedback loop for one bucket: its updates made on `db`, numbered
      from `made` on. `origin` and `calls` are the contents before the pass and the updates
      made so far. */
  method FeedBucket(db: CostDatabase, name: string, instances: nat, a: CircuitAnalysis,
                    clock: nat -> nat, stamps: nat -> string, made: nat,
                    ghost origin: map<string, Entry>, ghost calls: seq<(string, nat)>)
    returns (total: nat)
    requires made == |calls|
    requires db.costs == ApplyUpdates(origin, calls, clock)
    modifies db
    ensures total == made + |BucketCalls(name, instances, a)|
    ensures db.costs == ApplyUpdates(origin, calls + BucketCalls(name, instances, a), clock)
    ensures db.lastUpdated == if total == made then old(db.lastUpdated) else Stamped(old(db.lastUpdated), total, stamps)
  {
    total := made;
    ghost var done := calls;
    if instances < 1 || name == SkippedBucket {
      assert calls + BucketCalls(name, instances, a) == calls;
      return;
    }
    var single := FindSingleUse(a.blackBoxFunctions, name);
    if single.Some? {
      var unitCost: nat := single.value.unitCost;
      total := FeedOne(db, name, unitCost, clock, stamps, total, origin, done);
      done := done + [(name, unitCost)];
    }
    if name == AverageBucket && instances >= MinAverageInstances {
      var average := Average(a.constraints, instances);
      total := FeedOne(db, name, average, clock, stamps, total, origin, done);
      done := done + [(name, average)];
    }
    assert done == calls + BucketCalls(name, instances, a);
  }

  /** One update of the feedback pass, the `made`-th: `value` measured for `name`. */
  method FeedOne(db: CostDatabase, name: string, value: nat, clock: nat -> nat, stamps: nat -> string,
                 made: nat, ghost origin: map<string, Entry>, ghost calls: seq<(string, nat)>)
    returns (total: nat)
    requires made == |calls|
    requires db.costs == ApplyUpdates(origin, calls, clock)
    modifies db
    ensures total == made + 1
    ensures db.costs == ApplyUpdates(origin, calls + [(name, value)], clock)
    ensures db.lastUpdated == Some(stamps(made))
  {
    ApplyUpdatesAppend(origin, calls, (name, value), clock);
    db.Update(name, value, clock(made), stamps(made));
    total := made + 1;
  }

  /** The database's last-update stamp after `made` updates of a pass that started at `prior`. */
  function Stamped(prior: Option<string>, made: nat, stamps: nat -> string): Option<string> {
    if made == 0 then prior else Some(stamps(made - 1))
  }

  /** `update_cost_database_from_circuit`: visits the buckets in the map's order and makes
      each bucket's updates on `db`, the `k`-th update of the pass perturbed by the clock
      reading `clock(k)` and stamped `stamps(k)`. Returns the visiting order and the updates
      made. Saving the database to its file is not part of this model. */
  method UpdateFromCircuit(db: CostDatabase, buckets: map<string, nat>, a: CircuitAnalysis,
                           clock: nat -> nat, stamps: nat -> string)
    returns (ghost order: seq<string>, ghost calls: seq<(string, nat)>)
    modifies db
    ensures Enumerates(order, buckets.Keys)
    ensures calls == FeedbackCalls(order, BucketUpdates(buckets, a))
    ensures db.costs == ApplyUpdates(old(db.costs), calls, clock)
    ensures db.lastUpdated == Stamped(old(db.lastUpdated), |calls|, stamps)
  {
    var names := KeyOrder(buckets.Keys);
    ghost var per := BucketUpdates(buckets, a);
    order, calls := names, [];
    var made := 0;
    for i := 0 to |names|
      invariant calls == FeedbackCalls(names[..i], per)
      invariant made == |calls|
      invariant db.costs == ApplyUpdates(old(db.costs), calls, clock)
      invariant db.lastUpdated == Stamped(old(db.lastUpdated), made, stamps)
    {
      var name := names[i];
      made := FeedBucket(db, name, buckets[name], a, clock, stamps, made, old(db.costs), calls);
      assert per[name] == BucketCalls(name, buckets[name], a);
      FeedbackCallsAppend(names[..i], name, per);
      assert names[..i + 1] == names[..i] + [name];
      calls := calls + BucketCalls(name, buckets[name], a);
    }
    assert names[..|names|] == names;
  }

  /** `analyze_circuit` on an already parsed circuit: the analysis against the database as
      it stands, then the feedback of its buckets into the database. `seeds` are the clock
      readings of the opcode lookups, `clock` and `stamps` those of the updates. */
  method AnalyzeCircuit(db: CostDatabase, c: Circuit, seeds: seq<nat>, clock: nat -> nat, stamps: nat -> string)
    returns (a: CircuitAnalysis, ghost order: seq<string>)
    requires |seeds| == |c.opcodes|
    modifies db
    ensures Describes(a, old(db.costs), c, seeds)
    ensures Enumerates(order, Tally(BucketNames(c.opcodes)).Keys)
    ensures db.costs == ApplyUpdates(old(db.costs), FeedbackCalls(order, BucketUpdates(Tally(BucketNames(c.opcodes)), a)), clock)
    ensures db.lastUpdated
            == Stamped(old(db.lastUpdated), |FeedbackCalls(order, BucketUpdates(Tally(BucketNames(c.opcodes)), a))|, stamps)
  {
    var buckets;
    a, buckets := AnalyzeOpcodes(db.costs, c, seeds);
    ghost var calls;
    order, calls := UpdateFromCircuit(db, buckets, a, clock, stamps);
  }
}
