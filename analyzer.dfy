/** The circuit analyzer: one pass over the opcodes of a compiled circuit that prices every
    opcode against the cost database and gathers the totals of a `CircuitAnalysis`.

    The circuit arrives already parsed. A JSON field that is absent, or is not a string
    where a string is read, is `None`; an absent array is the empty sequence, which the
    source treats the same way. */
module Analyzer {
  import opened Optional
  import opened Sorting
  import opened Tallies
  import opened CostModel

  /** One opcode object of the circuit, as the analyzer reads it:
      - `AssertZero`: type "AssertZero"; the `variable` of each of its `expression.terms`;
      - `BlackBox`: type "BlackBoxFunction"; its `function` name and the `variable` of each
        of its `inputs` and `outputs`;
      - `Other`: any other `type` string, or `None` when the type is missing. */
  datatype RawOpcode =
    | AssertZero(terms: seq<Option<string>>)
    | BlackBox(functionName: Option<string>, inputs: seq<Option<string>>, outputs: seq<Option<string>>)
    | Other(opType: Option<string>)

  /** An `Other` opcode never carries one of the two type names that have their own cases. */
  predicate WellTyped(op: RawOpcode) {
    !op.Other? || (op.opType != Some("AssertZero") && op.opType != Some("BlackBoxFunction"))
  }

  type Opcode = op: RawOpcode | WellTyped(op) witness AssertZero([])

  /** A parsed circuit: its opcodes, the lengths of its `public_inputs` and `return_values`
      arrays (0 when absent) and the number of keys of its `witnesses` object, if it has one. */
  datatype Circuit = Circuit(opcodes: seq<Opcode>, publicInputs: nat, returnValues: nat,
                             witnesses: Option<nat>)

  /** One record of `black_box_functions`: callee name, number of calls, cost of the first call. */
  datatype BlackBoxUse = BlackBoxUse(name: string, count: nat, unitCost: nat)

  /** The analysis of a circuit. The estimated proving time is not part of this model. */
  datatype CircuitAnalysis = CircuitAnalysis(
    constraints: nat,
    bottlenecks: seq<(string, nat)>,
    totalOpcodes: nat,
    operationCounts: seq<(string, nat)>,
    blackBoxFunctions: seq<BlackBoxUse>,
    publicInputs: nat,
    privateInputs: nat,
    returnValues: nat,
    confidence: real)

  /** An opcode whose cost exceeds this is reported as a bottleneck. */
  const BottleneckThreshold: nat := 10_000

  /** Confidence in the cost of an AssertZero opcode. */
  const ConstraintConfidence: real := 0.98

  /** Confidence in the cost of an opcode of any other, non-black-box type. */
  const OtherConfidence: real := 0.9

  /** The name a black-box call is priced and counted under. */
  function CalleeName(op: Opcode): string
    requires op.BlackBox?
  {
    op.functionName.GetOr("unknown")
  }

  /** The key an opcode is counted under in `operation_counts`. */
  function Category(op: Opcode): string {
    match op
    case AssertZero(_) => "Constraint"
    case BlackBox(_, _, _) => "External"
    case Other(t) => t.GetOr("Unknown")
  }

  /** The key an opcode is filed under in `operation_types`, the buckets that feed the
      cost database back. */
  function Bucket(op: Opcode): string {
    match op
    case AssertZero(_) => "AssertZero"
    case BlackBox(_, _, _) => CalleeName(op)
    case Other(t) => t.GetOr("Unknown")
  }

  /** Cost of an AssertZero opcode with `t` terms: one constraint per four terms, rounded
      up, and one for an empty expression. */
  function AssertZeroCost(t: nat): (c: nat)
    ensures t > 0 ==> 4 * (c - 1) < t <= 4 * c
    ensures t == 0 ==> c == 1
    ensures c >= 1
  {
    if t > 0 then (t + 3) / 4 else 1
  }

  /** (cost, confidence) of one opcode; `seed` is the clock reading the database lookup of
      a black-box call perturbs its cost with. */
  function OpDetails(costs: map<string, Entry>, op: Opcode, seed: nat): (nat, real) {
    match op
    case BlackBox(_, _, _) => OperationDetails(costs, CalleeName(op), seed)
    case AssertZero(terms) => (AssertZeroCost(|terms|), ConstraintConfidence)
    case Other(_) => (1, OtherConfidence)
  }

  /** The sum of a sequence of costs. */
  function Sum(s: seq<nat>): nat {
    if |s| == 0 then 0 else Sum(s[..|s| - 1]) + s[|s| - 1]
  }

  /** The cost of each opcode, in opcode order. */
  function Costs(costs: map<string, Entry>, ops: seq<Opcode>, seeds: seq<nat>): (cs: seq<nat>)
    requires |seeds| == |ops|
    ensures |cs| == |ops|
    ensures forall i :: 0 <= i < |ops| ==> cs[i] == OpDetails(costs, ops[i], seeds[i]).0
  {
    if |ops| == 0 then []
    else Costs(costs, ops[..|ops| - 1], seeds[..|seeds| - 1]) + [OpDetails(costs, ops[|ops| - 1], seeds[|seeds| - 1]).0]
  }

  /** The confidence in each opcode's cost, in opcode order. */
  function Confidences(costs: map<string, Entry>, ops: seq<Opcode>, seeds: seq<nat>): (cf: seq<real>)
    requires |seeds| == |ops|
    ensures |cf| == |ops|
    ensures forall i :: 0 <= i < |ops| ==> cf[i] == OpDetails(costs, ops[i], seeds[i]).1
  {
    if |ops| == 0 then []
    else Confidences(costs, ops[..|ops| - 1], seeds[..|seeds| - 1]) + [OpDetails(costs, ops[|ops| - 1], seeds[|seeds| - 1]).1]
  }

  /** The category of each opcode, in opcode order. */
  function Categories(ops: seq<Opcode>): (ks: seq<string>)
    ensures |ks| == |ops|
    ensures forall i :: 0 <= i < |ops| ==> ks[i] == Category(ops[i])
  {
    if |ops| == 0 then [] else Categories(ops[..|ops| - 1]) + [Category(ops[|ops| - 1])]
  }

  /** The bucket of each opcode, in opcode order. */
  function BucketNames(ops: seq<Opcode>): (ks: seq<string>)
    ensures |ks| == |ops|
    ensures forall i :: 0 <= i < |ops| ==> ks[i] == Bucket(ops[i])
  {
    if |ops| == 0 then [] else BucketNames(ops[..|ops| - 1]) + [Bucket(ops[|ops| - 1])]
  }

  /** (category, cost) of every opcode costing more than the threshold, in opcode order,
      from the categories and costs of the opcodes. */
  function Bottlenecks(cats: seq<string>, cs: seq<nat>): seq<(string, nat)>
    requires |cats| == |cs|
  {
    if |cs| == 0 then []
    else
      var prev := Bottlenecks(cats[..|cats| - 1], cs[..|cs| - 1]);
      if cs[|cs| - 1] > BottleneckThreshold then prev + [(cats[|cats| - 1], cs[|cs| - 1])] else prev
  }

  /** The positions of the costs above the threshold, in increasing order. */
  function BottleneckPositions(cs: seq<nat>): (p: seq<nat>)
    ensures forall k :: 0 <= k < |p| ==> p[k] < |cs|
  {
    if |cs| == 0 then []
    else if cs[|cs| - 1] > BottleneckThreshold then BottleneckPositions(cs[..|cs| - 1]) + [|cs| - 1]
    else BottleneckPositions(cs[..|cs| - 1])
  }

  /** `b` holds, for each position of `p` in turn, the category and cost there; `p` holds
      in increasing order exactly the positions whose cost is above the threshold. */
  ghost predicate PicksBottlenecks(b: seq<(string, nat)>, p: seq<nat>, cats: seq<string>, cs: seq<nat>)
    requires |cats| == |cs|
  {
    && |b| == |p|
    && (forall k :: 0 <= k < |p| ==> p[k] < |cs| && b[k] == (cats[p[k]], cs[p[k]]))
    && (forall k1, k2 :: 0 <= k1 < k2 < |p| ==> p[k1] < p[k2])
    && (forall i :: i in p <==> 0 <= i < |cs| && cs[i] > BottleneckThreshold)
  }

  /** The bottlenecks are exactly the opcodes costing more than the threshold, one each,
      in opcode order, each tagged with its category and its cost. */
  lemma {:induction false} BottlenecksSpec(cats: seq<string>, cs: seq<nat>)
    requires |cats| == |cs|
    ensures PicksBottlenecks(Bottlenecks(cats, cs), BottleneckPositions(cs), cats, cs)
  {
    if |cs| > 0 {
      var n := |cs| - 1;
      var cats0, cs0 := cats[..n], cs[..n];
      BottlenecksSpec(cats0, cs0);
      var b0, p0 := Bottlenecks(cats0, cs0), BottleneckPositions(cs0);
      var b, p := Bottlenecks(cats, cs), BottleneckPositions(cs);
      var extra := cs[n] > BottleneckThreshold;
      assert b == if extra then b0 + [(cats[n], cs[n])] else b0;
      assert p == if extra then p0 + [n] else p0;
      forall k | 0 <= k < |p|
        ensures p[k] < |cs| && b[k] == (cats[p[k]], cs[p[k]])
      {
        if k < |p0| {
          assert p[k] == p0[k] && b[k] == b0[k];
          assert cats0[p0[k]] == cats[p0[k]] && cs0[p0[k]] == cs[p0[k]];
        }
      }
      forall k1, k2 | 0 <= k1 < k2 < |p|
        ensures p[k1] < p[k2]
      {
        assert p[k1] == p0[k1];
        if k2 < |p0| {
          assert p[k2] == p0[k2];
        }
      }
      forall i
        ensures i in p <==> 0 <= i < |cs| && cs[i] > BottleneckThreshold
      {
        assert i in p <==> i in p0 || (extra && i == n);
        assert 0 <= i < n ==> cs0[i] == cs[i];
      }
    }
  }

  /** (callee name, cost) of every black-box opcode, in opcode order, from the opcodes and
      their costs. */
  function BlackBoxCalls(ops: seq<Opcode>, cs: seq<nat>): seq<(string, nat)>
    requires |cs| == |ops|
  {
    if |ops| == 0 then []
    else
      var prev := BlackBoxCalls(ops[..|ops| - 1], cs[..|cs| - 1]);
      var op := ops[|ops| - 1];
      if op.BlackBox? then prev + [(CalleeName(op), cs[|cs| - 1])] else prev
  }

  /** The positions of the black-box opcodes, in increasing order. */
  function BlackBoxPositions(ops: seq<Opcode>): (p: seq<nat>)
    ensures forall k :: 0 <= k < |p| ==> p[k] < |ops|
  {
    if |ops| == 0 then []
    else if ops[|ops| - 1].BlackBox? then BlackBoxPositions(ops[..|ops| - 1]) + [|ops| - 1]
    else BlackBoxPositions(ops[..|ops| - 1])
  }

  /** `calls` holds, for each position of `p` in turn, the callee and cost there; `p` holds
      in increasing order exactly the positions of the black-box opcodes. */
  ghost predicate PicksCalls(calls: seq<(string, nat)>, p: seq<nat>, ops: seq<Opcode>, cs: seq<nat>)
    requires |cs| == |ops|
  {
    && |calls| == |p|
    && (forall k :: 0 <= k < |p| ==> p[k] < |ops| && ops[p[k]].BlackBox? && calls[k] == (CalleeName(ops[p[k]]), cs[p[k]]))
    && (forall k1, k2 :: 0 <= k1 < k2 < |p| ==> p[k1] < p[k2])
    && (forall i :: i in p <==> 0 <= i < |ops| && ops[i].BlackBox?)
  }

  /** The black-box calls are exactly the black-box opcodes, in opcode order, each with its
      callee name and its cost. */
  lemma {:induction false} BlackBoxCallsSpec(ops: seq<Opcode>, cs: seq<nat>)
    requires |cs| == |ops|
    ensures PicksCalls(BlackBoxCalls(ops, cs), BlackBoxPositions(ops), ops, cs)
  {
    if |ops| > 0 {
      var n := |ops| - 1;
      var ops0, cs0 := ops[..n], cs[..n];
      BlackBoxCallsSpec(ops0, cs0);
      if ops[n].BlackBox? {
        BlackBoxCallsExtend(ops, cs);
      } else {
        BlackBoxCallsSkip(ops, cs);
      }
    }
  }

  /** A last opcode that is not a black-box call adds nothing. */
  lemma {:induction false} BlackBoxCallsSkip(ops: seq<Opcode>, cs: seq<nat>)
    requires |cs| == |ops| > 0 && !ops[|ops| - 1].BlackBox?
    requires PicksCalls(BlackBoxCalls(ops[..|ops| - 1], cs[..|ops| - 1]), BlackBoxPositions(ops[..|ops| - 1]), ops[..|ops| - 1], cs[..|ops| - 1])
    ensures PicksCalls(BlackBoxCalls(ops, cs), BlackBoxPositions(ops), ops, cs)
  {
    var n := |ops| - 1;
    var ops0, cs0 := ops[..n], cs[..n];
    var b0, p0 := BlackBoxCalls(ops0, cs0), BlackBoxPositions(ops0);
    var b, p := BlackBoxCalls(ops, cs), BlackBoxPositions(ops);
    assert b == b0 && p == p0;
    forall k | 0 <= k < |p|
      ensures p[k] < |ops| && ops[p[k]].BlackBox? && b[k] == (CalleeName(ops[p[k]]), cs[p[k]])
    {
      assert ops0[p0[k]] == ops[p0[k]] && cs0[p0[k]] == cs[p0[k]];
    }
    forall i
      ensures i in p <==> 0 <= i < |ops| && ops[i].BlackBox?
    {
      assert i in p <==> i in p0;
      assert 0 <= i < n ==> ops0[i] == ops[i];
    }
  }

  /** A last opcode that is a black-box call adds its call at its position. */
  lemma {:induction false} BlackBoxCallsExtend(ops: seq<Opcode>, cs: seq<nat>)
    requires |cs| == |ops| > 0 && ops[|ops| - 1].BlackBox?
    requires PicksCalls(BlackBoxCalls(ops[..|ops| - 1], cs[..|ops| - 1]), BlackBoxPositions(ops[..|ops| - 1]), ops[..|ops| - 1], cs[..|ops| - 1])
    ensures PicksCalls(BlackBoxCalls(ops, cs), BlackBoxPositions(ops), ops, cs)
  {
    var n := |ops| - 1;
    var ops0, cs0 := ops[..n], cs[..n];
    var b0, p0 := BlackBoxCalls(ops0, cs0), BlackBoxPositions(ops0);
    var b, p := BlackBoxCalls(ops, cs), BlackBoxPositions(ops);
    assert b == b0 + [(CalleeName(ops[n]), cs[n])];
    assert p == p0 + [n];
    forall k | 0 <= k < |p|
      ensures p[k] < |ops| && ops[p[k]].BlackBox? && b[k] == (CalleeName(ops[p[k]]), cs[p[k]])
    {
      if k < |p0| {
        assert p[k] == p0[k] && b[k] == b0[k];
        assert ops0[p0[k]] == ops[p0[k]] && cs0[p0[k]] == cs[p0[k]];
      }
    }
    forall k1, k2 | 0 <= k1 < k2 < |p|
      ensures p[k1] < p[k2]
    {
      assert p[k1] == p0[k1];
      if k2 < |p0| {
        assert p[k2] == p0[k2];
      }
    }
    forall i
      ensures i in p <==> 0 <= i < |ops| && ops[i].BlackBox?
    {
      assert i in p <==> i in p0 || i == n;
      assert 0 <= i < n ==> ops0[i] == ops[i];
    }
  }

  /** Position of the first index of `ks` holding `k`; `|ks|` when there is none. */
  function FirstIndex(ks: seq<string>, k: string): (r: nat)
    ensures r <= |ks|
    ensures r < |ks| <==> k in ks
    ensures r < |ks| ==> ks[r] == k
  {
    if |ks| == 0 then 0
    else
      var f := FirstIndex(ks[..|ks| - 1], k);
      if f < |ks| - 1 then f else if ks[|ks| - 1] == k then |ks| - 1 else |ks|
  }

  /** Position of the first record of `t` named `name` (`position` over the records);
      `|t|` when there is none. */
  function IndexOfName(t: seq<BlackBoxUse>, name: string): (k: nat)
    ensures k <= |t|
    ensures k < |t| ==> t[k].name == name
    ensures forall j :: 0 <= j < k ==> t[j].name != name
  {
    if |t| == 0 then 0 else if t[0].name == name then 0 else 1 + IndexOfName(t[1..], name)
  }

  /** One black-box call recorded in the table: the first record with its name counts one
      more call; a name not yet recorded is appended with one call and this call's cost. */
  function RecordUse(t: seq<BlackBoxUse>, call: (string, nat)): seq<BlackBoxUse> {
    var k := IndexOfName(t, call.0);
    if k < |t| then t[k := t[k].(count := t[k].count + 1)] else t + [BlackBoxUse(call.0, 1, call.1)]
  }

  /** The table `black_box_functions` after recording `calls` in order. */
  function UsageTable(calls: seq<(string, nat)>): seq<BlackBoxUse> {
    if |calls| == 0 then [] else RecordUse(UsageTable(calls[..|calls| - 1]), calls[|calls| - 1])
  }

  /** `t` is the table of the calls with names `names` and costs `cs`: each record's name
      is called, the record counts all calls of its name and has the cost of the first of
      them, no called name is missing, and the records follow the order of first call. */
  ghost predicate RecordsUses(t: seq<BlackBoxUse>, names: seq<string>, cs: seq<nat>)
    requires |names| == |cs|
  {
    && (forall i :: 0 <= i < |t| ==> t[i].name in names)
    && (forall i :: 0 <= i < |t| ==> t[i].count == CountOf(names, t[i].name))
    && (forall i :: 0 <= i < |t| ==> FirstIndex(names, t[i].name) < |cs| && t[i].unitCost == cs[FirstIndex(names, t[i].name)])
    && (forall n :: n in names ==> exists i :: 0 <= i < |t| && t[i].name == n)
    && (forall i :: 0 < i < |t| ==> FirstIndex(names, t[i - 1].name) < FirstIndex(names, t[i].name))
  }

  /** The records of such a table are in strictly increasing order of first call, so no
      name has two records. */
  lemma {:induction false} RecordsUsesOrdered(t: seq<BlackBoxUse>, names: seq<string>, cs: seq<nat>, i: nat, j: nat)
    requires |names| == |cs|
    requires RecordsUses(t, names, cs)
    requires i < j < |t|
    ensures FirstIndex(names, t[i].name) < FirstIndex(names, t[j].name)
    ensures t[i].name != t[j].name
    decreases j
  {
    if i < j - 1 {
      RecordsUsesOrdered(t, names, cs, i, j - 1);
    }
  }

  /** No position before the one `FirstIndex` finds holds `k`. */
  lemma {:induction false} FirstIndexIsFirst(ks: seq<string>, k: string, j: nat)
    requires j < FirstIndex(ks, k)
    ensures ks[j] != k
  {
    var n := |ks| - 1;
    if j < n && j < FirstIndex(ks[..n], k) {
      FirstIndexIsFirst(ks[..n], k, j);
      assert ks[..n][j] == ks[j];
    }
  }

  /** Appending a name leaves the first position of every name already present. */
  lemma {:induction false} FirstIndexAppend(ks: seq<string>, k: string, x: string)
    ensures x in ks ==> FirstIndex(ks + [k], x) == FirstIndex(ks, x)
    ensures x !in ks && x == k ==> FirstIndex(ks + [k], x) == |ks|
  {
    assert (ks + [k])[..|ks|] == ks;
  }

  /** What a call records leaves each earlier name's first position, and counts a call
      of `name` once more. */
  lemma {:induction false} RecordKept(t: seq<BlackBoxUse>, names: seq<string>, cs: seq<nat>, name: string, cost: nat, i: nat)
    requires |names| == |cs|
    requires RecordsUses(t, names, cs)
    requires i < |t|
    ensures t[i].name in names + [name]
    ensures CountOf(names + [name], t[i].name) == CountOf(names, t[i].name) + (if t[i].name == name then 1 else 0)
    ensures FirstIndex(names + [name], t[i].name) == FirstIndex(names, t[i].name) < |cs|
    ensures (cs + [cost])[FirstIndex(names, t[i].name)] == t[i].unitCost
  {
    CountOfAppend(names, name, t[i].name);
    FirstIndexAppend(names, name, t[i].name);
  }

  /** A call to a name already recorded keeps each record's name, first position and
      cost, and counts the call on the record of its name. */
  lemma {:induction false} RecordUseExistingAt(t: seq<BlackBoxUse>, names: seq<string>, cs: seq<nat>, name: string, cost: nat, i: nat)
    requires |names| == |cs|
    requires RecordsUses(t, names, cs)
    requires IndexOfName(t, name) < |t|
    requires i < |t|
    ensures |RecordUse(t, (name, cost))| == |t|
    ensures var r := RecordUse(t, (name, cost))[i];
            && r.name == t[i].name && r.name in names + [name]
            && r.count == CountOf(names + [name], r.name)
            && FirstIndex(names + [name], r.name) == FirstIndex(names, t[i].name) < |cs|
            && r.unitCost == (cs + [cost])[FirstIndex(names + [name], r.name)]
  {
    var k := IndexOfName(t, name);
    var t' := RecordUse(t, (name, cost));
    assert t' == t[k := t[k].(count := t[k].count + 1)];
    RecordKept(t, names, cs, name, cost, i);
    if i == k {
      assert t'[i] == t[i].(count := t[i].count + 1);
    } else {
      if k < i {
        RecordsUsesOrdered(t, names, cs, k, i);
      }
      assert t'[i] == t[i];
    }
  }

  /** A call to a name already recorded counts one more call on its record. */
  lemma {:induction false} RecordUseExisting(t: seq<BlackBoxUse>, names: seq<string>, cs: seq<nat>, name: string, cost: nat)
    requires |names| == |cs|
    requires RecordsUses(t, names, cs)
    requires IndexOfName(t, name) < |t|
    ensures RecordsUses(RecordUse(t, (name, cost)), names + [name], cs + [cost])
  {
    var k := IndexOfName(t, name);
    var t' := RecordUse(t, (name, cost));
    var names', cs' := names + [name], cs + [cost];
    RecordUseExistingAt(t, names, cs, name, cost, k);
    forall i | 0 <= i < |t'|
      ensures t'[i].name == t[i].name && t'[i].name in names'
      ensures t'[i].count == CountOf(names', t'[i].name)
      ensures FirstIndex(names', t'[i].name) == FirstIndex(names, t[i].name) < |cs|
      ensures t'[i].unitCost == cs'[FirstIndex(names', t'[i].name)]
    {
      RecordUseExistingAt(t, names, cs, name, cost, i);
    }
    forall n | n in names'
      ensures exists i :: 0 <= i < |t'| && t'[i].name == n
    {
      if n == name {
        assert t'[k].name == n;
      } else {
        assert n in names;
        var i :| 0 <= i < |t| && t[i].name == n;
        assert t'[i].name == n;
      }
    }
  }

  /** A call to a name not yet recorded keeps every record, and the record it appends
      counts one call, at this call's cost, first called at the new last position. */
  lemma {:induction false} RecordUseNewAt(t: seq<BlackBoxUse>, names: seq<string>, cs: seq<nat>, name: string, cost: nat, i: nat)
    requires |names| == |cs|
    requires RecordsUses(t, names, cs)
    requires IndexOfName(t, name) == |t|
    requires i <= |t|
    ensures |RecordUse(t, (name, cost))| == |t| + 1
    ensures var r := RecordUse(t, (name, cost))[i];
            && r.name in names + [name] && r.count == CountOf(names + [name], r.name)
            && FirstIndex(names + [name], r.name) < |cs| + 1
            && r.unitCost == (cs + [cost])[FirstIndex(names + [name], r.name)]
            && (i < |t| ==> r == t[i] && FirstIndex(names + [name], r.name) == FirstIndex(names, t[i].name) < |names|)
            && (i == |t| ==> r.name == name && FirstIndex(names + [name], r.name) == |names|)
  {
    var t' := RecordUse(t, (name, cost));
    assert t' == t + [BlackBoxUse(name, 1, cost)];
    if i < |t| {
      assert t'[i] == t[i];
      RecordKept(t, names, cs, name, cost, i);
    } else {
      assert name !in names;
      CountOfAbsent(names, name);
      CountOfAppend(names, name, name);
      FirstIndexAppend(names, name, name);
    }
  }

  /** A call to a name not yet recorded appends a record of one call at this call's cost. */
  lemma {:induction false} RecordUseNew(t: seq<BlackBoxUse>, names: seq<string>, cs: seq<nat>, name: string, cost: nat)
    requires |names| == |cs|
    requires RecordsUses(t, names, cs)
    requires IndexOfName(t, name) == |t|
    ensures RecordsUses(RecordUse(t, (name, cost)), names + [name], cs + [cost])
  {
    var t' := RecordUse(t, (name, cost));
    var names', cs' := names + [name], cs + [cost];
    forall i | 0 <= i < |t'|
      ensures t'[i].name in names' && t'[i].count == CountOf(names', t'[i].name)
      ensures FirstIndex(names', t'[i].name) < |cs'|
      ensures t'[i].unitCost == cs'[FirstIndex(names', t'[i].name)]
      ensures i < |t| ==> t'[i] == t[i] && FirstIndex(names', t'[i].name) == FirstIndex(names, t[i].name) < |names|
      ensures i == |t| ==> t'[i].name == name && FirstIndex(names', t'[i].name) == |names|
    {
      RecordUseNewAt(t, names, cs, name, cost, i);
    }
    forall n | n in names'
      ensures exists i :: 0 <= i < |t'| && t'[i].name == n
    {
      if n == name {
        assert t'[|t|].name == n;
      } else {
        assert n in names;
        var i :| 0 <= i < |t| && t[i].name == n;
        assert t'[i].name == n;
      }
    }
  }

  /** The costs of a sequence of calls. */
  function CallCosts(calls: seq<(string, nat)>): (cs: seq<nat>)
    ensures |cs| == |calls|
    ensures forall i :: 0 <= i < |calls| ==> cs[i] == calls[i].1
  {
    if |calls| == 0 then [] else CallCosts(calls[..|calls| - 1]) + [calls[|calls| - 1].1]
  }

  /** `UsageTable` builds the table of its calls. */
  lemma {:induction false} UsageTableSpec(calls: seq<(string, nat)>)
    ensures RecordsUses(UsageTable(calls), Names(calls), CallCosts(calls))
  {
    if |calls| > 0 {
      var init := calls[..|calls| - 1];
      var last := calls[|calls| - 1];
      UsageTableSpec(init);
      assert Names(calls) == Names(init) + [last.0];
      assert CallCosts(calls) == CallCosts(init) + [last.1];
      if IndexOfName(UsageTable(init), last.0) < |UsageTable(init)| {
        RecordUseExisting(UsageTable(init), Names(init), CallCosts(init), last.0, last.1);
      } else {
        RecordUseNew(UsageTable(init), Names(init), CallCosts(init), last.0, last.1);
      }
    }
  }

  /** The running confidence: the first nonzero value is taken as is, every later one is
      averaged with the value so far. */
  function RunningConfidence(confs: seq<real>): real {
    if |confs| == 0 then 0.0
    else
      var prev := RunningConfidence(confs[..|confs| - 1]);
      var c := confs[|confs| - 1];
      if prev == 0.0 then c else (prev + c) / 2.0
  }

  /** With positive values between `lo` and `hi`, the running confidence stays between
      them, and it is 0 only for no values. */
  lemma {:induction false} RunningConfidenceBounds(confs: seq<real>, lo: real, hi: real)
    requires 0.0 < lo
    requires forall i :: 0 <= i < |confs| ==> lo <= confs[i] <= hi
    ensures |confs| > 0 ==> lo <= RunningConfidence(confs) <= hi
    ensures RunningConfidence(confs) == 0.0 <==> |confs| == 0
  {
    if |confs| > 0 {
      var init := confs[..|confs| - 1];
      assert forall i :: 0 <= i < |init| ==> init[i] == confs[i];
      RunningConfidenceBounds(init, lo, hi);
    }
  }

  /** The running confidence of no values is 0, and that of one value is that value. */
  lemma {:induction false} RunningConfidenceShort(confs: seq<real>)
    ensures |confs| == 0 ==> RunningConfidence(confs) == 0.0
    ensures |confs| == 1 ==> RunningConfidence(confs) == confs[0]
  {
    if |confs| == 1 {
      assert RunningConfidence(confs[..0]) == 0.0;
    }
  }

  /** The variables named by a sequence of terms, inputs or outputs. */
  function VarsOf(s: seq<Option<string>>): (vs: set<string>)
    ensures forall v :: v in vs <==> Some(v) in s
  {
    if |s| == 0 then {}
    else
      var last := s[|s| - 1];
      assert forall x :: x in s <==> x in s[..|s| - 1] || x == last;
      VarsOf(s[..|s| - 1]) + (if last.Some? then {last.value} else {})
  }

  /** The variables an opcode mentions: the terms of an AssertZero, the inputs and outputs
      of a black-box call, none for any other type. */
  function OpVars(op: Opcode): set<string> {
    match op
    case AssertZero(terms) => VarsOf(terms)
    case BlackBox(_, inputs, outputs) => VarsOf(inputs) + VarsOf(outputs)
    case Other(_) => {}
  }

  /** The distinct variable names of all opcodes. */
  function WitnessNames(ops: seq<Opcode>): set<string> {
    if |ops| == 0 then {} else WitnessNames(ops[..|ops| - 1]) + OpVars(ops[|ops| - 1])
  }

  /** A name is a witness name exactly when some opcode mentions it. */
  lemma {:induction false} WitnessNamesSpec(ops: seq<Opcode>, v: string)
    ensures v in WitnessNames(ops) <==> exists i :: 0 <= i < |ops| && v in OpVars(ops[i])
  {
    if |ops| > 0 {
      var n := |ops| - 1;
      var init := ops[..n];
      WitnessNamesSpec(init, v);
      if v in WitnessNames(init) {
        var i :| 0 <= i < n && v in OpVars(init[i]);
        assert init[i] == ops[i];
      } else if v !in OpVars(ops[n]) {
        forall i | 0 <= i < |ops|
          ensures v !in OpVars(ops[i])
        {
          if i < n {
            assert init[i] == ops[i];
          }
        }
      }
    }
  }

  /** The witness count: the size of the `witnesses` object when there is one, otherwise
      the number of distinct variable names in the opcodes. */
  function WitnessCount(c: Circuit): nat {
    match c.witnesses
    case Some(n) => n
    case None => |WitnessNames(c.opcodes)|
  }

  /** Private inputs: the witnesses that are not public inputs, and 0 when there are more
      public inputs than witnesses. */
  function PrivateInputs(witnesses: nat, publicInputs: nat): (r: nat)
    ensures witnesses >= publicInputs ==> r + publicInputs == witnesses
    ensures witnesses < publicInputs ==> r == 0
  {
    if witnesses >= publicInputs then witnesses - publicInputs else 0
  }

  /** `a` is the analysis of circuit `c` against the database contents `costs`, with
      `seeds` the clock readings the black-box lookups are perturbed with. */
  ghost predicate Describes(a: CircuitAnalysis, costs: map<string, Entry>, c: Circuit, seeds: seq<nat>)
    requires |seeds| == |c.opcodes|
  {
    && a.constraints == Sum(Costs(costs, c.opcodes, seeds))
    && a.totalOpcodes == |c.opcodes|
    && Lists(a.operationCounts, Tally(Categories(c.opcodes)))
    && (forall i, j :: 0 <= i < j < |a.operationCounts| ==> a.operationCounts[i].1 >= a.operationCounts[j].1)
    && a.bottlenecks == Bottlenecks(Categories(c.opcodes), Costs(costs, c.opcodes, seeds))
    && a.blackBoxFunctions == UsageTable(BlackBoxCalls(c.opcodes, Costs(costs, c.opcodes, seeds)))
    && a.publicInputs == c.publicInputs
    && a.privateInputs == PrivateInputs(WitnessCount(c), c.publicInputs)
    && a.returnValues == c.returnValues
    && a.confidence == RunningConfidence(Confidences(costs, c.opcodes, seeds))
  }

  /** Adds the variables of `vars` to `seen`, one term at a time. */
  method InsertVariables(seen: set<string>, vars: seq<Option<string>>) returns (r: set<string>)
    ensures r == seen + VarsOf(vars)
  {
    r := seen;
    for i := 0 to |vars|
      invariant r == seen + VarsOf(vars[..i])
    {
      assert vars[..i + 1][..i] == vars[..i];
      if vars[i].Some? {
        r := r + {vars[i].value};
      }
    }
    assert vars[..|vars|] == vars;
  }

  /** The witness count of the circuit, collecting variable names into a set when the
      circuit has no `witnesses` object. */
  method CountWitnesses(c: Circuit) returns (n: nat)
    ensures n == WitnessCount(c)
  {
    if c.witnesses.Some? {
      return c.witnesses.value;
    }
    var seen: set<string> := {};
    for i := 0 to |c.opcodes|
      invariant seen == WitnessNames(c.opcodes[..i])
    {
      assert c.opcodes[..i + 1][..i] == c.opcodes[..i];
      match c.opcodes[i] {
        case AssertZero(terms) =>
          seen := InsertVariables(seen, terms);
        case BlackBox(_, inputs, outputs) =>
          seen := InsertVariables(seen, inputs);
          seen := InsertVariables(seen, outputs);
        case Other(_) =>
      }
    }
    assert c.opcodes[..|c.opcodes|] == c.opcodes;
    n := |seen|;
  }

  /** One more cost adds to the sum. */
  lemma {:induction false} SumAppend(cs: seq<nat>, cost: nat)
    ensures Sum(cs + [cost]) == Sum(cs) + cost
  {
    assert (cs + [cost])[..|cs|] == cs;
  }

  /** One more opcode is one more bottleneck exactly when it costs more than the threshold. */
  lemma {:induction false} BottlenecksAppend(cats: seq<string>, cs: seq<nat>, cat: string, cost: nat)
    requires |cats| == |cs|
    ensures Bottlenecks(cats + [cat], cs + [cost])
            == Bottlenecks(cats, cs) + (if cost > BottleneckThreshold then [(cat, cost)] else [])
  {
    assert (cs + [cost])[..|cs|] == cs;
    assert (cats + [cat])[..|cats|] == cats;
  }

  /** One more call is recorded into the table. */
  lemma {:induction false} UsageTableAppend(calls: seq<(string, nat)>, name: string, cost: nat)
    ensures UsageTable(calls + [(name, cost)]) == RecordUse(UsageTable(calls), (name, cost))
  {
    assert (calls + [(name, cost)])[..|calls|] == calls;
  }

  /** One more confidence is taken as is after none, and averaged in otherwise. */
  lemma {:induction false} RunningConfidenceAppend(confs: seq<real>, conf: real)
    ensures RunningConfidence(confs + [conf])
            == var prev := RunningConfidence(confs); if prev == 0.0 then conf else (prev + conf) / 2.0
  {
    assert (confs + [conf])[..|confs|] == confs;
  }

  /** The quantities the opcode loop accumulates. */
  datatype Scan = Scan(constraints: nat, opCounts: map<string, nat>, buckets: map<string, nat>,
                       bottlenecks: seq<(string, nat)>, table: seq<BlackBoxUse>, confidence: real)

  /** What one opcode of cost `cost` and confidence `conf` adds to the accumulated
      quantities. */
  function ScanStep(s: Scan, op: Opcode, cost: nat, conf: real): Scan {
    Scan(s.constraints + cost,
         Bump(s.opCounts, Category(op)),
         Bump(s.buckets, Bucket(op)),
         if cost > BottleneckThreshold then s.bottlenecks + [(Category(op), cost)] else s.bottlenecks,
         if op.BlackBox? then RecordUse(s.table, (CalleeName(op), cost)) else s.table,
         if s.confidence == 0.0 then conf else (s.confidence + conf) / 2.0)
  }

  /** The quantities accumulated over all of `ops`, in order, the opcodes having costs `cs`
      and confidences `cfs`. */
  function ScanOf(ops: seq<Opcode>, cs: seq<nat>, cfs: seq<real>): Scan
    requires |cs| == |ops| && |cfs| == |ops|
  {
    if |ops| == 0 then Scan(0, map[], map[], [], [], 0.0)
    else
      var n := |ops| - 1;
      ScanStep(ScanOf(ops[..n], cs[..n], cfs[..n]), ops[n], cs[n], cfs[n])
  }

  /** Scanning one opcode more is one more step. */
  lemma {:induction false} ScanOfStep(ops: seq<Opcode>, cs: seq<nat>, cfs: seq<real>, i: nat)
    requires |cs| == |ops| && |cfs| == |ops| && i < |ops|
    ensures ScanOf(ops[..i + 1], cs[..i + 1], cfs[..i + 1]) == ScanStep(ScanOf(ops[..i], cs[..i], cfs[..i]), ops[i], cs[i], cfs[i])
  {
    assert ops[..i + 1][..i] == ops[..i];
    assert cs[..i + 1][..i] == cs[..i];
    assert cfs[..i + 1][..i] == cfs[..i];
  }

  /** The accumulated constraints are the sum of the opcode costs. */
  lemma {:induction false} ScanOfConstraints(ops: seq<Opcode>, cs: seq<nat>, cfs: seq<real>)
    requires |cs| == |ops| && |cfs| == |ops|
    ensures ScanOf(ops, cs, cfs).constraints == Sum(cs)
  {
    if |ops| > 0 {
      var n := |ops| - 1;
      ScanOfConstraints(ops[..n], cs[..n], cfs[..n]);
    }
  }

  /** The accumulated counts are the histogram of the categories. */
  lemma {:induction false} ScanOfCounts(ops: seq<Opcode>, cs: seq<nat>, cfs: seq<real>)
    requires |cs| == |ops| && |cfs| == |ops|
    ensures ScanOf(ops, cs, cfs).opCounts == Tally(Categories(ops))
  {
    if |ops| > 0 {
      var n := |ops| - 1;
      ScanOfCounts(ops[..n], cs[..n], cfs[..n]);
      assert Categories(ops) == Categories(ops[..n]) + [Category(ops[n])];
      TallyAppend(Categories(ops[..n]), Category(ops[n]));
    }
  }

  /** The accumulated buckets are the histogram of the bucket names. */
  lemma {:induction false} ScanOfBuckets(ops: seq<Opcode>, cs: seq<nat>, cfs: seq<real>)
    requires |cs| == |ops| && |cfs| == |ops|
    ensures ScanOf(ops, cs, cfs).buckets == Tally(BucketNames(ops))
  {
    if |ops| > 0 {
      var n := |ops| - 1;
      ScanOfBuckets(ops[..n], cs[..n], cfs[..n]);
      assert BucketNames(ops) == BucketNames(ops[..n]) + [Bucket(ops[n])];
      TallyAppend(BucketNames(ops[..n]), Bucket(ops[n]));
    }
  }

  /** The accumulated bottlenecks are those of the categories and costs. */
  lemma {:induction false} ScanOfBottlenecks(ops: seq<Opcode>, cs: seq<nat>, cfs: seq<real>)
    requires |cs| == |ops| && |cfs| == |ops|
    ensures ScanOf(ops, cs, cfs).bottlenecks == Bottlenecks(Categories(ops), cs)
  {
    if |ops| > 0 {
      var n := |ops| - 1;
      ScanOfBottlenecks(ops[..n], cs[..n], cfs[..n]);
      assert Categories(ops)[..n] == Categories(ops[..n]);
    }
  }

  /** The table of the black-box calls grows by the last opcode's call, if it is one. */
  lemma {:induction false} UsageTableOfCalls(ops: seq<Opcode>, cs: seq<nat>)
    requires |cs| == |ops| > 0
    ensures var n := |ops| - 1;
            var prev := UsageTable(BlackBoxCalls(ops[..n], cs[..n]));
            UsageTable(BlackBoxCalls(ops, cs))
            == if ops[n].BlackBox? then RecordUse(prev, (CalleeName(ops[n]), cs[n])) else prev
  {
    var n := |ops| - 1;
    var prev := BlackBoxCalls(ops[..n], cs[..n]);
    if ops[n].BlackBox? {
      UsageTableAppend(prev, CalleeName(ops[n]), cs[n]);
    }
  }

  /** The table the scan accumulates grows by the last opcode's call, if it is one. */
  lemma {:induction false} ScanOfTableStep(ops: seq<Opcode>, cs: seq<nat>, cfs: seq<real>)
    requires |cs| == |ops| > 0 && |cfs| == |ops|
    ensures var n := |ops| - 1;
            var prev := ScanOf(ops[..n], cs[..n], cfs[..n]).table;
            ScanOf(ops, cs, cfs).table
            == if ops[n].BlackBox? then RecordUse(prev, (CalleeName(ops[n]), cs[n])) else prev
  {
  }

  /** The accumulated table is the table of the black-box calls. */
  lemma {:induction false} ScanOfTable(ops: seq<Opcode>, cs: seq<nat>, cfs: seq<real>)
    requires |cs| == |ops| && |cfs| == |ops|
    ensures ScanOf(ops, cs, cfs).table == UsageTable(BlackBoxCalls(ops, cs))
  {
    if |ops| > 0 {
      var n := |ops| - 1;
      ScanOfTable(ops[..n], cs[..n], cfs[..n]);
      UsageTableOfCalls(ops, cs);
      ScanOfTableStep(ops, cs, cfs);
    }
  }

  /** The accumulated confidence is the running confidence of the opcode confidences. */
  lemma {:induction false} ScanOfConfidence(ops: seq<Opcode>, cs: seq<nat>, cfs: seq<real>)
    requires |cs| == |ops| && |cfs| == |ops|
    ensures ScanOf(ops, cs, cfs).confidence == RunningConfidence(cfs)
  {
    if |ops| > 0 {
      var n := |ops| - 1;
      ScanOfConfidence(ops[..n], cs[..n], cfs[..n]);
    }
  }

  /** The body of the opcode loop: prices one opcode against the database contents `costs`
      and adds it to the accumulated quantities. */
  method ScanOpcode(s: Scan, costs: map<string, Entry>, op: Opcode, seed: nat) returns (r: Scan)
    ensures r == ScanStep(s, op, OpDetails(costs, op, seed).0, OpDetails(costs, op, seed).1)
  {
    var opKey := Category(op);
    var opCounts := Bump(s.opCounts, opKey);
    var buckets := s.buckets;
    var table := s.table;
    var cost: nat, opConfidence: real;
    match op {
      case BlackBox(_, _, _) =>
        var name := CalleeName(op);
        var details := OperationDetails(costs, name, seed);
        cost, opConfidence := details.0, details.1;
        buckets := Bump(buckets, name);
        table := RecordCall(table, name, cost);
      case AssertZero(terms) =>
        cost, opConfidence := AssertZeroCost(|terms|), ConstraintConfidence;
        buckets := Bump(buckets, "AssertZero");
      case Other(t) =>
        cost, opConfidence := 1, OtherConfidence;
        buckets := Bump(buckets, t.GetOr("Unknown"));
    }

    var constraints := s.constraints + cost;
    var bottlenecks := s.bottlenecks;
    if cost > BottleneckThreshold {
      bottlenecks := bottlenecks + [(opKey, cost)];
    }
    var confidence := s.confidence;
    if confidence == 0.0 {
      confidence := opConfidence;
    } else {
      confidence := (confidence + opConfidence) / 2.0;
    }
    ghost var d := OpDetails(costs, op, seed);
    assert cost == d.0 && opConfidence == d.1;
    ghost var step := ScanStep(s, op, d.0, d.1);
    assert step.constraints == constraints;
    assert step.opCounts == opCounts;
    assert step.buckets == buckets;
    assert step.bottlenecks == bottlenecks;
    assert step.table == table;
    assert step.confidence == confidence;
    r := Scan(constraints, opCounts, buckets, bottlenecks, table, confidence);
    assert r == step;
  }

  /** A black-box call recorded in the table `black_box_functions`. */
  method RecordCall(table: seq<BlackBoxUse>, name: string, cost: nat) returns (t: seq<BlackBoxUse>)
    ensures t == RecordUse(table, (name, cost))
  {
    var k := IndexOfName(table, name);
    if k < |table| {
      t := table[k := table[k].(count := table[k].count + 1)];
    } else {
      t := table + [BlackBoxUse(name, 1, cost)];
    }
  }

  /** The opcode loop of `analyze_circuit`: every opcode priced and accumulated in turn. */
  method ScanOpcodes(costs: map<string, Entry>, ops: seq<Opcode>, seeds: seq<nat>) returns (scan: Scan)
    requires |seeds| == |ops|
    ensures scan == ScanOf(ops, Costs(costs, ops, seeds), Confidences(costs, ops, seeds))
  {
    ghost var cs, cfs := Costs(costs, ops, seeds), Confidences(costs, ops, seeds);
    scan := Scan(0, map[], map[], [], [], 0.0);
    for i := 0 to |ops|
      invariant scan == ScanOf(ops[..i], cs[..i], cfs[..i])
    {
      ScanOfStep(ops, cs, cfs, i);
      scan := ScanOpcode(scan, costs, ops[i], seeds[i]);
    }
    assert ops[..|ops|] == ops;
    assert cs[..|ops|] == cs;
    assert cfs[..|ops|] == cfs;
  }

  /** The analysis assembled from the accumulated quantities describes the circuit. */
  lemma {:induction false} AnalysisDescribes(costs: map<string, Entry>, c: Circuit, seeds: seq<nat>,
                                            scan: Scan, operationCounts: seq<(string, nat)>, privateInputs: nat)
    requires |seeds| == |c.opcodes|
    requires scan == ScanOf(c.opcodes, Costs(costs, c.opcodes, seeds), Confidences(costs, c.opcodes, seeds))
    requires Lists(operationCounts, scan.opCounts)
    requires forall i, j :: 0 <= i < j < |operationCounts| ==> operationCounts[i].1 >= operationCounts[j].1
    requires privateInputs == PrivateInputs(WitnessCount(c), c.publicInputs)
    ensures Describes(CircuitAnalysis(scan.constraints, scan.bottlenecks, |c.opcodes|, operationCounts, scan.table,
                                      c.publicInputs, privateInputs, c.returnValues, scan.confidence), costs, c, seeds)
  {
    var ops, cs, cfs := c.opcodes, Costs(costs, c.opcodes, seeds), Confidences(costs, c.opcodes, seeds);
    ScanOfConstraints(ops, cs, cfs);
    ScanOfCounts(ops, cs, cfs);
    ScanOfBottlenecks(ops, cs, cfs);
    ScanOfTable(ops, cs, cfs);
    ScanOfConfidence(ops, cs, cfs);
  }

  /** The opcode loop of `analyze_circuit`, against the database contents `costs`.
      Besides the analysis it returns `operation_types`, the number of opcodes filed under
      each bucket, for the feedback into the database. */
  method AnalyzeOpcodes(costs: map<string, Entry>, c: Circuit, seeds: seq<nat>)
    returns (a: CircuitAnalysis, buckets: map<string, nat>)
    requires |seeds| == |c.opcodes|
    ensures Describes(a, costs, c, seeds)
    ensures buckets == Tally(BucketNames(c.opcodes))
  {
    var witnesses := CountWitnesses(c);
    var privateInputs := PrivateInputs(witnesses, c.publicInputs);
    var scan := ScanOpcodes(costs, c.opcodes, seeds);
    var listing := ListEntries(scan.opCounts);
    var operationCounts := SortBy(listing, CountKey);
    SortedListing(listing, scan.opCounts, CountKey);
    AnalysisDescribes(costs, c, seeds, scan, operationCounts, privateInputs);
    ScanOfBuckets(c.opcodes, Costs(costs, c.opcodes, seeds), Confidences(costs, c.opcodes, seeds));
    a := CircuitAnalysis(scan.constraints, scan.bottlenecks, |c.opcodes|, operationCounts, scan.table,
                         c.publicInputs, privateInputs, c.returnValues, scan.confidence);
    buckets := scan.buckets;
  }

  /** The operation counts of an analysis: one per category that occurs, each the number
      of opcodes of that category, together the number of opcodes. */
  lemma {:induction false} CountsFacts(a: CircuitAnalysis, costs: map<string, Entry>, c: Circuit, seeds: seq<nat>)
    requires |seeds| == |c.opcodes|
    requires Describes(a, costs, c, seeds)
    ensures Total(a.operationCounts) == a.totalOpcodes
    ensures forall i :: 0 <= i < |a.operationCounts| ==>
              a.operationCounts[i].0 in Categories(c.opcodes)
              && a.operationCounts[i].1 == CountOf(Categories(c.opcodes), a.operationCounts[i].0)
    ensures forall i :: 0 <= i < |c.opcodes| ==>
              exists j :: 0 <= j < |a.operationCounts| && a.operationCounts[j].0 == Category(c.opcodes[i])
  {
    ListingOfTally(Categories(c.opcodes), a.operationCounts);
  }

  /** The bottlenecks of an analysis are its opcodes costing more than the threshold, one
      each, in opcode order, each with its category and cost. */
  lemma {:induction false} BottleneckFacts(a: CircuitAnalysis, costs: map<string, Entry>, c: Circuit, seeds: seq<nat>)
    requires |seeds| == |c.opcodes|
    requires Describes(a, costs, c, seeds)
    ensures var cs := Costs(costs, c.opcodes, seeds);
            PicksBottlenecks(a.bottlenecks, BottleneckPositions(cs), Categories(c.opcodes), cs)
    ensures forall k :: 0 <= k < |a.bottlenecks| ==> a.bottlenecks[k].1 > BottleneckThreshold
  {
    var cs := Costs(costs, c.opcodes, seeds);
    var p := BottleneckPositions(cs);
    BottlenecksSpec(Categories(c.opcodes), cs);
    forall k | 0 <= k < |a.bottlenecks|
      ensures a.bottlenecks[k].1 > BottleneckThreshold
    {
      assert p[k] in p;
    }
  }

  /** The black-box table of an analysis holds one record per callee, in order of first
      call, counting the black-box opcodes calling it, with the cost of the first of them. */
  lemma {:induction false} TableFacts(a: CircuitAnalysis, costs: map<string, Entry>, c: Circuit, seeds: seq<nat>)
    requires |seeds| == |c.opcodes|
    requires Describes(a, costs, c, seeds)
    ensures var calls := BlackBoxCalls(c.opcodes, Costs(costs, c.opcodes, seeds));
            && PicksCalls(calls, BlackBoxPositions(c.opcodes), c.opcodes, Costs(costs, c.opcodes, seeds))
            && RecordsUses(a.blackBoxFunctions, Names(calls), CallCosts(calls))
    ensures forall i, j :: 0 <= i < j < |a.blackBoxFunctions| ==> a.blackBoxFunctions[i].name != a.blackBoxFunctions[j].name
  {
    var calls := BlackBoxCalls(c.opcodes, Costs(costs, c.opcodes, seeds));
    BlackBoxCallsSpec(c.opcodes, Costs(costs, c.opcodes, seeds));
    UsageTableSpec(calls);
    forall i, j | 0 <= i < j < |a.blackBoxFunctions|
      ensures a.blackBoxFunctions[i].name != a.blackBoxFunctions[j].name
    {
      RecordsUsesOrdered(a.blackBoxFunctions, Names(calls), CallCosts(calls), i, j);
    }
  }

  /** The confidence of an analysis: 0 for no opcodes, the opcode's own for one, and
      between any positive bounds of the opcode confidences otherwise. */
  lemma {:induction false} ConfidenceFacts(a: CircuitAnalysis, costs: map<string, Entry>, c: Circuit, seeds: seq<nat>,
                                          lo: real, hi: real)
    requires |seeds| == |c.opcodes|
    requires Describes(a, costs, c, seeds)
    ensures |c.opcodes| == 0 ==> a.confidence == 0.0
    ensures |c.opcodes| == 1 ==> a.confidence == OpDetails(costs, c.opcodes[0], seeds[0]).1
    ensures 0.0 < lo && (forall i :: 0 <= i < |c.opcodes| ==> lo <= OpDetails(costs, c.opcodes[i], seeds[i]).1 <= hi)
            ==> (|c.opcodes| > 0 ==> lo <= a.confidence <= hi) && (a.confidence == 0.0 <==> |c.opcodes| == 0)
  {
    var cfs := Confidences(costs, c.opcodes, seeds);
    assert a.confidence == RunningConfidence(cfs);
    RunningConfidenceShort(cfs);
    if 0.0 < lo && (forall i :: 0 <= i < |c.opcodes| ==> lo <= OpDetails(costs, c.opcodes[i], seeds[i]).1 <= hi) {
      assert forall i :: 0 <= i < |cfs| ==> lo <= cfs[i] <= hi;
      RunningConfidenceBounds(cfs, lo, hi);
    }
  }
}
