/** `has_sequential_dependencies`: whether an analysed circuit is taken to have sequential
    dependencies, which selects the smaller parallel speed-up of the proving-time estimate.
    It holds when some operation category mentions memory or arrays, or when the
    hash-named black-box callees are called at most once in all. */
module Dependencies {
  import opened Strings
  import opened Tallies
  import opened CostModel
  import opened Analyzer

  /** A category that stands for memory or array operations. */
  predicate IsMemoryCategory(op: string) {
    Contains(op, "Memory") || Contains(op, "Array")
  }

  /** A callee name that stands for a hash function. */
  predicate IsHashName(name: string) {
    Contains(name, "hash") || Contains(name, "Hash")
  }

  /** Some listed category is a memory category (`iter().any`). */
  function HasMemoryOps(counts: seq<(string, nat)>): bool {
    if |counts| == 0 then false
    else HasMemoryOps(counts[..|counts| - 1]) || IsMemoryCategory(counts[|counts| - 1].0)
  }

  /** The summed call counts of the hash-named records (`filter`, `map`, `sum`). */
  function HashCalls(t: seq<BlackBoxUse>): nat {
    if |t| == 0 then 0
    else HashCalls(t[..|t| - 1]) + HashWeight(t[|t| - 1])
  }

  /** What one record adds to `HashCalls`. */
  function HashWeight(u: BlackBoxUse): nat {
    if IsHashName(u.name) then u.count else 0
  }

  /** `has_sequential_dependencies`: memory operations, or no more than one hash call. */
  function HasSequentialDependencies(a: CircuitAnalysis): bool {
    HasMemoryOps(a.operationCounts) || !(HashCalls(a.blackBoxFunctions) > 1)
  }

  /** The number of hash-named names among `ns`. */
  function HashNamed(ns: seq<string>): nat {
    if |ns| == 0 then 0
    else HashNamed(ns[..|ns| - 1]) + (if IsHashName(ns[|ns| - 1]) then 1 else 0)
  }

  /** The number of black-box opcodes whose callee is hash-named. */
  function HashOpcodes(ops: seq<Opcode>): nat {
    if |ops| == 0 then 0
    else
      var op := ops[|ops| - 1];
      HashOpcodes(ops[..|ops| - 1]) + (if op.BlackBox? && IsHashName(CalleeName(op)) then 1 else 0)
  }

  /** `HasMemoryOps` is the existence of a memory category among the listed ones. */
  lemma {:induction false} HasMemoryOpsSpec(counts: seq<(string, nat)>)
    ensures HasMemoryOps(counts) <==> exists i :: 0 <= i < |counts| && IsMemoryCategory(counts[i].0)
  {
    if |counts| > 0 {
      var n := |counts| - 1;
      var init := counts[..n];
      HasMemoryOpsSpec(init);
      if HasMemoryOps(init) {
        var i :| 0 <= i < n && IsMemoryCategory(init[i].0);
        assert counts[i] == init[i];
      } else if !IsMemoryCategory(counts[n].0) {
        forall i | 0 <= i < |counts|
          ensures !IsMemoryCategory(counts[i].0)
        {
          if i < n {
            assert counts[i] == init[i];
          }
        }
      }
    }
  }

  /** Replacing one record by one of the same weight change moves `HashCalls` by that
      change. */
  lemma {:induction false} HashCallsUpdate(t: seq<BlackBoxUse>, k: nat, r: BlackBoxUse)
    requires k < |t|
    ensures HashCalls(t[k := r]) + HashWeight(t[k]) == HashCalls(t) + HashWeight(r)
  {
    var n := |t| - 1;
    var t' := t[k := r];
    if k == n {
      assert t'[..n] == t[..n];
    } else {
      assert t'[..n] == t[..n][k := r];
      HashCallsUpdate(t[..n], k, r);
    }
  }

  /** Recording a call adds one to `HashCalls` exactly when the callee is hash-named. */
  lemma {:induction false} HashCallsRecord(t: seq<BlackBoxUse>, call: (string, nat))
    ensures HashCalls(RecordUse(t, call)) == HashCalls(t) + (if IsHashName(call.0) then 1 else 0)
  {
    var k := IndexOfName(t, call.0);
    if k < |t| {
      var r := t[k].(count := t[k].count + 1);
      assert RecordUse(t, call) == t[k := r];
      HashCallsUpdate(t, k, r);
    } else {
      var u := BlackBoxUse(call.0, 1, call.1);
      assert RecordUse(t, call) == t + [u];
      assert (t + [u])[..|t|] == t;
    }
  }

  /** The table of a run of calls counts one hash call per hash-named call. */
  lemma {:induction false} HashCallsOfTable(calls: seq<(string, nat)>)
    ensures HashCalls(UsageTable(calls)) == HashNamed(Names(calls))
  {
    if |calls| > 0 {
      var n := |calls| - 1;
      HashCallsOfTable(calls[..n]);
      HashCallsRecord(UsageTable(calls[..n]), calls[n]);
      assert Names(calls)[..n] == Names(calls[..n]);
    }
  }

  /** One more name is one more hash-named name exactly when it is hash-named. */
  lemma {:induction false} HashNamedAppend(ns: seq<string>, x: string)
    ensures HashNamed(ns + [x]) == HashNamed(ns) + (if IsHashName(x) then 1 else 0)
  {
    assert (ns + [x])[..|ns|] == ns;
  }

  /** One more pair adds its name to the names. */
  lemma {:induction false} NamesAppend(pairs: seq<(string, nat)>, p: (string, nat))
    ensures Names(pairs + [p]) == Names(pairs) + [p.0]
  {
    assert (pairs + [p])[..|pairs|] == pairs;
  }

  /** The black-box calls of the opcodes hold one hash-named call per hash-calling opcode. */
  lemma {:induction false} HashNamedCalls(ops: seq<Opcode>, cs: seq<nat>)
    requires |cs| == |ops|
    ensures HashNamed(Names(BlackBoxCalls(ops, cs))) == HashOpcodes(ops)
  {
    if |ops| > 0 {
      var n := |ops| - 1;
      var op := ops[n];
      var prev := BlackBoxCalls(ops[..n], cs[..n]);
      HashNamedCalls(ops[..n], cs[..n]);
      if op.BlackBox? {
        var call := (CalleeName(op), cs[n]);
        assert BlackBoxCalls(ops, cs) == prev + [call];
        NamesAppend(prev, call);
        HashNamedAppend(Names(prev), call.0);
      } else {
        assert BlackBoxCalls(ops, cs) == prev;
      }
    }
  }

  /** The memory test of a listing of a histogram is the existence of a memory key among
      the keys counted. */
  lemma {:induction false} MemoryOpsOfListing(pairs: seq<(string, nat)>, ks: seq<string>)
    requires Lists(pairs, Tally(ks))
    ensures HasMemoryOps(pairs) <==> exists i :: 0 <= i < |ks| && IsMemoryCategory(ks[i])
  {
    HasMemoryOpsSpec(pairs);
    TallyCounts(ks);
    if HasMemoryOps(pairs) {
      var j :| 0 <= j < |pairs| && IsMemoryCategory(pairs[j].0);
      assert pairs[j].0 in ks;
    }
    if exists i :: 0 <= i < |ks| && IsMemoryCategory(ks[i]) {
      var i :| 0 <= i < |ks| && IsMemoryCategory(ks[i]);
      assert ks[i] in Tally(ks);
      var j :| 0 <= j < |pairs| && pairs[j].0 == ks[i];
      assert IsMemoryCategory(pairs[j].0);
    }
  }

  /** The memory test of an analysis is the existence of an opcode of a memory category. */
  lemma {:induction false} MemoryOpsOfCircuit(a: CircuitAnalysis, costs: map<string, Entry>, c: Circuit, seeds: seq<nat>)
    requires |seeds| == |c.opcodes|
    requires Describes(a, costs, c, seeds)
    ensures HasMemoryOps(a.operationCounts) <==> exists i :: 0 <= i < |c.opcodes| && IsMemoryCategory(Category(c.opcodes[i]))
  {
    var ks := Categories(c.opcodes);
    MemoryOpsOfListing(a.operationCounts, ks);
    assert forall i :: 0 <= i < |c.opcodes| ==> ks[i] == Category(c.opcodes[i]);
  }

  /** The hash count of an analysis is the number of black-box opcodes calling a
      hash-named callee. */
  lemma {:induction false} HashCallsOfCircuit(a: CircuitAnalysis, costs: map<string, Entry>, c: Circuit, seeds: seq<nat>)
    requires |seeds| == |c.opcodes|
    requires Describes(a, costs, c, seeds)
    ensures HashCalls(a.blackBoxFunctions) == HashOpcodes(c.opcodes)
  {
    var calls := BlackBoxCalls(c.opcodes, Costs(costs, c.opcodes, seeds));
    HashCallsOfTable(calls);
    HashNamedCalls(c.opcodes, Costs(costs, c.opcodes, seeds));
  }

  /** For the analysis of a circuit, sequential dependencies are assumed exactly when some
      opcode has a memory category or at most one black-box opcode calls a hash-named
      callee. */
  lemma {:induction false} SequentialDependenciesOfCircuit(a: CircuitAnalysis, costs: map<string, Entry>, c: Circuit, seeds: seq<nat>)
    requires |seeds| == |c.opcodes|
    requires Describes(a, costs, c, seeds)
    ensures HasSequentialDependencies(a)
            <==> (exists i :: 0 <= i < |c.opcodes| && IsMemoryCategory(Category(c.opcodes[i])))
                 || HashOpcodes(c.opcodes) <= 1
  {
    MemoryOpsOfCircuit(a, costs, c, seeds);
    HashCallsOfCircuit(a, costs, c, seeds);
  }

  /** A string without the first character of `t` does not contain `t`. */
  lemma {:induction false} MissingFirstChar(s: string, t: string)
    requires |t| > 0 && t[0] !in s
    ensures !Contains(s, t)
    decreases |s|
  {
    if |s| > 0 {
      if |t| <= |s| {
        assert s[..|t|][0] == s[0];
      }
      assert t[0] !in s[1..];
      MissingFirstChar(s[1..], t);
    }
  }

  /** "keccak256" is not a hash name: it holds neither "hash" nor "Hash". */
  lemma {:induction false} KeccakIsNotHashName()
    ensures !IsHashName("keccak256")
  {
    assert 'h' !in "keccak256" && 'H' !in "keccak256";
    MissingFirstChar("keccak256", "hash");
    MissingFirstChar("keccak256", "Hash");
  }

  /** Opcodes whose black-box calls all go to keccak256 make no hash-named call. */
  lemma {:induction false} KeccakOpcodesHashNone(ops: seq<Opcode>)
    requires forall i :: 0 <= i < |ops| && ops[i].BlackBox? ==> CalleeName(ops[i]) == "keccak256"
    ensures HashOpcodes(ops) == 0
  {
    if |ops| > 0 {
      var n := |ops| - 1;
      var init := ops[..n];
      forall i | 0 <= i < n && init[i].BlackBox?
        ensures CalleeName(init[i]) == "keccak256"
      {
        assert init[i] == ops[i];
      }
      KeccakOpcodesHashNone(init);
      if ops[n].BlackBox? {
        KeccakIsNotHashName();
      }
    }
  }

  /** A circuit whose black-box calls all go to keccak256, however many there are, is taken
      to have sequential dependencies: it counts no hash call. */
  lemma {:induction false} KeccakCircuitIsSequential(a: CircuitAnalysis, costs: map<string, Entry>, c: Circuit, seeds: seq<nat>)
    requires |seeds| == |c.opcodes|
    requires Describes(a, costs, c, seeds)
    requires forall i :: 0 <= i < |c.opcodes| && c.opcodes[i].BlackBox? ==> CalleeName(c.opcodes[i]) == "keccak256"
    ensures HashCalls(a.blackBoxFunctions) == 0
    ensures HasSequentialDependencies(a)
  {
    KeccakOpcodesHashNone(c.opcodes);
    HashCallsOfCircuit(a, costs, c, seeds);
  }
}
