# noir-profiler core, modelled in Dafny

noir-profiler estimates what a compiled Noir circuit costs to prove. It has two parts.

- **Cost database** (`src/core.rs`). The process-wide database maps an operation name to
  (cost, confidence, samples).
  - It is seeded from a four-entry default table: sha256, keccak256, pedersen_hash and
    ecdsa_secp256k1.
  - Each measurement is blended in with an exponential moving average, whose weight
    depends on how many samples the entry already has.
  - Seeding, updates, `get_operation_details` and the cost search perturb costs by a
    "real-world variability" factor taken from the wall clock.
  - `get_operation_details` returns the perturbed cost and confidence.
    `get_operation_cost` returns the stored, unperturbed cost, falling back to a substring
    match. `find_operations_by_cost` searches by perturbed cost within a tolerance.
    `get_cost_database` returns an unperturbed copy of the whole database.
- **Circuit analyzer** (`src/analyzer.rs`). One pass over the circuit's opcodes.
  - It prices every opcode:
    - a black-box call is looked up in the database;
    - an AssertZero costs one constraint per four terms, rounded up, and 1 when it has
      no terms;
    - any other opcode costs 1.
  - It accumulates the constraint count, a count per category, the bottlenecks (opcodes
    costing over 10 000), one record per black-box callee and a running confidence.
  - It derives the private inputs from the witness count.
  - Afterwards it feeds measurements back into the database: the cost of a callee called
    exactly once, and the circuit's total constraint count divided by the number of
    AssertZero opcodes, when there are at least ten.
  - `has_sequential_dependencies` classifies an analysis.
  - `compare_circuits` analyses two circuits one after the other, then diffs the two
    analyses.

The Dafny modules follow that structure:

| module | file | contents |
|---|---|---|
| `Optional` | `optional.dfy` | the `Option` type |
| `Strings` | `strings.dfy` | the substring test behind Rust's `str::contains` |
| `Sorting` | `sorting.dfy` | sorting by a real-valued key, proved sorted and a permutation |
| `Tallies` | `tallies.dfy` | count maps such as `entry().or_insert(0) += 1`, their listing, key enumeration |
| `CostModel` | `cost_model.dfy` | `src/core.rs`, as the class `CostDatabase` over a `map<string, Entry>` |
| `Analyzer` | `analyzer.dfy` | the opcode loop and the witness count of `analyze_circuit` |
| `Feedback` | `feedback.dfy` | `update_cost_database_from_circuit`, and `analyze_circuit` as a whole |
| `Dependencies` | `dependencies.dfy` | `has_sequential_dependencies` |
| `Comparator` | `comparator.dfy` | `analyze_diff_from_cost_model` and `compare_circuits` |

### How reads of the real world are modelled

- **The wall clock.** Each read becomes a `nat` parameter, a "seed". The model applies
  the source's own reductions: `% 40` for the variability factor, `% 20` for the tolerance
  factor, `% 5` for the confidence variance and `% 10` for the sort nibble.
  - The cost search takes two maps from database entry to seed: `costSeeds` for each
    entry's cost perturbation and `confidenceSeeds` for its confidence variance. A map is
    used because the order in which the search visits entries is unspecified. It also
    takes `factorSeed` for the tolerance factor and `sortSeed` for the sort.
  - The feedback pass takes a clock function, where `clock(k)` perturbs the k-th update.
  - The RFC 3339 time stamps come from a function `stamps`.
- **Iteration order.** Rust does not specify the order in which a `HashMap` yields its
  entries. The model picks keys by `:|`, or (through `KeyOrder`) returns the chosen order
  as a ghost value that the contracts quantify over.
- **Number types.**
  - Every `usize` is a `nat`.
  - The `i64` changes of the diff (`CostModelDiff`) are `int`s.
  - Confidences are exact `real`s.
  - The tolerance of the cost search, target · percent · (1 + 0.01 · (seed mod 20)) / 100, and
    its half are exact `real`s, while the source computes them in `f64`. An entry exactly
    on the boundary can be kept by the model and dropped by the source.
  - The moving average is computed in tenths: `((10 - w) * old + w * v) / 10`, with
    w ∈ {5, 3, 2}. The weights 0.5, 0.3 and 0.2 are tenths, so this is the float formula
    truncated.
- **Parsed input.** The circuit arrives already parsed as a `Circuit`.
  - An opcode is `AssertZero(terms)`, `BlackBox(function, inputs, outputs)` or
    `Other(type)`.
  - A JSON field that is absent, or not a string, is `None`. An absent array is empty.

### Behaviour worth noting

- **The comparator of `find_operations_by_cost`** (`src/core.rs:184-197`). When the
  nibble is below 2, it orders every pair of results that are both within half the
  tolerance in descending distance. So the whole near group comes first, in reverse order,
  and the far group follows in ascending order.
  - `RankAgreesWithComparator` proves that this comparator is a consistent total
    preorder.
  - `FindOperationsByCost` states the order it produces.
- **keccak256 is not a hash name.** A circuit whose only black-box calls are five
  keccak256 calls counts as having sequential dependencies.
  - The reason: "keccak256" contains neither "hash" nor "Hash", so the hash count is
    0 ≤ 1 (`src/analyzer.rs:228-233`).
  - `KeccakIsNotHashName` proves the name test.
  - `SequentialDependenciesOfCircuit` proves that the predicate then holds.
  - `KeccakCircuitIsSequential` states it for any circuit whose black-box calls all go to
    keccak256, five of them or any other number.
- **The diff of `compare_circuits`.** In the source, `analyze_diff_from_cost_model` builds
  both difference lists and then drops them. The model returns them as a
  `CostModelDiff`, so their contents can be stated. `CompareCircuits` ignores the result,
  as the source does.

## Model

| member | source | states |
|---|---|---|
| CostModel.VariabilityBounds | src/core.rs:30-38 | `Variability`, the model of `apply_real_world_variability`, is cost·(980 + seed mod 40)/1000 truncated; the perturbed cost lies between 0.98·cost and 1.019·cost (both truncated), and a zero cost stays zero |
| CostModel.BlendBounds | src/core.rs:103-111 | the blended cost lies between the stored cost and the measurement, and is the weighted average (1−w)·old + w·v truncated to an integer |
| CostModel.ConfidenceFor | src/core.rs:113 | the confidence after an update is 0.83 + samples/50, capped at 0.99, so it lies in [0.83, 0.99] and is 0.99 from 8 samples on |
| CostModel.UpsertEffect | src/core.rs:93-115 | `Upsert` is the in-map effect of `update_cost_database`: an update adds the name if it is absent and leaves every other entry unchanged. A new name ends as (v, 0.87, 2). An existing entry gains one sample, gets the confidence for its new sample count, and its cost becomes the blend with v |
| CostModel.ApplyUpdatesEffect | src/core.rs:93-117 | after a sequence of updates: exactly the old names plus the updated ones are present; every name not updated is unchanged; an updated name has one more sample per update (a new name counts from 1) and its confidence matches its sample count |
| CostModel.FirstRelated | src/core.rs:127-132 | the position found is the first table name related to the operation by substring in either direction, or the table length when none is |
| CostModel.OperationDetails | src/core.rs:119-135 | an exact key gives its perturbed cost and its stored confidence. Otherwise the first related default name gives its perturbed default cost with 0.83. Otherwise the result is the perturbed 1000 with 0.83 |
| CostModel.VariableConfidence | src/core.rs:173-178 | the confidence the search reports is at least 0.8, is at least 0.96 times the stored confidence, and is at most max(stored, 0.8) |
| CostModel.RankAgreesWithComparator | src/core.rs:184-197 | ordering by Rank agrees exactly with the sort_by comparator of the cost search, in both directions |
| CostModel.DefaultNamesDistinct | src/core.rs:23-28 | the four default operation names are pairwise different |
| CostModel.SeedDefaults | src/core.rs:65-71 | the seeding loop inserts exactly the default names, one entry each; each entry is (variability of its default cost, 0.83, 1) |
| CostModel.CollectMatches | src/core.rs:166-182 | the scan returns every entry whose perturbed cost is within the tolerance of the target, each exactly once, with its perturbed cost and confidence, and no other entry |
| CostModel.CostDatabase.Load | src/core.rs:50-71 | loading gives the stored state when one was read. Otherwise exactly the four default names, each seeded with (variability(default), 0.83, 1), and no time stamp |
| CostModel.CostDatabase.Snapshot | src/core.rs:204-225 | the view returned holds the current contents and the current time stamp |
| CostModel.CostDatabase.Update | src/core.rs:93-117 | the contents become the upsert of the measurement, and the time stamp becomes Some(stamp) |
| CostModel.CostDatabase.GetOperationCost | src/core.rs:138-152 | an exact key gives its stored cost. Otherwise the result is the cost of some key related by substring. The result is None exactly when no key is related |
| CostModel.CostDatabase.FindOperationsByCost | src/core.rs:154-200 | every result is a database key with its perturbed cost within target·tol·factor/100 and confidence ≥ 0.8; every such key is reported, once; pairs are in the comparator's order, ascending by distance when the nibble is ≥ 2 |
| Strings.ContainsAt | src/core.rs:128 | `Contains(s, t)` holds exactly when `t` occurs at some position of `s`, which is the meaning of `str::contains` |
| Strings.RelatedReflexive | src/core.rs:141-147 | every name is related to itself, so the substring fallback accepts an exact key |
| Sorting.SortBy | src/analyzer.rs:164 | the result is sorted by the key, is a permutation of the input, and keeps a duplicate-free input duplicate-free |
| Sorting.SortByMembers | src/analyzer.rs:164 | sorting keeps exactly the same elements |
| Tallies.Bump | src/analyzer.rs:104 | `entry(k).or_insert(0) += 1`: adds k at count 1 if it was absent, otherwise adds one to its count; no other count changes |
| Tallies.TallyCounts | src/analyzer.rs:104 | the keys of the count map are exactly the keys counted, each with its number of occurrences |
| Tallies.ListEntries | src/analyzer.rs:162 | `into_iter().collect()` lists every entry of the map exactly once, with its count |
| Tallies.SortedListing | src/analyzer.rs:162-164 | sorting a listing keeps it a listing of the same map |
| Tallies.ListingTotal | src/analyzer.rs:94-104 | the counts of a listing of the category counts add up to the number of opcodes |
| Tallies.KeyOrder | src/analyzer.rs:199 | iterating a map's keys visits every key exactly once |
| Analyzer.AssertZeroCost | src/analyzer.rs:127-128 | an AssertZero with t > 0 terms costs ⌈t/4⌉, and one with no terms costs 1 |
| Analyzer.BottlenecksSpec | src/analyzer.rs:151-153 | the bottlenecks are exactly the opcodes costing more than 10 000, one each, in opcode order, each with its category and cost |
| Analyzer.BlackBoxCallsSpec | src/analyzer.rs:106-125 | the priced calls are exactly the black-box opcodes, in opcode order, each with its callee name and its cost |
| Analyzer.FirstIndexIsFirst | src/analyzer.rs:118-122 | no call before the position `FirstIndex` finds has the callee's name, so a record's unit cost is that of the first call |
| Analyzer.IndexOfName | src/analyzer.rs:118 | `position` finds the first record with the callee's name, or the table length when there is none |
| Analyzer.RecordUseExisting | src/analyzer.rs:118-119 | recording a call to a callee that already has a record adds one to that record's count, and the table stays a table of the calls |
| Analyzer.RecordUseNew | src/analyzer.rs:120-122 | a call to a new callee appends (name, 1, cost), and the table stays a table of the calls |
| Analyzer.UsageTableSpec | src/analyzer.rs:118-122 | every callee called gets exactly one record. The record counts all calls to that callee and carries the cost of the first call. Records are in order of first call |
| Analyzer.RunningConfidenceBounds | src/analyzer.rs:155-159 | when every per-opcode confidence is positive and within [lo, hi], the running confidence stays within [lo, hi], and it is 0 only for no opcodes |
| Analyzer.RunningConfidenceShort | src/analyzer.rs:155-159 | the running confidence is 0 for no opcodes, and is the first confidence for one opcode |
| Analyzer.VarsOf | src/analyzer.rs:42-63 | the variable names gathered from a list of terms are exactly its string-valued `variable` fields |
| Analyzer.WitnessNamesSpec | src/analyzer.rs:36-71 | a name is in the witness set exactly when some opcode mentions it: an AssertZero term, or a black-box input or output |
| Analyzer.PrivateInputs | src/analyzer.rs:74-79 | private inputs are witnesses minus public inputs, or 0 when there are more public inputs than witnesses |
| Analyzer.InsertVariables | src/analyzer.rs:43-47 | adding one list's variables to the set gives the union of the set with that list's variable names |
| Analyzer.CountWitnesses | src/analyzer.rs:31-72 | the witness count is the number of keys of `witnesses` when present, otherwise the number of distinct variable names |
| Analyzer.ScanOfConstraints | src/analyzer.rs:149 | the constraint total is the sum of the opcode costs |
| Analyzer.ScanOfCounts | src/analyzer.rs:95-104 | the per-category counts are the tally of the opcodes' categories |
| Analyzer.ScanOfBuckets | src/analyzer.rs:114-143 | the `operation_types` buckets count each opcode under its bucket name |
| Analyzer.ScanOfBottlenecks | src/analyzer.rs:151-153 | the accumulated bottlenecks are the opcodes costing more than the threshold |
| Analyzer.ScanOfTable | src/analyzer.rs:118-122 | the accumulated black-box table is the table of the priced black-box calls |
| Analyzer.ScanOfConfidence | src/analyzer.rs:155-159 | the accumulated confidence is the halving running confidence of the per-opcode confidences |
| Analyzer.ScanOpcode | src/analyzer.rs:95-159 | one loop iteration advances every accumulator by that opcode's category, bucket, cost and confidence |
| Analyzer.RecordCall | src/analyzer.rs:118-122 | the position-then-increment update of the table records one call |
| Analyzer.ScanOpcodes | src/analyzer.rs:94-160 | the loop's accumulators are the scan of all opcodes, priced against the database |
| Analyzer.AnalyzeOpcodes | src/analyzer.rs:16-164 | the analysis fields are, in turn: the sum of the costs; the opcode count; the category counts sorted non-increasing; the bottlenecks; the table of the calls; the inputs, private inputs and return values; the running confidence |
| Analyzer.CountsFacts | src/analyzer.rs:94-164 | the category counts add up to total_opcodes; each count is the number of opcodes of its category; every category present is listed |
| Analyzer.BottleneckFacts | src/analyzer.rs:151-153 | there is one bottleneck per opcode costing more than the threshold, in opcode order, and every bottleneck costs more than 10 000 |
| Analyzer.TableFacts | src/analyzer.rs:106-125 | the records list the black-box callees once each, in first-call order, with their call counts and first costs, and their names are distinct |
| Analyzer.ConfidenceFacts | src/analyzer.rs:155-159 | the analysis confidence is 0 for an empty circuit and equals the single opcode's confidence for one opcode; with positive bounds it stays within them |
| Feedback.FindSingleUse | src/analyzer.rs:208-209 | `find` yields a record with the bucket's name and count 1 when the table has one, and nothing exactly when it does not |
| Feedback.BucketCallsSpec | src/analyzer.rs:199-218 | the bucket "BlackBoxFunction", or one with no opcodes, causes no update. Another bucket causes an update with its single callee's unit cost exactly when that record has count 1, and one with constraints / instances exactly when it is "AssertZero" with at least ten opcodes |
| Feedback.FeedbackCallsSpec | src/analyzer.rs:199-219 | whatever order the buckets are visited in, the updates made for each bucket name are exactly that bucket's updates, and no update names anything other than a bucket |
| Feedback.FeedOne | src/analyzer.rs:212 | one update to the database extends the run of updates by one and stamps the database |
| Feedback.FeedBucket | src/analyzer.rs:199-218 | visiting one bucket makes that bucket's updates, in order |
| Feedback.UpdateFromCircuit | src/analyzer.rs:195-222 | the pass visits every bucket once; the database ends as the result of all its updates, stamped by the last one, or with its previous stamp when none was made |
| Feedback.AnalyzeCircuit | src/analyzer.rs:9-193 | the result describes the circuit priced against the database as it was at the call; the database then holds the feedback of that analysis, stamped by its last update or keeping its previous stamp when there was none |
| Dependencies.HasMemoryOpsSpec | src/analyzer.rs:225-226 | `any` holds exactly when some listed category contains "Memory" or "Array" |
| Dependencies.HashCallsOfCircuit | src/analyzer.rs:228-231 | the hash-named call total of an analysis is the number of black-box opcodes whose callee contains "hash" or "Hash" |
| Dependencies.SequentialDependenciesOfCircuit | src/analyzer.rs:224-234 | `HasSequentialDependencies`, the model of `has_sequential_dependencies`, is memory operations or a hash-call total of at most 1; for the analysis of a circuit, the predicate holds exactly when some opcode's category is a memory category, or at most one black-box opcode calls a hash-named callee |
| Dependencies.KeccakIsNotHashName | src/analyzer.rs:228-231 | "keccak256" is not a hash name |
| Dependencies.KeccakCircuitIsSequential | src/analyzer.rs:224-234 | for the analysis of a circuit whose black-box calls all go to keccak256, the hash-call total is 0, so `has_sequential_dependencies` holds |
| Comparator.CountsMapSpec | src/analyzer.rs:275-283 | a map collected from (name, count) pairs has exactly the names of the pairs, and for each name the count of the last pair with it |
| Comparator.CountsMapOfDistinct | src/analyzer.rs:257-263 | with distinct names, each name keeps its own count |
| Comparator.CollectCounts | src/analyzer.rs:275-283 | the collecting loop builds exactly that map |
| Comparator.JoinCounts | src/analyzer.rs:255-263 | `all_ops` holds every name of either analysis, with its count in each and 0 on a side that lacks it |
| Comparator.ListChanges | src/analyzer.rs:265-270 | the loop keeps the nonzero changes count2 − count1, in the map's order |
| Comparator.DiffListSpec | src/analyzer.rs:265-270 | the changes listed are every name of either side whose counts differ, once each, with count2 − count1, and nothing else |
| Comparator.SortedChanges | src/analyzer.rs:272 | sorting the changes by absolute change, descending, keeps exactly those changes |
| Comparator.OperationChanges | src/analyzer.rs:253-272 | `op_diffs` is every changed operation count, once each, ordered by absolute change, largest first |
| Comparator.ExternalChanges | src/analyzer.rs:274-301 | `external_diffs` is every changed black-box call count over the union of both sides' callees, once each |
| Comparator.DiffFromCostModel | src/analyzer.rs:246-302 | there is no diff exactly when the constraint counts differ by less than 100. Otherwise the diff holds the constraint change, the sorted operation changes and the callee changes |
| Comparator.CompareCircuits | src/analyzer.rs:236-244 | the first circuit is analysed against the database as it was; the second against the database as the first pass left it. The database ends with both passes' feedback, and its stamp is the one the second pass leaves after the first |

## Left out

- Reading and parsing the circuit file (`src/analyzer.rs:10-14`). It is I/O; the model
  takes the parsed `Circuit`, so the `Err` results of `analyze_circuit` and
  `compare_circuits` are not modelled.
- Loading and saving the database file (`src/core.rs:50-63`, `src/core.rs:74-91`, the
  `save_cost_database` call at `src/analyzer.rs:221`). This is file and JSON I/O.
  `CostDatabase.Load` takes the outcome of the read as an `Option`.
- `batch_analyze` (`src/analyzer.rs:305-336`). It is a directory walk around
  `analyze_circuit`.
- The `lazy_static`/`RwLock` global (`src/core.rs:46-48`). It is concurrency scaffolding;
  the database is an explicit `CostDatabase` object.
- `estimated_proving_time` (`src/analyzer.rs:166-188`). It is f64 arithmetic with `sin`
  and `sqrt` of a clock reading. Only the predicate that picks its parallel factor,
  `has_sequential_dependencies`, is modelled.
- The unused vectors `black_box_usages` and `operation_costs` (`src/analyzer.rs:88-89`,
  `111-112`, `129`, `139`). Nothing reads them.
- Buckets keep an instance count instead of the index vector of `operation_types`
  (`src/analyzer.rs:114-143`), because `update_cost_database_from_circuit` only uses its
  `len()`.
- The `all_bb` `HashSet` (`src/analyzer.rs:285-291`) is modelled as the union of both
  maps' keys, without its two insertion loops. The set is the same.
- Variability: the product `cost * (0.98 + k * 0.001)` is computed exactly, as
  `cost * (980 + k) / 1000`. f64 rounding of the product can differ in the last unit.
- BlendBounds: the moving average is exact in tenths. The source's f64 arithmetic can
  differ from it by one unit of truncation.
- ConfidenceFor: confidences are exact reals, not 32-bit floats.
- RunningConfidenceBounds: uses exact reals, not 32-bit floats.
- FindOperationsByCost: the tolerance and the half-tolerance used by `CollectMatches`,
  `FindOperationsByCost` and `Rank` are exact reals; the source computes them in `f64`
  (`src/core.rs:158-166`) and compares against them at `src/core.rs:171` and `191`. An
  entry exactly on the boundary can be kept by the model and dropped by the source: with
  target 3000, 5 percent and a factor seed of 2, the exact tolerance is 153 while the `f64` one is
  just below it.
- CollectMatches: keeps an entry by the same exact-real tolerance test as the line above,
  so the boundary case it describes applies to it too.
- FindOperationsByCost: one clock reading orders the whole sort. The source reads the
  clock in every comparison, which need not give a consistent order at all.
- FindOperationsByCost: Rust's `sort_by` is stable, while `SortBy` is not stated stable.
  The input order is the unspecified `HashMap` order, so a tie's order is unspecified
  either way. The same holds for `OperationChanges` and the sorted operation counts.
- GetOperationCost: when several keys are related by substring, the source returns the
  first one its `HashMap` visits. The model states only that the result is the cost of
  some related key.
- DiffFromCostModel: the `i64` casts and subtractions are exact integers; overflow
  beyond `i64` is not modelled.
- Overflow of `usize` sums, such as `constraints` and counts, is not modelled; integers
  are unbounded.
