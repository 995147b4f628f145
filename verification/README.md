# Plurifold: a Dafny model of the coordinator runtime

Plurifold's coordinator runs a directed acyclic graph of *roles* on leased workers and rewrites the graph while
it runs: linear chains of roles are fused into one pipeline task, roles are split into shards, and shard outputs are
reduced in a hierarchy that follows the network topology. This project models that runtime and proves that the
rewriting is invisible: whatever happens on the way, a completed job's objects hold what the job means.

## How the model is organised

- `Core`, `Execution`, `Scheduler`: the data types, what an agent computes for a task, the cost model. A foreign
  program is an arbitrary function of its operation, its input bytes and its shard.
- `Partition`, `RangeRequests`, `Sharding`, `ShardOptimality`, `ShardCount`: the arithmetic of shards and the choice of
  placements and counts.
- `FusionRewrite`, `RoleGraph`, `ChainPlanner`, `FusionSelection`: fusion as a compiler pass, the dependency graph,
  the dynamic program over chains and the selection of what to fuse.
- `ReductionTree`, `Builtins`, `ReductionPlanning`, `Schedule`, `Plan`: reductions, and list scheduling of whole jobs.
- `FabricModel`, `FabricInvariant`, `FabricSteps`, `FabricCommit`, `FabricRuns`, `LeaseSafety`, `Progress`: the
  coordinator's state as a transition system, its invariant, and what holds over whole runs.
- `Denotation`, `Worlds`, `RunMeaning`, `RunValues`, `RunIndependence`, `BuiltinShards`: what a job means, runs together
  with the bytes behind their objects, and run independence.
- `Refusals`, `RefusalExample`: which jobs can meet a pipeline that validation refuses, and a fabric stuck because of one.
- `InterruptedCommits`: what becomes of a role whose task was committed with contradictory outputs.
- `FabricReady`, `PlannerDecisions`, `FabricTraces`, `Fabric`, `Coordinator`: the `Fabric` and `Coordinator` objects whose
  methods update their maps in place, each proved to do exactly what a trace of transition-system steps does, every role step
  in it being the planner's decision for the state in which it is taken.
- `CoordinatorRuns`: sequences of requests as runs of the transition system.

Planner loops that the source writes imperatively are methods with loops; `poll_work`, `complete_execution` and the other
requests are methods of the class `Fabric` or `Coordinator`, each one atomic step under the coordinator's lock.

## Modelling decisions

- Costs are reals (non-negative where a theorem says so); a saved transfer may also be infinite. UUIDs are numbers, fresh
  ones are numbers not used before; one task id is drawn per submitted task and shard, not one per attempted implementation.
  Clock readings and fresh execution ids are arguments of the methods that read or draw them.
  One call reads the clock once, except that polling plans at one reading and begins the lease at a later one.
- Iterating over a hash map picks its keys in an arbitrary order.
- Cooperative and logical roles share one job type: a cooperative role has one template, a logical one alternatives.
- Run independence assumes what the programming model asks of a job: all implementations of a role compute the same
  function, automatically sharded roles do not depend on the number of shards, reducers are ordered-associative. Agents
  publish one fresh object per task, as `crates/plurifold-agent/src/main.rs:480-490` does.

## Where the code does less than one might expect

- Fusable templates are selected by effects and artifact (`crates/plurifold-runtime/src/planner.rs:921-923`), but validation
  also demands the entrypoint `run` (`crates/plurifold-runtime/src/lib.rs:1568-1572`). A refused pipeline aborts
  `materialize_ready_roles` and with it `refresh_ready_roles`, so every poll by every worker fails until the planner decides
  otherwise. `PipelinesAdmissible` is a condition on the job definition alone under which this never happens, and
  `PipelinesAdmissibleIff` shows that it is exact for the pipelines the planner may consider; for one pass the exact condition
  is that no decision of the pass was refused. `RefusedJobStaysStuck` is a valid job that never gets off the ground.
- `complete_execution` checks outputs against stored objects but not against each other. If two outputs share an id under
  different identities, publishing stops midway and the task stays completed. A single role, a fused chain or a role whose last
  shard was interrupted is then never advanced again (`AbandonedForever`); a sharded role with siblings still to come is
  advanced by the one that commits last, with the contradictory outputs gathered (`SiblingAdvancesRole`).
- `advance_chain_states` gives up on a feasible hop without a link. `SeparateChainPaths` gives the exact condition,
  `MissingLinkMovesNothing` says when it can occur and `GivesUpDespiteFeasiblePath` is an instance.
- `docs/protocol.md:11` says that re-registering a resource always invalidates attempts of earlier incarnations. In the code
  the epoch counter restarts once the resource has been removed; `EpochRestartsAfterRemoval` is the exact condition.

## Model

| member | source | states |
|---|---|---|
| `RunIndependence.CompletedJobMeansDefinition` | crates/plurifold-runtime/src/lib.rs:655-1366 | In every run with honest agents, whatever the leasing order, expiries, retries, fused prefixes, shard counts and reduction groupings, the objects a completed job reports hold the bytes the job denotes: each role evaluated once along the dependency graph, unfused, shards in index order, reduced flat |
| `RunIndependence.RunsAgree` | crates/plurifold-runtime/src/lib.rs:655-1366 | Any two such runs that complete the same definition deliver the same bytes |
| `RunIndependence.StepKeepsMeaning` | crates/plurifold-runtime/src/lib.rs:655-1080 | Each honest step keeps the invariant, the computed contents and, per role, that completed objects (or the current reduction inputs) stand for the role's denotation |
| `RunValues.FusedOutput` | crates/plurifold-runtime/src/planner.rs:970-1021 | The one output of a fused task is the denotation of the last role of its chain |
| `RunValues.ShardOutputs` | crates/plurifold-runtime/src/lib.rs:805-830 | The outputs of completed shards, gathered in task order, are the shard values in index order under any mix of implementations |
| `RunValues.LevelKeepsReduction` | crates/plurifold-runtime/src/lib.rs:1011-1080 | Finishing one reduction level leaves the flat ordered reduction of the remaining inputs unchanged, whatever the grouping |
| `RunValues.DependenciesKnown` | crates/plurifold-runtime/src/lib.rs:1471-1485 | The inputs of a role about to run hold what its dependencies denote, in dependency order |
| `BuiltinShards.ShardedCopyIsRearrangeable` | crates/plurifold-agent/src/main.rs:764-774 | A byte-range or record-sharded identity role with a concatenating reducer satisfies every hypothesis of run independence, for every shard count |
| `FusionRewrite.FusionPreservesMeaning` | crates/plurifold-runtime/src/planner.rs:970-1043 | Running the fused pipeline task gives exactly the bytes, or the failure, of running the instantiated templates one after another, for any chain length and any static inputs merged by the index map |
| `FusionRewrite.FusedInputsExact` | crates/plurifold-runtime/src/planner.rs:1023-1043 | The fused task lists each external object once: exactly the dependencies and the templates' static inputs |
| `FusionRewrite.BuildBindings` | crates/plurifold-runtime/src/planner.rs:1023-1043 | The hash-map loop computes the de-duplicated bindings and keeps the map the inverse of the input list |
| `FusionRewrite.BuildLaterStages` | crates/plurifold-runtime/src/planner.rs:990-1002 | The stage loop computes the later stages, sharing one de-duplicated input list |
| `FusionRewrite.BuildFusedPipelineTask` | crates/plurifold-runtime/src/planner.rs:970-1021 | The imperative construction equals the rewrite the theorems are about |
| `FusionRewrite.ExternalBindings` | crates/plurifold-runtime/src/planner.rs:1023-1043 | Bindings name exactly the given objects, in order, as positions of a duplicate-free list extending the previous one |
| `Execution.ExecutePipeline` | crates/plurifold-agent/src/main.rs:704-745 | The stage loop computes the staged evaluation: bindings in order, the first failure wins, the last output is returned |
| `RoleGraph.ValidateRoleGraph` | crates/plurifold-runtime/src/planner.rs:1482-1549 | Accepts exactly the graphs with non-empty roles and outputs, well-formed unique names and references, and a topological order; reports a cycle exactly when only that fails; needs at most one round per role |
| `RoleGraph.ResolvePass` | crates/plurifold-runtime/src/planner.rs:1520-1545 | One pass extends a topological prefix in place and stops growing only when no unresolved role is resolvable |
| `RoleGraph.CheckReferences` | crates/plurifold-runtime/src/planner.rs:1495-1518 | Succeeds exactly when all references are known and none is repeated |
| `RoleGraph.FusionChain` | crates/plurifold-runtime/src/lib.rs:1435-1469 | Terminates on every validated graph with the maximal chain from the first role |
| `RoleGraph.ChainEdgesArePrivate` | crates/plurifold-runtime/src/lib.rs:1435-1469 | Along a chain each next role depends on its predecessor alone, and no interior role is a job output or has another consumer |
| `RoleGraph.ChainRanksRise` | crates/plurifold-runtime/src/lib.rs:1435-1469 | A chain never visits a role twice |
| `RoleGraph.DependencyRanksLower` | crates/plurifold-runtime/src/planner.rs:1528-1548 | Dependencies come strictly earlier in a fixed topological order |
| `Progress.FusedInteriorsAreNeverRead` | crates/plurifold-runtime/src/lib.rs:763-788 | In every run, the empty output list of a fused interior role is neither a job result nor an input of any role materialised later |
| `ReductionTree.ReductionGroups` | crates/plurifold-runtime/src/planner.rs:558-588 | Groups concatenate to the inputs in order, are non-empty and bounded by the fan-in, are greedy pairwise-local groups or full chunks, and from two inputs on the level is strictly shorter |
| `ReductionTree.LocalGroups` | crates/plurifold-runtime/src/planner.rs:558-588 | The scan closes a group only when it is full or the next input is not local to all its members |
| `ReductionTree.ChunkInputs` | crates/plurifold-runtime/src/planner.rs:578-588 | The fallback cuts the inputs into full chunks and a shorter last one |
| `ReductionTree.LevelPreservesFlat` | crates/plurifold-runtime/src/planner.rs:474-556 | For an ordered-associative reducer a level that succeeds keeps the flat reduction |
| `ReductionTree.TreeEqualsFlat` | crates/plurifold-runtime/src/planner.rs:474-611 | A reduction tree of any shape that ends in one value computes the flat ordered reduction; with failure-propagating reducers it fails only where the flat one fails |
| `Builtins.SumU64IsOrderedAssociative` | crates/plurifold-agent/src/main.rs:836-848 | The checked 64-bit sum is ordered-associative and propagates failure |
| `Builtins.SumTreeEqualsFlatSum` | crates/plurifold-agent/src/main.rs:836-848 | A tree of checked sums overflows exactly when the flat sum does and otherwise agrees with it |
| `Builtins.ExecuteSumU64` | crates/plurifold-agent/src/main.rs:836-848 | The loop computes the checked sum of 8-byte little-endian values and fails on any other length or on overflow |
| `Builtins.LittleEndianRoundTrip` | crates/plurifold-agent/src/main.rs:840-847 | Decoding an encoded value gives it back |
| `Builtins.ConcatIsOrderedAssociative` | crates/plurifold-agent/src/main.rs:774-774 | Concatenation is ordered-associative and never fails |
| `Builtins.IdentityIsOrderedAssociative` | crates/plurifold-agent/src/main.rs:764-774 | As a reducer the identity built-in regroups freely and propagates failure |
| `ReductionPlanning.SelectReductionLevel` | crates/plurifold-runtime/src/planner.rs:474-556 | A placed level follows the groups in order, carries singletons, reduces every other group with the earliest-finish reducer, and is strictly shorter than its inputs; with valid settings there is none exactly when some group's reducer can run on no resource |
| `ReductionPlanning.PlaceReducer` | crates/plurifold-runtime/src/planner.rs:500-545 | The reducer of one group is the earliest-finish placement over all resources, and there is none exactly when no resource can run it |
| `Partition.PartitionsTile` | crates/plurifold-runtime/src/planner.rs:406-461 | Shard ranges are contiguous in work units and bytes, cover the object exactly, differ by at most one unit, and none is empty when there are as many units as shards |
| `Partition.RecordShardsCutAtRecords` | crates/plurifold-runtime/src/planner.rs:418-448 | Record shards begin and end at record offsets |
| `Partition.SlicesRebuildObject` | crates/plurifold-runtime/src/planner.rs:406-461 | Concatenating all shard slices in index order rebuilds the object |
| `Partition.OutputBytesConserved` | crates/plurifold-core/src/lib.rs:244-265 | The scaled output sizes of all shards add up exactly to the role's output size |
| `Partition.ComputeConserved` | crates/plurifold-runtime/src/planner.rs:463-472 | The scaled compute of all shards adds up to the total plus one overhead per shard |
| `Partition.ShardSizesBalanced` | crates/plurifold-runtime/src/planner.rs:457-461 | Every shard gets the average number of units or one more |
| `Partition.ShardsNotEmpty` | crates/plurifold-runtime/src/planner.rs:457-461 | With no more shards than units, every shard is non-empty |
| `ShardCount.AutoShardsNotEmpty` | crates/plurifold-runtime/src/planner.rs:226-288 | A count chosen automatically leaves no shard empty unless the whole input is empty, and then uses one shard |
| `RangeRequests.HeaderRoundTrip` | crates/plurifold-agent/src/main.rs:962-996 | Parsing the printed single byte range (section 14.1.2 of RFC 9110) of any non-empty in-range request gives the same half-open range |
| `RangeRequests.FetchWhole` | crates/plurifold-agent/src/main.rs:583-676 | Succeeds, with the object's bytes, exactly when the local copy is readable, or there is none and the first replica not passed over serves the object and it can be stored and registered |
| `RangeRequests.FetchRange` | crates/plurifold-agent/src/main.rs:549-676 | Succeeds, with that very slice, exactly when the range lies inside the object and is empty, readable locally, or not stored locally and served by the first replica not passed over |
| `RangeRequests.MaterializeInput` | crates/plurifold-agent/src/main.rs:536-677 | An input is the object or its requested slice no matter which replica served it; exactly when there is one |
| `Scheduler.Choose` | crates/plurifold-scheduler/src/lib.rs:48-73 | Returns a cheapest feasible placement over all resources, and fails exactly when nothing is feasible |
| `Scheduler.ScoreCandidate` | crates/plurifold-scheduler/src/lib.rs:75-129 | The accumulating loop computes compute, cheapest transfers, queue, startup and risk; one unreachable input makes the placement infeasible |
| `Scheduler.CostsAreNonNegative` | crates/plurifold-scheduler/src/lib.rs:75-129 | Non-negative estimates give non-negative placement costs |
| `Scheduler.SameShapeSameCost` | crates/plurifold-scheduler/src/lib.rs:75-129 | Cost depends only on inputs, ranges, requirements and estimates, never on the task's identity |
| `Sharding.PickEarliest` | crates/plurifold-runtime/src/planner.rs:310-345 | The double loop finds an earliest finish over all implementations and resources, cheaper placements first among ties |
| `Sharding.ChooseShards` | crates/plurifold-runtime/src/planner.rs:290-358 | Each shard is the earliest pick given the shards before it, the availability is the one these leave behind, and failure means some shard cannot run anywhere |
| `ShardOptimality.GreedyIsOptimal` | crates/plurifold-runtime/src/planner.rs:290-358 | For fixed shard counts the greedy loop attains the least possible role finish time over all assignments of shards to implementations and resources |
| `ShardOptimality.MoreResourcesNeverHurt` | crates/plurifold-runtime/src/planner.rs:290-358 | Adding resources never makes the greedy role finish later |
| `ShardCount.ChooseAutoShards` | crates/plurifold-runtime/src/planner.rs:226-288 | Evaluates every count up to the cap greedily; the adopted count's selections are the greedy ones and leave exactly the returned availability; nothing is selected only if every count has a shard that cannot be partitioned or run |
| `ShardCount.AdoptedIsNearOptimal` | crates/plurifold-runtime/src/planner.rs:226-288 | The adopted makespan times one minus the gain ratio is at most that of every feasible count, and it never exceeds the first feasible one |
| `ReadySelection.SelectReadyRole` | crates/plurifold-runtime/src/planner.rs:157-187 | The cheapest implementation on the cheapest resource over all pairs, or nothing exactly when no pair is feasible |
| `ReadySelection.SelectReadyShards` | crates/plurifold-runtime/src/planner.rs:189-224 | Greedy shards of the fixed or adopted count, in index order under consecutive fresh ids, each an instance of one of the role's implementations with its own partition; none only if some shard is infeasible under every count allowed |
| `ReadySelection.SelectedChainIsAllowed` | crates/plurifold-runtime/src/planner.rs:613-689 | A selected prefix of a fusion chain consists of distinct waiting roles joined by private edges, one fusable template each |
| `ChainPlanner.SeparateChainPaths` | crates/plurifold-runtime/src/planner.rs:741-795 | Answers exactly when some path is feasible and no feasible hop lacks its link; the best total is the minimum over all implementation and resource paths, the crossing one the minimum over paths that change resources, for every iteration order of the hash map |
| `ChainPlanner.AdvanceChainStates` | crates/plurifold-runtime/src/planner.rs:797-855 | One layer: from the best state per key of all shorter paths to the best state per key of all longer ones |
| `ChainPlanner.InsertBetter` | crates/plurifold-runtime/src/planner.rs:857-878 | The table keeps a state no worse than the candidate and than everything it dominated before |
| `ChainPlanner.HopIsMonotone` | crates/plurifold-runtime/src/planner.rs:797-878 | Hops from a key's best state stand for the hops from every state with that key |
| `ChainPlanner.BestChainTailTotal` | crates/plurifold-runtime/src/planner.rs:691-715 | The exact minimum total of a chain behind an already placed prefix |
| `ChainPlanner.MissingLinkMovesNothing` | crates/plurifold-runtime/src/planner.rs:828-836 | The planner can give up on a missing link only where the intermediate object is empty |
| `ChainPlanner.GivesUpDespiteFeasiblePath` | crates/plurifold-runtime/src/planner.rs:828-836 | Two unlinked resources and an empty intermediate: a feasible path exists, yet the planner finds none |
| `ChainPlanner.FreshIdIsIrrelevant` | crates/plurifold-runtime/src/planner.rs:803-815 | Which fresh id a predicted intermediate gets does not change any cost |
| `FusionSelection.SelectReadyFusion` | crates/plurifold-runtime/src/planner.rs:613-689 | Selects a candidate lexicographically best by savings, avoided transfer and length over all prefixes and implementation choices, compared with a cheapest crossing path of each prefix; planning a prefix never fails once the whole chain can be planned |
| `FusionSelection.FusionNeverLoses` | crates/plurifold-runtime/src/planner.rs:613-689 | Fused cost plus the cheapest separate tail is at most the cost of every fully separate path |
| `FusionSelection.PrefixIsPlannable` | crates/plurifold-runtime/src/planner.rs:628-632 | If the whole chain can be planned separately, so can every prefix |
| `FusionSelection.FusedImplementationChoices` | crates/plurifold-runtime/src/planner.rs:880-919 | Exactly the combinations of one implementation per role whose requirements can be combined |
| `FusionSelection.SelectionIsFusable` | crates/plurifold-runtime/src/planner.rs:613-689 | The selected task fuses one fusable template of each of the first roles, on a resource that supports every stage |
| `Plan.PlanJob` | crates/plurifold-runtime/src/planner.rs:1083-1294 | Every plan is a valid schedule (all roles planned completely, no two intervals on a resource overlap across roles, shards and levels, nothing starts before its dependencies or lower levels finish, the makespan is exactly the latest output finish) and comes from planning the most constrained role next, greedily, until all are planned; invalid jobs are refused, and any other failure names a role picked after such steps whose shards or next level cannot be placed |
| `Plan.PlanRole` | crates/plurifold-runtime/src/planner.rs:1113-1268 | The greedy plan of one role: its shards, then levels over exactly the predicted outputs, packed onto free resources in stages down to a single output; none only if the shards or a level reached this way cannot be placed |
| `Plan.RecordShards` | crates/plurifold-runtime/src/planner.rs:1149-1190 | Every shard becomes a planned entry and a predicted output of its scaled size on its resource, under fresh ids in order; the finish is the latest one |
| `Plan.PickRole` | crates/plurifold-runtime/src/planner.rs:1096-1118 | The first role with the fewest feasible candidates among those whose dependencies are planned |
| `Plan.SomethingCanBePlanned` | crates/plurifold-runtime/src/planner.rs:1096-1122 | While roles are missing, a validated job always has one that can be planned next, so the cycle error is unreachable |
| `Schedule.PackedFacts` | crates/plurifold-runtime/src/planner.rs:290-358 | Placements that respect the availability map are pairwise disjoint per resource and end within what the map reserves |
| `Schedule.GreedyIsPacked` | crates/plurifold-runtime/src/planner.rs:290-358 | Greedy selections respect the availability map and the dependency-ready time |
| `Admission.ValidateJob` | crates/plurifold-runtime/src/planner.rs:1344-1480 | Accepts exactly the valid jobs whose record indexes end at the size of the published object |
| `Admission.PlainTaskIsAdmissible` | crates/plurifold-runtime/src/lib.rs:1495-1595 | Tasks instantiated from templates always pass validation |
| `Admission.ShardTaskIsAdmissible` | crates/plurifold-runtime/src/planner.rs:360-388 | Every shard task the planner builds passes validation |
| `Admission.FusedTaskIsAdmissibleIff` | crates/plurifold-runtime/src/lib.rs:1558-1594 | A pipeline built from fusable templates passes validation if and only if every template's entrypoint is run |
| `Admission.FusedTaskCanBeRefused` | crates/plurifold-runtime/src/planner.rs:921-923 | Two fusable built-ins of which one names another entrypoint: the fused task is refused |
| `Refusals.PipelinesAdmissibleIff` | crates/plurifold-runtime/src/planner.rs:613-689 | The condition on a job (wherever two neighbouring roles may be fused, both implementations name the entrypoint run) holds if and only if every pipeline the planner may consider for it passes validation |
| `Refusals.RefusedIff` | crates/plurifold-runtime/src/lib.rs:1495-1595 | An allowed fused step is refused exactly when a template of its chain names another entrypoint |
| `Refusals.DecidedIsAdmitted` | crates/plurifold-runtime/src/lib.rs:1266-1319 | For a job that meets the condition no decision of the planner, on any state and resources, is refused |
| `RefusalExample.RefusedJobStaysStuck` | crates/plurifold-runtime/src/lib.rs:1144-1366 | A concrete valid job on two linked workers: whatever passes are made, the fabric stays as it is and the first role is never given a task |
| `RefusalExample.StuckIsReachable` | crates/plurifold-runtime/src/lib.rs:248-429 | That fabric is reached from the empty one by registering two workers, setting a link and submitting the job |
| `RefusalExample.NoPassSucceeds` | crates/plurifold-runtime/src/lib.rs:1135-1142 | On it no refresh, hence no poll by any worker, ends with every job fully tried |
| `Admission.CombinedSupportsBoth` | crates/plurifold-runtime/src/planner.rs:925-968 | A resource supporting combined requirements supports both sides; conversely when at most one side asks for an accelerator |
| `Admission.ChainSupportsEveryStage` | crates/plurifold-runtime/src/planner.rs:925-968 | A resource supporting a chain's combined requirements supports every stage |
| `FabricRuns.StepKeepsInv` | crates/plurifold-runtime/src/lib.rs:655-1366 | Every fabric step keeps the consistency of roles, tasks, bindings and reductions |
| `FabricRuns.RunKeepsInv` | crates/plurifold-runtime/src/lib.rs:655-1366 | Every state of every run is consistent: submitted, sharded and reducing roles name existing bound tasks with exact completed counts, and task inputs are the template's followed by dependency outputs in order |
| `FabricRuns.StepProgresses` | crates/plurifold-runtime/src/lib.rs:655-1133 | Completed and uncertain roles and tasks never change again, no role is materialised twice, no task is rewritten or rebound |
| `FabricRuns.RunProgresses` | crates/plurifold-runtime/src/lib.rs:655-1133 | The same between any two states of a run |
| `FabricSteps.MaterializeKeepsInv` | crates/plurifold-runtime/src/lib.rs:1144-1366 | Materialising one ready role directly, fused, sharded or not at all keeps the invariant |
| `FabricSteps.PlaceLevelKeepsInv` | crates/plurifold-runtime/src/lib.rs:888-1009 | Placing or postponing a reduction level keeps the invariant |
| `FabricCommit.CommitKeepsInv` | crates/plurifold-runtime/src/lib.rs:741-857 | Committing a task for a single role, a chain, a shard or a reducer keeps the invariant |
| `FabricRuns.ReapKeepsInv` | crates/plurifold-runtime/src/lib.rs:716-739 | Taking back an expired execution keeps the invariant |
| `Progress.RunningJobProgresses` | crates/plurifold-runtime/src/lib.rs:1135-1366 | A running job with no stuck role has a ready role, a task not yet completed, or a level awaiting resources |
| `Progress.UnstuckKept` | crates/plurifold-runtime/src/lib.rs:1144-1366 | Only completing a role can leave another one waiting for completed dependencies |
| `FabricTraces.IdleJobAwaitsResources` | crates/plurifold-runtime/src/lib.rs:1135-1366 | Deadlock freedom: after a pass, a running job without an unfinished task has a role or level that this pass found no resource can run |
| `LeaseSafety.CommitsAtMostOnce` | crates/plurifold-runtime/src/lib.rs:655-714 | In every run a task commits at most once |
| `LeaseSafety.ReapedExecutionIsDead` | crates/plurifold-runtime/src/lib.rs:716-739 | A reaped execution id is never accepted again, neither for renewal nor for commit |
| `LeaseSafety.ExclusiveBeginsOnce` | crates/plurifold-runtime/src/lib.rs:587-614 | An exclusive task is handed out at most once in a run |
| `LeaseSafety.EpochsRise` | crates/plurifold-runtime/src/lib.rs:248-269 | While a resource stays registered its epoch never falls |
| `LeaseSafety.StaleIncarnationIsRefused` | crates/plurifold-runtime/src/lib.rs:616-653 | A lease of an earlier incarnation of a resource that stayed registered is never honoured |
| `LeaseSafety.EpochRestartsAfterRemoval` | crates/plurifold-runtime/src/lib.rs:309-317 | A lease held across removal and re-registration is honoured exactly when the new descriptor announces the lease's epoch again |
| `LeaseSafety.ResourcesAreExclusive` | crates/plurifold-runtime/src/lib.rs:1376-1396 | In every timed run (free-resource hand-outs, monotone clock) each resource has at most one unexpired execution |
| `CoordinatorRuns.HistoryIsTimedRun` | crates/plurifold-coordinator/src/lib.rs:68-309 | Every sequence of served requests (polls, completions, renewals, maintenance, submissions, membership changes) under a clock that never goes back is a timed run ending in the same state |
| `CoordinatorRuns.RequestsKeepResourcesExclusive` | crates/plurifold-coordinator/src/lib.rs:124-170 | After every such sequence each resource has at most one unexpired execution; free hand-outs are derived from polling, not assumed |
| `CoordinatorRuns.CommitIsServed` | crates/plurifold-runtime/src/lib.rs:655-714 | What CompleteExecution promises for consistent outputs is a served completion |
| `FabricRuntime.Fabric.RegisterResource` | crates/plurifold-runtime/src/lib.rs:248-269 | Registers the descriptor under the next epoch with a fresh membership deadline |
| `FabricRuntime.Fabric.Heartbeat` | crates/plurifold-runtime/src/lib.rs:271-290 | Extends the membership exactly when the resource is registered under this epoch; errors change nothing |
| `FabricRuntime.Fabric.RemoveResource` | crates/plurifold-runtime/src/lib.rs:309-317 | Forgets the resource, its replicas and its links |
| `FabricRuntime.Fabric.ExpireResources` | crates/plurifold-runtime/src/lib.rs:296-307 | Removes exactly the members whose membership has run out |
| `FabricRuntime.Fabric.PublishObject` | crates/plurifold-runtime/src/lib.rs:319-333 | Adds an unknown object or merges replica locations of an identical one; conflicts change nothing |
| `FabricRuntime.Fabric.AddObjectLocation` | crates/plurifold-runtime/src/lib.rs:335-348 | Adds a replica location to a known object |
| `FabricRuntime.Fabric.Submit` | crates/plurifold-runtime/src/lib.rs:354-368 | Adds a valid new task as pending; invalid and duplicate tasks change nothing |
| `FabricRuntime.Fabric.SubmitJob` | crates/plurifold-runtime/src/lib.rs:370-429 | Rejects invalid and duplicate jobs unchanged; otherwise adds the job and makes one pass over it, which fails exactly when it decides on a refused pipeline and never for a job whose pipelines are admissible; success leaves no role stuck |
| `FabricRuntime.Fabric.JobStatus` | crates/plurifold-runtime/src/lib.rs:435-459 | Uncertain if any role is, else running unless all are completed, else the outputs of the output roles in order |
| `FabricRuntime.Fabric.ScheduleTask` | crates/plurifold-runtime/src/lib.rs:573-585 | The scheduler's cheapest placement among the active members without an unexpired execution, or its refusal |
| `FabricRuntime.Fabric.SchedulableResources` | crates/plurifold-runtime/src/lib.rs:1376-1396 | Exactly the active members that hold no unexpired execution |
| `FabricRuntime.Fabric.BeginExecution` | crates/plurifold-runtime/src/lib.rs:587-614 | Leases a pending task to an active resource under a fresh execution id; the error cases are exact and change nothing |
| `FabricRuntime.Fabric.RenewExecution` | crates/plurifold-runtime/src/lib.rs:616-653 | Extends the lease exactly when it names the current, unexpired execution of an active incarnation |
| `FabricRuntime.Fabric.CompleteExecution` | crates/plurifold-runtime/src/lib.rs:655-714 | Failing checks change nothing; consistent outputs are committed, the role is advanced and the pass that follows fails only for a job with inadmissible pipelines; contradictory outputs leave exactly the outputs before the first contradiction published, the task completed and all roles as they were |
| `InterruptedCommits.ContradictoryOutputsAreAccepted` | crates/plurifold-runtime/src/lib.rs:695-709 | A reachable fabric and two outputs with one id and two sizes that pass every check |
| `InterruptedCommits.InterruptedRoleIsAbandoned` | crates/plurifold-runtime/src/lib.rs:703-713 | After a cut-short commit the role of a single task, and every role of a fused chain, waits with all its tasks completed |
| `InterruptedCommits.AbandonedForever` | crates/plurifold-runtime/src/lib.rs:741-1366 | No step of any run from there moves such a role again |
| `InterruptedCommits.InterruptedLastShardIsAbandoned` | crates/plurifold-runtime/src/lib.rs:789-844 | The same for a sharded role if the interrupted shard was its last |
| `InterruptedCommits.SiblingAdvancesRole` | crates/plurifold-runtime/src/lib.rs:789-844 | Otherwise the sibling that commits last completes the role or starts its reduction, with the contradictory shard's outputs among those gathered in index order |
| `FabricRuntime.Fabric.PublishOutputs` | crates/plurifold-runtime/src/lib.rs:703-713 | Publishes in order, all outputs if they agree with each other, else exactly those before the first contradiction |
| `FabricTraces.PublishesInOrder` | crates/plurifold-runtime/src/lib.rs:703-713 | Publishing the outputs one by one succeeds exactly as long as they agree with the known objects and with each other |
| `FabricRuntime.Fabric.ReapExpiredExecutions` | crates/plurifold-runtime/src/lib.rs:716-739 | Exactly the expired tasks change: replayable ones become pending, the others uncertain together with their roles |
| `FabricRuntime.Fabric.MarkCooperativeRoleUncertain` | crates/plurifold-runtime/src/lib.rs:1099-1133 | Marks the role or roles a lost task works for |
| `FabricRuntime.Fabric.CompleteCooperativeRole` | crates/plurifold-runtime/src/lib.rs:741-857 | Advances whatever the task works for; the pass that follows fails exactly when it decides on a refused pipeline, never for a job whose pipelines are admissible, and otherwise no job is left with a stuck role that had none before |
| `FabricRuntime.Fabric.CompleteSingle` | crates/plurifold-runtime/src/lib.rs:749-762 | Completes the role and materialises what became ready |
| `FabricRuntime.Fabric.CompleteChain` | crates/plurifold-runtime/src/lib.rs:763-788 | Completes the interior roles with no outputs and the last one with the task's |
| `FabricRuntime.Fabric.CompleteShard` | crates/plurifold-runtime/src/lib.rs:789-844 | Counts completed shards; the last one completes the role or starts its reduction with all outputs in index order |
| `FabricRuntime.Fabric.CompleteReducer` | crates/plurifold-runtime/src/lib.rs:1011-1080 | Counts completed reducers; the last one hands the level's outputs, carried objects included, to the next level |
| `FabricRuntime.Fabric.GatherOutputs` | crates/plurifold-runtime/src/lib.rs:805-814 | Completed count and outputs in task order |
| `FabricRuntime.Fabric.GatherLevel` | crates/plurifold-runtime/src/lib.rs:1030-1057 | Task ids, completed count and next inputs in item order |
| `FabricRuntime.Fabric.MaterializeReductionLevel` | crates/plurifold-runtime/src/lib.rs:888-1009 | Finishes the role when one input is left, else places the level as the planner decides on the free resources, or postpones it because a reducer runs nowhere |
| `FabricRuntime.Fabric.RefreshReductions` | crates/plurifold-runtime/src/lib.rs:1082-1097 | Tries every unplaced level again; those left were found impossible to place, and nothing is completed by it |
| `FabricRuntime.Fabric.RefreshReadyRoles` | crates/plurifold-runtime/src/lib.rs:1135-1142 | Afterwards no role of any job waits for completed dependencies, and every role or level still without tasks was found impossible to run; the pass is aborted exactly by a refused pipeline, which only a job with inadmissible pipelines can bring up |
| `FabricRuntime.Fabric.ReadyRoles` | crates/plurifold-runtime/src/lib.rs:1160-1207 | Exactly the roles that can be materialised, with their inputs and maximal fusion chains |
| `FabricRuntime.Fabric.MaterializeRole` | crates/plurifold-runtime/src/lib.rs:1209-1364 | Carries out the planner's decision for one ready role on the free resources (greedy shards for a role that fans out, else the best fused prefix, else the cheapest single placement, or none because nothing runs); fails exactly for a refused pipeline, and then changes nothing |
| `FabricRuntime.Fabric.MaterializeReadyRoles` | crates/plurifold-runtime/src/lib.rs:1144-1366 | Materialises every ready role of a job; success leaves none stuck and none ready that was not found infeasible; fails exactly when it decides on a refused pipeline, never for a job whose pipelines are admissible |
| `FabricReady.ChainsDisjoint` | crates/plurifold-runtime/src/lib.rs:1144-1366 | Fusion chains of different ready roles share no role |
| `FabricReady.StaysReady` | crates/plurifold-runtime/src/lib.rs:1144-1366 | Materialising one entry of the snapshot leaves every other entry accurate |
| `FabricRuntime.CollectDependencyOutputs` | crates/plurifold-runtime/src/lib.rs:1471-1485 | The loop collects all dependency outputs in listed order, or nothing while one is unfinished |
| `CoordinatorService.Coordinator.PollWork` | crates/plurifold-coordinator/src/lib.rs:124-170 | Only the current incarnation is served; a task is handed out exactly when the scheduler means it for this resource among the free ones, no task so meant is left when there is no work; no job is stuck or idle without an infeasible role or level; a refused pipeline of any job fails the request, which admissible pipelines rule out |
| `CoordinatorService.Coordinator.ResolveInputs` | crates/plurifold-coordinator/src/lib.rs:172-211 | Succeeds exactly when every input is known, has a supported digest and a replica at a registered endpoint |
| `CoordinatorService.Coordinator.MaintenanceTick` | crates/plurifold-coordinator/src/lib.rs:68-79 | Afterwards no member and no execution is past its deadline, and no role was completed; the steps taken are removals and reaps at this reading of the clock |
| `CoordinatorService.Coordinator.RegisterResource` | crates/plurifold-coordinator/src/lib.rs:86-96 | Registers the resource and its endpoint |

## Left out

- HTTP routing, JSON, command line, protocol DTOs, timers and task spawning: input and output around the modelled handlers.
- Native and WASI execution, environment variables, CPU and accelerator discovery: foreign processes, represented by an
  arbitrary deterministic function.
- The on-disk object store and SHA-256: a digest is an opaque string, and a replica that answers serves the stored bytes.
- Network replies and error texts: a replica is passed over, lost while its body is read, or serves the object, and errors
  carry their kind and subject only. A range reply carries a digest the replica computes itself; a replica that holds other
  bytes under the object's digest is not part of this model.
- Role views, selections and fusion explanations (`cooperative_role_views`, `RoleSelection`): display data the runtime never
  reads back.
- Link measurement, manual link overrides, `upsert_link` and `remove_link`: any change of the links is one step that
  replaces them.
- Floating-point rounding, NaN and the finiteness checks on policy fields: costs are reals.
- `builtin:sum-records-u64`: its text parsing is not part of this model; record shards are covered by their byte ranges.
- CommitIsServed: histories of requests contain no commit with contradictory outputs; what such a commit does to its role is
  stated on the transition system.
- Overflow of reduction level numbers and epochs: both are unbounded here.
