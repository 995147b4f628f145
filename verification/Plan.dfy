/** List scheduling of a whole logical job; every plan is a valid schedule. */
module Plan {
  import opened Wrappers
  import opened Core
  import opened Sequences
  import opened RoleGraph
  import opened Partition
  import opened Scheduler
  import opened Sharding
  import opened ShardCount
  import opened ReductionTree
  import opened ReductionPlanning
  import opened Admission
  import opened Schedule

  // ----- plans -----

  datatype PlannedShard = PlannedShard(
    index: u32, implementation: string, partition: Option<TaskShardPartition>, placement: Placement)

  datatype PlannedReduction = PlannedReduction(inputCount: nat, placement: Placement)

  datatype PlannedReductionLevel = PlannedReductionLevel(level: nat, reducer: string, reductions: seq<PlannedReduction>)
  {
    function Placements(): seq<Placement>
    {
      seq(|reductions|, i requires 0 <= i < |reductions| => reductions[i].placement)
    }
  }

  datatype PlannedRole = PlannedRole(name: string, shards: seq<PlannedShard>, reductions: seq<PlannedReductionLevel>)
  {
    /** The shards' placements and those of the first `k` reduction levels. */
    function UpToLevel(k: nat): seq<Placement>
      requires k <= |reductions|
    {
      if k == 0 then seq(|shards|, i requires 0 <= i < |shards| => shards[i].placement)
      else UpToLevel(k - 1) + reductions[k - 1].Placements()
    }

    function Placements(): seq<Placement>
    {
      UpToLevel(|reductions|)
    }
  }

  datatype CooperativePlan = CooperativePlan(roles: seq<PlannedRole>, estimatedMakespanMs: real)

  datatype PlanError = InvalidLogicalJob | NoFeasibleImplementation(role: string)

  // ----- what a valid schedule is -----

  predicate AllDisjoint(a: seq<Placement>, b: seq<Placement>)
  {
    forall i, j :: 0 <= i < |a| && 0 <= j < |b| ==> Disjoint(a[i], b[j])
  }

  /** No reducer starts before everything at the levels below it is finished. */
  predicate LevelsInOrder(planned: PlannedRole)
  {
    forall k, i :: 0 <= k < |planned.reductions| && 0 <= i < |planned.reductions[k].Placements()| ==>
      EndsBy(planned.reductions[k].Placements()[i].startMs, planned.UpToLevel(k))
  }

  /** The shards the policy allows and, if a reducer is declared, levels down to a single output. */
  predicate Complete(role: RoleSpec, planned: PlannedRole)
    requires role.Logical?
  {
    && planned.name == role.name && planned.shards != []
    && (forall i :: 0 <= i < |planned.shards| ==> planned.shards[i].index == i)
    && (match role.shards
        case Fixed(count) => |planned.shards| == count
        case Auto(policy) => |planned.shards| <= policy.maxShards)
    && (role.reduction.None? || |planned.shards| == 1 ==> planned.reductions == [])
    && (role.reduction.Some? && |planned.shards| > 1 ==>
          planned.reductions != [] && |planned.reductions[|planned.reductions| - 1].reductions| == 1)
    && (forall k :: 0 <= k < |planned.reductions| ==> planned.reductions[k].level == k && planned.reductions[k].reductions != [])
  }

  /** `finishMs` is when the last of them is over. */
  predicate Finishes(placements: seq<Placement>, finishMs: real)
  {
    EndsBy(finishMs, placements) && exists k :: 0 <= k < |placements| && placements[k].FinishMs() == finishMs
  }

  ghost predicate RolePlanned(definition: JobDefinition, plan: CooperativePlan, i: nat)
    requires i < |definition.roles| == |plan.roles|
  {
    && definition.roles[i].Logical? && Complete(definition.roles[i], plan.roles[i])
    && LevelsInOrder(plan.roles[i]) && PairwiseDisjoint(plan.roles[i].Placements())
  }

  /** Nothing of role `i` starts before its dependency `j` is finished. */
  ghost predicate DependencyRespected(definition: JobDefinition, plan: CooperativePlan, i: nat, j: nat)
    requires i < |definition.roles| == |plan.roles| && j < |plan.roles|
  {
    definition.roles[j].name in definition.roles[i].dependsOn ==>
      forall k :: 0 <= k < |plan.roles[i].Placements()| ==>
        EndsBy(plan.roles[i].Placements()[k].startMs, plan.roles[j].Placements())
  }

  ghost predicate IsMakespan(definition: JobDefinition, plan: CooperativePlan)
    requires |definition.roles| == |plan.roles|
  {
    && (forall i :: 0 <= i < |plan.roles| && definition.roles[i].name in definition.outputs ==>
          EndsBy(plan.estimatedMakespanMs, plan.roles[i].Placements()))
    && exists i :: 0 <= i < |plan.roles| && definition.roles[i].name in definition.outputs
                   && Finishes(plan.roles[i].Placements(), plan.estimatedMakespanMs)
  }

  ghost predicate ValidSchedule(definition: JobDefinition, plan: CooperativePlan)
  {
    && |definition.roles| == |plan.roles|
    && (forall i :: 0 <= i < |plan.roles| ==> RolePlanned(definition, plan, i))
    && (forall i, j :: 0 <= i < |plan.roles| && 0 <= j < |plan.roles| && i != j ==>
          AllDisjoint(plan.roles[i].Placements(), plan.roles[j].Placements()))
    && (forall i, j :: 0 <= i < |plan.roles| && 0 <= j < |plan.roles| ==> DependencyRespected(definition, plan, i, j))
    && IsMakespan(definition, plan)
  }

  // ----- one role -----

  datatype Progress = Progress(availability: Availability, objects: Objects, nextObject: ObjectId)

  /** What does not change while a job is planned. */
  datatype Setting = Setting(riskMultiplier: real, resources: seq<ResourceDescriptor>, topology: Topology)
  {
    function At(progress: Progress): Context
    {
      Context(riskMultiplier, resources, progress.objects, topology)
    }
  }

  /** A predicted output, entered under a fresh id where it was computed. */
  function AddOutput(objects: Objects, id: ObjectId, bytes: u64, resource: ResourceId): Objects
  {
    objects[id := ObjectMetadata(id, bytes, None, None, [resource], None)]
  }

  ghost predicate NonNegativeRole(role: RoleSpec)
  {
    && (forall i :: 0 <= i < |role.Templates()| ==> role.Templates()[i].cost.computeMs >= 0.0)
    && (role.Logical? && role.reduction.Some? ==> role.reduction.value.task.cost.computeMs >= 0.0)
  }

  /** The role planned so far, its placements packed after `before` and not before `readyMs`. */
  ghost predicate Packs(planned: PlannedRole, readyMs: real, before: Availability, after: Availability, finishMs: real)
  {
    && Packed(before, planned.Placements()) && After(before, planned.Placements()) == after
    && StartsFrom(readyMs, planned.Placements()) && finishMs == Latest(planned.Placements(), readyMs)
    && LevelsInOrder(planned)
  }

  method ChooseRoleShards(role: RoleSpec, dependencies: seq<ObjectId>, readyMs: real, availability: Availability, context: Context)
    returns (selections: Option<seq<ShardSelection>>, after: Availability)
    requires role.Logical? && ValidRole(role) && NonNegativeRole(role) && context.riskMultiplier >= 0.0
    ensures selections.Some? ==>
              && selections.value != [] && (forall i :: 0 <= i < |selections.value| ==> selections.value[i].index == i)
              && (role.shards.Fixed? ==> |selections.value| == role.shards.count)
              && (role.shards.Auto? ==> |selections.value| <= role.shards.policy.maxShards)
              && Packed(availability, ShardPlacements(selections.value)) && StartsFrom(readyMs, ShardPlacements(selections.value))
              && after == AvailabilityAfter(availability, selections.value)
              && after == After(availability, ShardPlacements(selections.value))
              && ShardsChosen(role, dependencies, readyMs, availability, context, 0, selections.value)
    ensures selections.None? ==> CannotFanOut(role, dependencies, context)
  {
    hide Packed, StartsFrom, GreedySelections, ShardInfeasible, CountInfeasible, Evaluated, PartitionUnits;
    match role.shards {
      case Fixed(count) =>
        var job := ShardJob(role, dependencies, count, None, readyMs, 0);
        ghost var picks;
        selections, after, picks := ChooseShards(job, availability, context);
        if selections.Some? {
          GreedyIsPacked(job, availability, context, selections.value, picks);
          GreedyIndexes(job, availability, context, selections.value, picks);
          ShardsAfter(availability, selections.value);
        }
      case Auto(policy) =>
        ghost var trials;
        selections, after, trials := ChooseAutoShards(role, dependencies, policy, readyMs, availability, context, 0);
        if selections.Some? {
          var count := |selections.value|;
          AutoIsPacked(role, dependencies, policy, readyMs, availability, context, trials, count);
          ShardsAfter(availability, selections.value);
          assert AdoptedFrom(role, dependencies, policy, readyMs, availability, context, 0, selections.value, trials);
        }
    }
  }

  lemma GreedyIndexes(job: ShardJob, availability: Availability, context: Context, selections: seq<ShardSelection>, picks: seq<Pick>)
    requires job.Valid() && GreedySelections(job, availability, context, selections, picks)
    ensures forall i :: 0 <= i < |selections| ==> selections[i].index == i
  {
    hide EarliestPick;
    forall i | 0 <= i < |selections| ensures selections[i].index == i {
      assert GreedyChoice(job, availability, context, selections, i, picks[i]);
    }
  }

  lemma AutoIsPacked(role: RoleSpec, dependencies: seq<ObjectId>, policy: AutoShardPolicy, readyMs: real, availability: Availability,
                     context: Context, trials: seq<Trial>, count: nat)
    requires role.Logical? && ValidRole(role) && NonNegativeRole(role) && context.riskMultiplier >= 0.0 && role.shards == Auto(policy)
    requires Evaluated(role, dependencies, policy, readyMs, availability, context, 0, trials)
    requires 1 <= count <= |trials| && trials[count - 1].Feasible? && |trials[count - 1].selections| == count
    ensures var trial := trials[count - 1];
            && Packed(availability, ShardPlacements(trial.selections)) && StartsFrom(readyMs, ShardPlacements(trial.selections))
            && trial.after == After(availability, ShardPlacements(trial.selections))
            && forall i :: 0 <= i < |trial.selections| ==> trial.selections[i].index == i
  {
    hide Packed, StartsFrom, GreedySelections;
    var trial := trials[count - 1];
    var job := CountJob(role, dependencies, policy, count, readyMs, 0);
    assert TrialOf(CountJob(role, dependencies, policy, (count - 1) + 1, readyMs, 0), availability, context, trials[count - 1]);
    var picks :| GreedySelections(job, availability, context, trial.selections, picks);
    GreedyIsPacked(job, availability, context, trial.selections, picks);
    GreedyIndexes(job, availability, context, trial.selections, picks);
    ShardsAfter(availability, trial.selections);
  }

  function PlannedShardOf(selection: ShardSelection): PlannedShard
  {
    PlannedShard(selection.index, selection.implementation,
                 if selection.task.shard.Some? then selection.task.shard.value.partition else None, ShardPlacement(selection))
  }

  /** Planned entries, their output ids in order, the objects with those outputs entered, and the next fresh id. */
  datatype Recorded<T> = Recorded(entries: seq<T>, outputs: seq<ObjectId>, objects: Objects, nextObject: ObjectId)

  function RecordedShards(selections: seq<ShardSelection>, objects: Objects, firstObject: ObjectId): (r: Recorded<PlannedShard>)
    ensures |r.entries| == |r.outputs| == |selections|
    ensures forall i :: 0 <= i < |selections| ==> r.entries[i] == PlannedShardOf(selections[i])
  {
    if selections == [] then Recorded([], [], objects, firstObject)
    else
      var last := selections[|selections| - 1];
      var front := RecordedShards(selections[..|selections| - 1], objects, firstObject);
      Recorded(front.entries + [PlannedShardOf(last)], front.outputs + [front.nextObject],
               AddOutput(front.objects, front.nextObject, last.task.cost.outputBytes, last.resource), front.nextObject + 1)
  }

  lemma ShardPushed(selections: seq<ShardSelection>, k: nat, readyMs: real, objects: Objects, firstObject: ObjectId)
    requires k < |selections|
    ensures var front, last := RecordedShards(selections[..k], objects, firstObject), selections[k];
            RecordedShards(selections[..k + 1], objects, firstObject)
            == Recorded(front.entries + [PlannedShardOf(last)], front.outputs + [front.nextObject],
                        AddOutput(front.objects, front.nextObject, last.task.cost.outputBytes, last.resource), front.nextObject + 1)
    ensures Latest(ShardPlacements(selections[..k + 1]), readyMs)
            == Max(Latest(ShardPlacements(selections[..k]), readyMs), selections[k].FinishMs())
  {
    hide AddOutput;
    assert selections[..k + 1][..k] == selections[..k];
    assert ShardPlacements(selections[..k + 1])[..k] == ShardPlacements(selections[..k]);
  }

  lemma NothingRecorded(selections: seq<ShardSelection>, readyMs: real, objects: Objects, firstObject: ObjectId)
    ensures RecordedShards(selections[..0], objects, firstObject) == Recorded([], [], objects, firstObject)
    ensures Latest(ShardPlacements(selections[..0]), readyMs) == readyMs
  {
  }

  method RecordShards(selections: seq<ShardSelection>, readyMs: real, objects: Objects, firstObject: ObjectId)
    returns (shards: seq<PlannedShard>, outputs: seq<ObjectId>, objects': Objects, nextObject: ObjectId, finishMs: real)
    ensures Recorded(shards, outputs, objects', nextObject) == RecordedShards(selections, objects, firstObject)
    ensures finishMs == Latest(ShardPlacements(selections), readyMs)
  {
    hide RecordedShards, Latest, ShardPlacements, AddOutput, PlannedShardOf;
    shards, outputs, objects', nextObject, finishMs := [], [], objects, firstObject, readyMs;
    NothingRecorded(selections, readyMs, objects, firstObject);
    for k := 0 to |selections|
      invariant Recorded(shards, outputs, objects', nextObject) == RecordedShards(selections[..k], objects, firstObject)
      invariant finishMs == Latest(ShardPlacements(selections[..k]), readyMs)
    {
      ShardPushed(selections, k, readyMs, objects, firstObject);
      finishMs := Max(finishMs, selections[k].FinishMs());
      objects' := AddOutput(objects', nextObject, selections[k].task.cost.outputBytes, selections[k].resource);
      shards, outputs, nextObject := shards + [PlannedShardOf(selections[k])], outputs + [nextObject], nextObject + 1;
    }
    assert selections[..|selections|] == selections;
  }

  function ReductionPlacements(reductions: seq<PlannedReduction>): seq<Placement>
  {
    seq(|reductions|, i requires 0 <= i < |reductions| => reductions[i].placement)
  }

  lemma {:induction false} ReducersPlaced(items: seq<LevelItem>)
    ensures |ItemPlacements(items)| <= |items|
    ensures HasReduce(items) ==> ItemPlacements(items) != []
  {
    if items != [] {
      var n := |items| - 1;
      ReducersPlaced(items[..n]);
      if HasReduce(items) && !items[n].Reduce? {
        var g :| 0 <= g < |items| && items[g].Reduce?;
        assert items[..n][g].Reduce?;
      }
    }
  }

  lemma ItemPushed(items: seq<LevelItem>, g: nat, readyMs: real)
    requires g < |items|
    ensures match items[g]
            case Carry(_) => ItemPlacements(items[..g + 1]) == ItemPlacements(items[..g])
            case Reduce(_, resource, startMs, cost) =>
              var placement := Placement(resource, startMs, cost);
              && ItemPlacements(items[..g + 1]) == ItemPlacements(items[..g]) + [placement]
              && Latest(ItemPlacements(items[..g + 1]), readyMs) == Max(Latest(ItemPlacements(items[..g]), readyMs), placement.FinishMs())
  {
    assert items[..g + 1][..g] == items[..g];
    if items[g].Reduce? {
      var placement := Placement(items[g].resource, items[g].startMs, items[g].cost);
      assert (ItemPlacements(items[..g]) + [placement])[..|ItemPlacements(items[..g])|] == ItemPlacements(items[..g]);
    } else {
      assert ItemPlacements(items[..g]) + [] == ItemPlacements(items[..g]);
    }
  }

  function RecordedLevel(items: seq<LevelItem>, objects: Objects, firstObject: ObjectId): (r: Recorded<PlannedReduction>)
    ensures |r.outputs| == |items|
  {
    if items == [] then Recorded([], [], objects, firstObject)
    else
      var front := RecordedLevel(items[..|items| - 1], objects, firstObject);
      match items[|items| - 1]
      case Carry(id) => front.(outputs := front.outputs + [id])
      case Reduce(task, resource, startMs, cost) =>
        Recorded(front.entries + [PlannedReduction(|task.inputs|, Placement(resource, startMs, cost))],
                 front.outputs + [front.nextObject],
                 AddOutput(front.objects, front.nextObject, task.cost.outputBytes, resource), front.nextObject + 1)
  }

  lemma {:induction false} RecordedPlacements(items: seq<LevelItem>, objects: Objects, firstObject: ObjectId)
    ensures ReductionPlacements(RecordedLevel(items, objects, firstObject).entries) == ItemPlacements(items)
  {
    if items != [] {
      RecordedPlacements(items[..|items| - 1], objects, firstObject);
      var front := RecordedLevel(items[..|items| - 1], objects, firstObject).entries;
      if items[|items| - 1].Reduce? {
        var last := RecordedLevel(items, objects, firstObject).entries[|front|];
        assert ReductionPlacements(front + [last]) == ReductionPlacements(front) + [last.placement];
      } else {
        assert ItemPlacements(items[..|items| - 1]) + [] == ItemPlacements(items[..|items| - 1]);
      }
    }
  }

  method RecordLevel(items: seq<LevelItem>, readyMs: real, objects: Objects, firstObject: ObjectId)
    returns (reductions: seq<PlannedReduction>, outputs: seq<ObjectId>, objects': Objects, nextObject: ObjectId, finishMs: real)
    ensures Recorded(reductions, outputs, objects', nextObject) == RecordedLevel(items, objects, firstObject)
    ensures ReductionPlacements(reductions) == ItemPlacements(items)
    ensures finishMs == Latest(ItemPlacements(items), readyMs)
  {
    reductions, outputs, objects', nextObject, finishMs := [], [], objects, firstObject, readyMs;
    NoItems(items, readyMs);
    hide ItemPlacements, Latest;
    for g := 0 to |items|
      invariant Recorded(reductions, outputs, objects', nextObject) == RecordedLevel(items[..g], objects, firstObject)
      invariant finishMs == Latest(ItemPlacements(items[..g]), readyMs)
    {
      ItemPushed(items, g, readyMs);
      assert items[..g + 1][..g] == items[..g];
      match items[g] {
        case Carry(id) =>
          outputs := outputs + [id];
        case Reduce(task, resource, startMs, cost) =>
          var placement := Placement(resource, startMs, cost);
          finishMs := Max(finishMs, placement.FinishMs());
          objects' := AddOutput(objects', nextObject, task.cost.outputBytes, resource);
          reductions := reductions + [PlannedReduction(|task.inputs|, placement)];
          outputs, nextObject := outputs + [nextObject], nextObject + 1;
      }
    }
    assert items[..|items|] == items;
    RecordedPlacements(items, objects, firstObject);
  }

  lemma NoItems(items: seq<LevelItem>, readyMs: real)
    ensures ItemPlacements(items[..0]) == [] && Latest([], readyMs) == readyMs
  {
  }

  datatype RolePlan = RolePlan(planned: PlannedRole, outputs: seq<ObjectId>, finishMs: real, progress: Progress)

  ghost predicate RolePlanOf(role: RoleSpec, readyMs: real, before: Progress, plan: RolePlan)
    requires role.Logical?
  {
    && Complete(role, plan.planned)
    && Packs(plan.planned, readyMs, before.availability, plan.progress.availability, plan.finishMs)
  }

  // ----- one role, stage by stage -----

  /** The role once its shards are placed. */
  function AfterShards(role: RoleSpec, readyMs: real, before: Progress, selections: seq<ShardSelection>): RolePlan
  {
    var recorded := RecordedShards(selections, before.objects, before.nextObject);
    RolePlan(PlannedRole(role.name, recorded.entries, []), recorded.outputs, Latest(ShardPlacements(selections), readyMs),
             Progress(AvailabilityAfter(before.availability, selections), recorded.objects, recorded.nextObject))
  }

  /** The role once a further level is placed: its reducers wait for everything before them. */
  function AfterLevel(reduction: RoleReductionSpec, plan: RolePlan, items: seq<LevelItem>): RolePlan
  {
    var recorded := RecordedLevel(items, plan.progress.objects, plan.progress.nextObject);
    var level := PlannedReductionLevel(|plan.planned.reductions|, reduction.name, recorded.entries);
    RolePlan(plan.planned.(reductions := plan.planned.reductions + [level]), recorded.outputs, Latest(ItemPlacements(items), plan.finishMs),
             Progress(AvailabilityAfterItems(plan.progress.availability, items), recorded.objects, recorded.nextObject))
  }

  ghost predicate ShardStage(role: RoleSpec, dependencies: seq<ObjectId>, readyMs: real, setting: Setting, before: Progress, plan: RolePlan)
    requires role.Logical?
  {
    exists selections ::
      && ShardsChosen(role, dependencies, readyMs, before.availability, setting.At(before), 0, selections)
      && plan == AfterShards(role, readyMs, before, selections)
  }

  /** The level the planner places next, or why it cannot. */
  ghost predicate NextLevel(role: RoleSpec, setting: Setting, plan: RolePlan, items: Option<seq<LevelItem>>)
    requires role.Logical?
  {
    && role.reduction.Some? && |plan.outputs| > 1
    && LevelChosen(role.reduction.value, plan.outputs, plan.finishMs, plan.progress.availability, setting.At(plan.progress), items)
  }

  ghost predicate LevelStage(role: RoleSpec, setting: Setting, plan: RolePlan, plan': RolePlan)
    requires role.Logical?
  {
    exists items :: NextLevel(role, setting, plan, Some(items)) && plan' == AfterLevel(role.reduction.value, plan, items)
  }

  /** The plans of one role after its shards and after each level so far. */
  ghost predicate RoleStages(role: RoleSpec, dependencies: seq<ObjectId>, readyMs: real, setting: Setting, before: Progress,
                             stages: seq<RolePlan>)
    requires role.Logical?
  {
    && stages != [] && ShardStage(role, dependencies, readyMs, setting, before, stages[0])
    && forall k :: 0 < k < |stages| ==> LevelStage(role, setting, stages[k - 1], stages[k])
  }

  /** The greedy planner's plan of the role: shards first, then levels until a single output is left. */
  ghost predicate GreedyRolePlan(role: RoleSpec, dependencies: seq<ObjectId>, readyMs: real, setting: Setting, before: Progress,
                                 plan: RolePlan)
    requires role.Logical?
  {
    && (role.reduction.Some? ==> |plan.outputs| <= 1)
    && exists stages :: RoleStages(role, dependencies, readyMs, setting, before, stages) && stages[|stages| - 1] == plan
  }

  /** The shards, or a level further up, cannot be placed. */
  ghost predicate Unplannable(role: RoleSpec, dependencies: seq<ObjectId>, readyMs: real, setting: Setting, before: Progress)
    requires role.Logical? && role.implementations != []
  {
    || CannotFanOut(role, dependencies, setting.At(before))
    || exists stages :: RoleStages(role, dependencies, readyMs, setting, before, stages)
                        && NextLevel(role, setting, stages[|stages| - 1], None)
  }

  lemma StagePushed(role: RoleSpec, dependencies: seq<ObjectId>, readyMs: real, setting: Setting, before: Progress,
                    stages: seq<RolePlan>, items: seq<LevelItem>)
    requires role.Logical? && role.reduction.Some? && RoleStages(role, dependencies, readyMs, setting, before, stages)
    requires NextLevel(role, setting, stages[|stages| - 1], Some(items))
    ensures RoleStages(role, dependencies, readyMs, setting, before,
                       stages + [AfterLevel(role.reduction.value, stages[|stages| - 1], items)])
  {
    hide ShardStage, NextLevel, AfterLevel;
    var plan := stages[|stages| - 1];
    assert LevelStage(role, setting, plan, AfterLevel(role.reduction.value, plan, items));
  }

  lemma UpToLevelKept(planned: PlannedRole, level: PlannedReductionLevel, k: nat)
    requires k <= |planned.reductions|
    ensures planned.(reductions := planned.reductions + [level]).UpToLevel(k) == planned.UpToLevel(k)
  {
    if k > 0 { UpToLevelKept(planned, level, k - 1); }
  }

  /** A further level, placed after everything before it, keeps the role well scheduled. */
  lemma LevelAdded(planned: PlannedRole, readyMs: real, before: Availability, after: Availability, finishMs: real,
                   level: PlannedReductionLevel)
    requires Packs(planned, readyMs, before, after, finishMs) && finishMs >= readyMs
    requires Packed(after, level.Placements()) && StartsFrom(finishMs, level.Placements())
    ensures Packs(planned.(reductions := planned.reductions + [level]), readyMs, before,
                  After(after, level.Placements()), Latest(level.Placements(), finishMs))
  {
    LevelsStayInOrder(planned, finishMs, level);
    var grown := planned.(reductions := planned.reductions + [level]);
    UpToLevelKept(planned, level, |planned.reductions|);
    assert grown.Placements() == planned.Placements() + level.Placements();
    hide Packed, LevelsInOrder, After, Latest;
    PackedAppend(before, planned.Placements(), level.Placements());
    LatestAppend(planned.Placements(), level.Placements(), readyMs);
    StartsLater(readyMs, finishMs, planned.Placements(), level.Placements());
  }

  lemma StartsLater(readyMs: real, laterMs: real, a: seq<Placement>, b: seq<Placement>)
    requires readyMs <= laterMs && StartsFrom(readyMs, a) && StartsFrom(laterMs, b)
    ensures StartsFrom(readyMs, a + b)
  {
  }

  lemma LevelsStayInOrder(planned: PlannedRole, finishMs: real, level: PlannedReductionLevel)
    requires LevelsInOrder(planned) && EndsBy(finishMs, planned.Placements()) && StartsFrom(finishMs, level.Placements())
    ensures LevelsInOrder(planned.(reductions := planned.reductions + [level]))
  {
    var grown := planned.(reductions := planned.reductions + [level]);
    forall k, i | 0 <= k < |grown.reductions| && 0 <= i < |grown.reductions[k].Placements()|
      ensures EndsBy(grown.reductions[k].Placements()[i].startMs, grown.UpToLevel(k))
    {
      UpToLevelKept(planned, level, k);
      if k < |planned.reductions| {
        assert grown.reductions[k] == planned.reductions[k];
      } else {
        EndsLater(finishMs, level.Placements()[i].startMs, planned.Placements());
      }
    }
  }

  lemma EndsLater(finishMs: real, laterMs: real, placements: seq<Placement>)
    requires finishMs <= laterMs && EndsBy(finishMs, placements)
    ensures EndsBy(laterMs, placements)
  {
  }

  /** The shape the role has before the last level: numbered, non-empty levels over all its shards. */
  predicate Growing(role: RoleSpec, planned: PlannedRole)
    requires role.Logical?
  {
    Complete(role.(reduction := None), planned.(reductions := [])) &&
    forall k :: 0 <= k < |planned.reductions| ==> planned.reductions[k].level == k && planned.reductions[k].reductions != []
  }

  method PlanLevel(reduction: RoleReductionSpec, outputs: seq<ObjectId>, readyMs: real, setting: Setting, progress: Progress, number: nat)
    returns (level: Option<PlannedReductionLevel>, next: seq<ObjectId>, finishMs: real, progress': Progress,
             ghost items: Option<seq<LevelItem>>)
    requires |outputs| >= 2 && setting.riskMultiplier >= 0.0 && reduction.task.cost.computeMs >= 0.0
    requires reduction.maxFanIn >= 2 && reduction.localityRttMs >= 0.0
    ensures LevelChosen(reduction, outputs, readyMs, progress.availability, setting.At(progress), items)
    ensures level.Some? <==> items.Some?
    ensures items.Some? ==>
              var recorded := RecordedLevel(items.value, progress.objects, progress.nextObject);
              && level.value == PlannedReductionLevel(number, reduction.name, recorded.entries) && next == recorded.outputs
              && finishMs == Latest(ItemPlacements(items.value), readyMs)
              && progress' == Progress(AvailabilityAfterItems(progress.availability, items.value), recorded.objects, recorded.nextObject)
    ensures level.Some? ==>
              && level.value.level == number && level.value.reductions != [] && |next| < |outputs| && next != []
              && (|next| == 1 ==> |level.value.reductions| == 1)
              && Packed(progress.availability, level.value.Placements()) && StartsFrom(readyMs, level.value.Placements())
              && finishMs == Latest(level.value.Placements(), readyMs)
              && progress'.availability == After(progress.availability, level.value.Placements())
  {
    hide Packed, StartsFrom, AllPlaced, GreedyLocal, LevelChosen, GroupStuck, WellGrouped, RecordedLevel;
    var selected, after, groups := SelectReductionLevel(reduction, outputs, readyMs, progress.availability, setting.At(progress), 0);
    next, finishMs, progress', items := [], readyMs, progress, selected;
    if selected.None? {
      return None, next, finishMs, progress', items;
    }
    LevelIsNonNegative(reduction, outputs, selected.value, groups, setting.At(progress));
    LevelIsPacked(readyMs, progress.availability, setting.At(progress), selected.value);
    ItemsAfter(progress.availability, selected.value);
    ReducersPlaced(selected.value);
    var reductions, produced, objects, nextObject, levelFinish := RecordLevel(selected.value, readyMs, progress.objects, progress.nextObject);
    RecordedSize(selected.value, progress.objects, progress.nextObject);
    var planned := PlannedReductionLevel(number, reduction.name, reductions);
    assert planned.Placements() == ItemPlacements(selected.value);
    return Some(planned), produced, levelFinish, Progress(after, objects, nextObject), items;
  }

  lemma RecordedSize(items: seq<LevelItem>, objects: Objects, firstObject: ObjectId)
    ensures |RecordedLevel(items, objects, firstObject).outputs| == |items|
  {
  }

  lemma LevelIsNonNegative(reduction: RoleReductionSpec, inputs: seq<ObjectId>, items: seq<LevelItem>, groups: seq<seq<ObjectId>>,
                           context: Context)
    requires LevelOf(reduction, inputs, 0, items, groups) && reduction.task.cost.computeMs >= 0.0 && context.riskMultiplier >= 0.0
    ensures NonNegativeItems(items, context)
  {
    forall g | 0 <= g < |items| && items[g].Reduce? ensures NonNegativeCosts(items[g].task, context) {
      assert ItemFor(reduction, groups[g], 0 + g, items[g]);
    }
  }

  /** All shards of one role, then reduction levels until a single output is left. */
  method PlanRole(role: RoleSpec, dependencies: seq<ObjectId>, readyMs: real, setting: Setting, progress: Progress)
    returns (plan: Option<RolePlan>)
    requires role.Logical? && ValidRole(role) && role.implementations != [] && NonNegativeRole(role) && setting.riskMultiplier >= 0.0
    ensures plan.Some? ==>
              && RolePlanOf(role, readyMs, progress, plan.value)
              && GreedyRolePlan(role, dependencies, readyMs, setting, progress, plan.value)
    ensures plan.None? ==> Unplannable(role, dependencies, readyMs, setting, progress)
  {
    hide Packs, Packed, StartsFrom, Growing, Complete, ShardsChosen, CannotFanOut, LevelChosen, RecordedShards, RecordedLevel, RoleStages,
      After, AvailabilityAfter, AvailabilityAfterItems, ItemPlacements;
    var selections, after := ChooseRoleShards(role, dependencies, readyMs, progress.availability, setting.At(progress));
    if selections.None? {
      return None;
    }
    var shards, outputs, objects, nextObject, finishMs := RecordShards(selections.value, readyMs, progress.objects, progress.nextObject);
    var planned := PlannedRole(role.name, shards, []);
    var sofar := Progress(after, objects, nextObject);
    ghost var stages := [RolePlan(planned, outputs, finishMs, sofar)];
    FirstStage(role, dependencies, readyMs, setting, progress, selections.value, stages[0]);
    RecordedShardSizes(selections.value, progress.objects, progress.nextObject);
    ShardsPlanned(role, readyMs, progress.availability, selections.value, planned, after);
    if role.reduction.Some? {
      var level := 0;
      while |outputs| > 1
        invariant Packs(planned, readyMs, progress.availability, sofar.availability, finishMs) && finishMs >= readyMs
        invariant Growing(role, planned) && |planned.reductions| == level && outputs != [] && |planned.shards| == |shards|
        invariant level == 0 ==> |outputs| == |shards|
        invariant level > 0 ==> |shards| > 1
        invariant level > 0 && |outputs| == 1 ==> |planned.reductions[level - 1].reductions| == 1
        invariant stages != [] && stages[|stages| - 1] == RolePlan(planned, outputs, finishMs, sofar)
        invariant RoleStages(role, dependencies, readyMs, setting, progress, stages)
        decreases |outputs|
      {
        ghost var current := stages[|stages| - 1];
        var placed, next, levelFinish, sofar', items := PlanLevel(role.reduction.value, outputs, finishMs, setting, sofar, level);
        assert NextLevel(role, setting, current, items);
        if placed.None? {
          return None;
        }
        LevelAdded(planned, readyMs, progress.availability, sofar.availability, finishMs, placed.value);
        GrowingExtends(role, planned, placed.value);
        StagePushed(role, dependencies, readyMs, setting, progress, stages, items.value);
        planned := planned.(reductions := planned.reductions + [placed.value]);
        outputs, finishMs, sofar, level := next, levelFinish, sofar', level + 1;
        stages := stages + [AfterLevel(role.reduction.value, current, items.value)];
      }
    }
    GrownIsComplete(role, planned);
    return Some(RolePlan(planned, outputs, finishMs, sofar));
  }

  lemma FirstStage(role: RoleSpec, dependencies: seq<ObjectId>, readyMs: real, setting: Setting, before: Progress,
                   selections: seq<ShardSelection>, plan: RolePlan)
    requires role.Logical? && plan == AfterShards(role, readyMs, before, selections)
    requires ShardsChosen(role, dependencies, readyMs, before.availability, setting.At(before), 0, selections)
    ensures RoleStages(role, dependencies, readyMs, setting, before, [plan])
  {
    hide ShardsChosen, AfterShards;
    assert ShardStage(role, dependencies, readyMs, setting, before, plan);
  }

  lemma RecordedShardSizes(selections: seq<ShardSelection>, objects: Objects, firstObject: ObjectId)
    ensures var recorded := RecordedShards(selections, objects, firstObject);
            && |recorded.entries| == |recorded.outputs| == |selections|
            && forall i :: 0 <= i < |selections| ==> recorded.entries[i] == PlannedShardOf(selections[i])
  {
  }

  lemma ShardsPlanned(role: RoleSpec, readyMs: real, before: Availability, selections: seq<ShardSelection>, planned: PlannedRole,
                      after: Availability)
    requires role.Logical? && planned.name == role.name && planned.reductions == [] && selections != []
    requires |planned.shards| == |selections| && forall i :: 0 <= i < |selections| ==> planned.shards[i] == PlannedShardOf(selections[i])
    requires forall i :: 0 <= i < |selections| ==> selections[i].index == i
    requires role.shards.Fixed? ==> |selections| == role.shards.count
    requires role.shards.Auto? ==> |selections| <= role.shards.policy.maxShards
    requires Packed(before, ShardPlacements(selections)) && StartsFrom(readyMs, ShardPlacements(selections))
    requires after == After(before, ShardPlacements(selections))
    ensures Growing(role, planned)
    ensures Packs(planned, readyMs, before, after, Latest(ShardPlacements(selections), readyMs))
  {
    assert planned.Placements() == ShardPlacements(selections);
  }

  lemma GrowingExtends(role: RoleSpec, planned: PlannedRole, level: PlannedReductionLevel)
    requires role.Logical? && Growing(role, planned) && level.level == |planned.reductions| && level.reductions != []
    ensures Growing(role, planned.(reductions := planned.reductions + [level]))
  {
    var grown := planned.(reductions := planned.reductions + [level]);
    assert grown.(reductions := []) == planned.(reductions := []);
  }

  lemma GrownIsComplete(role: RoleSpec, planned: PlannedRole)
    requires role.Logical? && Growing(role, planned)
    requires role.reduction.None? || |planned.shards| == 1 ==> planned.reductions == []
    requires role.reduction.Some? && |planned.shards| > 1 ==>
               planned.reductions != [] && |planned.reductions[|planned.reductions| - 1].reductions| == 1
    ensures Complete(role, planned)
  {
  }

  // ----- the next role to plan -----

  datatype SelectedRole = SelectedRole(outputs: seq<ObjectId>, finishMs: real)

  type Selected = map<string, SelectedRole>

  function SelectedOutputs(selected: Selected, dependsOn: seq<string>): seq<ObjectId>
  {
    if dependsOn == [] then []
    else
      var n := |dependsOn| - 1;
      SelectedOutputs(selected, dependsOn[..n]) + if dependsOn[n] in selected then selected[dependsOn[n]].outputs else []
  }

  function LatestOf(selected: Selected, dependsOn: seq<string>): (r: real)
    requires forall i :: 0 <= i < |dependsOn| ==> dependsOn[i] in selected
    ensures r >= 0.0 && forall i :: 0 <= i < |dependsOn| ==> selected[dependsOn[i]].finishMs <= r
    ensures r == 0.0 || exists i :: 0 <= i < |dependsOn| && selected[dependsOn[i]].finishMs == r
  {
    if dependsOn == [] then 0.0
    else
      var n := |dependsOn| - 1;
      Max(LatestOf(selected, dependsOn[..n]), selected[dependsOn[n]].finishMs)
  }

  function FeasibleOn(task: TaskSpec, context: Context, count: nat): nat
    requires count <= |context.resources|
  {
    if count == 0 then 0
    else FeasibleOn(task, context, count - 1) + if PlacementCost(task, context.resources[count - 1], context).Some? then 1 else 0
  }

  /** How many pairs of implementation and resource could run the role. */
  function FeasibleCandidates(templates: seq<TaskTemplate>, inputs: seq<ObjectId>, context: Context): nat
  {
    if templates == [] then 0
    else
      var n := |templates| - 1;
      FeasibleCandidates(templates[..n], inputs, context) + FeasibleOn(templates[n].Instantiate(0, inputs), context, |context.resources|)
  }

  function CandidateCount(role: RoleSpec, selected: Selected, context: Context): nat
  {
    FeasibleCandidates(role.Templates(), SelectedOutputs(selected, role.dependsOn), context)
  }

  predicate CanBePlanned(role: RoleSpec, selected: Selected)
  {
    role.name !in selected && forall i :: 0 <= i < |role.dependsOn| ==> role.dependsOn[i] in selected
  }

  /** The most constrained role whose dependencies have been planned; the first of several. */
  method PickRole(roles: seq<RoleSpec>, selected: Selected, context: Context) returns (picked: Option<RoleSpec>)
    ensures picked.None? <==> forall i :: 0 <= i < |roles| ==> !CanBePlanned(roles[i], selected)
    ensures picked.Some? ==>
              && picked.value in roles && CanBePlanned(picked.value, selected)
              && forall i :: 0 <= i < |roles| && CanBePlanned(roles[i], selected) ==>
                   CandidateCount(picked.value, selected, context) <= CandidateCount(roles[i], selected, context)
  {
    hide FeasibleCandidates, SelectedOutputs;
    picked := None;
    for k := 0 to |roles|
      invariant picked.None? <==> forall i :: 0 <= i < k ==> !CanBePlanned(roles[i], selected)
      invariant picked.Some? ==>
                  && picked.value in roles && CanBePlanned(picked.value, selected)
                  && forall i :: 0 <= i < k && CanBePlanned(roles[i], selected) ==>
                       CandidateCount(picked.value, selected, context) <= CandidateCount(roles[i], selected, context)
    {
      if CanBePlanned(roles[k], selected) {
        if picked.None? || CandidateCount(roles[k], selected, context) < CandidateCount(picked.value, selected, context) {
          picked := Some(roles[k]);
        }
      }
    }
  }

  // ----- the whole job -----

  type PlannedRoles = map<string, PlannedRole>

  ghost predicate OnePlanned(definition: JobDefinition, selected: Selected, planned: PlannedRoles, availability: Availability, n: string)
    requires n in planned && n in selected && HasRole(definition.roles, n)
  {
    var role, placements := Role(definition.roles, n), planned[n].Placements();
    && role.Logical? && Complete(role, planned[n]) && LevelsInOrder(planned[n])
    && PairwiseDisjoint(placements) && Reserved(availability, placements)
    && Finishes(placements, selected[n].finishMs) && selected[n].finishMs >= 0.0
    && forall i :: 0 <= i < |role.dependsOn| ==>
         role.dependsOn[i] in selected && StartsFrom(selected[role.dependsOn[i]].finishMs, placements)
  }

  ghost predicate PlannedSoFar(definition: JobDefinition, selected: Selected, planned: PlannedRoles, availability: Availability)
  {
    && planned.Keys == selected.Keys
    && (forall n :: n in selected ==> HasRole(definition.roles, n) && OnePlanned(definition, selected, planned, availability, n))
    && forall n, m :: n in planned && m in planned && n != m ==> AllDisjoint(planned[n].Placements(), planned[m].Placements())
  }

  /** What the rest of the plan needs to know about a role that has just been planned. */
  lemma RoleFacts(planned: PlannedRole, readyMs: real, before: Availability, after: Availability, finishMs: real)
    requires Packs(planned, readyMs, before, after, finishMs) && planned.shards != []
    ensures Later(before, after) && NoEarlierThan(before, planned.Placements()) && Reserved(after, planned.Placements())
    ensures PairwiseDisjoint(planned.Placements()) && Finishes(planned.Placements(), finishMs)
  {
    PackedFacts(before, planned.Placements());
    hide After, NoEarlierThan, Reserved, Later, PairwiseDisjoint, AvailableAt, LevelsInOrder;
    HasPlacements(planned, |planned.reductions|);
    var first := planned.Placements()[0];
    if finishMs == readyMs { assert first.FinishMs() == finishMs; }
  }

  lemma {:induction false} HasPlacements(planned: PlannedRole, k: nat)
    requires planned.shards != [] && k <= |planned.reductions|
    ensures planned.UpToLevel(k) != []
  {
    if k > 0 { HasPlacements(planned, k - 1); }
  }

  lemma ReservedLonger(before: Availability, after: Availability, placements: seq<Placement>)
    requires Later(before, after) && Reserved(before, placements)
    ensures Reserved(after, placements)
  {
  }

  lemma NewAreDisjoint(availability: Availability, earlier: seq<Placement>, added: seq<Placement>)
    requires Reserved(availability, earlier) && NoEarlierThan(availability, added)
    ensures AllDisjoint(earlier, added) && AllDisjoint(added, earlier)
  {
  }

  lemma RoleAdded(definition: JobDefinition, selected: Selected, planned: PlannedRoles, before: Progress, role: RoleSpec, plan: RolePlan)
    requires PlannedSoFar(definition, selected, planned, before.availability)
    requires role.Logical? && FindRole(definition.roles, role.name) == Some(role) && CanBePlanned(role, selected)
    requires RolePlanOf(role, LatestOf(selected, role.dependsOn), before, plan)
    ensures PlannedSoFar(definition, selected[role.name := SelectedRole(plan.outputs, plan.finishMs)],
                         planned[role.name := plan.planned], plan.progress.availability)
  {
    hide AllDisjoint, Reserved, NoEarlierThan, Later, PairwiseDisjoint, LevelsInOrder, Finishes, StartsFrom, Packed, After, Latest, Complete;
    var readyMs := LatestOf(selected, role.dependsOn);
    var selected', planned' := selected[role.name := SelectedRole(plan.outputs, plan.finishMs)], planned[role.name := plan.planned];
    var after := plan.progress.availability;
    CompleteHasShards(role, plan.planned);
    RoleFacts(plan.planned, readyMs, before.availability, after, plan.finishMs);
    forall n | n in selected' ensures HasRole(definition.roles, n) && OnePlanned(definition, selected', planned', after, n) {
      if n == role.name {
        forall i | 0 <= i < |role.dependsOn| ensures StartsFrom(selected'[role.dependsOn[i]].finishMs, plan.planned.Placements()) {
          StartsEarlier(selected[role.dependsOn[i]].finishMs, readyMs, plan.planned.Placements());
        }
      } else {
        StaysPlanned(definition, selected, planned, before.availability, selected', planned', after, n);
      }
    }
    StaysDisjoint(definition, selected, planned, before.availability, role.name, plan.planned, planned');
  }

  lemma StaysPlanned(definition: JobDefinition, selected: Selected, planned: PlannedRoles, before: Availability,
                     selected': Selected, planned': PlannedRoles, after: Availability, n: string)
    requires n in selected && n in planned && HasRole(definition.roles, n) && OnePlanned(definition, selected, planned, before, n)
    requires Later(before, after) && n in planned' && planned'[n] == planned[n]
    requires forall m :: m in selected ==> m in selected' && selected'[m].finishMs == selected[m].finishMs
    ensures n in selected' && OnePlanned(definition, selected', planned', after, n)
  {
    hide Reserved, Later, PairwiseDisjoint, LevelsInOrder, Finishes, StartsFrom, Complete;
    ReservedLonger(before, after, planned[n].Placements());
  }

  /** Planned one after the other, roles never overlap. */
  lemma StaysDisjoint(definition: JobDefinition, selected: Selected, planned: PlannedRoles, availability: Availability, name: string,
                      added: PlannedRole, planned': PlannedRoles)
    requires PlannedSoFar(definition, selected, planned, availability) && NoEarlierThan(availability, added.Placements())
    requires planned' == planned[name := added]
    ensures forall n, m :: n in planned' && m in planned' && n != m ==>
              AllDisjoint(planned'[n].Placements(), planned'[m].Placements())
  {
    hide AllDisjoint, Reserved, NoEarlierThan, PairwiseDisjoint, LevelsInOrder, Finishes, StartsFrom, Complete;
    forall n, m | n in planned' && m in planned' && n != m
      ensures AllDisjoint(planned'[n].Placements(), planned'[m].Placements())
    {
      if n == name {
        assert OnePlanned(definition, selected, planned, availability, m);
        NewAreDisjoint(availability, planned[m].Placements(), added.Placements());
      } else if m == name {
        assert OnePlanned(definition, selected, planned, availability, n);
        NewAreDisjoint(availability, planned[n].Placements(), added.Placements());
      }
    }
  }

  lemma CompleteHasShards(role: RoleSpec, planned: PlannedRole)
    requires role.Logical? && Complete(role, planned)
    ensures planned.shards != []
  {
  }

  lemma StartsEarlier(earlyMs: real, readyMs: real, placements: seq<Placement>)
    requires earlyMs <= readyMs && StartsFrom(readyMs, placements)
    ensures StartsFrom(earlyMs, placements)
  {
  }

  ghost predicate NonNegativeDefinition(definition: JobDefinition)
  {
    forall i :: 0 <= i < |definition.roles| ==> definition.roles[i].Logical? && NonNegativeRole(definition.roles[i])
  }

  lemma RoleIsNonNegative(definition: JobDefinition, i: nat)
    requires NonNegativeDefinition(definition) && i < |definition.roles|
    ensures definition.roles[i].Logical? && NonNegativeRole(definition.roles[i])
  {
  }

  /** As long as roles are missing, a validated graph has one whose dependencies are all planned. */
  lemma SomethingCanBePlanned(definition: JobDefinition, selected: Selected)
    requires ValidJob(definition) && |selected| < |definition.roles|
    requires forall n :: n in selected ==> HasRole(definition.roles, n)
    ensures exists i :: 0 <= i < |definition.roles| && CanBePlanned(definition.roles[i], selected)
  {
    var roles := definition.roles;
    NamesCount(roles);
    assert |selected| == |selected.Keys| && selected.Keys <= Names(roles);
    if forall n :: HasRole(roles, n) ==> n in selected {
      SubsetCardinality(Names(roles), selected.Keys);
    } else if forall i :: 0 <= i < |roles| ==> !CanBePlanned(roles[i], selected) {
      forall i | 0 <= i < |roles| ensures roles[i].name in selected.Keys || !DependenciesIn(roles[i].dependsOn, selected.Keys) {
        assert !CanBePlanned(roles[i], selected);
      }
      StuckMeansCycle(roles, selected.Keys);
    }
  }

  lemma AllSelected(definition: JobDefinition, selected: Selected)
    requires ValidJob(definition) && |selected| >= |definition.roles|
    requires forall n :: n in selected ==> HasRole(definition.roles, n)
    ensures forall i :: 0 <= i < |definition.roles| ==> definition.roles[i].name in selected
    ensures forall i :: 0 <= i < |definition.outputs| ==> definition.outputs[i] in selected
    ensures |selected| == |definition.roles|
  {
    NamesCount(definition.roles);
    assert |selected| == |selected.Keys|;
    SubsetCardinality(selected.Keys, Names(definition.roles));
    forall i | 0 <= i < |definition.roles| ensures definition.roles[i].name in selected {
      assert definition.roles[i].name in Names(definition.roles);
    }
  }

  lemma RoleAt(definition: JobDefinition, i: nat)
    requires ValidJob(definition) && i < |definition.roles|
    ensures FindRole(definition.roles, definition.roles[i].name) == Some(definition.roles[i]) && ValidRole(definition.roles[i])
  {
    RoleIsUnique(definition.roles, definition.roles[i]);
  }

  // ----- role by role -----

  /** How far planning has come: outputs and finish times, planned roles, and the predicted fabric. */
  datatype JobProgress = JobProgress(selected: Selected, planned: PlannedRoles, progress: Progress)

  /** Of the roles that can be planned next, this one has the fewest feasible candidates. */
  ghost predicate Picks(definition: JobDefinition, setting: Setting, at: JobProgress, role: RoleSpec)
  {
    && role in definition.roles && role.Logical? && role.implementations != [] && CanBePlanned(role, at.selected)
    && forall i :: 0 <= i < |definition.roles| && CanBePlanned(definition.roles[i], at.selected) ==>
         CandidateCount(role, at.selected, setting.At(at.progress)) <= CandidateCount(definition.roles[i], at.selected, setting.At(at.progress))
  }

  function WithRole(at: JobProgress, role: RoleSpec, plan: RolePlan): JobProgress
  {
    JobProgress(at.selected[role.name := SelectedRole(plan.outputs, plan.finishMs)], at.planned[role.name := plan.planned], plan.progress)
  }

  ghost predicate RoleStep(definition: JobDefinition, setting: Setting, at: JobProgress, at': JobProgress)
  {
    exists role, plan ::
      && Picks(definition, setting, at, role)
      && GreedyRolePlan(role, SelectedOutputs(at.selected, role.dependsOn), LatestOf(at.selected, role.dependsOn), setting, at.progress, plan)
      && at' == WithRole(at, role, plan)
  }

  /** Planning a job from `start`, one picked role after the other. */
  ghost predicate JobSteps(definition: JobDefinition, setting: Setting, start: Progress, steps: seq<JobProgress>)
  {
    && steps != [] && steps[0] == JobProgress(map[], map[], start)
    && forall k :: 0 < k < |steps| ==> RoleStep(definition, setting, steps[k - 1], steps[k])
  }

  /** The role picked after these steps cannot be planned. */
  ghost predicate GetsStuckAt(definition: JobDefinition, setting: Setting, start: Progress, steps: seq<JobProgress>, role: RoleSpec)
  {
    && JobSteps(definition, setting, start, steps)
    && var at := steps[|steps| - 1];
       && Picks(definition, setting, at, role)
       && Unplannable(role, SelectedOutputs(at.selected, role.dependsOn), LatestOf(at.selected, role.dependsOn), setting, at.progress)
  }

  /** Every role was planned, and these are the plans. */
  ghost predicate EndsWith(definition: JobDefinition, setting: Setting, start: Progress, steps: seq<JobProgress>, plan: CooperativePlan)
  {
    && JobSteps(definition, setting, start, steps) && |steps| == |definition.roles| + 1
    && ListsPlanned(definition, steps[|steps| - 1].planned, plan)
  }

  lemma NextStep(definition: JobDefinition, setting: Setting, start: Progress, steps: seq<JobProgress>, role: RoleSpec, plan: RolePlan)
    returns (steps': seq<JobProgress>)
    requires JobSteps(definition, setting, start, steps) && Picks(definition, setting, steps[|steps| - 1], role)
    requires var at := steps[|steps| - 1];
             GreedyRolePlan(role, SelectedOutputs(at.selected, role.dependsOn), LatestOf(at.selected, role.dependsOn), setting, at.progress, plan)
    ensures JobSteps(definition, setting, start, steps') && |steps'| == |steps| + 1
    ensures var at := steps[|steps| - 1];
            && steps'[|steps'| - 1] == JobProgress(at.selected[role.name := SelectedRole(plan.outputs, plan.finishMs)],
                                                   at.planned[role.name := plan.planned], plan.progress)
            && |steps'[|steps'| - 1].selected| == |at.selected| + 1
  {
    hide CandidateCount, GreedyRolePlan;
    var at := steps[|steps| - 1];
    steps' := steps + [WithRole(at, role, plan)];
    assert RoleStep(definition, setting, at, WithRole(at, role, plan));
  }

  lemma NoStepsYet(definition: JobDefinition, setting: Setting, start: Progress)
    ensures JobSteps(definition, setting, start, [JobProgress(map[], map[], start)])
  {
  }

  lemma IsPicked(definition: JobDefinition, setting: Setting, at: JobProgress, role: RoleSpec)
    requires role in definition.roles && role.Logical? && ValidRole(role) && CanBePlanned(role, at.selected)
    requires forall i :: 0 <= i < |definition.roles| && CanBePlanned(definition.roles[i], at.selected) ==>
               CandidateCount(role, at.selected, setting.At(at.progress)) <= CandidateCount(definition.roles[i], at.selected, setting.At(at.progress))
    ensures Picks(definition, setting, at, role)
  {
    hide CandidateCount;
  }

  /**
   * List scheduling of a whole job. Every plan is a valid schedule. A job that does not validate is
   * refused; otherwise planning fails only when the role picked next, or a level of it, cannot be placed.
   */
  method PlanJob(definition: JobDefinition, setting: Setting, objects: Objects, firstObject: ObjectId)
    returns (result: Result<CooperativePlan, PlanError>)
    requires setting.riskMultiplier >= 0.0 && NonNegativeDefinition(definition)
    ensures result == Failure(InvalidLogicalJob) <==>
            !(ValidJob(definition)
              && forall i :: 0 <= i < |definition.roles| ==> RecordsMatchObjects(definition.roles[i], objects))
    ensures match result
            case Success(plan) =>
              ValidSchedule(definition, plan)
              && exists steps :: EndsWith(definition, setting, Progress(map[], objects, firstObject), steps, plan)
            case Failure(InvalidLogicalJob) => true
            case Failure(NoFeasibleImplementation(name)) =>
              exists steps, role: RoleSpec :: role.name == name && GetsStuckAt(definition, setting, Progress(map[], objects, firstObject), steps, role)
  {
    hide PlannedSoFar, ValidSchedule, ValidJob, RolePlanOf, NonNegativeRole, RecordsMatchObjects, JobSteps, Picks, GreedyRolePlan,
      Unplannable, ListsPlanned, CandidateCount, SelectedOutputs, EndsWith, GetsStuckAt, NonNegativeDefinition, WithRole, LatestOf;
    var valid := ValidateJob(definition, objects);
    if !valid {
      return Failure(InvalidLogicalJob);
    }
    var progress := Progress(map[], objects, firstObject);
    var selected: Selected, planned: PlannedRoles := map[], map[];
    ghost var start, steps := progress, [JobProgress(map[], map[], progress)];
    NothingPlanned(definition);
    NoStepsYet(definition, setting, start);
    while |selected| < |definition.roles|
      invariant PlannedSoFar(definition, selected, planned, progress.availability)
      invariant |steps| == |selected| + 1 && steps[|steps| - 1] == JobProgress(selected, planned, progress)
      invariant JobSteps(definition, setting, start, steps)
      decreases |definition.roles| - |selected|
    {
      SelectedAreRoles(definition, selected, planned, progress.availability);
      SomethingCanBePlanned(definition, selected);
      var picked := PickRole(definition.roles, selected, setting.At(progress));
      var role := picked.value;
      ghost var i :| 0 <= i < |definition.roles| && definition.roles[i] == role;
      RoleAt(definition, i);
      RoleIsNonNegative(definition, i);
      IsPicked(definition, setting, steps[|steps| - 1], role);
      var rolePlan := PlanRole(role, SelectedOutputs(selected, role.dependsOn), LatestOf(selected, role.dependsOn), setting, progress);
      if rolePlan.None? {
        StuckAt(definition, setting, start, steps, role);
        return Failure(NoFeasibleImplementation(role.name));
      }
      var plan := rolePlan.value;
      RoleAdded(definition, selected, planned, progress, role, plan);
      steps := NextStep(definition, setting, start, steps, role, plan);
      selected, planned := selected[role.name := SelectedRole(plan.outputs, plan.finishMs)], planned[role.name := plan.planned];
      progress := plan.progress;
    }
    SelectedAreRoles(definition, selected, planned, progress.availability);
    AllSelected(definition, selected);
    var roles := seq(|definition.roles|, i requires 0 <= i < |definition.roles| => planned[definition.roles[i].name]);
    var plan := CooperativePlan(roles, LatestOf(selected, definition.outputs));
    RolesListed(definition, planned, plan);
    PlanIsValid(definition, selected, planned, progress.availability, plan);
    AllSteps(definition, setting, start, steps, plan);
    return Success(plan);
  }

  lemma StuckAt(definition: JobDefinition, setting: Setting, start: Progress, steps: seq<JobProgress>, role: RoleSpec)
    requires JobSteps(definition, setting, start, steps) && Picks(definition, setting, steps[|steps| - 1], role)
    requires var at := steps[|steps| - 1];
             Unplannable(role, SelectedOutputs(at.selected, role.dependsOn), LatestOf(at.selected, role.dependsOn), setting, at.progress)
    ensures GetsStuckAt(definition, setting, start, steps, role)
  {
    hide Picks, Unplannable, JobSteps;
  }

  lemma AllSteps(definition: JobDefinition, setting: Setting, start: Progress, steps: seq<JobProgress>, plan: CooperativePlan)
    requires JobSteps(definition, setting, start, steps) && |steps| == |definition.roles| + 1
    requires ListsPlanned(definition, steps[|steps| - 1].planned, plan)
    ensures EndsWith(definition, setting, start, steps, plan)
  {
    hide ListsPlanned, JobSteps;
  }

  lemma RolesListed(definition: JobDefinition, planned: PlannedRoles, plan: CooperativePlan)
    requires |plan.roles| == |definition.roles|
    requires forall i :: 0 <= i < |definition.roles| ==>
               definition.roles[i].name in planned && plan.roles[i] == planned[definition.roles[i].name]
    ensures ListsPlanned(definition, planned, plan)
  {
  }

  lemma NothingPlanned(definition: JobDefinition)
    ensures PlannedSoFar(definition, map[], map[], map[])
  {
  }

  lemma SelectedAreRoles(definition: JobDefinition, selected: Selected, planned: PlannedRoles, availability: Availability)
    requires PlannedSoFar(definition, selected, planned, availability)
    ensures planned.Keys == selected.Keys && forall n :: n in selected ==> HasRole(definition.roles, n)
  {
  }

  /** The planned roles, listed in the order of the definition. */
  ghost predicate ListsPlanned(definition: JobDefinition, planned: PlannedRoles, plan: CooperativePlan)
  {
    |plan.roles| == |definition.roles| &&
    forall i :: 0 <= i < |definition.roles| ==>
      definition.roles[i].name in planned && plan.roles[i] == planned[definition.roles[i].name]
  }

  lemma PlanIsValid(definition: JobDefinition, selected: Selected, planned: PlannedRoles, availability: Availability, plan: CooperativePlan)
    requires ValidJob(definition) && PlannedSoFar(definition, selected, planned, availability)
    requires ListsPlanned(definition, planned, plan)
    requires forall i :: 0 <= i < |definition.outputs| ==> definition.outputs[i] in selected
    requires plan.estimatedMakespanMs == LatestOf(selected, definition.outputs)
    ensures ValidSchedule(definition, plan)
  {
    hide ValidJob, PlannedSoFar, ListsPlanned, RolePlanned, DependencyRespected, AllDisjoint, IsMakespan;
    PlanCoversRoles(definition, planned, plan);
    forall i | 0 <= i < |plan.roles| ensures RolePlanned(definition, plan, i) {
      RoleIsPlanned(definition, selected, planned, availability, plan, i);
    }
    forall i, j | 0 <= i < |plan.roles| && 0 <= j < |plan.roles|
      ensures i != j ==> AllDisjoint(plan.roles[i].Placements(), plan.roles[j].Placements())
      ensures DependencyRespected(definition, plan, i, j)
    {
      RolesAreCompatible(definition, selected, planned, availability, plan, i, j);
    }
    MakespanIsExact(definition, selected, planned, availability, plan);
  }

  lemma PlanCoversRoles(definition: JobDefinition, planned: PlannedRoles, plan: CooperativePlan)
    requires ListsPlanned(definition, planned, plan)
    ensures |plan.roles| == |definition.roles|
  {
  }

  lemma PlannedAt(definition: JobDefinition, selected: Selected, planned: PlannedRoles, availability: Availability,
                  plan: CooperativePlan, i: nat)
    requires ValidJob(definition) && PlannedSoFar(definition, selected, planned, availability)
    requires ListsPlanned(definition, planned, plan) && i < |definition.roles|
    ensures |plan.roles| == |definition.roles| && planned.Keys == selected.Keys
    ensures var n := definition.roles[i].name;
            && n in planned && plan.roles[i] == planned[n] && FindRole(definition.roles, n) == Some(definition.roles[i])
            && OnePlanned(definition, selected, planned, availability, n)
  {
    hide ValidJob, OnePlanned, AllDisjoint;
    RoleAt(definition, i);
  }

  lemma RoleIsPlanned(definition: JobDefinition, selected: Selected, planned: PlannedRoles, availability: Availability,
                      plan: CooperativePlan, i: nat)
    requires ValidJob(definition) && PlannedSoFar(definition, selected, planned, availability)
    requires ListsPlanned(definition, planned, plan) && i < |definition.roles| == |plan.roles|
    ensures RolePlanned(definition, plan, i)
  {
    hide ValidJob, PlannedSoFar, ListsPlanned, Complete, LevelsInOrder, PairwiseDisjoint;
    PlannedAt(definition, selected, planned, availability, plan, i);
  }

  lemma RolesAreCompatible(definition: JobDefinition, selected: Selected, planned: PlannedRoles, availability: Availability,
                           plan: CooperativePlan, i: nat, j: nat)
    requires ValidJob(definition) && PlannedSoFar(definition, selected, planned, availability)
    requires ListsPlanned(definition, planned, plan) && i < |definition.roles| == |plan.roles| && j < |plan.roles|
    ensures i != j ==> AllDisjoint(plan.roles[i].Placements(), plan.roles[j].Placements())
    ensures DependencyRespected(definition, plan, i, j)
  {
    hide ValidJob, AllDisjoint, Complete, LevelsInOrder, PairwiseDisjoint, Reserved, ListsPlanned, EndsBy;
    PlannedAt(definition, selected, planned, availability, plan, i);
    PlannedAt(definition, selected, planned, availability, plan, j);
    var a, b := definition.roles[i], definition.roles[j];
    DifferentNames(definition, i, j);
    if b.name in a.dependsOn {
      var d :| 0 <= d < |a.dependsOn| && a.dependsOn[d] == b.name;
      forall k | 0 <= k < |plan.roles[i].Placements()|
        ensures EndsBy(plan.roles[i].Placements()[k].startMs, plan.roles[j].Placements())
      {
        EndsLater(selected[b.name].finishMs, plan.roles[i].Placements()[k].startMs, plan.roles[j].Placements());
      }
    }
  }

  lemma DifferentNames(definition: JobDefinition, i: nat, j: nat)
    requires ValidJob(definition) && i < |definition.roles| && j < |definition.roles|
    ensures i != j ==> definition.roles[i].name != definition.roles[j].name
  {
    hide Acyclic;
  }

  lemma OutputsAreRoles(definition: JobDefinition, o: nat) returns (i: nat)
    requires ValidJob(definition) && o < |definition.outputs|
    ensures i < |definition.roles| && definition.roles[i].name == definition.outputs[o]
  {
    hide Acyclic;
    var role := Role(definition.roles, definition.outputs[o]);
    i :| 0 <= i < |definition.roles| && definition.roles[i] == role;
  }

  lemma HasOutputs(definition: JobDefinition)
    requires ValidJob(definition)
    ensures definition.outputs != []
  {
  }

  lemma MakespanIsExact(definition: JobDefinition, selected: Selected, planned: PlannedRoles, availability: Availability,
                        plan: CooperativePlan)
    requires ValidJob(definition) && PlannedSoFar(definition, selected, planned, availability)
    requires ListsPlanned(definition, planned, plan) && |definition.roles| == |plan.roles|
    requires forall i :: 0 <= i < |definition.outputs| ==> definition.outputs[i] in selected
    requires plan.estimatedMakespanMs == LatestOf(selected, definition.outputs)
    ensures IsMakespan(definition, plan)
  {
    hide ValidJob, PlannedSoFar, ListsPlanned, Complete, LevelsInOrder, PairwiseDisjoint, Reserved, StartsFrom, EndsBy;
    var makespan := plan.estimatedMakespanMs;
    forall i | 0 <= i < |plan.roles| && definition.roles[i].name in definition.outputs
      ensures EndsBy(makespan, plan.roles[i].Placements())
    {
      PlannedAt(definition, selected, planned, availability, plan, i);
      EndsLater(selected[definition.roles[i].name].finishMs, makespan, plan.roles[i].Placements());
    }
    HasOutputs(definition);
    var o :| 0 <= o < |definition.outputs| && (makespan == 0.0 || selected[definition.outputs[o]].finishMs == makespan);
    var i := OutputsAreRoles(definition, o);
    PlannedAt(definition, selected, planned, availability, plan, i);
    assert selected[definition.outputs[o]].finishMs <= makespan;
    assert Finishes(plan.roles[i].Placements(), makespan);
  }
}
