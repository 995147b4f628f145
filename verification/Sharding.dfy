/** Greedy placement of shards, its optimality for fixed shard counts, and the choice of a shard count. */
module Sharding {
  import opened Wrappers
  import opened Core
  import opened Partition
  import opened Scheduler

  type Availability = map<ResourceId, real>

  function AvailableAt(availability: Availability, resource: ResourceId): real
  {
    if resource in availability then availability[resource] else 0.0
  }

  function StartMs(readyMs: real, availability: Availability, resource: ResourceId): real
  {
    Max(readyMs, AvailableAt(availability, resource))
  }

  // ----- one earliest-finish pick -----

  /** Which of several equivalent tasks runs where, from when, at what cost. */
  datatype Pick = Pick(option: nat, resource: nat, startMs: real, cost: PlacementBreakdown)
  {
    function FinishMs(): real { startMs + cost.totalMs }

    predicate NoLaterThan(other: Pick)
    {
      FinishMs() < other.FinishMs() || (FinishMs() == other.FinishMs() && cost.totalMs <= other.cost.totalMs)
    }
  }

  predicate IsPick(tasks: seq<TaskSpec>, readyMs: real, availability: Availability, context: Context, pick: Pick)
  {
    && pick.option < |tasks| && pick.resource < |context.resources|
    && PlacementCost(tasks[pick.option], context.resources[pick.resource], context) == Some(pick.cost)
    && pick.startMs == StartMs(readyMs, availability, context.resources[pick.resource].id)
  }

  ghost predicate EarliestPick(tasks: seq<TaskSpec>, readyMs: real, availability: Availability, context: Context, pick: Pick)
  {
    && IsPick(tasks, readyMs, availability, context, pick)
    && forall other :: IsPick(tasks, readyMs, availability, context, other) ==> pick.NoLaterThan(other)
  }

  /** Earliest finish first; at equal finish the cheaper placement. */
  method PickEarliest(tasks: seq<TaskSpec>, readyMs: real, availability: Availability, context: Context)
    returns (best: Option<Pick>)
    ensures best.Some? ==> EarliestPick(tasks, readyMs, availability, context, best.value)
    ensures best.None? ==> forall other :: !IsPick(tasks, readyMs, availability, context, other)
  {
    best := None;
    for t := 0 to |tasks|
      invariant best.Some? ==> IsPick(tasks, readyMs, availability, context, best.value)
      invariant forall other :: IsPick(tasks, readyMs, availability, context, other) && other.option < t ==>
                  best.Some? && best.value.NoLaterThan(other)
    {
      for r := 0 to |context.resources|
        invariant best.Some? ==> IsPick(tasks, readyMs, availability, context, best.value)
        invariant forall other :: (IsPick(tasks, readyMs, availability, context, other)
                    && (other.option < t || (other.option == t && other.resource < r)))
                    ==> best.Some? && best.value.NoLaterThan(other)
      {
        var resource := context.resources[r];
        var cost := PlacementCost(tasks[t], resource, context);
        if cost.Some? {
          var candidate := Pick(t, r, StartMs(readyMs, availability, resource.id), cost.value);
          if best.None? || !best.value.NoLaterThan(candidate) {
            best := Some(candidate);
          }
        }
      }
    }
  }

  lemma NoPickNothingRuns(tasks: seq<TaskSpec>, readyMs: real, availability: Availability, context: Context)
    requires forall other :: !IsPick(tasks, readyMs, availability, context, other)
    ensures forall t :: 0 <= t < |tasks| ==> NothingRuns(tasks[t], context)
  {
    hide PlacementCost;
    forall t, r | 0 <= t < |tasks| && 0 <= r < |context.resources|
      ensures PlacementCost(tasks[t], context.resources[r], context).None?
    {
      var cost := PlacementCost(tasks[t], context.resources[r], context);
      assert cost.Some? ==> IsPick(tasks, readyMs, availability, context,
                                   Pick(t, r, StartMs(readyMs, availability, context.resources[r].id), cost.value));
    }
  }

  // ----- shard tasks -----

  datatype ShardSelection = ShardSelection(
    index: u32, implementation: string, task: TaskSpec, resource: ResourceId, startMs: real, cost: PlacementBreakdown)
  {
    function FinishMs(): real { startMs + cost.totalMs }
  }

  function ScaleCost(task: TaskSpec, part: TaskShardPartition, policy: AutoShardPolicy): TaskSpec
    requires part.UnitStart() + part.UnitCount() <= part.UnitTotal()
  {
    task.(cost := CostHint(task.cost.computeMs * part.WorkFraction() + policy.perShardOverheadMs,
                           ScaledOutputBytes(part, task.cost.outputBytes)))
  }

  lemma PartitionInside(partition: ShardPartitionSpec, totalBytes: u64, index: u32, count: u32)
    requires index < count && PartitionOfSize(partition, totalBytes, index, count).Some?
    ensures var part := PartitionOfSize(partition, totalBytes, index, count).value;
            && part.input == partition.input && part.totalBytes == totalBytes
            && part.UnitStart() + part.UnitCount() <= part.UnitTotal()
            && part.offset + part.length <= part.totalBytes
  {
    if partition.RecordsSpec? {
      var offsets := partition.offsets;
      var (recordStart, recordCount) := PartitionBounds(|offsets| - 1, index, count);
      OffsetsIncrease(offsets, recordStart + recordCount, |offsets| - 1);
    }
  }

  function InstantiateShardTask(id: TaskId, template: TaskTemplate, dependencies: seq<ObjectId>,
                                index: u32, count: u32, policy: Option<AutoShardPolicy>, objects: Objects)
    : Option<TaskSpec>
    requires index < count
  {
    var task := template.Instantiate(id, dependencies);
    match policy
    case None => Some(task.(shard := Some(TaskShard(index, count, None))))
    case Some(auto) =>
      match ConcretePartition(template, auto.partition, index, count, objects)
      case None => None
      case Some(part) =>
        PartitionInside(auto.partition, PartitionObject(template, auto.partition.input, objects).value, index, count);
        Some(ScaleCost(task, part, auto).(shard := Some(TaskShard(index, count, Some(part)))))
  }

  /** Shard `index` under each of the role's implementations; one impossible partition spoils all. */
  function ShardAlternatives(id: TaskId, templates: seq<TaskTemplate>, dependencies: seq<ObjectId>,
                             index: u32, count: u32, policy: Option<AutoShardPolicy>, objects: Objects)
    : (r: Option<seq<TaskSpec>>)
    requires index < count
    ensures r.Some? ==> |r.value| == |templates|
    ensures r.Some? ==> forall t :: 0 <= t < |templates| ==>
              InstantiateShardTask(id, templates[t], dependencies, index, count, policy, objects) == Some(r.value[t])
    ensures policy.None? ==> r.Some?
  {
    if templates == [] then Some([])
    else
      var n := |templates| - 1;
      match (ShardAlternatives(id, templates[..n], dependencies, index, count, policy, objects),
             InstantiateShardTask(id, templates[n], dependencies, index, count, policy, objects))
      case (Some(tasks), Some(task)) => Some(tasks + [task])
      case _ => None
  }

  // ----- the greedy loop -----

  /** The shards of one role to be placed. Shard `i` receives the fresh task id `firstId + i`. */
  datatype ShardJob = ShardJob(
    role: RoleSpec, dependencies: seq<ObjectId>, count: u32, policy: Option<AutoShardPolicy>,
    readyMs: real, firstId: TaskId)
  {
    predicate Valid() { role.Logical? }

    function Alternatives(index: u32, objects: Objects): Option<seq<TaskSpec>>
      requires Valid() && index < count
    {
      ShardAlternatives(firstId + index, role.Templates(), dependencies, index, count, policy, objects)
    }
  }

  /** Availability once the given selections have been placed in order. */
  function AvailabilityAfter(availability: Availability, selections: seq<ShardSelection>): Availability
  {
    if selections == [] then availability
    else
      var last := selections[|selections| - 1];
      AvailabilityAfter(availability, selections[..|selections| - 1])[last.resource := last.FinishMs()]
  }

  /** The selection made for shard `k` was the earliest pick given the selections before it. */
  ghost predicate GreedyChoice(job: ShardJob, availability: Availability, context: Context,
                               selections: seq<ShardSelection>, k: nat, pick: Pick)
    requires job.Valid() && k < |selections| <= job.count
  {
    var tasks := job.Alternatives(k, context.objects);
    && tasks.Some?
    && EarliestPick(tasks.value, job.readyMs, AvailabilityAfter(availability, selections[..k]), context, pick)
    && selections[k] == ShardSelection(k, job.role.implementations[pick.option].name, tasks.value[pick.option],
                                       context.resources[pick.resource].id, pick.startMs, pick.cost)
  }

  ghost predicate GreedySelections(job: ShardJob, availability: Availability, context: Context,
                                   selections: seq<ShardSelection>, picks: seq<Pick>)
    requires job.Valid()
  {
    && |selections| == |picks| <= job.count
    && forall k :: 0 <= k < |selections| ==> GreedyChoice(job, availability, context, selections, k, picks[k])
  }

  /** No implementation of shard `k` can be partitioned or placed anywhere. */
  ghost predicate ShardInfeasible(job: ShardJob, context: Context, k: u32)
    requires job.Valid() && k < job.count
  {
    var tasks := job.Alternatives(k, context.objects);
    tasks.None? || forall t :: 0 <= t < |tasks.value| ==> NothingRuns(tasks.value[t], context)
  }

  method ChooseShards(job: ShardJob, availability: Availability, context: Context)
    returns (selections: Option<seq<ShardSelection>>, after: Availability, ghost picks: seq<Pick>)
    requires job.Valid()
    ensures selections.Some? ==>
              && |selections.value| == job.count
              && GreedySelections(job, availability, context, selections.value, picks)
              && after == AvailabilityAfter(availability, selections.value)
    ensures selections.None? ==> exists k: u32 :: k < job.count && ShardInfeasible(job, context, k)
  {
    var chosen: seq<ShardSelection> := [];
    after, picks := availability, [];
    for index := 0 to job.count
      invariant |chosen| == index && GreedySelections(job, availability, context, chosen, picks)
      invariant after == AvailabilityAfter(availability, chosen)
    {
      var tasks := job.Alternatives(index, context.objects);
      if tasks.None? {
        assert ShardInfeasible(job, context, index);
        return None, after, picks;
      }
      var best := PickEarliest(tasks.value, job.readyMs, after, context);
      if best.None? {
        NoPickMeansInfeasible(job, context, index, tasks.value, after);
        return None, after, picks;
      }
      var pick := best.value;
      var resource := context.resources[pick.resource].id;
      var selection := ShardSelection(index, job.role.implementations[pick.option].name, tasks.value[pick.option],
                                      resource, pick.startMs, pick.cost);
      GreedyExtends(job, availability, context, chosen, picks, selection, pick);
      assert (chosen + [selection])[..index] == chosen;
      chosen := chosen + [selection];
      picks := picks + [pick];
      after := after[resource := selection.FinishMs()];
    }
    return Some(chosen), after, picks;
  }

  lemma NoPickMeansInfeasible(job: ShardJob, context: Context, index: u32, tasks: seq<TaskSpec>, after: Availability)
    requires job.Valid() && index < job.count && job.Alternatives(index, context.objects) == Some(tasks)
    requires forall other :: !IsPick(tasks, job.readyMs, after, context, other)
    ensures ShardInfeasible(job, context, index)
  {
    NoPickNothingRuns(tasks, job.readyMs, after, context);
  }

  lemma GreedyExtends(job: ShardJob, availability: Availability, context: Context, chosen: seq<ShardSelection>,
                      picks: seq<Pick>, selection: ShardSelection, pick: Pick)
    requires job.Valid() && |chosen| < job.count
    requires GreedySelections(job, availability, context, chosen, picks)
    requires GreedyChoice(job, availability, context, chosen + [selection], |chosen|, pick)
    ensures GreedySelections(job, availability, context, chosen + [selection], picks + [pick])
  {
    var all := chosen + [selection];
    forall k | 0 <= k < |all|
      ensures GreedyChoice(job, availability, context, all, k, (picks + [pick])[k])
    {
      if k < |chosen| { assert all[..k] == chosen[..k]; }
    }
  }
}
