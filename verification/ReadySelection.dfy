/** What the planner selects for roles that have become ready, in the form the fabric carries out. */
module ReadySelection {
  import opened Wrappers
  import opened Core
  import opened RoleGraph
  import opened FusionRewrite
  import opened Partition
  import opened Scheduler
  import opened Sharding
  import opened ShardCount
  import opened Admission
  import opened ChainPlanner
  import opened FusionSelection
  import opened FabricModel

  // ----- one implementation on one resource -----

  datatype RoleSelection = RoleSelection(implementation: nat, task: TaskSpec, resource: ResourceId, cost: PlacementBreakdown)

  ghost predicate Runs(role: RoleSpec, dependencies: seq<ObjectId>, context: Context, id: TaskId, i: nat, r: nat,
                       cost: PlacementBreakdown)
  {
    && i < |role.Templates()| && r < |context.resources|
    && PlacementCost(role.Templates()[i].Instantiate(id, dependencies), context.resources[r], context) == Some(cost)
  }

  ghost predicate IsRoleSelection(role: RoleSpec, dependencies: seq<ObjectId>, context: Context, id: TaskId, selected: RoleSelection)
  {
    && selected.implementation < |role.Templates()|
    && selected.task == role.Templates()[selected.implementation].Instantiate(id, dependencies)
    && exists r: nat :: Runs(role, dependencies, context, id, selected.implementation, r, selected.cost)
                   && context.resources[r].id == selected.resource
  }

  /** The cheapest implementation on the cheapest resource, or nothing if no pair is feasible. */
  method SelectReadyRole(role: RoleSpec, dependencies: seq<ObjectId>, context: Context, id: TaskId)
    returns (best: Option<RoleSelection>)
    ensures best.None? <==> forall i: nat, r: nat, cost :: !Runs(role, dependencies, context, id, i, r, cost)
    ensures best.Some? ==>
              && IsRoleSelection(role, dependencies, context, id, best.value)
              && forall i: nat, r: nat, cost :: Runs(role, dependencies, context, id, i, r, cost) ==> best.value.cost.totalMs <= cost.totalMs
  {
    hide PlacementCost;
    best := None;
    for k := 0 to |role.Templates()|
      invariant best.None? ==> forall i: nat, r: nat, cost :: Runs(role, dependencies, context, id, i, r, cost) ==> i >= k
      invariant best.Some? ==>
                  && IsRoleSelection(role, dependencies, context, id, best.value)
                  && forall i: nat, r: nat, cost :: Runs(role, dependencies, context, id, i, r, cost) && i < k ==>
                       best.value.cost.totalMs <= cost.totalMs
    {
      var task := role.Templates()[k].Instantiate(id, dependencies);
      var decision := Choose(task, context);
      if decision.Success? && (best.None? || decision.value.cost.totalMs < best.value.cost.totalMs) {
        ghost var r: nat :| r < |context.resources| && context.resources[r].id == decision.value.resource
                       && PlacementCost(task, context.resources[r], context) == Some(decision.value.cost);
        assert Runs(role, dependencies, context, id, k, r, decision.value.cost);
        best := Some(RoleSelection(k, task, decision.value.resource, decision.value.cost));
      }
    }
  }

  // ----- shards -----

  function TasksOf(selections: seq<ShardSelection>): (r: seq<TaskSpec>)
    ensures |r| == |selections|
  {
    seq(|selections|, i requires 0 <= i < |selections| => selections[i].task)
  }

  lemma GreedyInstance(job: ShardJob, availability: Availability, context: Context, selections: seq<ShardSelection>,
                       picks: seq<Pick>, k: nat)
    requires job.Valid() && GreedySelections(job, availability, context, selections, picks) && k < |selections| == job.count
    requires job.policy == if job.role.shards.Auto? then Some(job.role.shards.policy) else None
    ensures selections[k].task.id == job.firstId + k
    ensures ShardInstance(job.role, job.dependencies, context.objects, selections[k].task, k, |selections|)
  {
    hide PlacementCost, PartitionOfSize, ScaledOutputBytes;
    assert GreedyChoice(job, availability, context, selections, k, picks[k]);
    var template := job.role.Templates()[picks[k].option];
    assert InstanceOf(job.role, template);
  }

  lemma GreedyIsAllowed(job: ShardJob, availability: Availability, context: Context, selections: seq<ShardSelection>, picks: seq<Pick>)
    requires job.Valid() && GreedySelections(job, availability, context, selections, picks) && |selections| == job.count >= 1
    requires job.policy == if job.role.shards.Auto? then Some(job.role.shards.policy) else None
    requires job.role.shards.Fixed? ==> job.count == job.role.shards.count
    requires job.role.shards.Auto? ==> job.count <= job.role.shards.policy.maxShards
    ensures ShardsAllowed(job.role, job.dependencies, context.objects, TasksOf(selections))
    ensures forall k :: 0 <= k < |selections| ==> TasksOf(selections)[k].id == job.firstId + k
  {
    hide GreedySelections, ShardInstance;
    forall k | 0 <= k < |selections|
      ensures ShardInstance(job.role, job.dependencies, context.objects, TasksOf(selections)[k], k, |selections|)
      ensures TasksOf(selections)[k].id == job.firstId + k
    {
      GreedyInstance(job, availability, context, selections, picks, k);
    }
  }

  /** Shards for a role that fans out, placed from now on idle resources; numbered from `firstId` on. */
  method SelectReadyShards(role: RoleSpec, dependencies: seq<ObjectId>, context: Context, firstId: TaskId)
    returns (specs: Option<seq<TaskSpec>>)
    requires role.Logical? && ValidRole(role)
    ensures specs.Some? ==>
              && ShardsAllowed(role, dependencies, context.objects, specs.value)
              && (forall k :: 0 <= k < |specs.value| ==> specs.value[k].id == firstId + k)
              && exists chosen :: ShardsChosen(role, dependencies, 0.0, map[], context, firstId, chosen) && specs.value == TasksOf(chosen)
    ensures specs.None? ==> CannotFanOut(role, dependencies, context)
  {
    hide GreedySelections, ShardsAllowed, Evaluated, TrialOf, PartitionUnits, ShardInfeasible, CountInfeasible;
    match role.shards {
      case Fixed(count) =>
        var job := ShardJob(role, dependencies, count, None, 0.0, firstId);
        var selections, after, picks := ChooseShards(job, map[], context);
        if selections.None? {
          return None;
        }
        GreedyIsAllowed(job, map[], context, selections.value, picks);
        assert ShardsChosen(role, dependencies, 0.0, map[], context, firstId, selections.value);
        return Some(TasksOf(selections.value));
      case Auto(policy) =>
        var selections, after, trials := ChooseAutoShards(role, dependencies, policy, 0.0, map[], context, firstId);
        if selections.None? {
          return None;
        }
        AutoIsAllowed(role, dependencies, policy, context, firstId, trials, |selections.value|, trials[|selections.value| - 1]);
        assert AdoptedFrom(role, dependencies, policy, 0.0, map[], context, firstId, selections.value, trials);
        assert ShardsChosen(role, dependencies, 0.0, map[], context, firstId, selections.value);
        return Some(TasksOf(selections.value));
    }
  }

  lemma AutoIsAllowed(role: RoleSpec, dependencies: seq<ObjectId>, policy: AutoShardPolicy, context: Context, firstId: TaskId,
                      trials: seq<Trial>, count: nat, trial: Trial)
    requires role.Logical? && role.shards == Auto(policy)
    requires Evaluated(role, dependencies, policy, 0.0, map[], context, firstId, trials)
    requires 1 <= count <= |trials| && trials[count - 1] == trial && trial.Feasible? && |trial.selections| == count
    ensures ShardsAllowed(role, dependencies, context.objects, TasksOf(trial.selections))
    ensures forall k :: 0 <= k < count ==> TasksOf(trial.selections)[k].id == firstId + k
  {
    hide GreedySelections, ShardsAllowed;
    var job := CountJob(role, dependencies, policy, count, 0.0, firstId);
    assert TrialOf(CountJob(role, dependencies, policy, (count - 1) + 1, 0.0, firstId), map[], context, trials[count - 1]);
    var picks :| GreedySelections(job, map[], context, trial.selections, picks);
    GreedyIsAllowed(job, map[], context, trial.selections, picks);
  }

  // ----- fused chains -----

  function NamesOf(chain: seq<RoleSpec>): (r: seq<string>)
    ensures |r| == |chain|
  {
    seq(|chain|, i requires 0 <= i < |chain| => chain[i].name)
  }

  /** A selected prefix of a fusion chain of the job is a chain the fabric may submit as one task. */
  lemma SelectedChainIsAllowed(job: JobRecord, waiting: set<string>, chain: seq<RoleSpec>, templates: seq<TaskTemplate>)
    requires ValidJob(job.definition) && job.roles.Keys == Names(job.definition.roles)
    requires IsFusionChain(job.definition, waiting, chain) && chain[0] in job.definition.roles
    requires forall i :: 1 <= i < |chain| ==> chain[i].name in job.roles && job.roles[chain[i].name].Waiting?
    requires 2 <= |templates| <= |chain|
    requires forall i :: 0 <= i < |templates| ==> templates[i] in chain[i].Templates() && Fusable(templates[i])
    ensures chain[0].Chainable()
    ensures ChainAllowed(job, chain[0].name, NamesOf(chain[..|templates|]), templates)
  {
    hide Fusable, PrivateEdge, ValidJob, IsFusionChain, InstanceOf, FindRole;
    ChainFacts(job, waiting, chain);
    var names := NamesOf(chain[..|templates|]);
    forall i | 0 <= i < |names| ensures names[i] == chain[i].name {}
    forall i | 0 <= i < |templates| ensures InstanceOf(chain[i], templates[i]) { IsInstance(chain[i], templates[i]); }
  }

  lemma IsInstance(role: RoleSpec, template: TaskTemplate)
    requires template in role.Templates()
    ensures InstanceOf(role, template)
  {
  }

  /** Distinct known roles of the job, linked by private edges. */
  lemma ChainFacts(job: JobRecord, waiting: set<string>, chain: seq<RoleSpec>)
    requires ValidJob(job.definition) && job.roles.Keys == Names(job.definition.roles)
    requires IsFusionChain(job.definition, waiting, chain) && chain[0] in job.definition.roles
    ensures forall i :: 0 <= i < |chain| ==>
              HasRole(job.definition.roles, chain[i].name) && Role(job.definition.roles, chain[i].name) == chain[i]
              && chain[i].name in job.roles
    ensures forall i :: 0 <= i < |chain| - 1 ==> PrivateEdge(job.definition, chain[i].name, chain[i + 1].name)
    ensures forall i, j :: 0 <= i < j < |chain| ==> chain[i].name != chain[j].name
    ensures |chain| > 1 ==> forall i :: 0 <= i < |chain| ==> chain[i].Chainable()
  {
    hide PrivateEdge, Acyclic, NextInChain;
    ChainEdgesArePrivate(job.definition, waiting, chain);
    forall i, j | 0 <= i < j < |chain| ensures chain[i].name != chain[j].name {
      ChainRanksRise(job.definition, waiting, chain, i, j);
    }
    forall i | 0 <= i < |chain|
      ensures HasRole(job.definition.roles, chain[i].name) && Role(job.definition.roles, chain[i].name) == chain[i]
              && chain[i].name in job.roles
    {
      assert FindRole(job.definition.roles, chain[i].name) == Some(chain[i]);
    }
  }
}
