/** Which tasks and jobs the fabric admits, and why everything the planner builds is admitted. */
module Admission {
  import opened Wrappers
  import opened Core
  import opened Execution
  import opened FusionRewrite
  import opened RoleGraph
  import opened Partition
  import opened Sharding

  const MAX_AUTO_SHARDS := 256
  const MAX_REDUCTION_FAN_IN := 64

  // ----- tasks -----

  predicate AdmissiblePartition(part: TaskShardPartition, inputCount: nat)
  {
    && part.input < inputCount
    && part.offset + part.length <= U64_MAX && part.offset + part.length <= part.totalBytes
    && (part.Records? ==>
          part.recordStart + part.recordCount <= U64_MAX && part.recordStart + part.recordCount <= part.totalRecords)
  }

  predicate AdmissibleShard(shard: TaskShard, inputCount: nat)
  {
    && shard.index < shard.count
    && (shard.partition.Some? ==> AdmissiblePartition(shard.partition.value, inputCount))
  }

  function PreviousCount(inputs: seq<PipelineInput>): nat
  {
    if inputs == [] then 0
    else PreviousCount(inputs[..|inputs| - 1]) + if inputs[|inputs| - 1].PreviousOutput? then 1 else 0
  }

  predicate AdmissibleStage(stage: TaskPipelineStage, stageIndex: nat, inputCount: nat)
  {
    && "builtin:" <= stage.artifact
    && stage.entrypoint == "run"
    && PreviousCount(stage.inputs) == (if stageIndex == 0 then 0 else 1)
    && forall i :: 0 <= i < |stage.inputs| && stage.inputs[i].External? ==> stage.inputs[i].index < inputCount
  }

  predicate AdmissibleStages(stages: seq<TaskPipelineStage>, inputCount: nat)
  {
    forall k :: 0 <= k < |stages| ==> AdmissibleStage(stages[k], k, inputCount)
  }

  predicate AdmissibleTask(task: TaskSpec)
  {
    && (task.shard.Some? ==> AdmissibleShard(task.shard.value, |task.inputs|))
    && (task.pipeline.Some? ==>
          && task.artifact == "plurifold:pipeline" && task.entrypoint == "run"
          && task.effects == Pure
          && |task.pipeline.value| >= 2
          && AdmissibleStages(task.pipeline.value, |task.inputs|))
  }

  // ----- jobs -----

  predicate ValidAutoPolicy(policy: AutoShardPolicy)
  {
    && 1 <= policy.maxShards <= MAX_AUTO_SHARDS
    && policy.perShardOverheadMs >= 0.0
    && 0.0 <= policy.minGainRatio < 1.0
    && (policy.partition.RecordsSpec? ==>
          var offsets := policy.partition.offsets;
          |offsets| >= 2 && offsets[0] == 0 && forall i :: 0 <= i < |offsets| - 1 ==> offsets[i] < offsets[i + 1])
  }

  predicate ValidReduction(reduction: RoleReductionSpec)
  {
    && !IsBlank(reduction.name)
    && 2 <= reduction.maxFanIn <= MAX_REDUCTION_FAN_IN
    && reduction.localityRttMs >= 0.0
    && reduction.task.inputs == []
    && reduction.task.effects == Pure
  }

  predicate ValidImplementations(implementations: seq<RoleImplementation>)
  {
    && implementations != []
    && (forall i :: 0 <= i < |implementations| ==> !IsBlank(implementations[i].name))
    && (forall i, j :: 0 <= i < j < |implementations| ==> implementations[i].name != implementations[j].name)
  }

  /** All implementations partition the same explicit input object. */
  predicate PartitionsOneInput(implementations: seq<RoleImplementation>, input: nat)
  {
    implementations != [] && input < |implementations[0].task.inputs| &&
    forall i :: 0 <= i < |implementations| ==>
      && input < |implementations[i].task.inputs|
      && implementations[i].task.inputs[input] == implementations[0].task.inputs[input]
  }

  predicate ValidRole(role: RoleSpec)
  {
    role.Logical? ==>
      && (role.shards.Fixed? ==> role.shards.count >= 1)
      && ValidImplementations(role.implementations)
      && (role.shards.Auto? ==>
            ValidAutoPolicy(role.shards.policy)
            && PartitionsOneInput(role.implementations, role.shards.policy.partition.input))
      && (role.reduction.Some? ==> role.shards != Fixed(1) && ValidReduction(role.reduction.value))
  }

  /** A record index must end at the size of an object that is already published. */
  predicate RecordsMatchObjects(role: RoleSpec, objects: Objects)
  {
    role.Logical? && role.shards.Auto? && role.shards.policy.partition.RecordsSpec? && role.implementations != [] ==>
      var partition := role.shards.policy.partition;
      var size := PartitionObject(role.implementations[0].task, partition.input, objects);
      size.Some? && ValidRecordOffsets(partition.offsets, size.value)
  }

  ghost predicate ValidJob(definition: JobDefinition)
  {
    ValidGraph(definition.roles, definition.outputs)
    && forall i :: 0 <= i < |definition.roles| ==> ValidRole(definition.roles[i])
  }

  method ValidateJob(definition: JobDefinition, objects: Objects) returns (valid: bool)
    ensures valid <==> ValidJob(definition)
                       && forall i :: 0 <= i < |definition.roles| ==> RecordsMatchObjects(definition.roles[i], objects)
  {
    var graph, rounds := ValidateRoleGraph(definition.roles, definition.outputs);
    if graph.Failure? {
      return false;
    }
    for k := 0 to |definition.roles|
      invariant forall i :: 0 <= i < k ==>
                  ValidRole(definition.roles[i]) && RecordsMatchObjects(definition.roles[i], objects)
    {
      if !ValidRole(definition.roles[k]) || !RecordsMatchObjects(definition.roles[k], objects) {
        return false;
      }
    }
    return true;
  }

  // ----- planner output is admissible -----

  lemma PlainTaskIsAdmissible(id: TaskId, template: TaskTemplate, dependencies: seq<ObjectId>)
    ensures AdmissibleTask(template.Instantiate(id, dependencies))
  {
  }

  lemma ShardTaskIsAdmissible(id: TaskId, template: TaskTemplate, dependencies: seq<ObjectId>, index: u32, count: u32,
                              policy: Option<AutoShardPolicy>, objects: Objects)
    requires index < count
    requires InstantiateShardTask(id, template, dependencies, index, count, policy, objects).Some?
    ensures AdmissibleTask(InstantiateShardTask(id, template, dependencies, index, count, policy, objects).value)
  {
    if policy.Some? {
      var partition := policy.value.partition;
      PartitionInside(partition, PartitionObject(template, partition.input, objects).value, index, count);
    }
  }

  predicate Fusable(template: TaskTemplate)
  {
    template.effects == Pure && "builtin:" <= template.artifact
  }

  lemma {:induction false} ExternalsHaveNoPrevious(bindings: seq<PipelineInput>)
    requires forall i :: 0 <= i < |bindings| ==> bindings[i].External?
    ensures PreviousCount(bindings) == 0
    ensures PreviousCount(bindings + [PreviousOutput]) == 1
  {
    assert (bindings + [PreviousOutput])[..|bindings|] == bindings;
    if bindings != [] { ExternalsHaveNoPrevious(bindings[..|bindings| - 1]); }
  }

  lemma LaterStagesAdmissible(templates: seq<TaskTemplate>, external: seq<ObjectId>, k: nat, inputCount: nat)
    requires forall i :: 0 <= i < |templates| ==> Fusable(templates[i])
    requires k < |templates| && |LaterStages(templates, external).1| <= inputCount
    ensures AdmissibleStage(LaterStages(templates, external).0[k], k + 1, inputCount) <==> templates[k].entrypoint == "run"
  {
    LaterStageShape(templates, k, external);
    ExternalsHaveNoPrevious(ExternalBindings(templates[k].inputs, LaterStages(templates[..k], external).1).0);
  }

  /**
   * The planner checks effects and artifact family but not entrypoints: the pipeline it builds from
   * fusable templates is admitted exactly when every stage's entrypoint is `run`.
   */
  lemma FusedTaskIsAdmissibleIff(id: TaskId, templates: seq<TaskTemplate>, dependencies: seq<ObjectId>,
                                 requirements: ResourceRequirements)
    requires |templates| >= 2 && forall i :: 0 <= i < |templates| ==> Fusable(templates[i])
    ensures AdmissibleTask(FusedPipelineTask(id, templates, dependencies, requirements))
            <==> forall i :: 0 <= i < |templates| ==> templates[i].entrypoint == "run"
  {
    FusedStagesAdmissibleIff(id, templates, dependencies, requirements);
  }

  lemma FusedStagesAdmissibleIff(id: TaskId, templates: seq<TaskTemplate>, dependencies: seq<ObjectId>,
                                 requirements: ResourceRequirements)
    requires |templates| >= 2 && forall i :: 0 <= i < |templates| ==> Fusable(templates[i])
    ensures var task := FusedPipelineTask(id, templates, dependencies, requirements);
            AdmissibleStages(task.pipeline.value, |task.inputs|)
            <==> forall i :: 0 <= i < |templates| ==> templates[i].entrypoint == "run"
  {
    var task := FusedPipelineTask(id, templates, dependencies, requirements);
    forall k | 0 <= k < |templates|
      ensures AdmissibleStage(task.pipeline.value[k], k, |task.inputs|) <==> templates[k].entrypoint == "run"
    {
      FusedStageIsAdmissibleIff(id, templates, dependencies, requirements, k);
    }
  }

  lemma FusedStageIsAdmissibleIff(id: TaskId, templates: seq<TaskTemplate>, dependencies: seq<ObjectId>,
                                  requirements: ResourceRequirements, k: nat)
    requires |templates| >= 2 && forall i :: 0 <= i < |templates| ==> Fusable(templates[i])
    requires k < |templates|
    ensures var task := FusedPipelineTask(id, templates, dependencies, requirements);
            AdmissibleStage(task.pipeline.value[k], k, |task.inputs|) <==> templates[k].entrypoint == "run"
  {
    var (firstInputs, external) := ExternalBindings(templates[0].inputs + dependencies, []);
    var (later, external') := LaterStages(templates[1..], external);
    if k == 0 {
      ExternalsHaveNoPrevious(firstInputs);
    } else {
      LaterStagesAdmissible(templates[1..], external, k - 1, |external'|);
      assert ([Stage(templates[0], firstInputs)] + later)[k] == later[k - 1];
    }
  }

  /** Two fusable built-ins of which one names another entrypoint: the fused task is refused. */
  lemma FusedTaskCanBeRefused()
    ensures exists templates: seq<TaskTemplate> ::
              && |templates| == 2 && (forall i :: 0 <= i < 2 ==> Fusable(templates[i]))
              && !AdmissibleTask(FusedPipelineTask(0, templates, [], templates[0].requirements))
  {
    var requirements := ResourceRequirements(None, 0, None, {});
    var echo := TaskTemplate("builtin:echo", "run", [], [], requirements, Pure, CostHint(1.0, 0));
    var templates := [echo, echo.(entrypoint := "main")];
    FusedTaskIsAdmissibleIff(0, templates, [], requirements);
    assert templates[1].entrypoint != "run";
  }

  // ----- combined requirements of a fused chain -----

  function CombineArchitecture(left: Option<Architecture>, right: Option<Architecture>): Option<Option<Architecture>>
  {
    if left.Some? && right.Some? && left != right then None
    else if left.Some? then Some(left) else Some(right)
  }

  function MaxU32(a: u32, b: u32): u32 { if a >= b then a else b }
  function MaxU64(a: u64, b: u64): u64 { if a >= b then a else b }

  function CombineAccelerator(left: Option<AcceleratorRequirement>, right: Option<AcceleratorRequirement>)
    : Option<Option<AcceleratorRequirement>>
  {
    if left.Some? && right.Some? then
      if left.value.kind != right.value.kind then None
      else Some(Some(AcceleratorRequirement(
        left.value.kind, MaxU32(left.value.minCount, right.value.minCount),
        MaxU64(left.value.minMemoryBytesPerDevice, right.value.minMemoryBytesPerDevice))))
    else if left.Some? then Some(left) else Some(right)
  }

  function CombineRequirements(left: ResourceRequirements, right: ResourceRequirements): Option<ResourceRequirements>
  {
    match (CombineArchitecture(left.architecture, right.architecture),
           CombineAccelerator(left.accelerator, right.accelerator))
    case (Some(architecture), Some(accelerator)) =>
      Some(ResourceRequirements(architecture, MaxU64(left.minMemoryBytes, right.minMemoryBytes), accelerator,
                                left.requiredFeatures + right.requiredFeatures))
    case _ => None
  }

  /**
   * A resource supports the combination only if it supports both sides. The converse holds unless
   * both sides want accelerators, where different devices might serve the two sides.
   */
  lemma CombinedSupportsBoth(resource: ResourceDescriptor, left: ResourceRequirements, right: ResourceRequirements)
    ensures CombineRequirements(left, right).Some? && resource.Supports(CombineRequirements(left, right).value) ==>
              resource.Supports(left) && resource.Supports(right)
    ensures resource.Supports(left) && resource.Supports(right)
            && (left.accelerator.None? || right.accelerator.None?) ==>
              CombineRequirements(left, right).Some? && resource.Supports(CombineRequirements(left, right).value)
  {
    var combined := CombineRequirements(left, right);
    if combined.Some? && left.accelerator.Some? && right.accelerator.Some?
       && resource.Offers(combined.value.accelerator.value) {
      var i :| 0 <= i < |resource.accelerators|
               && resource.accelerators[i].kind == combined.value.accelerator.value.kind
               && resource.accelerators[i].count >= combined.value.accelerator.value.minCount
               && resource.accelerators[i].memoryBytesPerDevice >= combined.value.accelerator.value.minMemoryBytesPerDevice;
      assert resource.Offers(left.accelerator.value) && resource.Offers(right.accelerator.value);
    }
  }

  /** The requirements of a fused chain, combined from the first template on. */
  function ChainRequirements(templates: seq<TaskTemplate>): Option<ResourceRequirements>
    requires |templates| > 0
  {
    var n := |templates| - 1;
    if n == 0 then Some(templates[0].requirements)
    else
      match ChainRequirements(templates[..n])
      case None => None
      case Some(sofar) => CombineRequirements(sofar, templates[n].requirements)
  }

  /** Any resource that may run the fused task may run every one of its stages. */
  lemma {:induction false} ChainSupportsEveryStage(resource: ResourceDescriptor, templates: seq<TaskTemplate>)
    requires |templates| > 0 && ChainRequirements(templates).Some?
    requires resource.Supports(ChainRequirements(templates).value)
    ensures forall i :: 0 <= i < |templates| ==> resource.Supports(templates[i].requirements)
  {
    var n := |templates| - 1;
    if n > 0 {
      var sofar := ChainRequirements(templates[..n]).value;
      CombinedSupportsBoth(resource, sofar, templates[n].requirements);
      ChainSupportsEveryStage(resource, templates[..n]);
      forall i | 0 <= i < |templates| ensures resource.Supports(templates[i].requirements) {
        if i < n { assert templates[..n][i] == templates[i]; }
      }
    }
  }
}
