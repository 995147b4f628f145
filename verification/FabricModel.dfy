/**
 * The fabric as a transition system on values: the maps `Fabric` keeps, and one function per
 * state change. Planner decisions, fresh ids and clock readings are arguments of the steps.
 */
module FabricModel {
  import opened Wrappers
  import opened Core
  import opened Sequences
  import opened RoleGraph
  import opened FusionRewrite
  import opened Partition
  import opened Sharding
  import opened ReductionPlanning
  import opened Admission

  // ----- state -----

  datatype TaskStatus = Pending | Running(lease: ExecutionLease) | Completed(outputs: seq<ObjectId>) | Uncertain
  {
    /** Neither committed nor lost. */
    predicate Active() { Pending? || Running? }
  }

  datatype TaskRecord = TaskRecord(spec: TaskSpec, status: TaskStatus)

  datatype RoleStatus =
    | Waiting
    | Ready
    | Submitted(task: TaskId)
    | Sharded(tasks: seq<TaskId>, completed: nat)
    | Reducing(tasks: seq<TaskId>, completed: nat, level: nat)
    | Done(outputs: seq<ObjectId>)
    | RoleUncertain

  datatype ReductionItem = CarryItem(id: ObjectId) | TaskItem(task: TaskId)

  datatype ActiveReduction = ActiveReduction(level: nat, inputs: seq<ObjectId>, items: seq<ReductionItem>)

  type RoleStates = map<string, RoleStatus>

  datatype JobRecord = JobRecord(
    definition: JobDefinition, roles: RoleStates, reductions: map<string, ActiveReduction>)

  /** Which role, or chain of roles, a task works for. */
  datatype Binding =
    | Single(job: JobId, role: string)
    | FusedChain(job: JobId, roles: seq<string>)
    | Shard(job: JobId, role: string)
    | Reduction(job: JobId, role: string)
  {
    function Mentions(): set<string>
    {
      if FusedChain? then (set i | 0 <= i < |roles| :: roles[i]) else {role}
    }
  }

  datatype RegisteredResource = RegisteredResource(descriptor: ResourceDescriptor, expiresAt: u64)

  type Tasks = map<TaskId, TaskRecord>

  /** `issued` holds every execution id ever drawn: a fresh id is one outside it. */
  datatype State = State(
    resources: map<ResourceId, RegisteredResource>,
    objects: Objects,
    tasks: Tasks,
    jobs: map<JobId, JobRecord>,
    bindings: map<TaskId, Binding>,
    links: Topology,
    issued: set<ExecutionId>)

  function EmptyState(): State
  {
    State(map[], map[], map[], map[], map[], [], {})
  }

  // ----- membership -----

  function NextEpoch(s: State, descriptor: ResourceDescriptor): nat
  {
    if descriptor.id in s.resources then s.resources[descriptor.id].descriptor.epoch + 1
    else if descriptor.epoch >= 1 then descriptor.epoch else 1
  }

  function Register(s: State, descriptor: ResourceDescriptor, expiresAt: u64): State
  {
    s.(resources := s.resources[descriptor.id :=
         RegisteredResource(descriptor.(epoch := NextEpoch(s, descriptor)), expiresAt)])
  }

  predicate CanHeartbeat(s: State, resource: ResourceId, epoch: nat)
  {
    resource in s.resources && s.resources[resource].descriptor.epoch == epoch
  }

  function Heartbeat(s: State, resource: ResourceId, expiresAt: u64): State
    requires resource in s.resources
  {
    s.(resources := s.resources[resource := s.resources[resource].(expiresAt := expiresAt)])
  }

  function DropLocation(locations: seq<ResourceId>, resource: ResourceId): seq<ResourceId>
  {
    if locations == [] then []
    else
      var n := |locations| - 1;
      var rest := DropLocation(locations[..n], resource);
      if locations[n] == resource then rest else rest + [locations[n]]
  }

  function DropLinks(links: Topology, resource: ResourceId): Topology
  {
    if links == [] then []
    else
      var n := |links| - 1;
      var rest := DropLinks(links[..n], resource);
      if links[n].from == resource || links[n].to == resource then rest else rest + [links[n]]
  }

  function RemoveResource(s: State, resource: ResourceId): State
  {
    s.(resources := s.resources - {resource},
       objects := map o | o in s.objects :: s.objects[o].(locations := DropLocation(s.objects[o].locations, resource)),
       links := DropLinks(s.links, resource))
  }

  predicate IsActive(s: State, resource: ResourceId, now: u64)
  {
    resource in s.resources && s.resources[resource].expiresAt > now
  }

  // ----- objects -----

  function AddLocations(known: seq<ResourceId>, more: seq<ResourceId>): seq<ResourceId>
  {
    if more == [] then known
    else
      var n := |more| - 1;
      var sofar := AddLocations(known, more[..n]);
      if more[n] in sofar then sofar else sofar + [more[n]]
  }

  predicate CanPublish(objects: Objects, published: ObjectMetadata)
  {
    published.id in objects ==> SameObjectIdentity(objects[published.id], published)
  }

  function Publish(objects: Objects, published: ObjectMetadata): Objects
  {
    if published.id in objects then
      var existing := objects[published.id];
      objects[published.id := existing.(locations := AddLocations(existing.locations, published.locations))]
    else objects[published.id := published]
  }

  function PublishAll(objects: Objects, published: seq<ObjectMetadata>): Objects
  {
    if published == [] then objects
    else Publish(PublishAll(objects, published[..|published| - 1]), published[|published| - 1])
  }

  function Ids(published: seq<ObjectMetadata>): seq<ObjectId>
  {
    seq(|published|, i requires 0 <= i < |published| => published[i].id)
  }

  // ----- tasks -----

  /** Adds tasks in order, all pending. */
  function AddTasks(tasks: Tasks, specs: seq<TaskSpec>): Tasks
  {
    if specs == [] then tasks
    else
      var n := |specs| - 1;
      AddTasks(tasks, specs[..n])[specs[n].id := TaskRecord(specs[n], Pending)]
  }

  function TaskIdsOf(specs: seq<TaskSpec>): seq<TaskId>
  {
    seq(|specs|, i requires 0 <= i < |specs| => specs[i].id)
  }

  function BindAll(bindings: map<TaskId, Binding>, ids: seq<TaskId>, binding: Binding): map<TaskId, Binding>
  {
    if ids == [] then bindings
    else BindAll(bindings, ids[..|ids| - 1], binding)[ids[|ids| - 1] := binding]
  }

  predicate FreshIds(tasks: Tasks, ids: seq<TaskId>)
  {
    && (forall i :: 0 <= i < |ids| ==> ids[i] !in tasks)
    && (forall i, j :: 0 <= i < j < |ids| ==> ids[i] != ids[j])
  }

  predicate CanSubmit(s: State, spec: TaskSpec)
  {
    AdmissibleTask(spec) && spec.id !in s.tasks
  }

  function Submit(s: State, spec: TaskSpec): State
  {
    s.(tasks := s.tasks[spec.id := TaskRecord(spec, Pending)])
  }

  // ----- jobs and roles -----

  function SetRole(job: JobRecord, role: string, status: RoleStatus): JobRecord
  {
    job.(roles := job.roles[role := status])
  }

  function SetRoles(job: JobRecord, roles: seq<string>, status: RoleStatus): JobRecord
  {
    if roles == [] then job
    else SetRole(SetRoles(job, roles[..|roles| - 1], status), roles[|roles| - 1], status)
  }

  function WithJob(s: State, id: JobId, job: JobRecord): State
  {
    s.(jobs := s.jobs[id := job])
  }

  function NewJob(definition: JobDefinition): JobRecord
  {
    JobRecord(definition, map name | name in Names(definition.roles) :: Waiting, map[])
  }

  /** The outputs of all dependencies in their listed order, once every one of them is completed. */
  function DependencyOutputs(roles: RoleStates, dependencies: seq<string>): Option<seq<ObjectId>>
  {
    if dependencies == [] then Some([])
    else
      var n := |dependencies| - 1;
      match DependencyOutputs(roles, dependencies[..n])
      case None => None
      case Some(inputs) =>
        if dependencies[n] in roles && roles[dependencies[n]].Done?
        then Some(inputs + roles[dependencies[n]].outputs) else None
  }

  /** Waiting roles may be materialised once their dependencies are completed; logical ones are retried. */
  predicate Materializable(job: JobRecord, role: RoleSpec)
  {
    && role.name in job.roles
    && (job.roles[role.name].Waiting? || (role.Logical? && job.roles[role.name].Ready?))
    && DependencyOutputs(job.roles, role.dependsOn).Some?
  }

  function WaitingRoles(job: JobRecord): set<string>
  {
    set r | r in job.roles && job.roles[r].Waiting?
  }

  function ReductionOf(job: JobRecord, role: string): Option<RoleReductionSpec>
  {
    match FindRole(job.definition.roles, role)
    case None => None
    case Some(spec) => if spec.Logical? then spec.reduction else None
  }

  // ----- materialising a role -----

  /** What the planner decides for one ready role. */
  datatype RoleChoice =
    | Infeasible
    | Direct(task: TaskId, template: TaskTemplate)
    | Fused(task: TaskId, chain: seq<string>, templates: seq<TaskTemplate>, requirements: ResourceRequirements)
    | Shards(tasks: seq<TaskSpec>)

  predicate InstanceOf(role: RoleSpec, template: TaskTemplate)
  {
    template in role.Templates()
  }

  /** Shard `index` of `count` of this role, under one of its implementations. */
  ghost predicate ShardInstance(role: RoleSpec, dependencies: seq<ObjectId>, objects: Objects, spec: TaskSpec,
                                index: nat, count: nat)
    requires role.Logical?
  {
    && index < count < 0x1_0000_0000
    && exists template :: InstanceOf(role, template)
         && InstantiateShardTask(spec.id, template, dependencies, index, count,
                                 if role.shards.Auto? then Some(role.shards.policy) else None, objects) == Some(spec)
  }

  ghost predicate ShardsAllowed(role: RoleSpec, dependencies: seq<ObjectId>, objects: Objects, specs: seq<TaskSpec>)
    requires role.Logical?
  {
    && 1 <= |specs|
    && (role.shards.Fixed? ==> |specs| == role.shards.count)
    && (role.shards.Auto? ==> |specs| <= role.shards.policy.maxShards)
    && forall i :: 0 <= i < |specs| ==> ShardInstance(role, dependencies, objects, specs[i], i, |specs|)
  }

  /** A private chain of waiting single-shard roles starting at `first`, with one fusable template each. */
  ghost predicate ChainAllowed(job: JobRecord, first: string, chain: seq<string>, templates: seq<TaskTemplate>)
  {
    && 2 <= |chain| == |templates| && chain[0] == first && NoRepeats(chain)
    && (forall i :: 0 <= i < |chain| ==> HasRole(job.definition.roles, chain[i]) && chain[i] in job.roles)
    && (forall i :: 0 <= i < |chain| ==> Role(job.definition.roles, chain[i]).Chainable())
    && (forall i :: 0 <= i < |chain| - 1 ==> PrivateEdge(job.definition, chain[i], chain[i + 1]))
    && (forall i :: 1 <= i < |chain| ==> job.roles[chain[i]].Waiting?)
    && (forall i :: 0 <= i < |chain| ==>
          InstanceOf(Role(job.definition.roles, chain[i]), templates[i]) && Fusable(templates[i]))
  }

  ghost predicate ChoiceAllowed(s: State, id: JobId, name: string, choice: RoleChoice)
  {
    id in s.jobs && HasRole(s.jobs[id].definition.roles, name) &&
    var job := s.jobs[id];
    var role := Role(job.definition.roles, name);
    Materializable(job, role) &&
    match choice
    case Infeasible => role.Logical?
    case Direct(task, template) => !role.FansOut() && InstanceOf(role, template) && FreshIds(s.tasks, [task])
    case Fused(task, chain, templates, _) =>
      role.Chainable() && ChainAllowed(job, name, chain, templates) && FreshIds(s.tasks, [task])
    case Shards(specs) =>
      && role.FansOut() && FreshIds(s.tasks, TaskIdsOf(specs))
      && ShardsAllowed(role, DependencyOutputs(job.roles, role.dependsOn).value, s.objects, specs)
  }

  /** The step fails only when the fabric refuses the planner's fused task. */
  predicate MaterializeFails(s: State, id: JobId, name: string, choice: RoleChoice)
    requires id in s.jobs && HasRole(s.jobs[id].definition.roles, name)
    requires Materializable(s.jobs[id], Role(s.jobs[id].definition.roles, name))
  {
    choice.Fused? && choice.templates != [] &&
    !AdmissibleTask(FusedPipelineTask(choice.task, choice.templates,
      DependencyOutputs(s.jobs[id].roles, Role(s.jobs[id].definition.roles, name).dependsOn).value, choice.requirements))
  }

  function Materialize(s: State, id: JobId, name: string, choice: RoleChoice): State
    requires id in s.jobs && HasRole(s.jobs[id].definition.roles, name)
    requires Materializable(s.jobs[id], Role(s.jobs[id].definition.roles, name))
    requires choice.Fused? ==> choice.templates != []
  {
    var job := s.jobs[id];
    var dependencies := DependencyOutputs(job.roles, Role(job.definition.roles, name).dependsOn).value;
    match choice
    case Infeasible => WithJob(s, id, SetRole(job, name, Ready))
    case Direct(task, template) =>
      WithJob(Submit(s, template.Instantiate(task, dependencies)), id, SetRole(job, name, Submitted(task)))
      .(bindings := s.bindings[task := Single(id, name)])
    case Fused(task, chain, templates, requirements) =>
      var fused := FusedPipelineTask(task, templates, dependencies, requirements);
      if !AdmissibleTask(fused) then s
      else
        WithJob(Submit(s, fused), id, SetRoles(job, chain, Submitted(task)))
        .(bindings := s.bindings[task := FusedChain(id, chain)])
    case Shards(specs) =>
      WithJob(s, id, SetRole(job, name, Sharded(TaskIdsOf(specs), 0)))
      .(tasks := AddTasks(s.tasks, specs), bindings := BindAll(s.bindings, TaskIdsOf(specs), Shard(id, name)))
  }

  // ----- reduction levels -----

  function ItemOf(item: LevelItem): ReductionItem
  {
    if item.Carry? then CarryItem(item.id) else TaskItem(item.task.id)
  }

  function ItemsOf(items: seq<LevelItem>): seq<ReductionItem>
  {
    seq(|items|, i requires 0 <= i < |items| => ItemOf(items[i]))
  }

  function ReducerTasks(items: seq<LevelItem>): seq<TaskSpec>
  {
    if items == [] then []
    else
      var n := |items| - 1;
      ReducerTasks(items[..n]) + if items[n].Reduce? then [items[n].task] else []
  }

  /** The level's tasks, in item order. */
  function ItemTasks(items: seq<ReductionItem>): seq<TaskId>
  {
    if items == [] then []
    else
      var n := |items| - 1;
      ItemTasks(items[..n]) + if items[n].TaskItem? then [items[n].task] else []
  }

  /** The reduction of this role has inputs but no tasks yet. */
  predicate LevelUnplaced(job: JobRecord, name: string)
  {
    && name in job.roles && job.roles[name].Reducing?
    && name in job.reductions && job.reductions[name].items == [] && |job.reductions[name].inputs| >= 2
    && ReductionOf(job, name).Some?
  }

  ghost predicate LevelAllowed(s: State, id: JobId, name: string, choice: Option<seq<LevelItem>>)
  {
    id in s.jobs && LevelUnplaced(s.jobs[id], name) &&
    (choice.Some? ==>
       && FreshIds(s.tasks, TaskIdsOf(ReducerTasks(choice.value)))
       && HasReduce(choice.value)
       && exists firstId, groups ::
            LevelOf(ReductionOf(s.jobs[id], name).value, s.jobs[id].reductions[name].inputs, firstId, choice.value, groups))
  }

  function PlaceLevel(s: State, id: JobId, name: string, choice: Option<seq<LevelItem>>): State
    requires id in s.jobs && LevelUnplaced(s.jobs[id], name)
  {
    var job := s.jobs[id];
    var reduction := job.reductions[name];
    match choice
    case None => WithJob(s, id, SetRole(job, name, Reducing([], 0, reduction.level)))
    case Some(items) =>
      var specs := ReducerTasks(items);
      var placed := SetRole(job, name, Reducing(TaskIdsOf(specs), 0, reduction.level));
      WithJob(s, id, placed.(reductions := job.reductions[name := reduction.(items := ItemsOf(items))]))
      .(tasks := AddTasks(s.tasks, specs), bindings := BindAll(s.bindings, TaskIdsOf(specs), Reduction(id, name)))
  }

  // ----- completion -----

  function NumCompleted(tasks: Tasks, ids: seq<TaskId>): (r: nat)
    ensures r <= |ids|
  {
    if ids == [] then 0
    else
      var n := |ids| - 1;
      NumCompleted(tasks, ids[..n]) + if ids[n] in tasks && tasks[ids[n]].status.Completed? then 1 else 0
  }

  /** The outputs of the completed tasks, in task order. */
  function CompletedOutputs(tasks: Tasks, ids: seq<TaskId>): seq<ObjectId>
  {
    if ids == [] then []
    else
      var n := |ids| - 1;
      CompletedOutputs(tasks, ids[..n])
      + if ids[n] in tasks && tasks[ids[n]].status.Completed? then tasks[ids[n]].status.outputs else []
  }

  /** Carried objects and reducer outputs, in item order. */
  function LevelOutputs(tasks: Tasks, items: seq<ReductionItem>): seq<ObjectId>
  {
    if items == [] then []
    else
      var n := |items| - 1;
      LevelOutputs(tasks, items[..n]) +
      match items[n]
      case CarryItem(id) => [id]
      case TaskItem(t) => if t in tasks && tasks[t].status.Completed? then tasks[t].status.outputs else []
  }

  function AfterShard(job: JobRecord, tasks: Tasks, name: string): JobRecord
    requires name in job.roles
  {
    match job.roles[name]
    case Sharded(ids, _) =>
      var completed := NumCompleted(tasks, ids);
      var outputs := CompletedOutputs(tasks, ids);
      if completed < |ids| then SetRole(job, name, Sharded(ids, completed))
      else if ReductionOf(job, name).Some? && |outputs| > 1 then
        SetRole(job, name, Reducing([], 0, 0))
        .(reductions := job.reductions[name := ActiveReduction(0, outputs, [])])
      else SetRole(job, name, Done(outputs))
    case _ => job
  }

  function AfterReducer(job: JobRecord, tasks: Tasks, name: string): JobRecord
    requires name in job.reductions
  {
    var reduction := job.reductions[name];
    var ids := ItemTasks(reduction.items);
    var completed := NumCompleted(tasks, ids);
    if completed < |ids| then SetRole(job, name, Reducing(ids, completed, reduction.level))
    else
      var next := LevelOutputs(tasks, reduction.items);
      if |next| <= 1 then
        SetRole(job, name, Done(next)).(reductions := job.reductions - {name})
      else
        SetRole(job, name, Reducing([], 0, reduction.level + 1))
        .(reductions := job.reductions[name := ActiveReduction(reduction.level + 1, next, [])])
  }

  /** What completing `task` with `outputs` does to the job it works for. */
  function AfterTask(job: JobRecord, tasks: Tasks, binding: Binding, outputs: seq<ObjectId>): JobRecord
    requires binding.FusedChain? ==> binding.roles != []
    requires binding.Shard? ==> binding.role in job.roles
    requires binding.Reduction? ==> binding.role in job.reductions
  {
    match binding
    case Single(_, role) => SetRole(job, role, Done(outputs))
    case FusedChain(_, roles) =>
      var n := |roles| - 1;
      SetRole(SetRoles(job, roles[..n], Done([])), roles[n], Done(outputs))
    case Shard(_, role) => AfterShard(job, tasks, role)
    case Reduction(_, role) => AfterReducer(job, tasks, role)
  }

  predicate Bound(s: State, task: TaskId)
  {
    task in s.bindings ==>
      && s.bindings[task].job in s.jobs
      && (s.bindings[task].FusedChain? ==> s.bindings[task].roles != [])
      && (s.bindings[task].Shard? ==> s.bindings[task].role in s.jobs[s.bindings[task].job].roles)
      && (s.bindings[task].Reduction? ==> s.bindings[task].role in s.jobs[s.bindings[task].job].reductions)
  }

  /** Marks the task completed, publishes its outputs and advances the role it works for. */
  function Commit(s: State, task: TaskId, outputs: seq<ObjectMetadata>): State
    requires task in s.tasks && Bound(s, task)
  {
    var tasks := s.tasks[task := s.tasks[task].(status := Completed(Ids(outputs)))];
    var committed := s.(tasks := tasks, objects := PublishAll(s.objects, outputs));
    if task !in s.bindings then committed
    else
      var binding := s.bindings[task];
      WithJob(committed, binding.job, AfterTask(s.jobs[binding.job], tasks, binding, Ids(outputs)))
  }

  // ----- leases -----

  /** The lease presented names the task's current, unexpired execution on an active incarnation. */
  predicate HoldsLease(s: State, lease: ExecutionLease, now: u64)
  {
    && IsActive(s, lease.resource, now)
    && s.resources[lease.resource].descriptor.epoch == lease.epoch
    && lease.task in s.tasks
    && s.tasks[lease.task].status.Running?
    && var current := s.tasks[lease.task].status.lease;
       && current.execution == lease.execution
       && current.expiresAt > now
       && current.resource == lease.resource && current.epoch == lease.epoch
  }

  predicate CanCommit(s: State, lease: ExecutionLease, outputs: seq<ObjectMetadata>, now: u64)
  {
    && HoldsLease(s, lease, now)
    && (lease.task in s.bindings && s.bindings[lease.task].Reduction? ==> |outputs| == 1)
    && forall i :: 0 <= i < |outputs| ==> CanPublish(s.objects, outputs[i])
  }

  /** No two outputs share an id under different identities. */
  predicate ConsistentOutputs(outputs: seq<ObjectMetadata>)
  {
    forall i, j :: 0 <= i < j < |outputs| && outputs[i].id == outputs[j].id ==>
      SameObjectIdentity(outputs[i], outputs[j])
  }

  predicate CanBegin(s: State, task: TaskId, resource: ResourceId, now: u64)
  {
    IsActive(s, resource, now) && task in s.tasks && s.tasks[task].status.Pending?
  }

  function LeaseFor(s: State, task: TaskId, resource: ResourceId, execution: ExecutionId, expiresAt: u64): ExecutionLease
    requires resource in s.resources
  {
    ExecutionLease(task, execution, resource, s.resources[resource].descriptor.epoch, expiresAt)
  }

  function Begin(s: State, task: TaskId, resource: ResourceId, execution: ExecutionId, expiresAt: u64): State
    requires task in s.tasks && resource in s.resources
  {
    s.(tasks := s.tasks[task := s.tasks[task].(status := Running(LeaseFor(s, task, resource, execution, expiresAt)))],
       issued := s.issued + {execution})
  }

  function Renew(s: State, task: TaskId, expiresAt: u64): State
    requires task in s.tasks && s.tasks[task].status.Running?
  {
    var lease := s.tasks[task].status.lease.(expiresAt := expiresAt);
    s.(tasks := s.tasks[task := s.tasks[task].(status := Running(lease))])
  }

  predicate Expired(record: TaskRecord, now: u64)
  {
    record.status.Running? && record.status.lease.expiresAt <= now
  }

  /** Lost work is retried when that is safe and reported uncertain otherwise. */
  function ReapedStatus(spec: TaskSpec): TaskStatus
  {
    if spec.effects.AutomaticallyRetryable() then Pending else Uncertain
  }

  function MarkUncertain(job: JobRecord, binding: Binding): JobRecord
  {
    if binding.FusedChain? then SetRoles(job, binding.roles, RoleUncertain)
    else SetRole(job, binding.role, RoleUncertain)
  }

  function Reap(s: State, task: TaskId): State
    requires task in s.tasks
  {
    var status := ReapedStatus(s.tasks[task].spec);
    var reaped := s.(tasks := s.tasks[task := s.tasks[task].(status := status)]);
    if status.Uncertain? && task in s.bindings && s.bindings[task].job in s.jobs
    then WithJob(reaped, s.bindings[task].job, MarkUncertain(s.jobs[s.bindings[task].job], s.bindings[task]))
    else reaped
  }

  // ----- steps and runs -----

  /** Everything that can happen to the fabric, one entry per atomic state change. */
  datatype Action =
    | RegisterResource(descriptor: ResourceDescriptor, expiresAt: u64)
    | HeartbeatResource(resource: ResourceId, expiresAt: u64)
    | DropResource(resource: ResourceId)
    | SetLinks(links: Topology)
    | PublishObject(published: ObjectMetadata)
    | AddLocation(id: ObjectId, resource: ResourceId)
    | SubmitTask(spec: TaskSpec)
    | SubmitJob(job: JobId, definition: JobDefinition)
    | BeginExecution(task: TaskId, resource: ResourceId, execution: ExecutionId, expiresAt: u64, now: u64)
    | RenewExecution(lease: ExecutionLease, expiresAt: u64, now: u64)
    | CommitExecution(lease: ExecutionLease, outputs: seq<ObjectMetadata>, now: u64)
    | ReapExecution(task: TaskId, now: u64)
    | MaterializeRole(job: JobId, role: string, choice: RoleChoice)
    | PlaceReduction(job: JobId, role: string, items: Option<seq<LevelItem>>)

  /** When the step can happen. Commits are those whose outputs agree with each other. */
  ghost predicate Enabled(s: State, action: Action)
  {
    match action
    case RegisterResource(_, _) => true
    case HeartbeatResource(resource, _) => resource in s.resources
    case DropResource(_) => true
    case SetLinks(_) => true
    case PublishObject(published) => CanPublish(s.objects, published)
    case AddLocation(id, _) => id in s.objects
    case SubmitTask(spec) => CanSubmit(s, spec)
    case SubmitJob(job, definition) => job !in s.jobs && ValidJob(definition)
    case BeginExecution(task, resource, execution, _, now) =>
      CanBegin(s, task, resource, now) && execution !in s.issued
    case RenewExecution(lease, _, now) => HoldsLease(s, lease, now)
    case CommitExecution(lease, outputs, now) =>
      CanCommit(s, lease, outputs, now) && ConsistentOutputs(outputs) && Bound(s, lease.task)
    case ReapExecution(task, now) => task in s.tasks && Expired(s.tasks[task], now)
    case MaterializeRole(job, role, choice) => ChoiceAllowed(s, job, role, choice)
    case PlaceReduction(job, role, items) => LevelAllowed(s, job, role, items)
  }

  ghost function Step(s: State, action: Action): State
    requires Enabled(s, action)
  {
    match action
    case RegisterResource(descriptor, expiresAt) => Register(s, descriptor, expiresAt)
    case HeartbeatResource(resource, expiresAt) => Heartbeat(s, resource, expiresAt)
    case DropResource(resource) => RemoveResource(s, resource)
    case SetLinks(links) => s.(links := links)
    case PublishObject(published) => s.(objects := Publish(s.objects, published))
    case AddLocation(id, resource) =>
      s.(objects := s.objects[id := s.objects[id].(locations := AddLocations(s.objects[id].locations, [resource]))])
    case SubmitTask(spec) => Submit(s, spec)
    case SubmitJob(job, definition) => WithJob(s, job, NewJob(definition))
    case BeginExecution(task, resource, execution, expiresAt, _) => Begin(s, task, resource, execution, expiresAt)
    case RenewExecution(lease, expiresAt, _) => Renew(s, lease.task, expiresAt)
    case CommitExecution(lease, outputs, _) => Commit(s, lease.task, outputs)
    case ReapExecution(task, _) => Reap(s, task)
    case MaterializeRole(job, role, choice) => Materialize(s, job, role, choice)
    case PlaceReduction(job, role, items) => PlaceLevel(s, job, role, items)
  }

  /** `states` is a run of the fabric taking the given actions. */
  ghost predicate IsRun(states: seq<State>, actions: seq<Action>)
  {
    && |states| == |actions| + 1
    && states[0] == EmptyState()
    && forall i :: 0 <= i < |actions| ==> Enabled(states[i], actions[i]) && states[i + 1] == Step(states[i], actions[i])
  }

  /** The state after a trace of actions, each enabled when it is taken. */
  ghost predicate Reaches(s: State, actions: seq<Action>, t: State)
    decreases |actions|
  {
    if actions == [] then s == t
    else Enabled(s, actions[0]) && Reaches(Step(s, actions[0]), actions[1..], t)
  }
}
