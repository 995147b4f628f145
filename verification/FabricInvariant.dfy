/**
 * The consistency of roles, tasks, bindings and reductions, kept by every step of the fabric: what a
 * bound task is, what the state of a role promises about its tasks and reduction, and the frame
 * lemmas that carry both over steps which do not concern them.
 */
module FabricInvariant {
  import opened Wrappers
  import opened Core
  import opened Sequences
  import opened RoleGraph
  import opened FusionRewrite
  import opened Sharding
  import opened ReductionPlanning
  import opened Admission
  import opened FabricModel

  // ----- what a bound task is -----

  ghost predicate InstanceTask(role: RoleSpec, dependencies: seq<ObjectId>, t: TaskId, spec: TaskSpec)
  {
    exists template :: InstanceOf(role, template) && spec == template.Instantiate(t, dependencies)
  }

  ghost predicate FusedTask(definition: JobDefinition, names: seq<string>, dependencies: seq<ObjectId>, t: TaskId, spec: TaskSpec)
  {
    exists templates: seq<TaskTemplate>, requirements ::
      && |templates| == |names| > 0
      && (forall i :: 0 <= i < |names| ==>
            HasRole(definition.roles, names[i]) && InstanceOf(Role(definition.roles, names[i]), templates[i]))
      && spec == FusedPipelineTask(t, templates, dependencies, requirements)
  }

  ghost predicate SingleOk(s: State, t: TaskId, job: JobRecord, name: string)
    requires t in s.tasks
  {
    && HasRole(job.definition.roles, name) && name in job.roles
    && var role := Role(job.definition.roles, name);
    && !role.FansOut()
    && var dependencies := DependencyOutputs(job.roles, role.dependsOn);
    && dependencies.Some?
    && InstanceTask(role, dependencies.value, t, s.tasks[t].spec)
    && match s.tasks[t].status
       case Completed(outputs) => job.roles[name] == Done(outputs)
       case Uncertain => job.roles[name] == RoleUncertain
       case _ => job.roles[name] == Submitted(t)
  }

  ghost predicate FusedOk(s: State, t: TaskId, job: JobRecord, names: seq<string>)
    requires t in s.tasks
  {
    && |names| >= 2 && NoRepeats(names)
    && (forall i :: 0 <= i < |names| ==> HasRole(job.definition.roles, names[i]) && names[i] in job.roles
                                         && Role(job.definition.roles, names[i]).Chainable())
    && (forall i :: 0 <= i < |names| - 1 ==> PrivateEdge(job.definition, names[i], names[i + 1]))
    && s.tasks[t].spec.effects == Pure
    && var dependencies := DependencyOutputs(job.roles, Role(job.definition.roles, names[0]).dependsOn);
    && dependencies.Some?
    && FusedTask(job.definition, names, dependencies.value, t, s.tasks[t].spec)
    && match s.tasks[t].status
       case Completed(outputs) =>
         && job.roles[names[|names| - 1]] == Done(outputs)
         && forall i :: 0 <= i < |names| - 1 ==> job.roles[names[i]] == Done([])
       case Uncertain => false
       case _ => forall i :: 0 <= i < |names| ==> job.roles[names[i]] == Submitted(t)
  }

  ghost predicate ShardOk(s: State, t: TaskId, job: JobRecord, name: string)
    requires t in s.tasks
  {
    && HasRole(job.definition.roles, name) && name in job.roles
    && Role(job.definition.roles, name).FansOut()
    && match job.roles[name]
       case Sharded(ids, _) => t in ids && !s.tasks[t].status.Uncertain?
       case Reducing(_, _, _) => s.tasks[t].status.Completed?
       case Done(_) => s.tasks[t].status.Completed?
       case RoleUncertain => true
       case _ => false
  }

  ghost predicate ReducerOk(s: State, t: TaskId, job: JobRecord, name: string)
    requires t in s.tasks
  {
    && HasRole(job.definition.roles, name) && name in job.roles
    && s.tasks[t].spec.effects == Pure
    && (s.tasks[t].status.Completed? ==> |s.tasks[t].status.outputs| == 1)
    && match job.roles[name]
       case Reducing(ids, _, _) => (s.tasks[t].status.Active() ==> t in ids) && !s.tasks[t].status.Uncertain?
       case Done(_) => s.tasks[t].status.Completed?
       case _ => false
  }

  ghost predicate BindingOk(s: State, t: TaskId)
    requires t in s.bindings
  {
    && t in s.tasks && s.bindings[t].job in s.jobs
    && var job := s.jobs[s.bindings[t].job];
       match s.bindings[t]
       case Single(_, name) => SingleOk(s, t, job, name)
       case FusedChain(_, names) => FusedOk(s, t, job, names)
       case Shard(_, name) => ShardOk(s, t, job, name)
       case Reduction(_, name) => ReducerOk(s, t, job, name)
  }

  // ----- what a role's state means -----

  ghost predicate SubmittedOk(s: State, id: JobId, name: string, t: TaskId)
  {
    && t in s.tasks && s.tasks[t].status.Active() && t in s.bindings
    && s.bindings[t].job == id && name in s.bindings[t].Mentions()
    && (s.bindings[t].Single? || s.bindings[t].FusedChain?)
  }

  predicate DistinctTasks(ids: seq<TaskId>)
  {
    forall i, j :: 0 <= i < j < |ids| ==> ids[i] != ids[j]
  }

  ghost predicate ShardTaskOk(s: State, id: JobId, name: string, role: RoleSpec, dependencies: seq<ObjectId>,
                              t: TaskId, index: nat, count: nat)
    requires role.Logical?
  {
    && t in s.tasks && !s.tasks[t].status.Uncertain?
    && t in s.bindings && s.bindings[t] == Shard(id, name)
    && s.tasks[t].spec.id == t
    && ShardInstance(role, dependencies, s.objects, s.tasks[t].spec, index, count)
  }

  ghost predicate ShardedOk(s: State, id: JobId, name: string, ids: seq<TaskId>, completed: nat)
    requires id in s.jobs && HasRole(s.jobs[id].definition.roles, name)
  {
    var job := s.jobs[id];
    var role := Role(job.definition.roles, name);
    && role.FansOut() && (role.shards.Fixed? ==> |ids| == role.shards.count)
    && (role.shards.Auto? ==> |ids| <= role.shards.policy.maxShards)
    && DistinctTasks(ids)
    && var dependencies := DependencyOutputs(job.roles, role.dependsOn);
    && dependencies.Some?
    && (forall i :: 0 <= i < |ids| ==> ShardTaskOk(s, id, name, role, dependencies.value, ids[i], i, |ids|))
    && completed == NumCompleted(s.tasks, ids) < |ids|
  }

  /** The inputs one item of a level stands for. */
  function ItemInputs(tasks: Tasks, item: ReductionItem): seq<ObjectId>
  {
    match item
    case CarryItem(id) => [id]
    case TaskItem(t) => if t in tasks then tasks[t].spec.inputs else []
  }

  function LevelInputs(tasks: Tasks, items: seq<ReductionItem>): seq<seq<ObjectId>>
  {
    seq(|items|, i requires 0 <= i < |items| => ItemInputs(tasks, items[i]))
  }

  ghost predicate ReducerTaskOk(s: State, id: JobId, name: string, reduction: RoleReductionSpec, t: TaskId)
  {
    && t in s.tasks && !s.tasks[t].status.Uncertain?
    && t in s.bindings && s.bindings[t] == Reduction(id, name)
    && |s.tasks[t].spec.inputs| >= 2
    && s.tasks[t].spec == reduction.task.Instantiate(t, s.tasks[t].spec.inputs)
  }

  ghost predicate ReducingOk(s: State, id: JobId, name: string, ids: seq<TaskId>, completed: nat, level: nat)
    requires id in s.jobs && HasRole(s.jobs[id].definition.roles, name)
  {
    var job := s.jobs[id];
    && Role(job.definition.roles, name).FansOut()
    && ReductionOf(job, name).Some? && name in job.reductions
    && var reduction := job.reductions[name];
    && reduction.level == level && |reduction.inputs| >= 2
    && ids == ItemTasks(reduction.items) && DistinctTasks(ids)
    && completed == NumCompleted(s.tasks, ids)
    && (if reduction.items == [] then ids == []
        else completed < |ids| && Flatten(LevelInputs(s.tasks, reduction.items)) == reduction.inputs)
    && forall i :: 0 <= i < |ids| ==> ReducerTaskOk(s, id, name, ReductionOf(job, name).value, ids[i])
  }

  ghost predicate RoleOk(s: State, id: JobId, name: string)
    requires id in s.jobs && name in s.jobs[id].roles
  {
    var job := s.jobs[id];
    && HasRole(job.definition.roles, name)
    && (name in job.reductions <==> job.roles[name].Reducing?)
    && match job.roles[name]
       case Submitted(t) => SubmittedOk(s, id, name, t)
       case Sharded(ids, completed) => ShardedOk(s, id, name, ids, completed)
       case Reducing(ids, completed, level) => ReducingOk(s, id, name, ids, completed, level)
       case Ready => Role(job.definition.roles, name).Logical?
                     && DependencyOutputs(job.roles, Role(job.definition.roles, name).dependsOn).Some?
       case _ => true
  }

  ghost predicate JobShape(job: JobRecord)
  {
    && ValidJob(job.definition)
    && job.roles.Keys == Names(job.definition.roles)
    && job.reductions.Keys <= job.roles.Keys
  }

  /** The fabric's invariant. */
  ghost predicate Inv(s: State)
  {
    && (forall t :: t in s.bindings ==> BindingOk(s, t))
    && (forall id :: id in s.jobs ==> JobShape(s.jobs[id]))
    && (forall id, name :: id in s.jobs && name in s.jobs[id].roles ==> RoleOk(s, id, name))
  }

  // ----- frames -----

  ghost predicate TaskKept(s: State, s': State, t: TaskId)
  {
    && (t in s.tasks ==>
          && t in s'.tasks && s'.tasks[t].spec == s.tasks[t].spec
          && (s'.tasks[t].status == s.tasks[t].status
              || (s'.tasks[t].status.Active() && s.tasks[t].status.Active())))
    && (t in s.bindings ==> t in s'.bindings && s'.bindings[t] == s.bindings[t])
  }

  ghost predicate JobKept(job: JobRecord, job': JobRecord)
  {
    && job'.definition == job.definition
    && job'.roles.Keys == job.roles.Keys
    && forall r :: r in job.roles && job.roles[r].Done? ==> job'.roles[r] == job.roles[r]
  }

  ghost predicate ObjectsKept(objects: Objects, objects': Objects)
  {
    forall o :: o in objects ==> o in objects' && SameObjectIdentity(objects[o], objects'[o])
  }

  ghost predicate StatusKept(job: JobRecord, job': JobRecord, name: string)
  {
    && name in job.roles && name in job'.roles && job'.roles[name] == job.roles[name]
    && (name in job.reductions <==> name in job'.reductions)
    && (name in job.reductions ==> job'.reductions[name] == job.reductions[name])
  }

  lemma {:induction false} DependenciesKept(job: JobRecord, job': JobRecord, dependencies: seq<string>)
    requires JobKept(job, job') && DependencyOutputs(job.roles, dependencies).Some?
    ensures DependencyOutputs(job'.roles, dependencies) == DependencyOutputs(job.roles, dependencies)
  {
    if dependencies != [] { DependenciesKept(job, job', dependencies[..|dependencies| - 1]); }
  }

  lemma BindingFrame(s: State, s': State, t: TaskId)
    requires t in s.bindings && BindingOk(s, t) && TaskKept(s, s', t)
    requires s.bindings[t].job in s'.jobs && JobKept(s.jobs[s.bindings[t].job], s'.jobs[s.bindings[t].job])
    requires forall r :: r in s.bindings[t].Mentions() && r in s.jobs[s.bindings[t].job].roles ==>
               s'.jobs[s.bindings[t].job].roles[r] == s.jobs[s.bindings[t].job].roles[r]
    ensures t in s'.bindings && BindingOk(s', t)
  {
    var job, job' := s.jobs[s.bindings[t].job], s'.jobs[s.bindings[t].job];
    match s.bindings[t] {
      case Single(_, name) =>
        DependenciesKept(job, job', Role(job.definition.roles, name).dependsOn);
      case FusedChain(_, names) =>
        DependenciesKept(job, job', Role(job.definition.roles, names[0]).dependsOn);
        FusedFrame(s, s', t, job, job', names);
      case Shard(_, name) =>
      case Reduction(_, name) =>
    }
  }

  lemma FusedFrame(s: State, s': State, t: TaskId, job: JobRecord, job': JobRecord, names: seq<string>)
    requires t in s.tasks && FusedOk(s, t, job, names) && TaskKept(s, s', t) && JobKept(job, job')
    requires DependencyOutputs(job'.roles, Role(job.definition.roles, names[0]).dependsOn)
             == DependencyOutputs(job.roles, Role(job.definition.roles, names[0]).dependsOn)
    requires forall i :: 0 <= i < |names| ==> job'.roles[names[i]] == job.roles[names[i]]
    ensures FusedOk(s', t, job', names)
  {
  }

  lemma {:induction false} CountsKept(s: State, s': State, ids: seq<TaskId>)
    requires forall i :: 0 <= i < |ids| ==> ids[i] in s.tasks && TaskKept(s, s', ids[i])
    ensures NumCompleted(s'.tasks, ids) == NumCompleted(s.tasks, ids)
    ensures CompletedOutputs(s'.tasks, ids) == CompletedOutputs(s.tasks, ids)
  {
    if ids != [] { CountsKept(s, s', ids[..|ids| - 1]); }
  }

  lemma ShardInstanceFrame(role: RoleSpec, dependencies: seq<ObjectId>, objects: Objects, objects': Objects,
                           spec: TaskSpec, index: nat, count: nat)
    requires role.Logical? && ObjectsKept(objects, objects')
    requires ShardInstance(role, dependencies, objects, spec, index, count)
    ensures ShardInstance(role, dependencies, objects', spec, index, count)
  {
    var policy := if role.shards.Auto? then Some(role.shards.policy) else None;
    var template :| InstanceOf(role, template)
      && InstantiateShardTask(spec.id, template, dependencies, index, count, policy, objects) == Some(spec);
    assert InstantiateShardTask(spec.id, template, dependencies, index, count, policy, objects') == Some(spec);
  }

  lemma ShardedFrame(s: State, s': State, id: JobId, name: string, ids: seq<TaskId>, completed: nat)
    requires id in s.jobs && HasRole(s.jobs[id].definition.roles, name) && ShardedOk(s, id, name, ids, completed)
    requires id in s'.jobs && JobKept(s.jobs[id], s'.jobs[id]) && ObjectsKept(s.objects, s'.objects)
    requires forall i :: 0 <= i < |ids| ==> TaskKept(s, s', ids[i])
    ensures ShardedOk(s', id, name, ids, completed)
  {
    var role := Role(s.jobs[id].definition.roles, name);
    DependenciesKept(s.jobs[id], s'.jobs[id], role.dependsOn);
    CountsKept(s, s', ids);
    var dependencies := DependencyOutputs(s.jobs[id].roles, role.dependsOn).value;
    forall i | 0 <= i < |ids| ensures ShardTaskOk(s', id, name, role, dependencies, ids[i], i, |ids|) {
      ShardInstanceFrame(role, dependencies, s.objects, s'.objects, s.tasks[ids[i]].spec, i, |ids|);
    }
  }

  lemma {:induction false} ItemTaskListed(items: seq<ReductionItem>, i: nat)
    requires i < |items| && items[i].TaskItem?
    ensures items[i].task in ItemTasks(items)
  {
    if i < |items| - 1 { ItemTaskListed(items[..|items| - 1], i); }
  }

  lemma LevelInputsKept(s: State, s': State, items: seq<ReductionItem>)
    requires forall t :: t in ItemTasks(items) ==> t in s.tasks && TaskKept(s, s', t)
    ensures LevelInputs(s'.tasks, items) == LevelInputs(s.tasks, items)
  {
    forall i | 0 <= i < |items| ensures ItemInputs(s'.tasks, items[i]) == ItemInputs(s.tasks, items[i]) {
      if items[i].TaskItem? { ItemTaskListed(items, i); }
    }
  }

  lemma ReducingFrame(s: State, s': State, id: JobId, name: string, ids: seq<TaskId>, completed: nat, level: nat)
    requires id in s.jobs && HasRole(s.jobs[id].definition.roles, name) && ReducingOk(s, id, name, ids, completed, level)
    requires id in s'.jobs && JobKept(s.jobs[id], s'.jobs[id]) && StatusKept(s.jobs[id], s'.jobs[id], name)
    requires forall i :: 0 <= i < |ids| ==> TaskKept(s, s', ids[i])
    ensures ReducingOk(s', id, name, ids, completed, level)
  {
    CountsKept(s, s', ids);
    LevelInputsKept(s, s', s.jobs[id].reductions[name].items);
  }

  function OwnTasks(status: RoleStatus): seq<TaskId>
  {
    match status
    case Submitted(t) => [t]
    case Sharded(ids, _) => ids
    case Reducing(ids, _, _) => ids
    case _ => []
  }

  lemma RoleFrame(s: State, s': State, id: JobId, name: string)
    requires id in s.jobs && name in s.jobs[id].roles && RoleOk(s, id, name)
    requires id in s'.jobs && JobKept(s.jobs[id], s'.jobs[id]) && ObjectsKept(s.objects, s'.objects)
    requires StatusKept(s.jobs[id], s'.jobs[id], name)
    requires forall t :: t in OwnTasks(s.jobs[id].roles[name]) ==> TaskKept(s, s', t)
    ensures RoleOk(s', id, name)
  {
    match s.jobs[id].roles[name] {
      case Sharded(ids, completed) => ShardedFrame(s, s', id, name, ids, completed);
      case Reducing(ids, completed, level) => ReducingFrame(s, s', id, name, ids, completed, level);
      case Ready => DependenciesKept(s.jobs[id], s'.jobs[id], Role(s.jobs[id].definition.roles, name).dependsOn);
      case Submitted(t) => assert t in OwnTasks(s.jobs[id].roles[name]);
      case _ =>
    }
  }

  /** A role's own tasks are bound to it. */
  lemma OwnTasksAreBound(s: State, id: JobId, name: string, t: TaskId)
    requires id in s.jobs && name in s.jobs[id].roles && RoleOk(s, id, name)
    requires t in OwnTasks(s.jobs[id].roles[name])
    ensures t in s.tasks && t in s.bindings && s.bindings[t].job == id && name in s.bindings[t].Mentions()
  {
  }

  // ----- local steps -----

  /** Only the roles in `changed` of one job, and tasks working for them alone, may be affected. */
  ghost predicate LocalStep(s: State, s': State, id: JobId, changed: set<string>)
  {
    && id in s.jobs && id in s'.jobs && s'.jobs == s.jobs[id := s'.jobs[id]]
    && JobKept(s.jobs[id], s'.jobs[id])
    && s'.jobs[id].reductions.Keys <= s'.jobs[id].roles.Keys
    && ObjectsKept(s.objects, s'.objects)
    && (forall r :: r in s.jobs[id].roles && r !in changed ==> StatusKept(s.jobs[id], s'.jobs[id], r))
    && (forall t :: t in s.tasks ==>
          TaskKept(s, s', t) || (t in s.bindings && s.bindings[t].job == id && s.bindings[t].Mentions() <= changed))
  }

  /** Bindings that a local step could have upset. */
  ghost predicate Touched(binding: Binding, id: JobId, changed: set<string>)
  {
    binding.job == id && exists r :: r in binding.Mentions() && r in changed
  }

  lemma LocalBindings(s: State, s': State, id: JobId, changed: set<string>)
    requires Inv(s) && LocalStep(s, s', id, changed)
    ensures forall t :: t in s.bindings && !Touched(s.bindings[t], id, changed) ==> t in s'.bindings && BindingOk(s', t)
  {
    forall t | t in s.bindings && !Touched(s.bindings[t], id, changed)
      ensures t in s'.bindings && BindingOk(s', t)
    {
      assert BindingOk(s, t);
      MentionsSomething(s, t);
      BindingFrame(s, s', t);
    }
  }

  lemma MentionsSomething(s: State, t: TaskId)
    requires t in s.bindings && BindingOk(s, t)
    ensures s.bindings[t].Mentions() != {}
  {
    if s.bindings[t].FusedChain? {
      assert s.bindings[t].roles[0] in s.bindings[t].Mentions();
    } else {
      assert s.bindings[t].role in s.bindings[t].Mentions();
    }
  }

  lemma LocalRoles(s: State, s': State, id: JobId, changed: set<string>)
    requires Inv(s) && LocalStep(s, s', id, changed)
    ensures forall j, r :: j in s'.jobs && r in s'.jobs[j].roles && !(j == id && r in changed) ==> RoleOk(s', j, r)
  {
    forall j, r | j in s'.jobs && r in s'.jobs[j].roles && !(j == id && r in changed)
      ensures RoleOk(s', j, r)
    {
      assert RoleOk(s, j, r);
      forall t | t in OwnTasks(s.jobs[j].roles[r]) ensures TaskKept(s, s', t) {
        OwnTasksAreBound(s, j, r, t);
      }
      RoleFrame(s, s', j, r);
    }
  }

  /** It remains to look at the touched bindings, the new bindings and the changed roles. */
  lemma LocalInv(s: State, s': State, id: JobId, changed: set<string>)
    requires Inv(s) && LocalStep(s, s', id, changed)
    requires forall t :: t in s'.bindings && (t !in s.bindings || Touched(s.bindings[t], id, changed)) ==> BindingOk(s', t)
    requires forall r :: r in changed && r in s'.jobs[id].roles ==> RoleOk(s', id, r)
    ensures Inv(s')
  {
    LocalBindings(s, s', id, changed);
    LocalRoles(s, s', id, changed);
    assert JobShape(s.jobs[id]);
    assert JobShape(s'.jobs[id]);
  }

  /** A step that touches no job and moves bound tasks at most between pending and running. */
  lemma QuietStep(s: State, s': State)
    requires Inv(s) && s'.jobs == s.jobs && s'.bindings == s.bindings
    requires forall t :: t in s.bindings ==> TaskKept(s, s', t)
    requires ObjectsKept(s.objects, s'.objects)
    ensures Inv(s')
  {
    forall t | t in s'.bindings ensures BindingOk(s', t) {
      assert BindingOk(s, t);
      BindingFrame(s, s', t);
    }
    forall j, r | j in s'.jobs && r in s'.jobs[j].roles ensures RoleOk(s', j, r) {
      assert RoleOk(s, j, r);
      forall t | t in OwnTasks(s.jobs[j].roles[r]) ensures TaskKept(s, s', t) {
        OwnTasksAreBound(s, j, r, t);
      }
      RoleFrame(s, s', j, r);
    }
  }
}
