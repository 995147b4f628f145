/**
 * Every step other than commits and reaps keeps the fabric's invariant: quiet steps, new jobs, the
 * four ways to materialise a ready role, and placing a reduction level. Each step is first brought
 * into a normal form (the lemmas named Shape), then shown to be local to the roles it changes, and
 * finally the bindings and roles it touches are looked at one by one.
 */
module FabricSteps {
  import opened Wrappers
  import opened Core
  import opened Sequences
  import opened RoleGraph
  import opened FusionRewrite
  import opened Sharding
  import opened ReductionTree
  import opened ReductionPlanning
  import opened Admission
  import opened FabricModel
  import opened FabricInvariant

  lemma InvInitially()
    ensures Inv(EmptyState())
  {
  }

  // ----- effects of the bulk updates -----

  lemma {:induction false} AddTasksEffect(tasks: Tasks, specs: seq<TaskSpec>)
    requires forall i, j :: 0 <= i < j < |specs| ==> specs[i].id != specs[j].id
    ensures forall t :: t in AddTasks(tasks, specs) <==> t in tasks || t in TaskIdsOf(specs)
    ensures forall t :: t in tasks && t !in TaskIdsOf(specs) ==> AddTasks(tasks, specs)[t] == tasks[t]
    ensures forall i :: 0 <= i < |specs| ==>
              specs[i].id in AddTasks(tasks, specs) && AddTasks(tasks, specs)[specs[i].id] == TaskRecord(specs[i], Pending)
  {
    if specs != [] {
      var n := |specs| - 1;
      AddTasksEffect(tasks, specs[..n]);
      assert TaskIdsOf(specs) == TaskIdsOf(specs[..n]) + [specs[n].id];
      forall i | 0 <= i < |specs|
        ensures specs[i].id in AddTasks(tasks, specs) && AddTasks(tasks, specs)[specs[i].id] == TaskRecord(specs[i], Pending)
      {
        if i < n { assert specs[..n][i] == specs[i]; }
      }
    }
  }

  lemma {:induction false} BindAllEffect(bindings: map<TaskId, Binding>, ids: seq<TaskId>, binding: Binding)
    ensures forall t :: t in BindAll(bindings, ids, binding) <==> t in bindings || t in ids
    ensures forall t :: t in ids ==> BindAll(bindings, ids, binding)[t] == binding
    ensures forall t :: t in bindings && t !in ids ==> BindAll(bindings, ids, binding)[t] == bindings[t]
  {
    if ids != [] {
      var n := |ids| - 1;
      BindAllEffect(bindings, ids[..n], binding);
      assert forall t :: t in ids <==> t in ids[..n] || t == ids[n];
    }
  }

  lemma {:induction false} SetRolesEffect(job: JobRecord, names: seq<string>, status: RoleStatus)
    requires forall i :: 0 <= i < |names| ==> names[i] in job.roles
    ensures SetRoles(job, names, status).definition == job.definition
    ensures SetRoles(job, names, status).reductions == job.reductions
    ensures SetRoles(job, names, status).roles.Keys == job.roles.Keys
    ensures forall i :: 0 <= i < |names| ==> SetRoles(job, names, status).roles[names[i]] == status
    ensures forall r :: r in job.roles && r !in names ==> SetRoles(job, names, status).roles[r] == job.roles[r]
  {
    if names != [] {
      var n := |names| - 1;
      SetRolesEffect(job, names[..n], status);
      assert forall r :: r in names <==> r in names[..n] || r == names[n];
      forall i | 0 <= i < |names| ensures SetRoles(job, names, status).roles[names[i]] == status {
        if i < n { assert names[..n][i] == names[i]; }
      }
    }
  }

  lemma {:induction false} PublishKeepsObjects(objects: Objects, published: seq<ObjectMetadata>)
    ensures ObjectsKept(objects, PublishAll(objects, published))
  {
    if published != [] { PublishKeepsObjects(objects, published[..|published| - 1]); }
  }

  lemma {:induction false} NoneCompleted(tasks: Tasks, ids: seq<TaskId>)
    requires forall i :: 0 <= i < |ids| ==> ids[i] in tasks && !tasks[ids[i]].status.Completed?
    ensures NumCompleted(tasks, ids) == 0
  {
    if ids != [] { NoneCompleted(tasks, ids[..|ids| - 1]); }
  }

  lemma {:induction false} AllCompleted(tasks: Tasks, ids: seq<TaskId>)
    ensures NumCompleted(tasks, ids) == |ids| ==>
              forall i :: 0 <= i < |ids| ==> ids[i] in tasks && tasks[ids[i]].status.Completed?
  {
    if ids != [] {
      var n := |ids| - 1;
      AllCompleted(tasks, ids[..n]);
      if NumCompleted(tasks, ids) == |ids| {
        forall i | 0 <= i < |ids| ensures ids[i] in tasks && tasks[ids[i]].status.Completed? {
          if i < n { assert ids[..n][i] == ids[i]; }
        }
      }
    }
  }

  lemma RoleIsValid(job: JobRecord, name: string)
    requires JobShape(job) && HasRole(job.definition.roles, name)
    ensures ValidRole(Role(job.definition.roles, name))
  {
    var role := Role(job.definition.roles, name);
    var i :| 0 <= i < |job.definition.roles| && job.definition.roles[i] == role;
  }

  // ----- quiet steps -----

  predicate Quiet(action: Action)
  {
    || action.RegisterResource? || action.HeartbeatResource? || action.DropResource? || action.SetLinks?
    || action.PublishObject? || action.AddLocation? || action.SubmitTask? || action.BeginExecution? || action.RenewExecution?
  }

  lemma QuietActionKeepsInv(s: State, action: Action)
    requires Inv(s) && Quiet(action) && Enabled(s, action)
    ensures Inv(Step(s, action))
  {
    hide Inv;
    QuietFrame(s, action);
    QuietStep(s, Step(s, action));
  }

  lemma QuietFrame(s: State, action: Action)
    requires Quiet(action) && Enabled(s, action)
    ensures var s' := Step(s, action);
            && s'.jobs == s.jobs && s'.bindings == s.bindings && ObjectsKept(s.objects, s'.objects)
            && forall t :: t in s.bindings ==> TaskKept(s, s', t)
  {
    hide AdmissibleTask, AddLocations, DropLocation;
  }

  lemma SubmitJobKeepsInv(s: State, id: JobId, definition: JobDefinition)
    requires Inv(s) && id !in s.jobs && ValidJob(definition)
    ensures Inv(WithJob(s, id, NewJob(definition)))
  {
    hide ValidJob, BindingOk, RoleOk;
    var s' := WithJob(s, id, NewJob(definition));
    forall t | t in s'.bindings ensures BindingOk(s', t) { NewJobKeepsBinding(s, id, definition, t); }
    forall j, r | j in s'.jobs && r in s'.jobs[j].roles ensures RoleOk(s', j, r) {
      if j != id {
        assert RoleOk(s, j, r);
        NewJobKeepsRole(s, id, definition, j, r);
      } else {
        NewJobRoles(s, id, definition, r);
      }
    }
  }

  lemma NewJobRoles(s: State, id: JobId, definition: JobDefinition, r: string)
    requires r in NewJob(definition).roles
    ensures RoleOk(WithJob(s, id, NewJob(definition)), id, r)
  {
  }

  lemma NewJobKeepsRole(s: State, id: JobId, definition: JobDefinition, j: JobId, r: string)
    requires id !in s.jobs && j in s.jobs && r in s.jobs[j].roles && RoleOk(s, j, r)
    ensures RoleOk(WithJob(s, id, NewJob(definition)), j, r)
  {
    hide SubmittedOk, ShardedOk, ReducingOk;
    RoleFrame(s, WithJob(s, id, NewJob(definition)), j, r);
  }

  lemma NewJobKeepsBinding(s: State, id: JobId, definition: JobDefinition, t: TaskId)
    requires t in s.bindings && BindingOk(s, t) && id !in s.jobs
    ensures BindingOk(WithJob(s, id, NewJob(definition)), t)
  {
    hide SingleOk, FusedOk, ShardOk, ReducerOk;
    BindingFrame(s, WithJob(s, id, NewJob(definition)), t);
  }

  // ----- materialising roles -----

  /** Nobody works for a role that has not been materialised. */
  lemma IdleRoleIsUnbound(s: State, id: JobId, name: string, t: TaskId)
    requires id in s.jobs && name in s.jobs[id].roles
    requires s.jobs[id].roles[name].Waiting? || s.jobs[id].roles[name].Ready?
    requires t in s.bindings && s.bindings[t].job == id && BindingOk(s, t)
    ensures name !in s.bindings[t].Mentions()
  {
    hide ValidJob, InstanceTask, FusedTask, PrivateEdge, DependencyOutputs;
  }

  lemma IdleRolesAreUntouched(s: State, id: JobId, changed: set<string>)
    requires Inv(s) && id in s.jobs
    requires forall r :: r in changed ==> r in s.jobs[id].roles && (s.jobs[id].roles[r].Waiting? || s.jobs[id].roles[r].Ready?)
    ensures forall t :: t in s.bindings ==> !Touched(s.bindings[t], id, changed)
    ensures forall r :: r in changed ==> r !in s.jobs[id].reductions
  {
    hide ValidJob, SingleOk, FusedOk, ShardOk, ReducerOk, ShardedOk, ReducingOk, SubmittedOk;
    forall t | t in s.bindings ensures !Touched(s.bindings[t], id, changed) {
      forall r | r in changed && s.bindings[t].job == id ensures r !in s.bindings[t].Mentions() {
        IdleRoleIsUnbound(s, id, r, t);
      }
    }
    forall r | r in changed ensures r !in s.jobs[id].reductions {
      assert RoleOk(s, id, r);
    }
  }

  /** The facts about one job that most steps start from. */
  lemma InvAt(s: State, id: JobId, name: string)
    requires Inv(s) && id in s.jobs && name in s.jobs[id].roles
    ensures RoleOk(s, id, name) && JobShape(s.jobs[id])
    ensures HasRole(s.jobs[id].definition.roles, name)
    ensures name in s.jobs[id].reductions <==> s.jobs[id].roles[name].Reducing?
    ensures s.jobs[id].reductions.Keys <= s.jobs[id].roles.Keys
  {
    hide ValidJob, BindingOk, SubmittedOk, ShardedOk, ReducingOk;
  }

  /** New tasks and bindings beside the old ones, and new states for `changed` roles that were not done. */
  lemma AddingStep(s: State, s': State, id: JobId, job': JobRecord, tasks': Tasks, bindings': map<TaskId, Binding>,
                   changed: set<string>)
    requires id in s.jobs && s' == s.(jobs := s.jobs[id := job'], tasks := tasks', bindings := bindings')
    requires job'.definition == s.jobs[id].definition && job'.roles.Keys == s.jobs[id].roles.Keys
    requires job'.reductions.Keys <= job'.roles.Keys
    requires forall r :: r in s.jobs[id].roles && r !in changed ==> StatusKept(s.jobs[id], job', r)
    requires forall r :: r in s.jobs[id].roles && r in changed ==> !s.jobs[id].roles[r].Done?
    requires forall t :: t in s.tasks ==> t in tasks' && tasks'[t] == s.tasks[t]
    requires forall t :: t in s.bindings ==> t in bindings' && bindings'[t] == s.bindings[t]
    ensures LocalStep(s, s', id, changed)
  {
  }

  /** Materialising idle roles leaves every older binding alone. */
  lemma MaterializedInv(s: State, s': State, id: JobId, changed: set<string>, added: set<TaskId>)
    requires Inv(s) && LocalStep(s, s', id, changed)
    requires forall r :: r in changed ==> r in s.jobs[id].roles && (s.jobs[id].roles[r].Waiting? || s.jobs[id].roles[r].Ready?)
    requires forall t :: t in s'.bindings ==> t in s.bindings || t in added
    requires forall t :: t in added ==> t in s'.bindings && BindingOk(s', t)
    requires forall r :: r in changed ==> r in s'.jobs[id].roles && RoleOk(s', id, r)
    ensures Inv(s')
  {
    hide Inv, LocalStep, BindingOk, RoleOk;
    assert id in s.jobs && id in s'.jobs by { LocalStepJobs(s, s', id, changed); }
    IdleRolesAreUntouched(s, id, changed);
    LocalInv(s, s', id, changed);
  }

  lemma LocalStepJobs(s: State, s': State, id: JobId, changed: set<string>)
    requires LocalStep(s, s', id, changed)
    ensures id in s.jobs && id in s'.jobs
  {
  }

  /** `s'` is what the fabric becomes when the planner's choice for one ready role is carried out. */
  ghost predicate MaterializeStep(s: State, s': State, id: JobId, name: string, choice: RoleChoice)
  {
    ChoiceAllowed(s, id, name, choice) && s' == Materialize(s, id, name, choice)
  }

  /** The inputs the role receives from its dependencies. */
  ghost function ReadyInputs(job: JobRecord, name: string): seq<ObjectId>
  {
    if HasRole(job.definition.roles, name) then
      var outputs := DependencyOutputs(job.roles, Role(job.definition.roles, name).dependsOn);
      if outputs.Some? then outputs.value else []
    else []
  }

  predicate Idle(job: JobRecord, name: string)
  {
    name in job.roles && (job.roles[name].Waiting? || job.roles[name].Ready?)
  }

  lemma StepIsIdle(s: State, s': State, id: JobId, name: string, choice: RoleChoice)
    requires MaterializeStep(s, s', id, name, choice)
    ensures id in s.jobs && Idle(s.jobs[id], name) && HasRole(s.jobs[id].definition.roles, name)
    ensures name in s.jobs[id].roles && !s.jobs[id].roles[name].Reducing?
    ensures DependencyOutputs(s.jobs[id].roles, Role(s.jobs[id].definition.roles, name).dependsOn)
            == Some(ReadyInputs(s.jobs[id], name))
  {
    hide Materialize, ShardsAllowed, ChainAllowed, InstanceOf;
  }

  lemma FreshTaskIsUnbound(s: State, t: TaskId)
    requires Inv(s) && t !in s.tasks
    ensures t !in s.bindings
  {
    hide ValidJob, SingleOk, FusedOk, ShardOk, ReducerOk, RoleOk, JobShape;
    assert t in s.bindings ==> BindingOk(s, t);
  }

  // ----- no feasible implementation -----

  lemma InfeasibleKeepsInv(s: State, s': State, id: JobId, name: string)
    requires Inv(s) && MaterializeStep(s, s', id, name, Infeasible)
    ensures Inv(s')
  {
    hide *;
    StepIsIdle(s, s', id, name, RoleChoice.Infeasible);
    InvAt(s, id, name);
    InfeasibleRoleOk(s, s', id, name);
    InfeasibleLocalStep(s, s', id, name);
    MaterializedInv(s, s', id, {name}, {});
  }

  lemma InfeasibleRoleOk(s: State, s': State, id: JobId, name: string)
    requires MaterializeStep(s, s', id, name, Infeasible) && name !in s.jobs[id].reductions
    ensures id in s'.jobs && name in s'.jobs[id].roles && RoleOk(s', id, name)
  {
    DependenciesKept(s.jobs[id], s'.jobs[id], Role(s.jobs[id].definition.roles, name).dependsOn);
  }

  lemma InfeasibleLocalStep(s: State, s': State, id: JobId, name: string)
    requires MaterializeStep(s, s', id, name, Infeasible)
    requires s.jobs[id].reductions.Keys <= s.jobs[id].roles.Keys
    ensures LocalStep(s, s', id, {name})
    ensures forall t :: t in s'.bindings ==> t in s.bindings || t in {}
    ensures forall r :: r in {name} ==> r in s.jobs[id].roles && (s.jobs[id].roles[r].Waiting? || s.jobs[id].roles[r].Ready?)
  {
  }

  // ----- one task for one role -----

  lemma DirectShape(s: State, s': State, id: JobId, name: string, task: TaskId, template: TaskTemplate)
    requires MaterializeStep(s, s', id, name, Direct(task, template))
    ensures task !in s.tasks && id in s.jobs && HasRole(s.jobs[id].definition.roles, name)
    ensures InstanceOf(Role(s.jobs[id].definition.roles, name), template)
    ensures !Role(s.jobs[id].definition.roles, name).FansOut()
    ensures s' == s.(jobs := s.jobs[id := SetRole(s.jobs[id], name, Submitted(task))],
                     tasks := s.tasks[task := TaskRecord(template.Instantiate(task, ReadyInputs(s.jobs[id], name)), Pending)],
                     bindings := s.bindings[task := Single(id, name)])
  {
    hide InstanceOf;
    assert [task][0] !in s.tasks;
  }

  lemma DirectKeepsInv(s: State, s': State, id: JobId, name: string, task: TaskId, template: TaskTemplate)
    requires Inv(s) && MaterializeStep(s, s', id, name, Direct(task, template))
    ensures Inv(s')
  {
    hide *;
    StepIsIdle(s, s', id, name, Direct(task, template));
    DirectShape(s, s', id, name, task, template);
    InvAt(s, id, name);
    FreshTaskIsUnbound(s, task);
    DirectLocalStep(s, s', id, name, task, template);
    DirectBindingOk(s, s', id, name, task, template);
    MaterializedInv(s, s', id, {name}, {task});
  }

  lemma DirectLocalStep(s: State, s': State, id: JobId, name: string, task: TaskId, template: TaskTemplate)
    requires task !in s.tasks && task !in s.bindings && id in s.jobs && Idle(s.jobs[id], name)
    requires HasRole(s.jobs[id].definition.roles, name)
    requires name !in s.jobs[id].reductions && s.jobs[id].reductions.Keys <= s.jobs[id].roles.Keys
    requires s' == s.(jobs := s.jobs[id := SetRole(s.jobs[id], name, Submitted(task))],
                      tasks := s.tasks[task := TaskRecord(template.Instantiate(task, ReadyInputs(s.jobs[id], name)), Pending)],
                      bindings := s.bindings[task := Single(id, name)])
    ensures LocalStep(s, s', id, {name})
    ensures forall r :: r in {name} ==> r in s.jobs[id].roles && (s.jobs[id].roles[r].Waiting? || s.jobs[id].roles[r].Ready?)
    ensures forall t :: t in s'.bindings ==> t in s.bindings || t in {task}
    ensures id in s'.jobs && forall r :: r in {name} ==> r in s'.jobs[id].roles && RoleOk(s', id, r)
  {
    hide DependencyOutputs, ShardedOk, ReducingOk, ReadyInputs;
    AddingStep(s, s', id, SetRole(s.jobs[id], name, Submitted(task)), s'.tasks, s'.bindings, {name});
  }

  lemma DirectBindingOk(s: State, s': State, id: JobId, name: string, task: TaskId, template: TaskTemplate)
    requires MaterializeStep(s, s', id, name, Direct(task, template))
    ensures forall t :: t in {task} ==> t in s'.bindings && BindingOk(s', t)
  {
    hide MaterializeStep, ReadyInputs;
    StepIsIdle(s, s', id, name, Direct(task, template));
    DirectShape(s, s', id, name, task, template);
    var role := Role(s.jobs[id].definition.roles, name);
    DependenciesKept(s.jobs[id], s'.jobs[id], role.dependsOn);
    assert InstanceTask(role, ReadyInputs(s.jobs[id], name), task, s'.tasks[task].spec);
  }

  // ----- one task for a chain of roles -----

  function Members(names: seq<string>): set<string>
  {
    set i | 0 <= i < |names| :: names[i]
  }

  ghost function FusedSpec(s: State, id: JobId, name: string, choice: RoleChoice): TaskSpec
    requires choice.Fused? && |choice.templates| > 0 && id in s.jobs
  {
    FusedPipelineTask(choice.task, choice.templates, ReadyInputs(s.jobs[id], name), choice.requirements)
  }

  /** What a fused step looks like once the fabric has admitted the pipeline. */
  ghost predicate FusedShape(s: State, s': State, id: JobId, name: string, choice: RoleChoice)
  {
    && choice.Fused? && id in s.jobs && choice.task !in s.tasks
    && ChainAllowed(s.jobs[id], name, choice.chain, choice.templates)
    && Idle(s.jobs[id], name)
    && FusedSpec(s, id, name, choice).effects == Pure
    && s' == s.(jobs := s.jobs[id := SetRoles(s.jobs[id], choice.chain, Submitted(choice.task))],
                tasks := s.tasks[choice.task := TaskRecord(FusedSpec(s, id, name, choice), Pending)],
                bindings := s.bindings[choice.task := FusedChain(id, choice.chain)])
  }

  lemma FusedStepShape(s: State, s': State, id: JobId, name: string, choice: RoleChoice)
    requires choice.Fused? && MaterializeStep(s, s', id, name, choice)
    ensures s' == s || FusedShape(s, s', id, name, choice)
  {
    hide AdmissibleTask;
    assert [choice.task][0] !in s.tasks;
  }

  lemma FusedKeepsInv(s: State, s': State, id: JobId, name: string, choice: RoleChoice)
    requires Inv(s) && choice.Fused? && MaterializeStep(s, s', id, name, choice)
    ensures Inv(s')
  {
    hide *;
    FusedStepShape(s, s', id, name, choice);
    if s' != s {
      StepIsIdle(s, s', id, name, choice);
      InvAt(s, id, name);
      ChainIsIdle(s, s', id, name, choice);
      FreshTaskIsUnbound(s, choice.task);
      FusedLocalStep(s, s', id, name, choice);
      IdleRolesAreUntouched(s, id, Members(choice.chain));
      ChainRolesOk(s, s', id, name, choice);
      FusedBindingOk(s, s', id, name, choice);
      MaterializedInv(s, s', id, Members(choice.chain), {choice.task});
    }
  }

  lemma ChainIsIdle(s: State, s': State, id: JobId, name: string, choice: RoleChoice)
    requires FusedShape(s, s', id, name, choice)
    ensures choice.Fused? && id in s.jobs && choice.task !in s.tasks
    ensures forall r :: r in Members(choice.chain) ==>
              r in s.jobs[id].roles && (s.jobs[id].roles[r].Waiting? || s.jobs[id].roles[r].Ready?)
    ensures JobKept(s.jobs[id], SetRoles(s.jobs[id], choice.chain, Submitted(choice.task)))
    ensures forall r :: r in Members(choice.chain) ==>
              r in s.jobs[id].roles && SetRoles(s.jobs[id], choice.chain, Submitted(choice.task)).roles[r] == Submitted(choice.task)
  {
    hide InstanceOf, PrivateEdge, FusedSpec;
    SetRolesEffect(s.jobs[id], choice.chain, Submitted(choice.task));
    forall r | r in choice.chain ensures r in Members(choice.chain) {
      var i :| 0 <= i < |choice.chain| && choice.chain[i] == r;
    }
  }

  lemma FusedLocalStep(s: State, s': State, id: JobId, name: string, choice: RoleChoice)
    requires FusedShape(s, s', id, name, choice) && choice.task !in s.bindings
    requires s.jobs[id].reductions.Keys <= s.jobs[id].roles.Keys
    ensures id in s'.jobs && LocalStep(s, s', id, Members(choice.chain))
    ensures forall t :: t in s'.bindings ==> t in s.bindings || t in {choice.task}
  {
    hide ChainAllowed, FusedSpec, LocalStep;
    ChainIsIdle(s, s', id, name, choice);
    var job' := SetRoles(s.jobs[id], choice.chain, Submitted(choice.task));
    ChainLeavesOthers(s, s', id, name, choice);
    AddingStep(s, s', id, job', s'.tasks, s'.bindings, Members(choice.chain));
  }

  lemma ChainLeavesOthers(s: State, s': State, id: JobId, name: string, choice: RoleChoice)
    requires FusedShape(s, s', id, name, choice)
    ensures choice.Fused? && id in s.jobs
    ensures var job' := SetRoles(s.jobs[id], choice.chain, Submitted(choice.task));
            && job'.reductions == s.jobs[id].reductions
            && forall r :: r in s.jobs[id].roles && r !in Members(choice.chain) ==> StatusKept(s.jobs[id], job', r)
  {
    hide InstanceOf, PrivateEdge, FusedSpec;
    SetRolesEffect(s.jobs[id], choice.chain, Submitted(choice.task));
    forall r | r in choice.chain ensures r in Members(choice.chain) {
      var i :| 0 <= i < |choice.chain| && choice.chain[i] == r;
    }
  }

  lemma ChainRolesOk(s: State, s': State, id: JobId, name: string, choice: RoleChoice)
    requires FusedShape(s, s', id, name, choice)
    requires forall r :: r in Members(choice.chain) ==> r !in s.jobs[id].reductions
    ensures id in s'.jobs && forall r :: r in Members(choice.chain) ==> r in s'.jobs[id].roles && RoleOk(s', id, r)
  {
    hide InstanceOf, PrivateEdge, FusedSpec, ShardedOk, ReducingOk, DependencyOutputs;
    ChainIsIdle(s, s', id, name, choice);
    ChainLeavesOthers(s, s', id, name, choice);
    forall r | r in Members(choice.chain) ensures r in s'.jobs[id].roles && RoleOk(s', id, r) {
      assert s'.bindings[choice.task].Mentions() == Members(choice.chain);
    }
  }

  lemma FusedBindingOk(s: State, s': State, id: JobId, name: string, choice: RoleChoice)
    requires MaterializeStep(s, s', id, name, choice) && FusedShape(s, s', id, name, choice)
    ensures choice.Fused? && forall t :: t in {choice.task} ==> t in s'.bindings && BindingOk(s', t)
  {
    hide PrivateEdge, MaterializeStep, ReadyInputs, ChainAllowed, FusedOk, FusedSpec;
    StepIsIdle(s, s', id, name, choice);
    ChainIsIdle(s, s', id, name, choice);
    FusedChainOk(s, s', id, name, choice);
  }

  lemma FusedChainOk(s: State, s': State, id: JobId, name: string, choice: RoleChoice)
    requires FusedShape(s, s', id, name, choice) && HasRole(s.jobs[id].definition.roles, name)
    requires DependencyOutputs(s.jobs[id].roles, Role(s.jobs[id].definition.roles, name).dependsOn)
             == Some(ReadyInputs(s.jobs[id], name))
    requires JobKept(s.jobs[id], s'.jobs[id])
    requires forall r :: r in Members(choice.chain) ==> r in s.jobs[id].roles && s'.jobs[id].roles[r] == Submitted(choice.task)
    ensures FusedOk(s', choice.task, s'.jobs[id], choice.chain)
  {
    hide PrivateEdge, FusedPipelineTask, ReadyInputs, SetRoles, InstanceOf;
    DependenciesKept(s.jobs[id], s'.jobs[id], Role(s.jobs[id].definition.roles, name).dependsOn);
    FusedTaskWitness(s'.jobs[id].definition, choice, ReadyInputs(s.jobs[id], name));
    assert forall i :: 0 <= i < |choice.chain| ==> choice.chain[i] in Members(choice.chain);
  }

  lemma FusedTaskWitness(definition: JobDefinition, choice: RoleChoice, dependencies: seq<ObjectId>)
    requires choice.Fused? && |choice.templates| == |choice.chain| > 0
    requires forall i :: 0 <= i < |choice.chain| ==>
               && HasRole(definition.roles, choice.chain[i])
               && InstanceOf(Role(definition.roles, choice.chain[i]), choice.templates[i])
    ensures FusedTask(definition, choice.chain, dependencies, choice.task,
                      FusedPipelineTask(choice.task, choice.templates, dependencies, choice.requirements))
  {
    hide FusedPipelineTask, InstanceOf;
  }

  // ----- several shards for one role -----

  /** The new tasks are pending and bound to the role; everything older is untouched. */
  ghost predicate TasksAdded(s: State, s': State, specs: seq<TaskSpec>, binding: Binding)
  {
    && (forall t :: t in TaskIdsOf(specs) ==> t !in s.tasks && t in s'.bindings && s'.bindings[t] == binding)
    && (forall t :: t in s'.tasks <==> t in s.tasks || t in TaskIdsOf(specs))
    && (forall t :: t in s.tasks ==> s'.tasks[t] == s.tasks[t])
    && (forall i :: 0 <= i < |specs| ==> specs[i].id in s'.tasks && s'.tasks[specs[i].id] == TaskRecord(specs[i], Pending))
    && (forall t :: t in s'.bindings <==> t in s.bindings || t in TaskIdsOf(specs))
    && (forall t :: t in s.bindings && t !in TaskIdsOf(specs) ==> s'.bindings[t] == s.bindings[t])
  }

  lemma AddedTasks(s: State, s': State, specs: seq<TaskSpec>, binding: Binding)
    requires FreshIds(s.tasks, TaskIdsOf(specs))
    requires s'.tasks == AddTasks(s.tasks, specs) && s'.bindings == BindAll(s.bindings, TaskIdsOf(specs), binding)
    ensures TasksAdded(s, s', specs, binding)
  {
    var ids := TaskIdsOf(specs);
    forall i, j | 0 <= i < j < |specs| ensures specs[i].id != specs[j].id {
      assert ids[i] != ids[j];
    }
    AddTasksEffect(s.tasks, specs);
    BindAllEffect(s.bindings, ids, binding);
  }

  lemma AddedAreUnbound(s: State, s': State, specs: seq<TaskSpec>, binding: Binding)
    requires Inv(s) && TasksAdded(s, s', specs, binding)
    ensures forall t :: t in TaskIdsOf(specs) ==> t !in s.bindings
    ensures forall t :: t in s.bindings ==> t in s'.bindings && s'.bindings[t] == s.bindings[t]
    ensures forall t :: t in s.tasks ==> t in s'.tasks && s'.tasks[t] == s.tasks[t]
  {
    hide Inv;
    forall t | t in TaskIdsOf(specs) ensures t !in s.bindings {
      FreshTaskIsUnbound(s, t);
    }
  }

  lemma ShardsShape(s: State, s': State, id: JobId, name: string, specs: seq<TaskSpec>)
    requires MaterializeStep(s, s', id, name, Shards(specs))
    ensures TasksAdded(s, s', specs, Shard(id, name)) && id in s.jobs
    ensures s' == s.(jobs := s.jobs[id := SetRole(s.jobs[id], name, Sharded(TaskIdsOf(specs), 0))],
                     tasks := s'.tasks, bindings := s'.bindings)
    ensures HasRole(s.jobs[id].definition.roles, name) && Role(s.jobs[id].definition.roles, name).FansOut()
    ensures ShardsAllowed(Role(s.jobs[id].definition.roles, name), ReadyInputs(s.jobs[id], name), s.objects, specs)
    ensures DistinctTasks(TaskIdsOf(specs))
  {
    hide ShardsAllowed, TasksAdded;
    AddedTasks(s, s', specs, Shard(id, name));
  }

  lemma ShardsKeepInv(s: State, s': State, id: JobId, name: string, specs: seq<TaskSpec>)
    requires Inv(s) && MaterializeStep(s, s', id, name, Shards(specs))
    ensures Inv(s')
  {
    hide *;
    StepIsIdle(s, s', id, name, Shards(specs));
    ShardsShape(s, s', id, name, specs);
    InvAt(s, id, name);
    AddedAreUnbound(s, s', specs, Shard(id, name));
    ShardsLocalStep(s, s', id, name, specs);
    ShardedRoleOk(s, s', id, name, specs);
    ShardBindingsOk(s, s', id, name, specs);
    MaterializedInv(s, s', id, {name}, set t | t in TaskIdsOf(specs));
  }

  lemma ShardsLocalStep(s: State, s': State, id: JobId, name: string, specs: seq<TaskSpec>)
    requires id in s.jobs && Idle(s.jobs[id], name)
    requires name !in s.jobs[id].reductions && s.jobs[id].reductions.Keys <= s.jobs[id].roles.Keys
    requires s' == s.(jobs := s.jobs[id := SetRole(s.jobs[id], name, Sharded(TaskIdsOf(specs), 0))],
                      tasks := s'.tasks, bindings := s'.bindings)
    requires TasksAdded(s, s', specs, Shard(id, name))
    requires forall t :: t in s.bindings ==> t in s'.bindings && s'.bindings[t] == s.bindings[t]
    requires forall t :: t in s.tasks ==> t in s'.tasks && s'.tasks[t] == s.tasks[t]
    ensures id in s'.jobs && LocalStep(s, s', id, {name})
    ensures forall r :: r in {name} ==> r in s.jobs[id].roles && (s.jobs[id].roles[r].Waiting? || s.jobs[id].roles[r].Ready?)
    ensures forall t :: t in s'.bindings ==> t in s.bindings || t in (set u | u in TaskIdsOf(specs))
  {
    hide LocalStep;
    AddingStep(s, s', id, SetRole(s.jobs[id], name, Sharded(TaskIdsOf(specs), 0)), s'.tasks, s'.bindings, {name});
  }

  lemma ShardedRoleOk(s: State, s': State, id: JobId, name: string, specs: seq<TaskSpec>)
    requires MaterializeStep(s, s', id, name, Shards(specs)) && name !in s.jobs[id].reductions
    ensures id in s'.jobs && forall r :: r in {name} ==> r in s'.jobs[id].roles && RoleOk(s', id, r)
  {
    hide MaterializeStep, ReadyInputs, ShardInstance, ReducingOk;
    StepIsIdle(s, s', id, name, Shards(specs));
    ShardsShape(s, s', id, name, specs);
    DependenciesKept(s.jobs[id], s'.jobs[id], Role(s.jobs[id].definition.roles, name).dependsOn);
    NoneCompleted(s'.tasks, TaskIdsOf(specs));
    forall i | 0 <= i < |specs| ensures TaskIdsOf(specs)[i] in TaskIdsOf(specs) {}
    assert ShardedOk(s', id, name, TaskIdsOf(specs), 0);
  }

  lemma ShardBindingsOk(s: State, s': State, id: JobId, name: string, specs: seq<TaskSpec>)
    requires MaterializeStep(s, s', id, name, Shards(specs))
    ensures forall t :: t in (set u | u in TaskIdsOf(specs)) ==> t in s'.bindings && BindingOk(s', t)
  {
    hide MaterializeStep, ReadyInputs, ShardsAllowed;
    StepIsIdle(s, s', id, name, Shards(specs));
    ShardsShape(s, s', id, name, specs);
    forall t | t in TaskIdsOf(specs) ensures t in s'.bindings && BindingOk(s', t) {
      var i :| 0 <= i < |TaskIdsOf(specs)| && TaskIdsOf(specs)[i] == t;
      assert specs[i].id == t;
    }
  }

  lemma MaterializeKeepsInv(s: State, s': State, id: JobId, name: string, choice: RoleChoice)
    requires Inv(s) && MaterializeStep(s, s', id, name, choice)
    ensures Inv(s')
  {
    hide *;
    match choice {
      case Infeasible => InfeasibleKeepsInv(s, s', id, name);
      case Direct(task, template) => DirectKeepsInv(s, s', id, name, task, template);
      case Fused(_, _, _, _) => FusedKeepsInv(s, s', id, name, choice);
      case Shards(specs) => ShardsKeepInv(s, s', id, name, specs);
    }
  }

  // ----- placing a reduction level -----

  lemma {:induction false} ReducerIds(items: seq<LevelItem>)
    ensures TaskIdsOf(ReducerTasks(items)) == ItemTasks(ItemsOf(items))
    ensures forall g :: 0 <= g < |items| && items[g].Reduce? ==> items[g].task in ReducerTasks(items)
  {
    if items != [] {
      var n := |items| - 1;
      ReducerIds(items[..n]);
      assert ItemsOf(items)[..n] == ItemsOf(items[..n]);
      forall g | 0 <= g < |items| && items[g].Reduce? ensures items[g].task in ReducerTasks(items) {
        if g < n { assert items[..n][g].Reduce?; }
      }
    }
  }

  lemma {:induction false} ReducerTasksOfLevel(reduction: RoleReductionSpec, inputs: seq<ObjectId>, firstId: TaskId,
                                               items: seq<LevelItem>, groups: seq<seq<ObjectId>>, k: nat)
    requires LevelOf(reduction, inputs, firstId, items, groups) && reduction.task.inputs == [] && k <= |items|
    ensures forall i :: 0 <= i < |ReducerTasks(items[..k])| ==>
              var spec := ReducerTasks(items[..k])[i];
              |spec.inputs| >= 2 && spec == reduction.task.Instantiate(spec.id, spec.inputs)
  {
    if k > 0 {
      ReducerTasksOfLevel(reduction, inputs, firstId, items, groups, k - 1);
      assert items[..k][..k - 1] == items[..k - 1];
      assert ItemFor(reduction, groups[k - 1], firstId + (k - 1), items[k - 1]);
      assert [] + groups[k - 1] == groups[k - 1];
    }
  }

  lemma PlacedInputs(reduction: RoleReductionSpec, inputs: seq<ObjectId>, firstId: TaskId,
                     items: seq<LevelItem>, groups: seq<seq<ObjectId>>, tasks: Tasks)
    requires LevelOf(reduction, inputs, firstId, items, groups) && reduction.task.inputs == []
    requires forall g :: 0 <= g < |items| && items[g].Reduce? ==>
               items[g].task.id in tasks && tasks[items[g].task.id].spec == items[g].task
    ensures Flatten(LevelInputs(tasks, ItemsOf(items))) == inputs
  {
    assert LevelInputs(tasks, ItemsOf(items)) == groups by {
      forall g | 0 <= g < |groups| ensures ItemInputs(tasks, ItemsOf(items)[g]) == groups[g] {
        assert ItemFor(reduction, groups[g], firstId + g, items[g]);
        assert [] + groups[g] == groups[g];
      }
    }
  }

  lemma UnplacedStatus(s: State, id: JobId, name: string)
    requires id in s.jobs && LevelUnplaced(s.jobs[id], name) && RoleOk(s, id, name)
    ensures s.jobs[id].roles[name] == Reducing([], 0, s.jobs[id].reductions[name].level)
  {
  }

  ghost predicate PlaceStep(s: State, s': State, id: JobId, name: string, choice: Option<seq<LevelItem>>)
  {
    LevelAllowed(s, id, name, choice) && s' == PlaceLevel(s, id, name, choice)
  }

  lemma PlaceNoneShape(s: State, s': State, id: JobId, name: string)
    requires PlaceStep(s, s', id, name, None) && RoleOk(s, id, name)
    ensures s' == s
  {
    UnplacedStatus(s, id, name);
    assert s'.jobs[id].roles == s.jobs[id].roles;
    assert s'.jobs == s.jobs;
  }

  lemma PlaceShape(s: State, s': State, id: JobId, name: string, items: seq<LevelItem>)
    requires PlaceStep(s, s', id, name, Some(items)) && RoleOk(s, id, name)
    ensures id in s.jobs && LevelUnplaced(s.jobs[id], name)
    ensures s.jobs[id].roles[name] == Reducing([], 0, s.jobs[id].reductions[name].level)
    ensures TasksAdded(s, s', ReducerTasks(items), Reduction(id, name))
    ensures s' == s.(jobs := s.jobs[id := PlacedJob(s.jobs[id], name, items)], tasks := s'.tasks, bindings := s'.bindings)
  {
    hide LevelOf, TasksAdded;
    UnplacedStatus(s, id, name);
    AddedTasks(s, s', ReducerTasks(items), Reduction(id, name));
  }

  function PlacedJob(job: JobRecord, name: string, items: seq<LevelItem>): JobRecord
    requires name in job.reductions
  {
    SetRole(job, name, Reducing(TaskIdsOf(ReducerTasks(items)), 0, job.reductions[name].level))
    .(reductions := job.reductions[name := job.reductions[name].(items := ItemsOf(items))])
  }

  lemma PlaceLevelKeepsInv(s: State, s': State, id: JobId, name: string, choice: Option<seq<LevelItem>>)
    requires Inv(s) && PlaceStep(s, s', id, name, choice)
    ensures Inv(s')
  {
    hide *;
    PlaceAt(s, s', id, name, choice);
    InvAt(s, id, name);
    if choice.None? {
      PlaceNoneShape(s, s', id, name);
    } else {
      var items := choice.value;
      PlaceShape(s, s', id, name, items);
      AddedAreUnbound(s, s', ReducerTasks(items), Reduction(id, name));
      PlacedLocalStep(s, s', id, name, items);
      PlacedRoleOk(s, s', id, name, items);
      PlacedBindingsOk(s, s', id, name, items);
      LocalInv(s, s', id, {name});
    }
  }

  lemma PlaceAt(s: State, s': State, id: JobId, name: string, choice: Option<seq<LevelItem>>)
    requires PlaceStep(s, s', id, name, choice)
    ensures id in s.jobs && name in s.jobs[id].roles
  {
  }

  lemma PlacedLocalStep(s: State, s': State, id: JobId, name: string, items: seq<LevelItem>)
    requires id in s.jobs && LevelUnplaced(s.jobs[id], name)
    requires s.jobs[id].reductions.Keys <= s.jobs[id].roles.Keys
    requires s' == s.(jobs := s.jobs[id := PlacedJob(s.jobs[id], name, items)], tasks := s'.tasks, bindings := s'.bindings)
    requires forall t :: t in s.bindings ==> t in s'.bindings && s'.bindings[t] == s.bindings[t]
    requires forall t :: t in s.tasks ==> t in s'.tasks && s'.tasks[t] == s.tasks[t]
    ensures LocalStep(s, s', id, {name})
  {
    hide LocalStep;
    AddingStep(s, s', id, PlacedJob(s.jobs[id], name, items), s'.tasks, s'.bindings, {name});
  }

  lemma PlacedRoleOk(s: State, s': State, id: JobId, name: string, items: seq<LevelItem>)
    requires PlaceStep(s, s', id, name, Some(items)) && JobShape(s.jobs[id]) && RoleOk(s, id, name)
    ensures id in s'.jobs && forall r :: r in {name} && r in s'.jobs[id].roles ==> RoleOk(s', id, r)
    ensures forall i :: 0 <= i < |ReducerTasks(items)| ==> ReducerTasks(items)[i].effects == Pure
  {
    hide PlaceStep, JobShape, ShardedOk, LevelOf, ReducerTaskOk, TasksAdded, LevelInputs;
    PlaceShape(s, s', id, name, items);
    var job := s.jobs[id];
    var reduction := ReductionOf(job, name).value;
    RoleIsValid(job, name);
    var specs := ReducerTasks(items);
    var ids := TaskIdsOf(specs);
    assert RoleOk(s, id, name);
    var firstId, groups := PlacedGroups(s, s', id, name, items);
    ReducerIds(items);
    PlacedReducers(s, s', id, name, reduction, job.reductions[name].inputs, firstId, items, groups);
    PlacedNotEmpty(s, s', id, name, items);
    assert ReducingOk(s', id, name, ids, 0, job.reductions[name].level);
  }

  lemma PlacedGroups(s: State, s': State, id: JobId, name: string, items: seq<LevelItem>)
    returns (firstId: TaskId, groups: seq<seq<ObjectId>>)
    requires PlaceStep(s, s', id, name, Some(items))
    ensures LevelOf(ReductionOf(s.jobs[id], name).value, s.jobs[id].reductions[name].inputs, firstId, items, groups)
  {
    hide LevelOf;
    firstId, groups :| LevelOf(ReductionOf(s.jobs[id], name).value, s.jobs[id].reductions[name].inputs, firstId, items, groups);
  }

  lemma PlacedNotEmpty(s: State, s': State, id: JobId, name: string, items: seq<LevelItem>)
    requires PlaceStep(s, s', id, name, Some(items))
    ensures |TaskIdsOf(ReducerTasks(items))| > 0 && |items| > 0
    ensures DistinctTasks(TaskIdsOf(ReducerTasks(items)))
  {
    hide LevelOf;
    ReducerIds(items);
    var g :| 0 <= g < |items| && items[g].Reduce?;
    assert items[g].task in ReducerTasks(items);
  }

  lemma PlacedReducers(s: State, s': State, id: JobId, name: string, reduction: RoleReductionSpec, inputs: seq<ObjectId>,
                       firstId: TaskId, items: seq<LevelItem>, groups: seq<seq<ObjectId>>)
    requires LevelOf(reduction, inputs, firstId, items, groups) && ValidReduction(reduction)
    requires TasksAdded(s, s', ReducerTasks(items), Reduction(id, name))
    ensures Flatten(LevelInputs(s'.tasks, ItemsOf(items))) == inputs
    ensures NumCompleted(s'.tasks, TaskIdsOf(ReducerTasks(items))) == 0
    ensures forall i :: 0 <= i < |ReducerTasks(items)| ==>
              && ReducerTasks(items)[i].effects == Pure
              && ReducerTaskOk(s', id, name, reduction, TaskIdsOf(ReducerTasks(items))[i])
  {
    hide LevelOf;
    var specs := ReducerTasks(items);
    ReducerIds(items);
    assert items[..|items|] == items;
    ReducerTasksOfLevel(reduction, inputs, firstId, items, groups, |items|);
    forall g | 0 <= g < |items| && items[g].Reduce?
      ensures items[g].task.id in s'.tasks && s'.tasks[items[g].task.id].spec == items[g].task
    {
      var i :| 0 <= i < |specs| && specs[i] == items[g].task;
    }
    PlacedInputs(reduction, inputs, firstId, items, groups, s'.tasks);
    NoneCompleted(s'.tasks, TaskIdsOf(specs));
    forall i | 0 <= i < |specs|
      ensures specs[i].effects == Pure && ReducerTaskOk(s', id, name, reduction, TaskIdsOf(specs)[i])
    {
      assert TaskIdsOf(specs)[i] == specs[i].id && specs[i].id in TaskIdsOf(specs);
    }
  }

  lemma PlacedBindingsOk(s: State, s': State, id: JobId, name: string, items: seq<LevelItem>)
    requires Inv(s) && PlaceStep(s, s', id, name, Some(items)) && RoleOk(s, id, name)
    requires id in s'.jobs && forall r :: r in {name} && r in s'.jobs[id].roles ==> RoleOk(s', id, r)
    requires forall i :: 0 <= i < |ReducerTasks(items)| ==> ReducerTasks(items)[i].effects == Pure
    requires forall t :: t in TaskIdsOf(ReducerTasks(items)) ==> t !in s.bindings
    ensures forall t :: t in s'.bindings && (t !in s.bindings || Touched(s.bindings[t], id, {name})) ==> BindingOk(s', t)
  {
    PlaceShape(s, s', id, name, items);
    InvAt(s, id, name);
    forall t | t in s'.bindings && (t !in s.bindings || Touched(s.bindings[t], id, {name}))
      ensures BindingOk(s', t)
    {
      if t in s.bindings {
        BindingOf(s, t);
        PlacedOldBinding(s, s', id, name, items, t);
      } else {
        PlacedNewBinding(s, s', id, name, items, t);
      }
    }
  }

  lemma BindingOf(s: State, t: TaskId)
    requires Inv(s) && t in s.bindings
    ensures BindingOk(s, t)
  {
    hide BindingOk, RoleOk, JobShape;
  }

  lemma PlacedOldBinding(s: State, s': State, id: JobId, name: string, items: seq<LevelItem>, t: TaskId)
    requires id in s.jobs && LevelUnplaced(s.jobs[id], name)
    requires s.jobs[id].roles[name] == Reducing([], 0, s.jobs[id].reductions[name].level)
    requires s' == s.(jobs := s.jobs[id := PlacedJob(s.jobs[id], name, items)], tasks := s'.tasks, bindings := s'.bindings)
    requires TasksAdded(s, s', ReducerTasks(items), Reduction(id, name)) && t !in TaskIdsOf(ReducerTasks(items))
    requires t in s.bindings && BindingOk(s, t) && Touched(s.bindings[t], id, {name})
    ensures BindingOk(s', t)
  {
    hide InstanceTask, FusedTask, PrivateEdge, DependencyOutputs;
    assert name in s.bindings[t].Mentions();
  }

  lemma PlacedNewBinding(s: State, s': State, id: JobId, name: string, items: seq<LevelItem>, t: TaskId)
    requires id in s.jobs && LevelUnplaced(s.jobs[id], name) && HasRole(s.jobs[id].definition.roles, name)
    requires s' == s.(jobs := s.jobs[id := PlacedJob(s.jobs[id], name, items)], tasks := s'.tasks, bindings := s'.bindings)
    requires TasksAdded(s, s', ReducerTasks(items), Reduction(id, name)) && t in TaskIdsOf(ReducerTasks(items))
    requires forall i :: 0 <= i < |ReducerTasks(items)| ==> ReducerTasks(items)[i].effects == Pure
    ensures t in s'.bindings && BindingOk(s', t)
  {
    var specs := ReducerTasks(items);
    var i :| 0 <= i < |TaskIdsOf(specs)| && TaskIdsOf(specs)[i] == t;
    assert s'.tasks[specs[i].id] == TaskRecord(specs[i], Pending);
  }
}
