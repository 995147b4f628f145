/** What becomes of a role whose task was committed with outputs that contradict each other. */
module InterruptedCommits {
  import opened Wrappers
  import opened Core
  import opened RoleGraph
  import opened ReductionPlanning
  import opened Admission
  import opened FabricModel
  import opened FabricInvariant
  import opened FabricSteps
  import opened FabricCommit
  import opened FabricRuns

  /** The fabric after such a commit: the task is completed, some outputs are published, its role is as before. */
  ghost function Interrupted(s: State, task: TaskId, outputs: seq<ObjectMetadata>, objects: Objects): State
    requires task in s.tasks
  {
    s.(tasks := CommittedTasks(s, task, outputs), objects := objects)
  }

  /** Output `k` is the first that contradicts an earlier one. */
  predicate InterruptedAt(outputs: seq<ObjectMetadata>, k: int)
  {
    0 <= k < |outputs| && ConsistentOutputs(outputs[..k]) && !ConsistentOutputs(outputs[..k + 1])
  }

  // ----- roles that are never advanced -----

  predicate WorksFor(binding: Binding, id: JobId, name: string)
  {
    binding.job == id && name in binding.Mentions()
  }

  /** The role waits for tasks, and every task that ever worked for it is completed. */
  ghost predicate Abandoned(s: State, id: JobId, name: string)
  {
    && id in s.jobs && name in s.jobs[id].roles
    && (s.jobs[id].roles[name].Submitted? || s.jobs[id].roles[name].Sharded?)
    && forall t :: t in s.bindings && WorksFor(s.bindings[t], id, name) ==> t in s.tasks && s.tasks[t].status.Completed?
  }

  /** The step neither moves this role nor gives it a task, and leaves completed tasks alone. */
  ghost predicate Bypasses(s: State, s': State, id: JobId, name: string)
    requires id in s.jobs && name in s.jobs[id].roles
  {
    && id in s'.jobs && name in s'.jobs[id].roles && s'.jobs[id].roles[name] == s.jobs[id].roles[name]
    && (forall t :: t in s.tasks && s.tasks[t].status.Completed? ==> t in s'.tasks && s'.tasks[t] == s.tasks[t])
    && forall t :: t in s'.bindings && WorksFor(s'.bindings[t], id, name) ==> t in s.bindings && s.bindings[t] == s'.bindings[t]
  }

  lemma QuietBypasses(s: State, action: Action, id: JobId, name: string)
    requires Abandoned(s, id, name) && Quiet(action) && Enabled(s, action)
    ensures Bypasses(s, Step(s, action), id, name)
  {
    QuietTasks(s, action);
    hide Enabled, Step;
  }

  lemma QuietTasks(s: State, action: Action)
    requires Quiet(action) && Enabled(s, action)
    ensures var s' := Step(s, action);
            && s'.jobs == s.jobs && s'.bindings == s.bindings
            && forall t :: t in s.tasks && s.tasks[t].status.Completed? ==> t in s'.tasks && s'.tasks[t] == s.tasks[t]
  {
    hide AdmissibleTask, AddLocations, DropLocation, DropLinks, Publish;
  }

  lemma AfterTaskElsewhere(job: JobRecord, tasks: Tasks, binding: Binding, outputs: seq<ObjectId>, name: string)
    requires binding.FusedChain? ==> binding.roles != []
    requires binding.Shard? ==> binding.role in job.roles
    requires binding.Reduction? ==> binding.role in job.reductions
    requires name in job.roles && name !in binding.Mentions()
    ensures name in AfterTask(job, tasks, binding, outputs).roles
    ensures AfterTask(job, tasks, binding, outputs).roles[name] == job.roles[name]
  {
    hide NumCompleted, CompletedOutputs, LevelOutputs, ReductionOf, ItemTasks;
    if binding.FusedChain? {
      var n := |binding.roles| - 1;
      NotAmong(binding.roles, name);
      SetRolesElsewhere(job, binding.roles[..n], Done([]), name);
    }
  }

  lemma NotAmong(names: seq<string>, name: string)
    requires name !in (set i | 0 <= i < |names| :: names[i])
    ensures name !in names
  {
  }

  lemma {:induction false} SetRolesElsewhere(job: JobRecord, names: seq<string>, status: RoleStatus, name: string)
    requires name in job.roles && name !in names
    ensures name in SetRoles(job, names, status).roles && SetRoles(job, names, status).roles[name] == job.roles[name]
  {
    if names != [] { SetRolesElsewhere(job, names[..|names| - 1], status, name); }
  }

  lemma CommitBypasses(s: State, task: TaskId, outputs: seq<ObjectMetadata>, id: JobId, name: string)
    requires Abandoned(s, id, name) && task in s.tasks && s.tasks[task].status.Running? && Bound(s, task)
    ensures Bypasses(s, Commit(s, task, outputs), id, name)
  {
    hide AfterTask, PublishAll;
    if task in s.bindings && s.bindings[task].job == id {
      var tasks := s.tasks[task := s.tasks[task].(status := TaskStatus.Completed(Ids(outputs)))];
      AfterTaskElsewhere(s.jobs[id], tasks, s.bindings[task], Ids(outputs), name);
    }
  }

  lemma ReapBypasses(s: State, task: TaskId, id: JobId, name: string)
    requires Abandoned(s, id, name) && task in s.tasks && s.tasks[task].status.Running?
    ensures Bypasses(s, Reap(s, task), id, name)
  {
    if task in s.bindings && s.bindings[task].job == id {
      var binding := s.bindings[task];
      if binding.FusedChain? {
        NotAmong(binding.roles, name);
        SetRolesElsewhere(s.jobs[id], binding.roles, RoleUncertain, name);
      }
    }
    hide SetRoles;
  }

  lemma FusedBypasses(s: State, s': State, job: JobId, role: string, choice: RoleChoice, id: JobId, name: string)
    requires Abandoned(s, id, name) && FusedShape(s, s', job, role, choice)
    ensures Bypasses(s, s', id, name)
  {
    hide FusedShape, SetRoles;
    FusedParts(s, s', job, role, choice);
    ChainIsIdle(s, s', job, role, choice);
    ChainLeavesOthers(s, s', job, role, choice);
    if job == id {
      assert name !in Members(choice.chain);
      assert StatusKept(s.jobs[id], s'.jobs[id], name);
      ChainMentions(job, choice.chain);
    }
  }

  lemma ChainMentions(job: JobId, names: seq<string>)
    ensures FusedChain(job, names).Mentions() == Members(names)
  {
  }

  lemma FusedParts(s: State, s': State, job: JobId, role: string, choice: RoleChoice)
    requires FusedShape(s, s', job, role, choice)
    ensures choice.Fused? && job in s.jobs && choice.task !in s.tasks
    ensures s'.jobs == s.jobs[job := SetRoles(s.jobs[job], choice.chain, Submitted(choice.task))]
    ensures s'.bindings == s.bindings[choice.task := FusedChain(job, choice.chain)]
    ensures forall t :: t in s.tasks ==> t in s'.tasks && s'.tasks[t] == s.tasks[t]
  {
    hide ChainAllowed, FusedSpec, SetRoles;
  }

  lemma MaterializeBypasses(s: State, s': State, job: JobId, role: string, choice: RoleChoice, id: JobId, name: string)
    requires Abandoned(s, id, name) && MaterializeStep(s, s', job, role, choice)
    ensures Bypasses(s, s', id, name)
  {
    hide MaterializeStep, TasksAdded, ReadyInputs, ShardsAllowed, ChainAllowed, FusedSpec, FusedShape;
    StepIsIdle(s, s', job, role, choice);
    match choice {
      case Infeasible => InfeasibleMarks(s, s', job, role);
      case Direct(task, template) => DirectShape(s, s', job, role, task, template);
      case Fused(_, _, _, _) =>
        FusedStepShape(s, s', job, role, choice);
        if s' != s { FusedBypasses(s, s', job, role, choice, id, name); }
      case Shards(specs) =>
        ShardsShape(s, s', job, role, specs);
        AddedElsewhere(s, s', specs, Shard(job, role));
    }
  }

  lemma InfeasibleMarks(s: State, s': State, id: JobId, name: string)
    requires MaterializeStep(s, s', id, name, RoleChoice.Infeasible)
    ensures id in s.jobs && s' == s.(jobs := s.jobs[id := SetRole(s.jobs[id], name, Ready)])
  {
  }

  lemma AddedElsewhere(s: State, s': State, specs: seq<TaskSpec>, binding: Binding)
    requires TasksAdded(s, s', specs, binding)
    ensures forall t :: t in s.tasks ==> t in s'.tasks && s'.tasks[t] == s.tasks[t]
    ensures forall t :: t in s'.bindings ==> s'.bindings[t] == binding || (t in s.bindings && s'.bindings[t] == s.bindings[t])
  {
  }

  lemma PlaceBypasses(s: State, s': State, job: JobId, role: string, items: Option<seq<LevelItem>>, id: JobId, name: string)
    requires Abandoned(s, id, name) && PlaceStep(s, s', job, role, items)
    ensures Bypasses(s, s', id, name)
  {
    hide LevelOf, AddTasks, BindAll, ReducerTasks, ItemsOf, ReductionOf, HasReduce, TasksAdded;
    assert name != role || job != id;
    if items.Some? {
      AddedTasks(s, s', ReducerTasks(items.value), Reduction(job, role));
      AddedElsewhere(s, s', ReducerTasks(items.value), Reduction(job, role));
    }
  }

  lemma BypassedStays(s: State, s': State, id: JobId, name: string)
    requires Abandoned(s, id, name) && Bypasses(s, s', id, name)
    ensures Abandoned(s', id, name) && s'.jobs[id].roles[name] == s.jobs[id].roles[name]
  {
  }

  /** No step moves an abandoned role. */
  lemma StepBypasses(s: State, action: Action, id: JobId, name: string)
    requires Abandoned(s, id, name) && Enabled(s, action)
    ensures Bypasses(s, Step(s, action), id, name)
  {
    hide Abandoned, Bypasses, Enabled, Step;
    if Quiet(action) {
      QuietBypasses(s, action, id, name);
    } else {
      JobActionBypasses(s, action, id, name);
    }
  }

  lemma JobActionBypasses(s: State, action: Action, id: JobId, name: string)
    requires Abandoned(s, id, name) && Enabled(s, action) && !Quiet(action)
    ensures Bypasses(s, Step(s, action), id, name)
  {
    hide Bypasses, Commit, Reap, Materialize, PlaceLevel, ChoiceAllowed, LevelAllowed, ValidJob, NewJob, CanPublish, ConsistentOutputs;
    match action {
      case SubmitJob(job, definition) => assert Bypasses(s, Step(s, action), id, name) by { NewJobBypasses(s, job, definition, id, name); }
      case CommitExecution(lease, outputs, _) => CommitBypasses(s, lease.task, outputs, id, name);
      case ReapExecution(task, _) => ReapBypasses(s, task, id, name);
      case MaterializeRole(job, role, choice) => MaterializeBypasses(s, Step(s, action), job, role, choice, id, name);
      case PlaceReduction(job, role, items) => PlaceBypasses(s, Step(s, action), job, role, items, id, name);
      case _ =>
    }
  }

  lemma NewJobBypasses(s: State, job: JobId, definition: JobDefinition, id: JobId, name: string)
    requires Abandoned(s, id, name) && job !in s.jobs
    ensures Bypasses(s, WithJob(s, job, NewJob(definition)), id, name)
  {
    hide NewJob;
  }

  /** In no run is an abandoned role ever advanced again. */
  lemma {:induction false} AbandonedForever(s: State, actions: seq<Action>, t: State, id: JobId, name: string)
    requires Abandoned(s, id, name) && Reaches(s, actions, t)
    ensures Abandoned(t, id, name) && t.jobs[id].roles[name] == s.jobs[id].roles[name]
    decreases |actions|
  {
    hide Enabled, Step, Bypasses;
    if actions != [] {
      StepBypasses(s, actions[0], id, name);
      BypassedStays(s, Step(s, actions[0]), id, name);
      AbandonedForever(Step(s, actions[0]), actions[1..], t, id, name);
    }
  }

  // ----- single roles and chains -----

  /** The role of a single task, and every role of a fused chain, is never advanced after such a commit. */
  lemma InterruptedRoleIsAbandoned(s: State, task: TaskId, outputs: seq<ObjectMetadata>, objects: Objects, name: string)
    requires Inv(s) && task in s.tasks && s.tasks[task].status.Running? && task in s.bindings
    requires (s.bindings[task].Single? || s.bindings[task].FusedChain?) && name in s.bindings[task].Mentions()
    ensures Abandoned(Interrupted(s, task, outputs, objects), s.bindings[task].job, name)
  {
    hide Inv, BindingOk;
    BindingOf(s, task);
    var id := s.bindings[task].job;
    StillSubmitted(s, task, name);
    forall t | t in s.bindings && WorksFor(s.bindings[t], id, name) ensures t == task {
      BindingOf(s, t);
      SubmittedIsExclusive(s, id, name, task, t);
    }
  }

  lemma StillSubmitted(s: State, task: TaskId, name: string)
    requires task in s.bindings && BindingOk(s, task) && s.tasks[task].status.Running?
    requires (s.bindings[task].Single? || s.bindings[task].FusedChain?) && name in s.bindings[task].Mentions()
    ensures s.bindings[task].job in s.jobs && name in s.jobs[s.bindings[task].job].roles
    ensures s.jobs[s.bindings[task].job].roles[name] == Submitted(task)
  {
    hide InstanceTask, FusedTask, PrivateEdge, DependencyOutputs;
  }

  // ----- shards -----

  ghost predicate OthersCompleted(tasks: Tasks, ids: seq<TaskId>, task: TaskId)
  {
    forall i :: 0 <= i < |ids| && ids[i] != task ==> ids[i] in tasks && tasks[ids[i]].status.Completed?
  }

  /** If the interrupted shard was the last one, its role is never advanced either. */
  lemma InterruptedLastShardIsAbandoned(s: State, task: TaskId, outputs: seq<ObjectMetadata>, objects: Objects)
    requires Inv(s) && task in s.tasks && s.tasks[task].status.Running? && task in s.bindings && s.bindings[task].Shard?
    requires var id, name := s.bindings[task].job, s.bindings[task].role;
             && id in s.jobs && name in s.jobs[id].roles && s.jobs[id].roles[name].Sharded?
             && OthersCompleted(s.tasks, s.jobs[id].roles[name].tasks, task)
    ensures Abandoned(Interrupted(s, task, outputs, objects), s.bindings[task].job, s.bindings[task].role)
  {
    hide Inv, BindingOk;
    var id, name := s.bindings[task].job, s.bindings[task].role;
    forall t | t in s.bindings && WorksFor(s.bindings[t], id, name)
      ensures t in s.tasks && (t == task || s.tasks[t].status.Completed?)
    {
      BindingOf(s, t);
      ShardListed(s, id, name, t);
    }
  }

  lemma ShardListed(s: State, id: JobId, name: string, t: TaskId)
    requires t in s.bindings && BindingOk(s, t) && WorksFor(s.bindings[t], id, name)
    requires id in s.jobs && name in s.jobs[id].roles && s.jobs[id].roles[name].Sharded?
    ensures t in s.tasks && exists i :: 0 <= i < |s.jobs[id].roles[name].tasks| && s.jobs[id].roles[name].tasks[i] == t
  {
    hide InstanceTask, FusedTask, PrivateEdge, DependencyOutputs;
    var ids := s.jobs[id].roles[name].tasks;
    assert t in ids;
  }

  /**
   * Otherwise the sibling that commits last advances it all the same, with the outputs of every shard
   * in index order, the contradictory ones among them.
   */
  lemma SiblingAdvancesRole(s: State, id: JobId, name: string, last: TaskId, outputs: seq<ObjectMetadata>)
    requires id in s.jobs && name in s.jobs[id].roles && s.jobs[id].roles[name].Sharded?
    requires last in s.tasks && last in s.bindings && s.bindings[last] == Shard(id, name)
    requires OthersCompleted(s.tasks, s.jobs[id].roles[name].tasks, last)
    ensures Bound(s, last)
    ensures var job, ids := s.jobs[id], s.jobs[id].roles[name].tasks;
            var gathered := CompletedOutputs(CommittedTasks(s, last, outputs), ids);
            var job' := Commit(s, last, outputs).jobs[id];
            && (forall i, o :: 0 <= i < |ids| && ids[i] != last && o in s.tasks[ids[i]].status.outputs ==> o in gathered)
            && if ReductionOf(job, name).Some? && |gathered| > 1
               then job'.roles[name] == Reducing([], 0, 0) && job'.reductions[name] == ActiveReduction(0, gathered, [])
               else job'.roles[name] == Done(gathered)
  {
    hide PublishAll, ReductionOf, NumCompleted, CompletedOutputs;
    var ids := s.jobs[id].roles[name].tasks;
    var tasks := CommittedTasks(s, last, outputs);
    AllCount(tasks, ids);
    forall i, o | 0 <= i < |ids| && ids[i] != last && o in s.tasks[ids[i]].status.outputs ensures o in CompletedOutputs(tasks, ids) {
      OutputGathered(tasks, ids, i, o);
    }
  }

  lemma {:induction false} AllCount(tasks: Tasks, ids: seq<TaskId>)
    requires forall i :: 0 <= i < |ids| ==> ids[i] in tasks && tasks[ids[i]].status.Completed?
    ensures NumCompleted(tasks, ids) == |ids|
  {
    if ids != [] { AllCount(tasks, ids[..|ids| - 1]); }
  }

  lemma {:induction false} OutputGathered(tasks: Tasks, ids: seq<TaskId>, i: nat, o: ObjectId)
    requires i < |ids| && ids[i] in tasks && tasks[ids[i]].status.Completed? && o in tasks[ids[i]].status.outputs
    ensures o in CompletedOutputs(tasks, ids)
  {
    if i < |ids| - 1 { OutputGathered(tasks, ids[..|ids| - 1], i, o); }
  }

  // ----- it does happen -----

  function OneRole(): JobDefinition
  {
    var template := TaskTemplate("builtin:concat", "run", [], [], ResourceRequirements(None, 0, None, {}), Pure, CostHint(1.0, 0));
    JobDefinition([Cooperative("only", [], template)], ["only"])
  }

  function OneWorker(): ResourceDescriptor
  {
    ResourceDescriptor(0, 1, X86_64, 1, 0, [], {}, 1.0, 0.0, 0.0, 0.0)
  }

  function LeasedTrace(): seq<Action>
  {
    [Action.RegisterResource(OneWorker(), U64_MAX), Action.SubmitJob(0, OneRole()),
     Action.MaterializeRole(0, "only", Direct(0, OneRole().roles[0].task)), Action.BeginExecution(0, 0, 0, U64_MAX, 0)]
  }

  const OUTPUT := ObjectMetadata(0, 0, None, None, [], None)

  function SubmittedFabric(): State
  {
    var task := OneRole().roles[0].task.Instantiate(0, []);
    State(map[0 := RegisteredResource(OneWorker(), U64_MAX)], map[], map[0 := TaskRecord(task, TaskStatus.Pending)],
          map[0 := JobRecord(OneRole(), map["only" := Submitted(0)], map[])], map[0 := Single(0, "only")], [], {})
  }

  function Lease(): ExecutionLease
  {
    ExecutionLease(0, 0, 0, 1, U64_MAX)
  }

  function LeasedFabric(): State
  {
    var s := SubmittedFabric();
    s.(tasks := s.tasks[0 := s.tasks[0].(status := Running(Lease()))], issued := {0})
  }

  lemma SubmittedIsReachable()
    ensures Reaches(EmptyState(), LeasedTrace()[..3], SubmittedFabric())
  {
    hide ValidJob;
    OneRoleIsValid();
    var t, role := LeasedTrace()[..3], OneRole().roles[0];
    var s1 := Step(EmptyState(), t[0]);
    var s2 := Step(s1, t[1]);
    assert FindRole(OneRole().roles, "only") == Some(role);
    assert role.Templates() == [role.task] && InstanceOf(role, role.task);
    assert DependencyOutputs(s2.jobs[0].roles, []) == Some([]);
    assert s2.jobs[0].roles == map["only" := Waiting];
    assert [0][0] !in s2.tasks;
    assert role.dependsOn == [] && Role(OneRole().roles, "only") == role;
    assert SetRole(s2.jobs[0], "only", Submitted(0)).roles == map["only" := Submitted(0)];
    assert Step(s2, t[2]).jobs == SubmittedFabric().jobs && Step(s2, t[2]).tasks == SubmittedFabric().tasks;
    assert Step(s2, t[2]) == SubmittedFabric();
    assert t[1..][1..] == t[2..] && t[2..][1..] == [];
    assert Reaches(s2, t[2..], SubmittedFabric());
    assert Reaches(s1, t[1..], SubmittedFabric());
  }

  /** A leased task whose agent reports one object id with two sizes: every check passes, and the outputs contradict each other. */
  lemma ContradictoryOutputsAreAccepted()
    ensures Reaches(SubmittedFabric(), LeasedTrace()[3..], LeasedFabric()) && Inv(LeasedFabric())
    ensures var outputs := [OUTPUT, OUTPUT.(sizeBytes := 1)];
            CanCommit(LeasedFabric(), Lease(), outputs, 0) && !ConsistentOutputs(outputs)
    ensures LeasedFabric().bindings[Lease().task].Single?
  {
    hide Inv;
    SubmittedIsReachable();
    InvInitially();
    TraceKeepsInv(EmptyState(), LeasedTrace()[..3], SubmittedFabric());
    LastStep();
    TraceKeepsInv(SubmittedFabric(), LeasedTrace()[3..], LeasedFabric());
    var outputs := [OUTPUT, OUTPUT.(sizeBytes := 1)];
    assert outputs[0].id == outputs[1].id && !SameObjectIdentity(outputs[0], outputs[1]);
  }

  lemma LastStep()
    ensures Reaches(SubmittedFabric(), LeasedTrace()[3..], LeasedFabric())
  {
    var t := LeasedTrace()[3..];
    var none: set<ExecutionId> := {};
    assert none + {0} == {0};
    assert Step(SubmittedFabric(), t[0]) == LeasedFabric();
    assert t[1..] == [] && Reaches(LeasedFabric(), [], LeasedFabric());
  }

  lemma OneRoleIsValid()
    ensures ValidJob(OneRole())
  {
    var roles := OneRole().roles;
    assert FindRole(roles, "only") == Some(roles[0]);
    assert "only"[0] == 'o';
    var order := ["only"];
    forall n | HasRole(roles, n) ensures n in order { assert order[0] == "only"; }
    assert TopologicalOrder(roles, order);
  }
}
