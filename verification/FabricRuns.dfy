/**
 * Reaping keeps the invariant; hence every step does, and every run of the fabric stays consistent.
 * Along every run tasks and roles only move forward: what is completed or uncertain stays so.
 */
module FabricRuns {
  import opened Wrappers
  import opened Core
  import opened Sequences
  import opened RoleGraph
  import opened Sharding
  import opened ReductionPlanning
  import opened Admission
  import opened FabricModel
  import opened FabricInvariant
  import opened FabricSteps
  import opened FabricCommit

  // ----- reaping -----

  ghost predicate ReapStep(s: State, s': State, t: TaskId)
  {
    t in s.tasks && s.tasks[t].status.Running? && s' == Reap(s, t)
  }

  lemma RetryKeepsInv(s: State, s': State, t: TaskId)
    requires Inv(s) && ReapStep(s, s', t) && (s.tasks[t].spec.effects.AutomaticallyRetryable() || t !in s.bindings)
    ensures Inv(s')
  {
    hide Inv;
    QuietStep(s, s');
  }

  /** A bound task whose effects cannot be replayed works alone for one role, or is one of its shards. */
  lemma LostTaskShape(s: State, s': State, t: TaskId)
    requires ReapStep(s, s', t) && !s.tasks[t].spec.effects.AutomaticallyRetryable()
    requires t in s.bindings && BindingOk(s, t)
    ensures t in s.tasks && (s.bindings[t].Single? || s.bindings[t].Shard?)
    ensures var id, name := s.bindings[t].job, s.bindings[t].role;
            && id in s.jobs && name in s.jobs[id].roles && HasRole(s.jobs[id].definition.roles, name)
            && (s.bindings[t].Single? ==> s.jobs[id].roles[name] == Submitted(t))
            && (s.bindings[t].Shard? ==> s.jobs[id].roles[name].Sharded? || s.jobs[id].roles[name].RoleUncertain?)
            && s' == s.(tasks := s.tasks[t := s.tasks[t].(status := Uncertain)],
                        jobs := s.jobs[id := SetRole(s.jobs[id], name, RoleUncertain)])
  {
    hide InstanceTask, FusedTask, PrivateEdge, DependencyOutputs;
  }

  lemma LostKeepsInv(s: State, s': State, t: TaskId)
    requires Inv(s) && ReapStep(s, s', t) && !s.tasks[t].spec.effects.AutomaticallyRetryable() && t in s.bindings
    ensures Inv(s')
  {
    hide Inv, BindingOk, RoleOk, LocalStep, Touched, ReapStep, JobShape;
    BindingOf(s, t);
    LostTaskShape(s, s', t);
    var id, name := s.bindings[t].job, s.bindings[t].role;
    InvAt(s, id, name);
    LostLocalStep(s, s', t, id, name);
    forall other | other in s'.bindings && (other !in s.bindings || Touched(s.bindings[other], id, {name}))
      ensures BindingOk(s', other)
    {
      BindingOf(s, other);
      LostBindingOk(s, s', t, id, name, other);
    }
    LocalInv(s, s', id, {name});
  }

  lemma LostLocalStep(s: State, s': State, t: TaskId, id: JobId, name: string)
    requires t in s.tasks && t in s.bindings && s.bindings[t].job == id && !s.bindings[t].FusedChain? && s.bindings[t].role == name
    requires id in s.jobs && name in s.jobs[id].roles && HasRole(s.jobs[id].definition.roles, name)
    requires !s.jobs[id].roles[name].Done? && name !in s.jobs[id].reductions
    requires s.jobs[id].reductions.Keys <= s.jobs[id].roles.Keys
    requires s' == s.(tasks := s.tasks[t := s.tasks[t].(status := Uncertain)],
                      jobs := s.jobs[id := SetRole(s.jobs[id], name, RoleUncertain)])
    ensures LocalStep(s, s', id, {name})
    ensures forall r :: r in {name} && r in s'.jobs[id].roles ==> RoleOk(s', id, r)
  {
    hide ShardedOk, ReducingOk, DependencyOutputs;
  }

  lemma LostBindingOk(s: State, s': State, t: TaskId, id: JobId, name: string, other: TaskId)
    requires t in s.tasks && t in s.bindings && BindingOk(s, t) && (s.bindings[t].Single? || s.bindings[t].Shard?)
    requires s.bindings[t].job == id && s.bindings[t].role == name && id in s.jobs && name in s.jobs[id].roles
    requires s.bindings[t].Single? ==> s.jobs[id].roles[name] == Submitted(t)
    requires s.bindings[t].Shard? ==> s.jobs[id].roles[name].Sharded? || s.jobs[id].roles[name].RoleUncertain?
    requires s' == s.(tasks := s.tasks[t := s.tasks[t].(status := Uncertain)],
                      jobs := s.jobs[id := SetRole(s.jobs[id], name, RoleUncertain)])
    requires other in s.bindings && BindingOk(s, other) && Touched(s.bindings[other], id, {name})
    ensures BindingOk(s', other)
  {
    hide InstanceTask, FusedTask, PrivateEdge;
    assert name in s.bindings[other].Mentions();
    if s.bindings[t].Single? {
      SubmittedIsExclusive(s, id, name, t, other);
      DependenciesKept(s.jobs[id], s'.jobs[id], Role(s.jobs[id].definition.roles, name).dependsOn);
    } else {
      assert s.bindings[other].Shard?;
    }
  }

  lemma ReapKeepsInv(s: State, s': State, t: TaskId)
    requires Inv(s) && ReapStep(s, s', t)
    ensures Inv(s')
  {
    hide Inv, Reap;
    if s.tasks[t].spec.effects.AutomaticallyRetryable() || t !in s.bindings {
      RetryKeepsInv(s, s', t);
    } else {
      LostKeepsInv(s, s', t);
    }
  }

  // ----- steps and runs -----

  /** Every step of the fabric keeps its invariant. */
  lemma StepKeepsInv(s: State, action: Action)
    requires Inv(s) && Enabled(s, action)
    ensures Inv(Step(s, action))
  {
    hide Inv;
    if Quiet(action) {
      QuietActionKeepsInv(s, action);
    } else {
      JobActionKeepsInv(s, action);
    }
  }

  lemma JobActionKeepsInv(s: State, action: Action)
    requires Inv(s) && Enabled(s, action) && !Quiet(action)
    ensures Inv(Step(s, action))
  {
    hide Inv, ValidJob, Materialize, PlaceLevel, Commit, Reap, ChoiceAllowed, LevelAllowed, NewJob, Bound, CanPublish;
    match action {
      case SubmitJob(job, definition) => SubmitJobKeepsInv(s, job, definition);
      case CommitExecution(lease, outputs, _) => CommitKeepsInv(s, Commit(s, lease.task, outputs), lease.task, outputs);
      case ReapExecution(t, _) => ReapKeepsInv(s, Reap(s, t), t);
      case MaterializeRole(job, role, choice) =>
        MaterializeKeepsInv(s, Step(s, action), job, role, choice);
      case PlaceReduction(job, role, items) =>
        PlaceLevelKeepsInv(s, Step(s, action), job, role, items);
    }
  }

  /** Every state of every run satisfies the invariant. */
  lemma {:induction false} RunKeepsInv(states: seq<State>, actions: seq<Action>, i: nat)
    requires IsRun(states, actions) && i < |states|
    ensures Inv(states[i])
  {
    hide Inv, Enabled, Step;
    if i == 0 {
      InvInitially();
    } else {
      RunKeepsInv(states, actions, i - 1);
      StepKeepsInv(states[i - 1], actions[i - 1]);
    }
  }

  lemma {:induction false} TraceKeepsInv(s: State, actions: seq<Action>, t: State)
    requires Inv(s) && Reaches(s, actions, t)
    ensures Inv(t)
    decreases |actions|
  {
    hide Inv;
    if actions != [] {
      StepKeepsInv(s, actions[0]);
      TraceKeepsInv(Step(s, actions[0]), actions[1..], t);
    }
  }

  // ----- what never changes -----

  /** A role moves forward only: done and uncertain are final, and nothing returns to waiting or ready. */
  ghost predicate Advances(before: RoleStatus, after: RoleStatus)
  {
    && (before.Done? || before.RoleUncertain? ==> after == before)
    && (!before.Waiting? ==> !after.Waiting?)
    && (!before.Waiting? && !before.Ready? ==> !after.Ready?)
  }

  ghost predicate JobAdvances(job: JobRecord, job': JobRecord)
  {
    && job'.definition == job.definition && job'.roles.Keys == job.roles.Keys
    && forall name :: name in job.roles ==> Advances(job.roles[name], job'.roles[name])
  }

  /** No task is forgotten, rewritten or rebound; completed and uncertain tasks stay what they are. */
  ghost predicate TaskAdvances(s: State, s': State, t: TaskId)
  {
    && (t in s.tasks ==>
          && t in s'.tasks && s'.tasks[t].spec == s.tasks[t].spec
          && (!s.tasks[t].status.Active() ==> s'.tasks[t].status == s.tasks[t].status))
    && (t in s.bindings ==> t in s'.bindings && s'.bindings[t] == s.bindings[t])
  }

  ghost predicate Progresses(s: State, s': State)
  {
    && (forall id :: id in s.jobs ==> id in s'.jobs && JobAdvances(s.jobs[id], s'.jobs[id]))
    && (forall t :: TaskAdvances(s, s', t))
    && ObjectsKept(s.objects, s'.objects)
  }

  lemma OneJobProgresses(s: State, s': State, id: JobId)
    requires id in s.jobs && id in s'.jobs && s'.jobs == s.jobs[id := s'.jobs[id]]
    requires JobAdvances(s.jobs[id], s'.jobs[id])
    requires forall t :: TaskAdvances(s, s', t)
    requires ObjectsKept(s.objects, s'.objects)
    ensures Progresses(s, s')
  {
  }

  lemma AddedTasksAdvance(s: State, s': State, specs: seq<TaskSpec>, binding: Binding)
    requires Inv(s) && TasksAdded(s, s', specs, binding)
    ensures forall t :: TaskAdvances(s, s', t)
  {
    hide Inv;
    AddedAreUnbound(s, s', specs, binding);
  }

  lemma MaterializeProgresses(s: State, s': State, id: JobId, name: string, choice: RoleChoice)
    requires Inv(s) && MaterializeStep(s, s', id, name, choice)
    ensures Progresses(s, s')
  {
    hide Inv, MaterializeStep, Progresses, TaskAdvances;
    StepIsIdle(s, s', id, name, choice);
    match choice {
      case Infeasible =>
        InfeasibleProgresses(s, s', id, name);
      case Direct(task, template) =>
        DirectShape(s, s', id, name, task, template);
        FreshTaskIsUnbound(s, task);
        DirectProgresses(s, s', id, name, task, template);
      case Fused(task, _, _, _) =>
        FusedStepShape(s, s', id, name, choice);
        if s' != s {
          ChainIsIdle(s, s', id, name, choice);
          FreshTaskIsUnbound(s, task);
          FusedProgresses(s, s', id, name, choice);
        } else {
          SameProgresses(s);
        }
      case Shards(specs) =>
        ShardsShape(s, s', id, name, specs);
        AddedTasksAdvance(s, s', specs, Shard(id, name));
        ShardsProgress(s, s', id, name, specs);
    }
  }

  lemma SameProgresses(s: State)
    ensures Progresses(s, s)
  {
  }

  lemma InfeasibleProgresses(s: State, s': State, id: JobId, name: string)
    requires MaterializeStep(s, s', id, name, Infeasible)
    ensures Progresses(s, s')
  {
    hide DependencyOutputs;
    OneJobProgresses(s, s', id);
  }

  lemma DirectProgresses(s: State, s': State, id: JobId, name: string, task: TaskId, template: TaskTemplate)
    requires task !in s.tasks && task !in s.bindings && id in s.jobs && Idle(s.jobs[id], name)
    requires s' == s.(jobs := s.jobs[id := SetRole(s.jobs[id], name, Submitted(task))],
                      tasks := s.tasks[task := TaskRecord(template.Instantiate(task, ReadyInputs(s.jobs[id], name)), Pending)],
                      bindings := s.bindings[task := Single(id, name)])
    ensures Progresses(s, s')
  {
    OneJobProgresses(s, s', id);
  }

  lemma FusedProgresses(s: State, s': State, id: JobId, name: string, choice: RoleChoice)
    requires FusedShape(s, s', id, name, choice) && choice.task !in s.bindings
    requires forall r :: r in Members(choice.chain) ==>
               r in s.jobs[id].roles && (s.jobs[id].roles[r].Waiting? || s.jobs[id].roles[r].Ready?)
    requires JobKept(s.jobs[id], SetRoles(s.jobs[id], choice.chain, Submitted(choice.task)))
    requires forall r :: r in Members(choice.chain) ==>
               SetRoles(s.jobs[id], choice.chain, Submitted(choice.task)).roles[r] == Submitted(choice.task)
    ensures Progresses(s, s')
  {
    hide ChainAllowed, FusedSpec;
    ChainLeavesOthers(s, s', id, name, choice);
    OneJobProgresses(s, s', id);
  }

  lemma ShardsProgress(s: State, s': State, id: JobId, name: string, specs: seq<TaskSpec>)
    requires id in s.jobs && Idle(s.jobs[id], name) && forall t :: TaskAdvances(s, s', t)
    requires s' == s.(jobs := s.jobs[id := SetRole(s.jobs[id], name, Sharded(TaskIdsOf(specs), 0))],
                      tasks := s'.tasks, bindings := s'.bindings)
    ensures Progresses(s, s')
  {
    hide TaskAdvances;
    OneJobProgresses(s, s', id);
  }

  lemma PlaceProgresses(s: State, s': State, id: JobId, name: string, choice: Option<seq<LevelItem>>)
    requires Inv(s) && PlaceStep(s, s', id, name, choice)
    ensures Progresses(s, s')
  {
    hide Inv, PlaceStep, TaskAdvances, TasksAdded, RoleOk, JobShape;
    PlaceAt(s, s', id, name, choice);
    InvAt(s, id, name);
    if choice.None? {
      PlaceNoneShape(s, s', id, name);
      SameProgresses(s);
    } else {
      PlaceShape(s, s', id, name, choice.value);
      AddedTasksAdvance(s, s', ReducerTasks(choice.value), Reduction(id, name));
      OneJobProgresses(s, s', id);
    }
  }

  lemma CommittedProgresses(s: State, s': State, t: TaskId, outputs: seq<ObjectMetadata>, job': JobRecord)
    requires CommittedShape(s, s', t, outputs, job') && JobAdvances(s.jobs[s.bindings[t].job], job')
    ensures Progresses(s, s')
  {
    PublishKeepsObjects(s.objects, outputs);
    hide PublishAll;
    OneJobProgresses(s, s', s.bindings[t].job);
  }

  lemma CommitProgresses(s: State, s': State, t: TaskId, outputs: seq<ObjectMetadata>)
    requires Inv(s) && CommitStep(s, s', t, outputs)
    ensures Progresses(s, s')
  {
    hide Inv, BindingOk, CommitStep, CommittedShape, AfterShard, AfterReducer, ShardCommit, ReducerCommit, ChainDone, Progresses;
    if t !in s.bindings {
      UnboundCommitProgresses(s, s', t, outputs);
    } else {
      BindingOf(s, t);
      var job := s.bindings[t].job;
      match s.bindings[t] {
        case Single(_, name) =>
          SingleFacts(s, s', t, outputs);
          CommittedProgresses(s, s', t, outputs, SetRole(s.jobs[job], name, Done(Ids(outputs))));
        case FusedChain(_, names) =>
          FusedFacts(s, s', t, outputs);
          ChainDoneAdvances(s.jobs[job], names, Ids(outputs), t);
          CommittedProgresses(s, s', t, outputs, ChainDone(s.jobs[job], names, Ids(outputs)));
        case Shard(_, name) =>
          ShardFacts(s, s', t, outputs);
          ShardProgresses(s, s', t, outputs);
        case Reduction(_, name) =>
          ReducerFacts(s, s', t, outputs);
          ReducerProgresses(s, s', t, outputs);
      }
    }
  }

  lemma ChainDoneAdvances(job: JobRecord, names: seq<string>, outputs: seq<ObjectId>, t: TaskId)
    requires names != [] && NoRepeats(names)
    requires forall i :: 0 <= i < |names| ==> names[i] in job.roles && job.roles[names[i]] == Submitted(t)
    ensures JobAdvances(job, ChainDone(job, names, outputs))
  {
    hide ChainDone;
    ChainDoneEffect(job, names, outputs);
    forall name | name in job.roles ensures Advances(job.roles[name], ChainDone(job, names, outputs).roles[name]) {
      if name in Members(names) {
        var i :| 0 <= i < |names| && names[i] == name;
      }
    }
  }

  lemma ShardProgresses(s: State, s': State, t: TaskId, outputs: seq<ObjectMetadata>)
    requires ShardCommit(s, s', t, outputs)
    ensures Progresses(s, s')
  {
    hide NumCompleted, CompletedOutputs, ReductionOf, PublishAll, Progresses;
    CommittedProgresses(s, s', t, outputs,
      AfterShard(s.jobs[s.bindings[t].job], CommittedTasks(s, t, outputs), s.bindings[t].role));
  }

  lemma ReducerProgresses(s: State, s': State, t: TaskId, outputs: seq<ObjectMetadata>)
    requires ReducerCommit(s, s', t, outputs)
    ensures Progresses(s, s')
  {
    hide NumCompleted, LevelOutputs, ItemTasks, PublishAll, Progresses;
    CommittedProgresses(s, s', t, outputs,
      AfterReducer(s.jobs[s.bindings[t].job], CommittedTasks(s, t, outputs), s.bindings[t].role));
  }

  lemma UnboundCommitProgresses(s: State, s': State, t: TaskId, outputs: seq<ObjectMetadata>)
    requires CommitStep(s, s', t, outputs) && t !in s.bindings
    ensures Progresses(s, s')
  {
    PublishKeepsObjects(s.objects, outputs);
    hide PublishAll;
  }

  lemma ReapProgresses(s: State, s': State, t: TaskId)
    requires Inv(s) && ReapStep(s, s', t)
    ensures Progresses(s, s')
  {
    hide Inv, BindingOk;
    if !s.tasks[t].spec.effects.AutomaticallyRetryable() && t in s.bindings {
      BindingOf(s, t);
      LostTaskShape(s, s', t);
      OneJobProgresses(s, s', s.bindings[t].job);
    }
  }

  /** Every step moves tasks and roles forward only. */
  lemma StepProgresses(s: State, action: Action)
    requires Inv(s) && Enabled(s, action)
    ensures Progresses(s, Step(s, action))
  {
    hide Inv, Progresses;
    if Quiet(action) {
      QuietProgresses(s, action);
    } else {
      JobActionProgresses(s, action);
    }
  }

  lemma QuietProgresses(s: State, action: Action)
    requires Quiet(action) && Enabled(s, action)
    ensures Progresses(s, Step(s, action))
  {
    QuietFrame(s, action);
    hide AdmissibleTask, AddLocations, DropLocation, DropLinks, Publish;
  }

  lemma JobActionProgresses(s: State, action: Action)
    requires Inv(s) && Enabled(s, action) && !Quiet(action)
    ensures Progresses(s, Step(s, action))
  {
    hide Inv, ValidJob, Materialize, PlaceLevel, Commit, Reap, ChoiceAllowed, LevelAllowed, NewJob, Bound, CanPublish;
    match action {
      case SubmitJob(job, definition) =>
      case CommitExecution(lease, outputs, _) => CommitProgresses(s, Commit(s, lease.task, outputs), lease.task, outputs);
      case ReapExecution(t, _) => ReapProgresses(s, Reap(s, t), t);
      case MaterializeRole(job, role, choice) => MaterializeProgresses(s, Step(s, action), job, role, choice);
      case PlaceReduction(job, role, items) => PlaceProgresses(s, Step(s, action), job, role, items);
    }
  }

  lemma ProgressIsTransitive(a: State, b: State, c: State)
    requires Progresses(a, b) && Progresses(b, c)
    ensures Progresses(a, c)
  {
    forall t ensures TaskAdvances(a, c, t) {
      assert TaskAdvances(a, b, t) && TaskAdvances(b, c, t);
    }
    forall id | id in a.jobs ensures id in c.jobs && JobAdvances(a.jobs[id], c.jobs[id]) {
      assert JobAdvances(a.jobs[id], b.jobs[id]) && JobAdvances(b.jobs[id], c.jobs[id]);
      forall name | name in a.jobs[id].roles ensures Advances(a.jobs[id].roles[name], c.jobs[id].roles[name]) {
        assert Advances(a.jobs[id].roles[name], b.jobs[id].roles[name]);
      }
    }
  }

  /** Along every run: what is done, uncertain or completed at some point stays so for good. */
  lemma {:induction false} RunProgresses(states: seq<State>, actions: seq<Action>, i: nat, j: nat)
    requires IsRun(states, actions) && i <= j < |states|
    ensures Progresses(states[i], states[j])
    decreases j
  {
    hide Progresses, Inv;
    if i == j {
      SameProgresses(states[i]);
    } else {
      RunProgresses(states, actions, i, j - 1);
      RunKeepsInv(states, actions, j - 1);
      StepProgresses(states[j - 1], actions[j - 1]);
      ProgressIsTransitive(states[i], states[j - 1], states[j]);
    }
  }
}
