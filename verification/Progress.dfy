/** Deadlock freedom: a running job always has something that can still happen. */
module Progress {
  import opened Wrappers
  import opened Core
  import opened RoleGraph
  import opened Admission
  import opened ReductionPlanning
  import opened FabricModel
  import opened FabricInvariant
  import opened FabricSteps
  import opened FabricCommit
  import opened FabricRuns

  // ----- job status -----

  datatype JobStatus = JobRunning | JobCompleted(outputs: seq<ObjectId>) | JobUncertain

  function JobOutputs(roles: RoleStates, outputs: seq<string>): seq<ObjectId>
  {
    if outputs == [] then []
    else
      var n := |outputs| - 1;
      JobOutputs(roles, outputs[..n]) +
      if outputs[n] in roles && roles[outputs[n]].Done? then roles[outputs[n]].outputs else []
  }

  function StatusOf(job: JobRecord): JobStatus
  {
    if exists r :: r in job.roles && job.roles[r].RoleUncertain? then JobUncertain
    else if exists r :: r in job.roles && !job.roles[r].Done? then JobRunning
    else JobCompleted(JobOutputs(job.roles, job.definition.outputs))
  }

  // ----- progress -----

  /** No role waits although all of its dependencies are completed. */
  ghost predicate Unstuck(job: JobRecord)
  {
    forall name :: name in job.roles && job.roles[name].Waiting? && HasRole(job.definition.roles, name) ==>
      DependencyOutputs(job.roles, Role(job.definition.roles, name).dependsOn).None?
  }

  /** The role can be materialised, has a task not yet completed, or has a level awaiting resources. */
  ghost predicate CanProgress(s: State, id: JobId, name: string)
  {
    && id in s.jobs && name in s.jobs[id].roles
    && (|| s.jobs[id].roles[name].Ready?
        || LevelUnplaced(s.jobs[id], name)
        || exists t :: t in OwnTasks(s.jobs[id].roles[name]) && t in s.tasks && s.tasks[t].status.Active())
  }

  lemma {:induction false} UnfinishedDependency(roles: RoleStates, dependencies: seq<string>) returns (d: string)
    requires DependencyOutputs(roles, dependencies).None?
    ensures d in dependencies && !(d in roles && roles[d].Done?)
  {
    var n := |dependencies| - 1;
    if DependencyOutputs(roles, dependencies[..n]).None? {
      d := UnfinishedDependency(roles, dependencies[..n]);
    } else {
      d := dependencies[n];
    }
  }

  /** Below every unfinished role there is one whose dependencies are all completed. */
  lemma FirstUnfinished(job: JobRecord, name: string) returns (first: string)
    requires JobShape(job) && name in job.roles && !job.roles[name].Done?
    ensures first in job.roles && !job.roles[first].Done? && HasRole(job.definition.roles, first)
    ensures DependencyOutputs(job.roles, Role(job.definition.roles, first).dependsOn).Some?
    decreases Rank(job.definition.roles, name)
  {
    var role := Role(job.definition.roles, name);
    if DependencyOutputs(job.roles, role.dependsOn).Some? {
      first := name;
    } else {
      var d := UnfinishedDependency(job.roles, role.dependsOn);
      DependencyRanksLower(job.definition.roles, name, d);
      first := FirstUnfinished(job, d);
    }
  }

  lemma {:induction false} SomeNotCompleted(tasks: Tasks, ids: seq<TaskId>) returns (t: TaskId)
    requires NumCompleted(tasks, ids) < |ids|
    ensures t in ids && !(t in tasks && tasks[t].status.Completed?)
  {
    var n := |ids| - 1;
    if ids[n] in tasks && tasks[ids[n]].status.Completed? {
      t := SomeNotCompleted(tasks, ids[..n]);
    } else {
      t := ids[n];
    }
  }

  lemma MaterialisedRoleProgresses(s: State, id: JobId, name: string)
    requires id in s.jobs && name in s.jobs[id].roles && RoleOk(s, id, name)
    requires !s.jobs[id].roles[name].Waiting? && !s.jobs[id].roles[name].Done? && !s.jobs[id].roles[name].RoleUncertain?
    ensures CanProgress(s, id, name)
  {
    hide ShardInstance, LevelInputs, DependencyOutputs;
    match s.jobs[id].roles[name] {
      case Submitted(t) => assert t in OwnTasks(s.jobs[id].roles[name]);
      case Sharded(ids, completed) =>
        var t := SomeNotCompleted(s.tasks, ids);
        var i :| 0 <= i < |ids| && ids[i] == t;
      case Reducing(ids, completed, level) =>
        if s.jobs[id].reductions[name].items != [] {
          var t := SomeNotCompleted(s.tasks, ids);
          var i :| 0 <= i < |ids| && ids[i] == t;
        }
      case Ready =>
    }
  }

  /** A running job of a consistent fabric with no stuck role can make progress. */
  lemma RunningJobProgresses(s: State, id: JobId)
    requires Inv(s) && id in s.jobs && Unstuck(s.jobs[id]) && StatusOf(s.jobs[id]).JobRunning?
    ensures exists name :: CanProgress(s, id, name)
  {
    hide Inv, RoleOk, BindingOk, CanProgress, DependencyOutputs, JobShape;
    var job := s.jobs[id];
    var name :| name in job.roles && !job.roles[name].Done?;
    InvAt(s, id, name);
    var first := FirstUnfinished(job, name);
    InvAt(s, id, first);
    MaterialisedRoleProgresses(s, id, first);
  }

  // ----- who can make a role stuck -----

  lemma {:induction false} NothingNewDone(roles: RoleStates, roles': RoleStates, dependencies: seq<string>)
    requires forall r :: r in roles' && roles'[r].Done? ==> r in roles && roles[r].Done?
    requires DependencyOutputs(roles, dependencies).None?
    ensures DependencyOutputs(roles', dependencies).None?
  {
    var n := |dependencies| - 1;
    if DependencyOutputs(roles, dependencies[..n]).None? {
      NothingNewDone(roles, roles', dependencies[..n]);
    }
  }

  /** Only completing a role can make another one stuck. */
  lemma UnstuckKept(job: JobRecord, job': JobRecord)
    requires Unstuck(job) && job'.definition == job.definition && job'.roles.Keys == job.roles.Keys
    requires forall r :: r in job.roles && job'.roles[r].Waiting? ==> job.roles[r].Waiting?
    requires forall r :: r in job'.roles && job'.roles[r].Done? ==> job.roles[r].Done?
    ensures Unstuck(job')
  {
    forall name | name in job'.roles && job'.roles[name].Waiting? && HasRole(job'.definition.roles, name)
      ensures DependencyOutputs(job'.roles, Role(job'.definition.roles, name).dependsOn).None?
    {
      NothingNewDone(job.roles, job'.roles, Role(job.definition.roles, name).dependsOn);
    }
  }

  /** Materialising a role completes none and leaves nothing waiting that was not. */
  lemma MaterializeCompletesNothing(s: State, s': State, id: JobId, name: string, choice: RoleChoice)
    requires Inv(s) && MaterializeStep(s, s', id, name, choice)
    ensures id in s.jobs && id in s'.jobs && s'.jobs == s.jobs[id := s'.jobs[id]]
    ensures s'.jobs[id].definition == s.jobs[id].definition && s'.jobs[id].roles.Keys == s.jobs[id].roles.Keys
    ensures forall r :: r in s.jobs[id].roles && s'.jobs[id].roles[r].Waiting? ==> s.jobs[id].roles[r].Waiting?
    ensures forall r :: r in s'.jobs[id].roles && s'.jobs[id].roles[r].Done? ==> s.jobs[id].roles[r].Done?
    ensures name in s'.jobs[id].roles && (s'.jobs[id].roles[name].Waiting? ==> choice.Fused? && s' == s)
  {
    hide Inv, MaterializeStep, TasksAdded, ReadyInputs, ShardsAllowed, ChainAllowed, FusedSpec, FusedShape;
    StepIsIdle(s, s', id, name, choice);
    match choice {
      case Infeasible => InfeasibleShape(s, s', id, name);
      case Direct(task, template) => DirectShape(s, s', id, name, task, template);
      case Fused(_, _, _, _) =>
        FusedStepShape(s, s', id, name, choice);
        if s' != s { FusedCompletesNothing(s, s', id, name, choice); }
      case Shards(specs) => ShardsShape(s, s', id, name, specs);
    }
  }

  lemma InfeasibleShape(s: State, s': State, id: JobId, name: string)
    requires MaterializeStep(s, s', id, name, Infeasible)
    ensures id in s.jobs && s' == s.(jobs := s.jobs[id := SetRole(s.jobs[id], name, Ready)])
  {
  }

  lemma FusedCompletesNothing(s: State, s': State, id: JobId, name: string, choice: RoleChoice)
    requires FusedShape(s, s', id, name, choice)
    ensures id in s.jobs && id in s'.jobs && s'.jobs == s.jobs[id := s'.jobs[id]]
    ensures s'.jobs[id].definition == s.jobs[id].definition && s'.jobs[id].roles.Keys == s.jobs[id].roles.Keys
    ensures forall r :: r in s.jobs[id].roles && s'.jobs[id].roles[r].Waiting? ==> s.jobs[id].roles[r].Waiting?
    ensures forall r :: r in s'.jobs[id].roles && s'.jobs[id].roles[r].Done? ==> s.jobs[id].roles[r].Done?
    ensures name in s'.jobs[id].roles && s'.jobs[id].roles[name].Submitted?
  {
    ChainIsIdle(s, s', id, name, choice);
    ChainLeavesOthers(s, s', id, name, choice);
    assert name in Members(choice.chain) by { assert choice.chain[0] == name; }
    hide ChainAllowed, FusedSpec;
    forall r | r in s.jobs[id].roles
      ensures s'.jobs[id].roles[r].Waiting? ==> s.jobs[id].roles[r].Waiting?
      ensures s'.jobs[id].roles[r].Done? ==> s.jobs[id].roles[r].Done?
    {
      if r !in Members(choice.chain) { assert StatusKept(s.jobs[id], s'.jobs[id], r); }
    }
  }

  // ----- fused interiors -----

  /** Inside a chain that runs or ran fused, nobody but the chain itself consumes a role's outputs. */
  lemma InteriorHasNoReader(s: State, t: TaskId, k: nat, reader: string)
    requires t in s.bindings && s.bindings[t].FusedChain? && BindingOk(s, t) && k < |s.bindings[t].roles| - 1
    ensures s.bindings[t].job in s.jobs
    ensures var job, names := s.jobs[s.bindings[t].job], s.bindings[t].roles;
            && names[k] !in job.definition.outputs
            && (Idle(job, reader) && HasRole(job.definition.roles, reader) ==>
                  names[k] !in Role(job.definition.roles, reader).dependsOn)
  {
    hide FusedTask, DependencyOutputs;
    var job, names := s.jobs[s.bindings[t].job], s.bindings[t].roles;
    assert PrivateEdge(job.definition, names[k], names[k + 1]);
  }

  /** In no run is the empty output list of a fused interior role read as a task input or job result. */
  lemma FusedInteriorsAreNeverRead(states: seq<State>, actions: seq<Action>, i: nat, t: TaskId, k: nat)
    requires IsRun(states, actions) && i < |actions|
    requires t in states[i].bindings && states[i].bindings[t].FusedChain? && k < |states[i].bindings[t].roles| - 1
    ensures states[i].bindings[t].job in states[i].jobs
    ensures states[i].bindings[t].roles[k] !in states[i].jobs[states[i].bindings[t].job].definition.outputs
    ensures actions[i].MaterializeRole? && actions[i].job == states[i].bindings[t].job ==>
              && HasRole(states[i].jobs[actions[i].job].definition.roles, actions[i].role)
              && states[i].bindings[t].roles[k] !in Role(states[i].jobs[actions[i].job].definition.roles, actions[i].role).dependsOn
  {
    hide Inv, BindingOk, Idle, Step;
    RunKeepsInv(states, actions, i);
    BindingOf(states[i], t);
    if actions[i].MaterializeRole? && actions[i].job == states[i].bindings[t].job {
      ReaderIsIdle(states[i], actions[i]);
      InteriorHasNoReader(states[i], t, k, actions[i].role);
    } else {
      InteriorHasNoReader(states[i], t, k, "");
    }
  }

  lemma ReaderIsIdle(s: State, action: Action)
    requires action.MaterializeRole? && Enabled(s, action)
    ensures action.job in s.jobs && Idle(s.jobs[action.job], action.role) && HasRole(s.jobs[action.job].definition.roles, action.role)
  {
    hide ShardsAllowed, ChainAllowed, InstanceOf;
  }
}
