/**
 * Committing an execution keeps the fabric's invariant. What a commit does depends on the binding of
 * its task: a single role or a fused chain is completed, a shard may complete its role or start a
 * reduction, and a reducer may finish its level. Each case states its facts, its locality, and what
 * becomes of the touched bindings and roles.
 */
module FabricCommit {
  import opened Wrappers
  import opened Core
  import opened Sequences
  import opened RoleGraph
  import opened Sharding
  import opened ReductionPlanning
  import opened Admission
  import opened FabricModel
  import opened FabricInvariant
  import opened FabricSteps

  /** A running task is completed with these outputs; a reducer has exactly one. */
  ghost predicate CommitStep(s: State, s': State, t: TaskId, outputs: seq<ObjectMetadata>)
  {
    && t in s.tasks && s.tasks[t].status.Active() && Bound(s, t)
    && (t in s.bindings && s.bindings[t].Reduction? ==> |outputs| == 1)
    && s' == Commit(s, t, outputs)
  }

  ghost function CommittedTasks(s: State, t: TaskId, outputs: seq<ObjectMetadata>): Tasks
    requires t in s.tasks
  {
    s.tasks[t := s.tasks[t].(status := Completed(Ids(outputs)))]
  }

  /** The state after the commit, given the job record it leads to. */
  ghost predicate CommittedShape(s: State, s': State, t: TaskId, outputs: seq<ObjectMetadata>, job': JobRecord)
  {
    && t in s.tasks && s.tasks[t].status.Active() && t in s.bindings && s.bindings[t].job in s.jobs
    && s' == s.(tasks := CommittedTasks(s, t, outputs), objects := PublishAll(s.objects, outputs),
                jobs := s.jobs[s.bindings[t].job := job'])
  }

  /** The commit changed only `changed` roles of the task's job, and none of them was done. */
  lemma CommittedLocalStep(s: State, s': State, t: TaskId, outputs: seq<ObjectMetadata>, job': JobRecord, changed: set<string>)
    requires CommittedShape(s, s', t, outputs, job') && s.bindings[t].Mentions() <= changed
    requires job'.definition == s.jobs[s.bindings[t].job].definition
    requires job'.roles.Keys == s.jobs[s.bindings[t].job].roles.Keys && job'.reductions.Keys <= job'.roles.Keys
    requires forall r :: r in s.jobs[s.bindings[t].job].roles && r !in changed ==> StatusKept(s.jobs[s.bindings[t].job], job', r)
    requires forall r :: r in s.jobs[s.bindings[t].job].roles && r in changed ==> !s.jobs[s.bindings[t].job].roles[r].Done?
    ensures LocalStep(s, s', s.bindings[t].job, changed)
  {
    PublishKeepsObjects(s.objects, outputs);
  }

  /** Only one task is ever submitted for a role. */
  lemma SubmittedIsExclusive(s: State, id: JobId, name: string, t: TaskId, other: TaskId)
    requires id in s.jobs && name in s.jobs[id].roles && s.jobs[id].roles[name] == Submitted(t)
    requires other in s.bindings && BindingOk(s, other) && s.bindings[other].job == id && name in s.bindings[other].Mentions()
    ensures other == t
  {
    hide InstanceTask, FusedTask, PrivateEdge, DependencyOutputs;
  }

  // ----- a single role -----

  lemma SingleFacts(s: State, s': State, t: TaskId, outputs: seq<ObjectMetadata>)
    requires CommitStep(s, s', t, outputs) && t in s.bindings && s.bindings[t].Single? && BindingOk(s, t)
    ensures var id, name := s.bindings[t].job, s.bindings[t].role;
            && id in s.jobs && name in s.jobs[id].roles && s.jobs[id].roles[name] == Submitted(t)
            && CommittedShape(s, s', t, outputs, SetRole(s.jobs[id], name, Done(Ids(outputs))))
  {
    hide InstanceTask, DependencyOutputs;
  }

  lemma SingleCommitKeepsInv(s: State, s': State, t: TaskId, outputs: seq<ObjectMetadata>)
    requires Inv(s) && CommitStep(s, s', t, outputs) && t in s.bindings && s.bindings[t].Single?
    ensures Inv(s')
  {
    hide *;
    var id, name := s.bindings[t].job, s.bindings[t].role;
    BindingOf(s, t);
    SingleFacts(s, s', t, outputs);
    InvAt(s, id, name);
    SingleLocalStep(s, s', t, outputs);
    SingleBindingOk(s, s', t, outputs);
    OnlyTouched(s, id, name, t);
    LocalInv(s, s', id, {name});
  }

  lemma OnlyTouched(s: State, id: JobId, name: string, t: TaskId)
    requires Inv(s) && id in s.jobs && name in s.jobs[id].roles && s.jobs[id].roles[name] == Submitted(t)
    ensures forall other :: other in s.bindings && Touched(s.bindings[other], id, {name}) ==> other == t
  {
    hide Inv, BindingOk;
    forall other | other in s.bindings && Touched(s.bindings[other], id, {name}) ensures other == t {
      BindingOf(s, other);
      SubmittedIsExclusive(s, id, name, t, other);
    }
  }

  lemma SingleLocalStep(s: State, s': State, t: TaskId, outputs: seq<ObjectMetadata>)
    requires t in s.bindings && s.bindings[t].Single?
    requires var id, name := s.bindings[t].job, s.bindings[t].role;
             && id in s.jobs && name in s.jobs[id].roles && s.jobs[id].roles[name] == Submitted(t)
             && CommittedShape(s, s', t, outputs, SetRole(s.jobs[id], name, Done(Ids(outputs))))
             && name !in s.jobs[id].reductions && s.jobs[id].reductions.Keys <= s.jobs[id].roles.Keys
             && HasRole(s.jobs[id].definition.roles, name)
    ensures LocalStep(s, s', s.bindings[t].job, {s.bindings[t].role})
    ensures s'.bindings == s.bindings && s.bindings[t].job in s'.jobs
    ensures forall r :: r in {s.bindings[t].role} && r in s'.jobs[s.bindings[t].job].roles ==> RoleOk(s', s.bindings[t].job, r)
  {
    hide LocalStep, ShardedOk, ReducingOk, DependencyOutputs, PublishAll;
    var id, name := s.bindings[t].job, s.bindings[t].role;
    CommittedLocalStep(s, s', t, outputs, SetRole(s.jobs[id], name, Done(Ids(outputs))), {name});
  }

  lemma SingleBindingOk(s: State, s': State, t: TaskId, outputs: seq<ObjectMetadata>)
    requires t in s.bindings && s.bindings[t].Single? && BindingOk(s, t)
    requires var id, name := s.bindings[t].job, s.bindings[t].role;
             && id in s.jobs && name in s.jobs[id].roles && s.jobs[id].roles[name] == Submitted(t)
             && CommittedShape(s, s', t, outputs, SetRole(s.jobs[id], name, Done(Ids(outputs))))
    ensures t in s'.bindings && BindingOk(s', t)
  {
    hide PublishAll, InstanceTask;
    var id, name := s.bindings[t].job, s.bindings[t].role;
    DependenciesKept(s.jobs[id], s'.jobs[id], Role(s.jobs[id].definition.roles, name).dependsOn);
  }

  // ----- a fused chain -----

  function ChainDone(job: JobRecord, names: seq<string>, outputs: seq<ObjectId>): JobRecord
    requires names != []
  {
    SetRole(SetRoles(job, names[..|names| - 1], Done([])), names[|names| - 1], Done(outputs))
  }

  lemma ChainDoneEffect(job: JobRecord, names: seq<string>, outputs: seq<ObjectId>)
    requires names != [] && NoRepeats(names) && forall i :: 0 <= i < |names| ==> names[i] in job.roles
    ensures var job' := ChainDone(job, names, outputs);
            && job'.definition == job.definition && job'.reductions == job.reductions
            && job'.roles.Keys == job.roles.Keys
            && job'.roles[names[|names| - 1]] == Done(outputs)
            && (forall i :: 0 <= i < |names| - 1 ==> job'.roles[names[i]] == Done([]))
            && (forall r :: r in job.roles && r !in Members(names) ==> job'.roles[r] == job.roles[r])
            && (forall r :: r in Members(names) ==> r in job.roles && job'.roles[r].Done?)
  {
    var n := |names| - 1;
    SetRolesEffect(job, names[..n], Done([]));
    forall i | 0 <= i < n ensures ChainDone(job, names, outputs).roles[names[i]] == Done([]) {
      assert names[..n][i] == names[i] && names[i] != names[n];
    }
    forall r | r in names[..n] ensures r in Members(names) {
      var i :| 0 <= i < n && names[..n][i] == r;
      assert names[i] == r;
    }
    assert names[n] in Members(names);
  }

  lemma FusedFacts(s: State, s': State, t: TaskId, outputs: seq<ObjectMetadata>)
    requires CommitStep(s, s', t, outputs) && t in s.bindings && s.bindings[t].FusedChain? && BindingOk(s, t)
    ensures var id, names := s.bindings[t].job, s.bindings[t].roles;
            && id in s.jobs && names != [] && NoRepeats(names)
            && (forall i :: 0 <= i < |names| ==> names[i] in s.jobs[id].roles && s.jobs[id].roles[names[i]] == Submitted(t))
            && CommittedShape(s, s', t, outputs, ChainDone(s.jobs[id], names, Ids(outputs)))
  {
    hide FusedTask, DependencyOutputs, PrivateEdge;
  }

  lemma FusedCommitKeepsInv(s: State, s': State, t: TaskId, outputs: seq<ObjectMetadata>)
    requires Inv(s) && CommitStep(s, s', t, outputs) && t in s.bindings && s.bindings[t].FusedChain?
    ensures Inv(s')
  {
    hide *;
    var id, names := s.bindings[t].job, s.bindings[t].roles;
    BindingOf(s, t);
    FusedFacts(s, s', t, outputs);
    InvAt(s, id, names[0]);
    ChainReductions(s, id, names, t);
    FusedCommitLocalStep(s, s', t, outputs);
    FusedCommitBindingOk(s, s', t, outputs);
    ChainTouched(s, id, names, t);
    LocalInv(s, s', id, Members(names));
  }

  lemma ChainReductions(s: State, id: JobId, names: seq<string>, t: TaskId)
    requires Inv(s) && id in s.jobs
    requires forall i :: 0 <= i < |names| ==> names[i] in s.jobs[id].roles && s.jobs[id].roles[names[i]] == Submitted(t)
    ensures forall r :: r in Members(names) ==> r !in s.jobs[id].reductions && HasRole(s.jobs[id].definition.roles, r)
  {
    hide Inv, RoleOk, JobShape;
    forall r | r in Members(names) ensures r !in s.jobs[id].reductions && HasRole(s.jobs[id].definition.roles, r) {
      InvAt(s, id, r);
    }
  }

  lemma ChainTouched(s: State, id: JobId, names: seq<string>, t: TaskId)
    requires Inv(s) && id in s.jobs
    requires forall i :: 0 <= i < |names| ==> names[i] in s.jobs[id].roles && s.jobs[id].roles[names[i]] == Submitted(t)
    ensures forall other :: other in s.bindings && Touched(s.bindings[other], id, Members(names)) ==> other == t
  {
    hide Inv, BindingOk;
    forall other | other in s.bindings && Touched(s.bindings[other], id, Members(names)) ensures other == t {
      var r :| r in s.bindings[other].Mentions() && r in Members(names);
      BindingOf(s, other);
      SubmittedIsExclusive(s, id, r, t, other);
    }
  }

  lemma FusedCommitLocalStep(s: State, s': State, t: TaskId, outputs: seq<ObjectMetadata>)
    requires t in s.bindings && s.bindings[t].FusedChain?
    requires var id, names := s.bindings[t].job, s.bindings[t].roles;
             && id in s.jobs && names != [] && NoRepeats(names)
             && (forall i :: 0 <= i < |names| ==> names[i] in s.jobs[id].roles && s.jobs[id].roles[names[i]] == Submitted(t))
             && CommittedShape(s, s', t, outputs, ChainDone(s.jobs[id], names, Ids(outputs)))
             && s.jobs[id].reductions.Keys <= s.jobs[id].roles.Keys
             && forall r :: r in Members(names) ==> r !in s.jobs[id].reductions && HasRole(s.jobs[id].definition.roles, r)
    ensures LocalStep(s, s', s.bindings[t].job, Members(s.bindings[t].roles))
    ensures s'.bindings == s.bindings && s.bindings[t].job in s'.jobs
    ensures forall r :: r in Members(s.bindings[t].roles) && r in s'.jobs[s.bindings[t].job].roles ==>
              RoleOk(s', s.bindings[t].job, r)
  {
    hide LocalStep, ShardedOk, ReducingOk, DependencyOutputs, PublishAll, ChainDone;
    var id, names := s.bindings[t].job, s.bindings[t].roles;
    ChainDoneEffect(s.jobs[id], names, Ids(outputs));
    CommittedLocalStep(s, s', t, outputs, ChainDone(s.jobs[id], names, Ids(outputs)), Members(names));
  }

  lemma FusedCommitBindingOk(s: State, s': State, t: TaskId, outputs: seq<ObjectMetadata>)
    requires t in s.bindings && s.bindings[t].FusedChain? && BindingOk(s, t)
    requires var id, names := s.bindings[t].job, s.bindings[t].roles;
             && id in s.jobs && names != [] && NoRepeats(names)
             && (forall i :: 0 <= i < |names| ==> names[i] in s.jobs[id].roles && s.jobs[id].roles[names[i]] == Submitted(t))
             && CommittedShape(s, s', t, outputs, ChainDone(s.jobs[id], names, Ids(outputs)))
    ensures t in s'.bindings && BindingOk(s', t)
  {
    hide PublishAll, ChainDone, PrivateEdge, FusedOk;
    var id, names := s.bindings[t].job, s.bindings[t].roles;
    ChainDoneEffect(s.jobs[id], names, Ids(outputs));
    ChainDoneOk(s, s', t, s.jobs[id], s'.jobs[id], names, Ids(outputs));
  }

  lemma ChainDoneOk(s: State, s': State, t: TaskId, job: JobRecord, job': JobRecord, names: seq<string>, outputs: seq<ObjectId>)
    requires t in s.tasks && FusedOk(s, t, job, names) && s.tasks[t].status.Active()
    requires t in s'.tasks && s'.tasks[t] == s.tasks[t].(status := Completed(outputs))
    requires job'.definition == job.definition && job'.roles.Keys == job.roles.Keys
    requires job'.roles[names[|names| - 1]] == Done(outputs)
    requires forall i :: 0 <= i < |names| - 1 ==> job'.roles[names[i]] == Done([])
    requires forall r :: r in job.roles && r !in Members(names) ==> job'.roles[r] == job.roles[r]
    ensures FusedOk(s', t, job', names)
  {
    hide PrivateEdge, FusedTask, DependencyOutputs;
    assert JobKept(job, job') by {
      forall r | r in job.roles && job.roles[r].Done? ensures job'.roles[r] == job.roles[r] {
        assert r !in Members(names);
      }
    }
    DependenciesKept(job, job', Role(job.definition.roles, names[0]).dependsOn);
  }

  // ----- shards -----

  lemma ShardFacts(s: State, s': State, t: TaskId, outputs: seq<ObjectMetadata>)
    requires CommitStep(s, s', t, outputs) && t in s.bindings && s.bindings[t].Shard? && BindingOk(s, t)
    ensures ShardCommit(s, s', t, outputs)
    ensures s.bindings[t].job in s.jobs && s.bindings[t].role in s.jobs[s.bindings[t].job].roles
    ensures !s.jobs[s.bindings[t].job].roles[s.bindings[t].role].Reducing?
  {
    hide AfterShard;
  }

  lemma ShardCommitKeepsInv(s: State, s': State, t: TaskId, outputs: seq<ObjectMetadata>)
    requires Inv(s) && CommitStep(s, s', t, outputs) && t in s.bindings && s.bindings[t].Shard?
    ensures Inv(s')
  {
    hide *;
    var id, name := s.bindings[t].job, s.bindings[t].role;
    BindingOf(s, t);
    ShardFacts(s, s', t, outputs);
    InvAt(s, id, name);
    ShardCommitLocalStep(s, s', t, outputs);
    ShardCommitRoleOk(s, s', t, outputs);
    forall other | other in s'.bindings && (other !in s.bindings || Touched(s.bindings[other], id, {name}))
      ensures BindingOk(s', other)
    {
      BindingOf(s, other);
      ShardCommitBindingOk(s, s', t, outputs, other);
    }
    LocalInv(s, s', id, {name});
  }

  ghost predicate ShardCommit(s: State, s': State, t: TaskId, outputs: seq<ObjectMetadata>)
  {
    && t in s.bindings && s.bindings[t].Shard?
    && var id, name := s.bindings[t].job, s.bindings[t].role;
       && id in s.jobs && name in s.jobs[id].roles && t in s.tasks
       && (s.jobs[id].roles[name].Sharded? || s.jobs[id].roles[name].RoleUncertain?)
       && CommittedShape(s, s', t, outputs, AfterShard(s.jobs[id], CommittedTasks(s, t, outputs), name))
  }

  lemma ShardCommitLocalStep(s: State, s': State, t: TaskId, outputs: seq<ObjectMetadata>)
    requires ShardCommit(s, s', t, outputs)
    requires s.bindings[t].role !in s.jobs[s.bindings[t].job].reductions
    requires s.jobs[s.bindings[t].job].reductions.Keys <= s.jobs[s.bindings[t].job].roles.Keys
    ensures LocalStep(s, s', s.bindings[t].job, {s.bindings[t].role})
    ensures s'.bindings == s.bindings && s.bindings[t].job in s'.jobs
  {
    hide LocalStep, PublishAll, NumCompleted, CompletedOutputs, ReductionOf;
    var id, name := s.bindings[t].job, s.bindings[t].role;
    CommittedLocalStep(s, s', t, outputs, AfterShard(s.jobs[id], CommittedTasks(s, t, outputs), name), {name});
  }

  lemma ShardCommitRoleOk(s: State, s': State, t: TaskId, outputs: seq<ObjectMetadata>)
    requires ShardCommit(s, s', t, outputs) && RoleOk(s, s.bindings[t].job, s.bindings[t].role)
    requires LocalStep(s, s', s.bindings[t].job, {s.bindings[t].role})
    requires s.bindings[t].role !in s.jobs[s.bindings[t].job].reductions
    ensures forall r :: r in {s.bindings[t].role} && r in s'.jobs[s.bindings[t].job].roles ==> RoleOk(s', s.bindings[t].job, r)
  {
    hide PublishAll, ShardedOk, DependencyOutputs, NumCompleted, LocalStep;
    var id, name := s.bindings[t].job, s.bindings[t].role;
    if s.jobs[id].roles[name].Sharded? {
      var ids := s.jobs[id].roles[name].tasks;
      ShardedFansOut(s, id, name, ids, s.jobs[id].roles[name].completed);
      if NumCompleted(s'.tasks, ids) < |ids| {
        StillSharded(s, s', t, outputs, ids, s.jobs[id].roles[name].completed);
      }
      EmptyCount(s'.tasks);
    }
  }

  lemma EmptyCount(tasks: Tasks)
    ensures NumCompleted(tasks, []) == 0 && ItemTasks([]) == []
  {
  }

  lemma ShardedFansOut(s: State, id: JobId, name: string, ids: seq<TaskId>, completed: nat)
    requires id in s.jobs && HasRole(s.jobs[id].definition.roles, name) && ShardedOk(s, id, name, ids, completed)
    ensures Role(s.jobs[id].definition.roles, name).FansOut()
  {
  }

  lemma StillSharded(s: State, s': State, t: TaskId, outputs: seq<ObjectMetadata>, ids: seq<TaskId>, completed: nat)
    requires ShardCommit(s, s', t, outputs)
    requires LocalStep(s, s', s.bindings[t].job, {s.bindings[t].role})
    requires HasRole(s.jobs[s.bindings[t].job].definition.roles, s.bindings[t].role)
    requires ShardedOk(s, s.bindings[t].job, s.bindings[t].role, ids, completed)
    requires NumCompleted(s'.tasks, ids) < |ids|
    ensures ShardedOk(s', s.bindings[t].job, s.bindings[t].role, ids, NumCompleted(s'.tasks, ids))
  {
    hide AfterShard, PublishAll, ShardInstance, NumCompleted;
    var id, name := s.bindings[t].job, s.bindings[t].role;
    var role := Role(s.jobs[id].definition.roles, name);
    DependenciesKept(s.jobs[id], s'.jobs[id], role.dependsOn);
    var dependencies := DependencyOutputs(s.jobs[id].roles, role.dependsOn).value;
    forall i | 0 <= i < |ids| ensures ShardTaskOk(s', id, name, role, dependencies, ids[i], i, |ids|) {
      ShardInstanceFrame(role, dependencies, s.objects, s'.objects, s.tasks[ids[i]].spec, i, |ids|);
    }
  }

  lemma ShardCommitBindingOk(s: State, s': State, t: TaskId, outputs: seq<ObjectMetadata>, other: TaskId)
    requires ShardCommit(s, s', t, outputs) && other in s.bindings && BindingOk(s, other) && BindingOk(s, t)
    requires s'.bindings == s.bindings && Touched(s.bindings[other], s.bindings[t].job, {s.bindings[t].role})
    ensures BindingOk(s', other)
  {
    hide PublishAll, InstanceTask, FusedTask, PrivateEdge, DependencyOutputs, CompletedOutputs, NumCompleted, ReductionOf;
    var id, name := s.bindings[t].job, s.bindings[t].role;
    assert name in s.bindings[other].Mentions();
    assert s.bindings[other].Shard?;
    if s.jobs[id].roles[name].Sharded? {
      AllCompleted(s'.tasks, s.jobs[id].roles[name].tasks);
    }
  }

  // ----- reducers -----

  ghost predicate ReducerCommit(s: State, s': State, t: TaskId, outputs: seq<ObjectMetadata>)
  {
    && t in s.bindings && s.bindings[t].Reduction? && |outputs| == 1
    && var id, name := s.bindings[t].job, s.bindings[t].role;
       && id in s.jobs && name in s.jobs[id].roles && t in s.tasks
       && s.jobs[id].roles[name].Reducing? && t in s.jobs[id].roles[name].tasks && name in s.jobs[id].reductions
       && CommittedShape(s, s', t, outputs, AfterReducer(s.jobs[id], CommittedTasks(s, t, outputs), name))
  }

  lemma ReducerFacts(s: State, s': State, t: TaskId, outputs: seq<ObjectMetadata>)
    requires CommitStep(s, s', t, outputs) && t in s.bindings && s.bindings[t].Reduction? && BindingOk(s, t)
    ensures ReducerCommit(s, s', t, outputs)
  {
    hide AfterReducer;
  }

  lemma ReducerCommitKeepsInv(s: State, s': State, t: TaskId, outputs: seq<ObjectMetadata>)
    requires Inv(s) && CommitStep(s, s', t, outputs) && t in s.bindings && s.bindings[t].Reduction?
    ensures Inv(s')
  {
    hide *;
    var id, name := s.bindings[t].job, s.bindings[t].role;
    BindingOf(s, t);
    ReducerFacts(s, s', t, outputs);
    ReducerCommitAt(s, s', t, outputs);
    InvAt(s, id, name);
    ReducerCommitLocalStep(s, s', t, outputs);
    ReducerCommitRoleOk(s, s', t, outputs);
    forall other | other in s'.bindings && (other !in s.bindings || Touched(s.bindings[other], id, {name}))
      ensures BindingOk(s', other)
    {
      BindingOf(s, other);
      ReducerCommitBindingOk(s, s', t, outputs, other);
    }
    LocalInv(s, s', id, {name});
  }

  lemma ReducerCommitAt(s: State, s': State, t: TaskId, outputs: seq<ObjectMetadata>)
    requires ReducerCommit(s, s', t, outputs)
    ensures s.bindings[t].job in s.jobs && s.bindings[t].role in s.jobs[s.bindings[t].job].roles
  {
  }

  lemma ReducerCommitLocalStep(s: State, s': State, t: TaskId, outputs: seq<ObjectMetadata>)
    requires ReducerCommit(s, s', t, outputs)
    requires s.jobs[s.bindings[t].job].reductions.Keys <= s.jobs[s.bindings[t].job].roles.Keys
    ensures LocalStep(s, s', s.bindings[t].job, {s.bindings[t].role})
    ensures s'.bindings == s.bindings && s.bindings[t].job in s'.jobs
  {
    hide LocalStep, PublishAll, NumCompleted, LevelOutputs, ItemTasks;
    var id, name := s.bindings[t].job, s.bindings[t].role;
    CommittedLocalStep(s, s', t, outputs, AfterReducer(s.jobs[id], CommittedTasks(s, t, outputs), name), {name});
  }

  lemma ReducerCommitRoleOk(s: State, s': State, t: TaskId, outputs: seq<ObjectMetadata>)
    requires ReducerCommit(s, s', t, outputs) && RoleOk(s, s.bindings[t].job, s.bindings[t].role)
    ensures s.bindings[t].job in s'.jobs
    ensures forall r :: r in {s.bindings[t].role} && r in s'.jobs[s.bindings[t].job].roles ==> RoleOk(s', s.bindings[t].job, r)
  {
    hide PublishAll, ReducingOk, DependencyOutputs, NumCompleted, LevelOutputs, ItemTasks;
    var id, name := s.bindings[t].job, s.bindings[t].role;
    var reduction := s.jobs[id].reductions[name];
    ReducingFacts(s, id, name);
    EmptyCount(s'.tasks);
    if NumCompleted(s'.tasks, ItemTasks(reduction.items)) < |ItemTasks(reduction.items)| {
      StillReducing(s, s', t, outputs);
    } else if |LevelOutputs(s'.tasks, reduction.items)| > 1 {
      NextLevelOk(s', id, name);
    }
  }

  lemma ReducingFacts(s: State, id: JobId, name: string)
    requires id in s.jobs && name in s.jobs[id].roles && RoleOk(s, id, name) && s.jobs[id].roles[name].Reducing?
    ensures Role(s.jobs[id].definition.roles, name).FansOut() && ReductionOf(s.jobs[id], name).Some?
    ensures name in s.jobs[id].reductions
    ensures s.jobs[id].roles[name].tasks == ItemTasks(s.jobs[id].reductions[name].items)
    ensures s.jobs[id].roles[name].level == s.jobs[id].reductions[name].level
  {
    hide LevelInputs, ReducerTaskOk;
  }

  lemma NextLevelOk(s: State, id: JobId, name: string)
    requires id in s.jobs && name in s.jobs[id].roles && name in s.jobs[id].reductions
    requires HasRole(s.jobs[id].definition.roles, name) && Role(s.jobs[id].definition.roles, name).FansOut()
    requires ReductionOf(s.jobs[id], name).Some?
    requires s.jobs[id].reductions[name].items == [] && |s.jobs[id].reductions[name].inputs| >= 2
    requires s.jobs[id].roles[name] == Reducing([], 0, s.jobs[id].reductions[name].level)
    ensures RoleOk(s, id, name)
  {
    hide LevelInputs, ReducerTaskOk;
    EmptyCount(s.tasks);
  }

  lemma StillReducing(s: State, s': State, t: TaskId, outputs: seq<ObjectMetadata>)
    requires ReducerCommit(s, s', t, outputs) && RoleOk(s, s.bindings[t].job, s.bindings[t].role)
    requires var ids := ItemTasks(s.jobs[s.bindings[t].job].reductions[s.bindings[t].role].items);
             NumCompleted(s'.tasks, ids) < |ids|
    ensures s.bindings[t].job in s'.jobs && s.bindings[t].role in s'.jobs[s.bindings[t].job].roles
    ensures RoleOk(s', s.bindings[t].job, s.bindings[t].role)
  {
    hide PublishAll, LevelOutputs, NumCompleted;
    var id, name := s.bindings[t].job, s.bindings[t].role;
    var reduction := s.jobs[id].reductions[name];
    assert LevelInputs(s'.tasks, reduction.items) == LevelInputs(s.tasks, reduction.items) by {
      forall i | 0 <= i < |reduction.items| ensures ItemInputs(s'.tasks, reduction.items[i]) == ItemInputs(s.tasks, reduction.items[i]) {}
    }
  }

  lemma ReducerCommitBindingOk(s: State, s': State, t: TaskId, outputs: seq<ObjectMetadata>, other: TaskId)
    requires ReducerCommit(s, s', t, outputs) && other in s.bindings && BindingOk(s, other)
    requires RoleOk(s, s.bindings[t].job, s.bindings[t].role) && BindingOk(s, t)
    requires s'.bindings == s.bindings && Touched(s.bindings[other], s.bindings[t].job, {s.bindings[t].role})
    ensures BindingOk(s', other)
  {
    hide PublishAll, InstanceTask, FusedTask, PrivateEdge, DependencyOutputs, LevelOutputs, NumCompleted, ReducingOk;
    var id, name := s.bindings[t].job, s.bindings[t].role;
    ReducingFacts(s, id, name);
    assert name in s.bindings[other].Mentions();
    assert s.bindings[other].Shard? || s.bindings[other].Reduction?;
    AllCompleted(s'.tasks, s.jobs[id].roles[name].tasks);
  }

  // ----- all commits -----

  lemma UnboundCommitKeepsInv(s: State, s': State, t: TaskId, outputs: seq<ObjectMetadata>)
    requires Inv(s) && CommitStep(s, s', t, outputs) && t !in s.bindings
    ensures Inv(s')
  {
    hide Inv, PublishAll;
    PublishKeepsObjects(s.objects, outputs);
    QuietStep(s, s');
  }

  lemma CommitKeepsInv(s: State, s': State, t: TaskId, outputs: seq<ObjectMetadata>)
    requires Inv(s) && CommitStep(s, s', t, outputs)
    ensures Inv(s')
  {
    hide *;
    if t !in s.bindings {
      UnboundCommitKeepsInv(s, s', t, outputs);
    } else {
      match s.bindings[t] {
        case Single(_, _) => SingleCommitKeepsInv(s, s', t, outputs);
        case FusedChain(_, _) => FusedCommitKeepsInv(s, s', t, outputs);
        case Shard(_, _) => ShardCommitKeepsInv(s, s', t, outputs);
        case Reduction(_, _) => ReducerCommitKeepsInv(s, s', t, outputs);
      }
    }
  }
}
