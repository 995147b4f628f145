/** Whatever happens on the way, a completed job's objects hold what the job means. */
module RunIndependence {
  import opened Wrappers
  import opened Core
  import opened Sequences
  import opened Execution
  import opened FusionRewrite
  import opened RoleGraph
  import opened Partition
  import opened Sharding
  import opened ReductionTree
  import opened ReductionPlanning
  import opened Admission
  import opened FabricModel
  import opened FabricInvariant
  import opened FabricSteps
  import opened FabricCommit
  import opened FabricRuns
  import opened Progress
  import opened Denotation
  import opened Worlds
  import opened RunMeaning
  import opened RunValues

  // ----- commits -----

  ghost predicate HonestCommit(env: Env, w: World, w': World, t: TaskId, outputs: seq<ObjectMetadata>)
  {
    && t in w.fabric.tasks && CommitStep(w.fabric, w'.fabric, t, outputs)
    && HonestOutput(env, w, t, outputs, w'.contents) && Grows(w.contents, w'.contents)
    && ContentsOk(env, w) && ContentsOk(env, w')
  }

  lemma CommitIsHonest(env: Env, w: World, w': World, action: Action)
    requires action.CommitExecution? && HonestStep(env, w, w', action) && ContentsOk(env, w) && ContentsOk(env, w')
    ensures HonestCommit(env, w, w', action.lease.task, action.outputs)
  {
    hide TaskOutcome, ContentsOk, Enabled, Step, CommitStep;
    CommittedStatus(w.fabric, action);
    StepGrows(env, w, w', action);
  }

  /** The one output holds what the task computes from its inputs. */
  lemma CommittedOutput(env: Env, w: World, w': World, t: TaskId, outputs: seq<ObjectMetadata>) returns (bytes: Bytes)
    requires HonestCommit(env, w, w', t, outputs)
    ensures TaskOutcome(env, w.contents, w.fabric.tasks[t].spec) == Some(bytes)
    ensures Available(w'.contents, Ids(outputs)) && Lookup(w'.contents, Ids(outputs)) == [bytes]
    ensures StaticsAgree(env, w) && StaticsAgree(env, w') && Grows(w.contents, w'.contents)
  {
    hide TaskOutcome, CommitStep, StaticsAgree;
    bytes := TaskOutcome(env, w.contents, w.fabric.tasks[t].spec).value;
    assert Ids(outputs) == [outputs[0].id];
  }

  lemma SingleMeans(env: Env, w: World, w': World, t: TaskId, outputs: seq<ObjectMetadata>, id: JobId, name: string)
    requires HonestCommit(env, w, w', t, outputs) && WorldMeans(env, w)
    requires t in w.fabric.bindings && w.fabric.bindings[t] == Single(id, name) && BindingOk(w.fabric, t)
    requires id in w.fabric.jobs && RearrangeableJob(env, w.fabric.jobs[id].definition)
    ensures RoleMeans(env, w'.contents, SetRole(w.fabric.jobs[id], name, Done(Ids(outputs))), name)
  {
    hide RearrangeableJob, TaskOutcome, Meaning, InstanceTask, StaticsAgree, PublishAll, JobMeans, Commit, Receives;
    var job := w.fabric.jobs[id];
    SingleCommits(w.fabric, t, id, name);
    var bytes := CommittedOutput(env, w, w', t, outputs);
    UnfinishedReceives(env, w.contents, job, name);
    var inputs := DependencyOutputs(job.roles, Role(job.definition.roles, name).dependsOn).value;
    SingleOutput(env, w, job, name, t, inputs, w.fabric.tasks[t].spec);
  }

  lemma SingleCommits(s: State, t: TaskId, id: JobId, name: string)
    requires t in s.bindings && s.bindings[t] == Single(id, name) && BindingOk(s, t) && s.tasks[t].status.Active()
    ensures id in s.jobs && name in s.jobs[id].roles && s.jobs[id].roles[name] == Submitted(t)
  {
    hide InstanceTask, DependencyOutputs;
  }

  /** The last role of a chain is known; the ones before it can no longer be read. */
  lemma FusedMeans(env: Env, w: World, w': World, t: TaskId, outputs: seq<ObjectMetadata>, id: JobId, names: seq<string>)
    requires HonestCommit(env, w, w', t, outputs) && WorldMeans(env, w)
    requires t in w.fabric.bindings && w.fabric.bindings[t] == FusedChain(id, names) && BindingOk(w.fabric, t)
    requires id in w.fabric.jobs && RearrangeableJob(env, w.fabric.jobs[id].definition)
    ensures names != []
    ensures forall r :: r in Members(names) ==>
              RoleMeans(env, w'.contents, ChainDone(w.fabric.jobs[id], names, Ids(outputs)), r)
  {
    hide *;
    var job := w.fabric.jobs[id];
    RearrangeableIsValid(env, job.definition);
    CommitIsActive(env, w, w', t, outputs);
    ChainIsSubmitted(w.fabric, t, id, names);
    ChainOutputKnown(env, w, w', t, outputs, id, names);
    ChainDoneMeans(env, w'.contents, job, names, Ids(outputs));
  }

  lemma ChainDoneMeans(env: Env, contents: Contents, job: JobRecord, names: seq<string>, outputs: seq<ObjectId>)
    requires ValidJob(job.definition) && |names| >= 2 && NoRepeats(names)
    requires forall i :: 0 <= i < |names| ==> names[i] in job.roles
    requires HasRole(job.definition.roles, names[|names| - 1])
    requires Known(env, contents, job.definition, names[|names| - 1], outputs)
    requires forall i :: 0 <= i < |names| - 1 ==> PrivateEdge(job.definition, names[i], names[i + 1])
    ensures forall r :: r in Members(names) ==> RoleMeans(env, contents, ChainDone(job, names, outputs), r)
  {
    hide ValidJob, ChainDone, PrivateEdge, Hidden, Known;
    ChainDoneEffect(job, names, outputs);
    var job' := ChainDone(job, names, outputs);
    forall r | r in Members(names) ensures RoleMeans(env, contents, job', r) {
      var i :| 0 <= i < |names| && names[i] == r;
      if i < |names| - 1 { InteriorIsHidden(job', names, i); }
    }
  }

  lemma RearrangeableIsValid(env: Env, definition: JobDefinition)
    requires RearrangeableJob(env, definition)
    ensures ValidJob(definition)
  {
  }

  lemma CommitIsActive(env: Env, w: World, w': World, t: TaskId, outputs: seq<ObjectMetadata>)
    requires HonestCommit(env, w, w', t, outputs)
    ensures t in w.fabric.tasks && w.fabric.tasks[t].status.Active()
  {
  }

  lemma ChainOutputKnown(env: Env, w: World, w': World, t: TaskId, outputs: seq<ObjectMetadata>, id: JobId, names: seq<string>)
    requires HonestCommit(env, w, w', t, outputs) && WorldMeans(env, w)
    requires t in w.fabric.bindings && w.fabric.bindings[t] == FusedChain(id, names) && BindingOk(w.fabric, t)
    requires id in w.fabric.jobs && RearrangeableJob(env, w.fabric.jobs[id].definition)
    ensures names != [] && ValidJob(w.fabric.jobs[id].definition)
    ensures HasRole(w.fabric.jobs[id].definition.roles, names[|names| - 1])
    ensures Known(env, w'.contents, w.fabric.jobs[id].definition, names[|names| - 1], Ids(outputs))
  {
    hide RearrangeableJob, TaskOutcome, Meaning, BindingOk, FusedTask, StaticsAgree, HonestCommit, WorldMeans, JobMeans, PrivateEdge, ValidJob, Receives;
    var job := w.fabric.jobs[id];
    RearrangeableIsValid(env, job.definition);
    CommitIsActive(env, w, w', t, outputs);
    ChainIsSubmitted(w.fabric, t, id, names);
    FusedReceives(w.fabric, t, id, names);
    var bytes := CommittedOutput(env, w, w', t, outputs);
    JobMeansAt(env, w, id);
    UnfinishedReceives(env, w.contents, job, names[0]);
    FusedOutput(env, w, job, names, t, DependencyOutputs(job.roles, Role(job.definition.roles, names[0]).dependsOn).value,
                w.fabric.tasks[t].spec);
  }

  lemma FusedReceives(s: State, t: TaskId, id: JobId, names: seq<string>)
    requires t in s.bindings && s.bindings[t] == FusedChain(id, names) && BindingOk(s, t)
    ensures t in s.tasks && id in s.jobs && names != [] && HasRole(s.jobs[id].definition.roles, names[0])
    ensures var dependencies := DependencyOutputs(s.jobs[id].roles, Role(s.jobs[id].definition.roles, names[0]).dependsOn);
            dependencies.Some? && FusedTask(s.jobs[id].definition, names, dependencies.value, t, s.tasks[t].spec)
  {
    hide FusedTask, DependencyOutputs, PrivateEdge;
  }

  lemma ChainIsSubmitted(s: State, t: TaskId, id: JobId, names: seq<string>)
    requires t in s.bindings && s.bindings[t] == FusedChain(id, names) && BindingOk(s, t) && s.tasks[t].status.Active()
    ensures id in s.jobs && |names| >= 2 && NoRepeats(names)
    ensures forall i :: 0 <= i < |names| ==> names[i] in s.jobs[id].roles && s.jobs[id].roles[names[i]] == Submitted(t)
    ensures forall i :: 0 <= i < |names| ==>
              HasRole(s.jobs[id].definition.roles, names[i]) && !Role(s.jobs[id].definition.roles, names[i]).FansOut()
    ensures forall i :: 0 <= i < |names| - 1 ==> PrivateEdge(s.jobs[id].definition, names[i], names[i + 1])
    ensures forall i :: 0 <= i < |names| - 1 ==> Role(s.jobs[id].definition.roles, names[i + 1]).dependsOn == [names[i]]
  {
    hide FusedTask, DependencyOutputs;
  }

  lemma InteriorIsHidden(job: JobRecord, names: seq<string>, i: nat)
    requires i < |names| - 1 && PrivateEdge(job.definition, names[i], names[i + 1])
    requires names[i + 1] in job.roles && job.roles[names[i + 1]].Done?
    ensures Hidden(job, names[i])
  {
  }

  // ----- a shard completes its role -----

  lemma ShardsMean(env: Env, w: World, w': World, t: TaskId, outputs: seq<ObjectMetadata>, id: JobId, name: string)
    requires Inv(w.fabric) && HonestCommit(env, w, w', t, outputs) && WorldMeans(env, w)
    requires id in w.fabric.jobs && name in w.fabric.jobs[id].roles && HasRole(w.fabric.jobs[id].definition.roles, name)
    requires w.fabric.jobs[id].roles[name].Sharded? && RearrangeableJob(env, w.fabric.jobs[id].definition)
    requires NumCompleted(w'.fabric.tasks, w.fabric.jobs[id].roles[name].tasks) == |w.fabric.jobs[id].roles[name].tasks|
    requires w'.fabric.tasks == CommittedTasks(w.fabric, t, outputs)
    ensures RoleMeans(env, w'.contents, AfterShard(w.fabric.jobs[id], w'.fabric.tasks, name), name)
  {
    hide Inv, ValidJob, Rearrangeable, WorldMeans, HonestCommit, ContentsOk, JobMeans, Receives, Meaning, RoleOk, JobShape, ShardedOk, BindingOk;
    var job := w.fabric.jobs[id];
    var role := Role(job.definition.roles, name);
    var ids := job.roles[name].tasks;
    var tasks' := w'.fabric.tasks;
    ShardsKnown(env, w, w', t, outputs, id, name);
    var shards := CompletedOutputs(tasks', ids);
    var values := Lookup(w'.contents, shards);
    ShardedIsReduced(env, job.definition, name, |ids|, values);
    if ReductionOf(job, name).Some? && |shards| > 1 {
      assert AfterShard(job, tasks', name).reductions[name].inputs == shards;
    }
  }

  /** The shards' objects hold the shard values the role's meaning is made of. */
  ghost predicate ShardsHold(env: Env, definition: JobDefinition, name: string, count: nat, values: seq<Bytes>)
    requires ValidJob(definition) && HasRole(definition.roles, name)
  {
    var role := Role(definition.roles, name);
    && role.FansOut() && |role.Templates()| > 0 && |values| == count
    && exists received :: ShardValues(env, role, received, count, count) == Some(values)
         && Meaning(env, definition, name) == ShardedValue(env, role, received, count)
  }

  lemma ShardedIsReduced(env: Env, definition: JobDefinition, name: string, count: nat, values: seq<Bytes>)
    requires ValidJob(definition) && HasRole(definition.roles, name) && ShardsHold(env, definition, name, count, values)
    ensures var role := Role(definition.roles, name);
            && role.Logical?
            && Meaning(env, definition, name)
               == if role.reduction.Some? then Flat(ReducerOf(env, role.reduction.value), values) else Some(values)
  {
    hide ValidJob, Meaning, ShardValues, Flat, ReducerOf;
  }

  lemma ShardsKnown(env: Env, w: World, w': World, t: TaskId, outputs: seq<ObjectMetadata>, id: JobId, name: string)
    requires Inv(w.fabric) && HonestCommit(env, w, w', t, outputs) && WorldMeans(env, w)
    requires id in w.fabric.jobs && name in w.fabric.jobs[id].roles && HasRole(w.fabric.jobs[id].definition.roles, name)
    requires w.fabric.jobs[id].roles[name].Sharded? && RearrangeableJob(env, w.fabric.jobs[id].definition)
    requires NumCompleted(w'.fabric.tasks, w.fabric.jobs[id].roles[name].tasks) == |w.fabric.jobs[id].roles[name].tasks|
    requires w'.fabric.tasks == CommittedTasks(w.fabric, t, outputs)
    ensures var shards := CompletedOutputs(w'.fabric.tasks, w.fabric.jobs[id].roles[name].tasks);
            && Available(w'.contents, shards)
            && ShardsHold(env, w.fabric.jobs[id].definition, name, |w.fabric.jobs[id].roles[name].tasks|,
                          Lookup(w'.contents, shards))
  {
    hide Inv, ValidJob, Rearrangeable, WorldMeans, HonestCommit, JobMeans, Meaning, RoleOk, JobShape, BindingOk,
      ShardInstance, InputMeaning, ShardedValue, ShardValues;
    var job := w.fabric.jobs[id];
    var role := Role(job.definition.roles, name);
    var ids := job.roles[name].tasks;
    InvAt(w.fabric, id, name);
    RoleIsValid(job, name);
    RoleIsRearrangeable(env, job.definition, name);
    TemplatesExist(env, role);
    ShardedFacts(w.fabric, id, name);
    JobMeansAt(env, w, id);
    UnfinishedReceives(env, w.contents, job, name);
    var inputs := DependencyOutputs(job.roles, role.dependsOn).value;
    var received := Lookup(w.contents, inputs);
    CommittedWorlds(env, w, w', t, outputs);
    LookupGrows(w.contents, w'.contents, inputs);
    AllCompleted(w'.fabric.tasks, ids);
    forall i | 0 <= i < |ids| ensures CompletedShard(env, w', role, inputs, w.fabric.objects, ids[i], i, |ids|) {
      assert ShardTaskOk(w.fabric, id, name, role, inputs, ids[i], i, |ids|);
    }
    ShardOutputs(env, w', role, inputs, w.fabric.objects, ids, |ids|);
    assert ids[..|ids|] == ids;
    ShardedMeaning(env, job.definition, name, received, |ids|);
  }

  lemma JobMeansAt(env: Env, w: World, id: JobId)
    requires WorldMeans(env, w) && id in w.fabric.jobs
    ensures JobMeans(env, w.contents, w.fabric.jobs[id])
  {
  }

  lemma ShardedFacts(s: State, id: JobId, name: string)
    requires id in s.jobs && name in s.jobs[id].roles && RoleOk(s, id, name) && s.jobs[id].roles[name].Sharded?
    ensures var role, ids := Role(s.jobs[id].definition.roles, name), s.jobs[id].roles[name].tasks;
            && role.FansOut() && |ids| >= 1 && (role.shards.Fixed? ==> |ids| == role.shards.count)
            && (role.shards.Auto? ==> |ids| <= role.shards.policy.maxShards)
            && DependencyOutputs(s.jobs[id].roles, role.dependsOn).Some?
            && forall i :: 0 <= i < |ids| ==>
                 ShardTaskOk(s, id, name, role, DependencyOutputs(s.jobs[id].roles, role.dependsOn).value, ids[i], i, |ids|)
  {
    hide ShardTaskOk, DependencyOutputs;
  }

  lemma CommittedWorlds(env: Env, w: World, w': World, t: TaskId, outputs: seq<ObjectMetadata>)
    requires HonestCommit(env, w, w', t, outputs)
    ensures StaticsAgree(env, w) && StaticsAgree(env, w') && Grows(w.contents, w'.contents)
    ensures SizesAgree(env, w.fabric.objects)
    ensures forall u :: u in w'.fabric.tasks ==> ComputedTask(env, w', u)
  {
    hide CommitStep, ComputedTask;
  }

  // ----- a reducer completes its level -----

  lemma ReducersMean(env: Env, w: World, w': World, t: TaskId, outputs: seq<ObjectMetadata>, id: JobId, name: string)
    requires Inv(w.fabric) && HonestCommit(env, w, w', t, outputs) && WorldMeans(env, w)
    requires id in w.fabric.jobs && name in w.fabric.jobs[id].roles && HasRole(w.fabric.jobs[id].definition.roles, name)
    requires w.fabric.jobs[id].roles[name].Reducing? && t in w.fabric.jobs[id].roles[name].tasks
    requires name in w.fabric.jobs[id].reductions && RearrangeableJob(env, w.fabric.jobs[id].definition)
    requires NumCompleted(w'.fabric.tasks, ItemTasks(w.fabric.jobs[id].reductions[name].items))
             == |ItemTasks(w.fabric.jobs[id].reductions[name].items)|
    requires w'.fabric.tasks == CommittedTasks(w.fabric, t, outputs)
    ensures RoleMeans(env, w'.contents, AfterReducer(w.fabric.jobs[id], w'.fabric.tasks, name), name)
  {
    hide Inv, ValidJob, Rearrangeable, WorldMeans, HonestCommit, ContentsOk, JobMeans, Meaning, RoleOk, JobShape, BindingOk, ReducerOf, Flat;
    var job := w.fabric.jobs[id];
    var reduction := job.reductions[name];
    NextLevelKnown(env, w, w', t, outputs, id, name);
    var next := LevelOutputs(w'.fabric.tasks, reduction.items);
    if |next| <= 1 { FlatOfOne(ReducerOf(env, ReductionOf(job, name).value), Lookup(w'.contents, next)); }
  }

  lemma FlatOfOne(reduce: Reducer, values: seq<Bytes>)
    requires |values| <= 1
    ensures Flat(reduce, values) == Some(values)
  {
  }

  lemma NextLevelKnown(env: Env, w: World, w': World, t: TaskId, outputs: seq<ObjectMetadata>, id: JobId, name: string)
    requires Inv(w.fabric) && HonestCommit(env, w, w', t, outputs) && WorldMeans(env, w)
    requires id in w.fabric.jobs && name in w.fabric.jobs[id].roles && HasRole(w.fabric.jobs[id].definition.roles, name)
    requires w.fabric.jobs[id].roles[name].Reducing? && t in w.fabric.jobs[id].roles[name].tasks
    requires name in w.fabric.jobs[id].reductions && RearrangeableJob(env, w.fabric.jobs[id].definition)
    requires NumCompleted(w'.fabric.tasks, ItemTasks(w.fabric.jobs[id].reductions[name].items))
             == |ItemTasks(w.fabric.jobs[id].reductions[name].items)|
    requires w'.fabric.tasks == CommittedTasks(w.fabric, t, outputs)
    ensures Reduces(env, w'.contents, w.fabric.jobs[id], name,
                    LevelOutputs(w'.fabric.tasks, w.fabric.jobs[id].reductions[name].items))
  {
    hide Inv, ValidJob, WorldMeans, HonestCommit, Meaning, RoleOk, JobShape, BindingOk, ReducerOf, Flat, ReducerTaskOk,
      OneFunction, CountInsensitive, OrderedAssociative, ReductionOf, ComputedTask;
    var job := w.fabric.jobs[id];
    var items := job.reductions[name].items;
    InvAt(w.fabric, id, name);
    LevelFacts(w.fabric, id, name, t);
    var reduction := ReductionOf(job, name).value;
    ReducerIsRearrangeable(env, job, name);
    JobMeansAt(env, w, id);
    CommittedWorlds(env, w, w', t, outputs);
    assert RoleMeans(env, w.contents, job, name);
    LookupGrows(w.contents, w'.contents, job.reductions[name].inputs);
    AllCompleted(w'.fabric.tasks, ItemTasks(items));
    CommitIsActive(env, w, w', t, outputs);
    forall i | 0 <= i < |items| ensures CompletedItem(env, w', reduction, items[i]) {
      if items[i].TaskItem? {
        ItemTaskListed(items, i);
        var k :| 0 <= k < |ItemTasks(items)| && ItemTasks(items)[k] == items[i].task;
        LevelItemCompleted(env, w, w', t, outputs, id, name, items[i]);
      }
    }
    LevelInputsCommitted(w.fabric, t, outputs, items);
    LevelKeepsReduction(env, w', reduction, items, job.reductions[name].inputs);
  }

  lemma LevelInputsCommitted(s: State, t: TaskId, outputs: seq<ObjectMetadata>, items: seq<ReductionItem>)
    requires t in s.tasks
    ensures LevelInputs(CommittedTasks(s, t, outputs), items) == LevelInputs(s.tasks, items)
  {
    forall i | 0 <= i < |items| ensures ItemInputs(CommittedTasks(s, t, outputs), items[i]) == ItemInputs(s.tasks, items[i]) {}
  }

  lemma LevelItemCompleted(env: Env, w: World, w': World, t: TaskId, outputs: seq<ObjectMetadata>, id: JobId, name: string,
                           item: ReductionItem)
    requires t in w.fabric.tasks && w'.fabric.tasks == CommittedTasks(w.fabric, t, outputs)
    requires item.TaskItem? && id in w.fabric.jobs && ReductionOf(w.fabric.jobs[id], name).Some?
    requires ReducerTaskOk(w.fabric, id, name, ReductionOf(w.fabric.jobs[id], name).value, item.task)
    requires w'.fabric.tasks[item.task].status.Completed? && ComputedTask(env, w', item.task)
    ensures CompletedItem(env, w', ReductionOf(w.fabric.jobs[id], name).value, item)
  {
    hide ComputedTask, ReductionOf;
  }

  lemma ReducerIsRearrangeable(env: Env, job: JobRecord, name: string)
    requires RearrangeableJob(env, job.definition) && HasRole(job.definition.roles, name) && ReductionOf(job, name).Some?
    ensures OrderedAssociative(ReducerOf(env, ReductionOf(job, name).value))
    ensures ReductionOf(job, name).value.task.inputs == []
  {
    hide OrderedAssociative, ReducerOf, OneFunction, CountInsensitive;
    RoleIsRearrangeable(env, job.definition, name);
    var role := Role(job.definition.roles, name);
    var i :| 0 <= i < |job.definition.roles| && job.definition.roles[i] == role;
  }

  lemma LevelFacts(s: State, id: JobId, name: string, t: TaskId)
    requires id in s.jobs && name in s.jobs[id].roles && RoleOk(s, id, name) && s.jobs[id].roles[name].Reducing?
    requires t in s.jobs[id].roles[name].tasks
    ensures name in s.jobs[id].reductions && ReductionOf(s.jobs[id], name).Some?
    ensures var reduction := s.jobs[id].reductions[name];
            && Flatten(LevelInputs(s.tasks, reduction.items)) == reduction.inputs
            && forall i :: 0 <= i < |ItemTasks(reduction.items)| ==>
                 ReducerTaskOk(s, id, name, ReductionOf(s.jobs[id], name).value, ItemTasks(reduction.items)[i])
  {
    hide ReducerTaskOk, LevelInputs;
  }

  // ----- every step keeps the meaning -----

  lemma CommitKept(s: State, s': State, t: TaskId, outputs: seq<ObjectMetadata>, id: JobId)
    requires Inv(s) && CommitStep(s, s', t, outputs) && id in s.jobs
    ensures id in s'.jobs && JobKept(s.jobs[id], s'.jobs[id])
    ensures forall r :: r in s.jobs[id].roles && s.jobs[id].roles[r].Reducing? ==> r in s.jobs[id].reductions
  {
    hide Inv, CommitStep, TaskAdvances;
    CommitProgresses(s, s', t, outputs);
    ReducingIsRecorded(s, id);
    assert JobAdvances(s.jobs[id], s'.jobs[id]);
    forall r | r in s.jobs[id].roles && s.jobs[id].roles[r].Done? ensures s'.jobs[id].roles[r] == s.jobs[id].roles[r] {
      assert Advances(s.jobs[id].roles[r], s'.jobs[id].roles[r]);
    }
  }

  lemma UntouchedJobMeans(env: Env, w: World, w': World, id: JobId)
    requires WorldMeans(env, w) && Grows(w.contents, w'.contents)
    requires id in w.fabric.jobs && id in w'.fabric.jobs && JobStill(w.fabric, w'.fabric, id)
    ensures JobMeans(env, w'.contents, w'.fabric.jobs[id])
  {
    hide JobMeans, RearrangeableJob, RoleMeans;
    JobMeansKept(env, w.contents, w'.contents, w.fabric.jobs[id], w'.fabric.jobs[id], {});
  }

  lemma SingleJobMeans(env: Env, w: World, w': World, t: TaskId, outputs: seq<ObjectMetadata>, id: JobId, name: string)
    requires Inv(w.fabric) && HonestCommit(env, w, w', t, outputs) && WorldMeans(env, w)
    requires t in w.fabric.bindings && w.fabric.bindings[t] == Single(id, name)
    ensures id in w'.fabric.jobs && JobMeans(env, w'.contents, w'.fabric.jobs[id])
  {
    hide Inv, BindingOk, WorldMeans, JobMeans, RearrangeableJob, RoleMeans, CommitStep, ContentsOk, HonestOutput, PublishAll;
    BindingOf(w.fabric, t);
    SingleFacts(w.fabric, w'.fabric, t, outputs);
    CommitKept(w.fabric, w'.fabric, t, outputs, id);
    JobMeansAt(env, w, id);
    if RearrangeableJob(env, w.fabric.jobs[id].definition) { SingleMeans(env, w, w', t, outputs, id, name); }
    JobMeansKept(env, w.contents, w'.contents, w.fabric.jobs[id], w'.fabric.jobs[id], {name});
  }

  lemma FusedJobMeans(env: Env, w: World, w': World, t: TaskId, outputs: seq<ObjectMetadata>, id: JobId, names: seq<string>)
    requires Inv(w.fabric) && HonestCommit(env, w, w', t, outputs) && WorldMeans(env, w)
    requires t in w.fabric.bindings && w.fabric.bindings[t] == FusedChain(id, names)
    ensures id in w'.fabric.jobs && JobMeans(env, w'.contents, w'.fabric.jobs[id])
  {
    hide Inv, BindingOk, WorldMeans, JobMeans, RearrangeableJob, RoleMeans, CommitStep, ContentsOk, HonestOutput, PublishAll, ChainDone;
    BindingOf(w.fabric, t);
    FusedFacts(w.fabric, w'.fabric, t, outputs);
    CommitKept(w.fabric, w'.fabric, t, outputs, id);
    JobMeansAt(env, w, id);
    ChainDoneEffect(w.fabric.jobs[id], names, Ids(outputs));
    if RearrangeableJob(env, w.fabric.jobs[id].definition) { FusedMeans(env, w, w', t, outputs, id, names); }
    JobMeansKept(env, w.contents, w'.contents, w.fabric.jobs[id], w'.fabric.jobs[id], Members(names));
  }

  lemma ShardJobMeans(env: Env, w: World, w': World, t: TaskId, outputs: seq<ObjectMetadata>, id: JobId, name: string)
    requires Inv(w.fabric) && HonestCommit(env, w, w', t, outputs) && WorldMeans(env, w)
    requires t in w.fabric.bindings && w.fabric.bindings[t] == Shard(id, name)
    ensures id in w'.fabric.jobs && JobMeans(env, w'.contents, w'.fabric.jobs[id])
  {
    hide Inv, BindingOk, RoleOk, WorldMeans, JobMeans, RearrangeableJob, RoleMeans, CommitStep, ContentsOk, HonestOutput, PublishAll, JobShape,
      CompletedOutputs, NumCompleted, ReductionOf, JobKept;
    BindingOf(w.fabric, t);
    ShardFacts(w.fabric, w'.fabric, t, outputs);
    CommitKept(w.fabric, w'.fabric, t, outputs, id);
    InvAt(w.fabric, id, name);
    JobMeansAt(env, w, id);
    var job, job' := w.fabric.jobs[id], w'.fabric.jobs[id];
    if RearrangeableJob(env, job.definition) {
      if job.roles[name].Sharded? && NumCompleted(w'.fabric.tasks, job.roles[name].tasks) == |job.roles[name].tasks| {
        ShardsMean(env, w, w', t, outputs, id, name);
      } else {
        UnfinishedMeans(env, w'.contents, job', name);
      }
    }
    JobMeansKept(env, w.contents, w'.contents, job, job', {name});
  }

  lemma UnfinishedMeans(env: Env, contents: Contents, job: JobRecord, name: string)
    requires name in job.roles && !job.roles[name].Done? && !job.roles[name].Reducing?
    ensures RoleMeans(env, contents, job, name)
  {
  }

  lemma ReducerJobMeans(env: Env, w: World, w': World, t: TaskId, outputs: seq<ObjectMetadata>, id: JobId, name: string)
    requires Inv(w.fabric) && HonestCommit(env, w, w', t, outputs) && WorldMeans(env, w)
    requires t in w.fabric.bindings && w.fabric.bindings[t] == Reduction(id, name)
    ensures id in w'.fabric.jobs && JobMeans(env, w'.contents, w'.fabric.jobs[id])
  {
    hide Inv, BindingOk, RoleOk, WorldMeans, RearrangeableJob, RoleMeans, CommitStep, ContentsOk, HonestOutput, PublishAll, JobShape,
      LevelOutputs, NumCompleted, ItemTasks, ReductionOf, JobKept;
    BindingOf(w.fabric, t);
    ReducerFacts(w.fabric, w'.fabric, t, outputs);
    CommitKept(w.fabric, w'.fabric, t, outputs, id);
    InvAt(w.fabric, id, name);
    JobMeansAt(env, w, id);
    var job, job' := w.fabric.jobs[id], w'.fabric.jobs[id];
    var ids := ItemTasks(job.reductions[name].items);
    if RearrangeableJob(env, job.definition) {
      if NumCompleted(w'.fabric.tasks, ids) == |ids| {
        ReducersMean(env, w, w', t, outputs, id, name);
      } else {
        RoleMeansKept(env, w.contents, w'.contents, job, job', name);
      }
    }
    JobMeansKept(env, w.contents, w'.contents, job, job', {name});
  }

  lemma CommitKeepsMeaning(env: Env, w: World, w': World, t: TaskId, outputs: seq<ObjectMetadata>)
    requires Inv(w.fabric) && HonestCommit(env, w, w', t, outputs) && WorldMeans(env, w)
    ensures WorldMeans(env, w')
  {
    hide Inv, BindingOk, JobMeans, CommitStep, ContentsOk, HonestOutput, JobStill;
    CommitTouchesOneJob(w.fabric, w'.fabric, t, outputs);
    forall id | id in w'.fabric.jobs ensures JobMeans(env, w'.contents, w'.fabric.jobs[id]) {
      if t in w.fabric.bindings && w.fabric.bindings[t].job == id {
        match w.fabric.bindings[t] {
          case Single(_, name) => SingleJobMeans(env, w, w', t, outputs, id, name);
          case FusedChain(_, names) => FusedJobMeans(env, w, w', t, outputs, id, names);
          case Shard(_, name) => ShardJobMeans(env, w, w', t, outputs, id, name);
          case Reduction(_, name) => ReducerJobMeans(env, w, w', t, outputs, id, name);
        }
      } else {
        CommitKept(w.fabric, w'.fabric, t, outputs, id);
        SameJobStill(w.fabric, w'.fabric, id);
        UntouchedJobMeans(env, w, w', id);
      }
    }
  }

  lemma CommitTouchesOneJob(s: State, s': State, t: TaskId, outputs: seq<ObjectMetadata>)
    requires CommitStep(s, s', t, outputs)
    ensures s'.jobs.Keys == s.jobs.Keys
    ensures forall id :: id in s.jobs && !(t in s.bindings && s.bindings[t].job == id) ==> s'.jobs[id] == s.jobs[id]
  {
    hide AfterTask, PublishAll;
  }

  lemma NewJobMeans(env: Env, w: World, w': World, id: JobId)
    requires id !in w.fabric.jobs && id in w'.fabric.jobs && JobStill(w.fabric, w'.fabric, id)
    ensures JobMeans(env, w'.contents, w'.fabric.jobs[id])
  {
    hide ValidJob, Rearrangeable;
  }

  /** Every honest step keeps the invariant, the contents and the meaning. */
  lemma StepKeepsMeaning(env: Env, w: World, w': World, action: Action)
    requires Inv(w.fabric) && ContentsOk(env, w) && WorldMeans(env, w) && HonestStep(env, w, w', action)
    ensures Inv(w'.fabric) && ContentsOk(env, w') && WorldMeans(env, w')
  {
    hide Inv, ContentsOk, JobMeans, Step, Enabled, JobStill, HonestOutput, HonestPublication, Grows;
    StepKeepsInv(w.fabric, action);
    StepKeepsContents(env, w, w', action);
    if action.CommitExecution? {
      CommitIsHonest(env, w, w', action);
      CommitKeepsMeaning(env, w, w', action.lease.task, action.outputs);
    } else {
      StepGrows(env, w, w', action);
      forall id | id in w'.fabric.jobs ensures JobMeans(env, w'.contents, w'.fabric.jobs[id]) {
        OthersAreStill(w.fabric, action, id);
        if id in w.fabric.jobs { UntouchedJobMeans(env, w, w', id); } else { NewJobMeans(env, w, w', id); }
      }
    }
  }

  lemma {:induction false} RunKeepsMeaning(env: Env, worlds: seq<World>, actions: seq<Action>, i: nat)
    requires HonestRun(env, worlds, actions) && i < |worlds|
    ensures Inv(worlds[i].fabric) && ContentsOk(env, worlds[i]) && WorldMeans(env, worlds[i])
  {
    hide Inv, HonestStep, JobMeans;
    if i == 0 {
      InvInitially();
    } else {
      RunKeepsMeaning(env, worlds, actions, i - 1);
      StepKeepsMeaning(env, worlds[i - 1], worlds[i], actions[i - 1]);
    }
  }

  // ----- the result of a completed job -----

  lemma {:induction false} OutputsMean(env: Env, contents: Contents, job: JobRecord, k: nat)
    requires RearrangeableJob(env, job.definition) && JobMeans(env, contents, job) && k <= |job.definition.outputs|
    requires forall i :: 0 <= i < |job.definition.outputs| ==>
               HasRole(job.definition.roles, job.definition.outputs[i]) && job.definition.outputs[i] in job.roles
               && job.roles[job.definition.outputs[i]].Done?
    ensures var outputs := JobOutputs(job.roles, job.definition.outputs[..k]);
            && Available(contents, outputs)
            && JobMeaning(env, job.definition, k) == Some(Lookup(contents, outputs))
  {
    hide ValidJob, Rearrangeable, Meaning, Hidden;
    if k > 0 {
      var name := job.definition.outputs[k - 1];
      assert job.definition.outputs[..k][..k - 1] == job.definition.outputs[..k - 1];
      OutputsMean(env, contents, job, k - 1);
      OutputIsKnown(env, contents, job, name);
      LookupConcat(contents, JobOutputs(job.roles, job.definition.outputs[..k - 1]), job.roles[name].outputs);
    }
  }

  lemma OutputIsKnown(env: Env, contents: Contents, job: JobRecord, name: string)
    requires RearrangeableJob(env, job.definition) && JobMeans(env, contents, job)
    requires HasRole(job.definition.roles, name) && name in job.roles && job.roles[name].Done?
    requires name in job.definition.outputs
    ensures Known(env, contents, job.definition, name, job.roles[name].outputs)
  {
    hide ValidJob, Rearrangeable, Known;
    assert RoleMeans(env, contents, job, name);
  }

  lemma CompletedRoles(s: State, id: JobId)
    requires Inv(s) && id in s.jobs && StatusOf(s.jobs[id]).JobCompleted?
    ensures var job := s.jobs[id];
            && StatusOf(job) == JobCompleted(JobOutputs(job.roles, job.definition.outputs))
            && forall i :: 0 <= i < |job.definition.outputs| ==>
                 HasRole(job.definition.roles, job.definition.outputs[i]) && job.definition.outputs[i] in job.roles
                 && job.roles[job.definition.outputs[i]].Done?
  {
    hide BindingOk, RoleOk, Acyclic;
    assert JobShape(s.jobs[id]);
  }

  /**
   * In every honest run, the objects a completed job reports hold exactly what the job means: the
   * unfused, unsharded or fixed-sharded, flatly reduced evaluation of its dependency graph.
   */
  lemma CompletedJobMeansDefinition(env: Env, worlds: seq<World>, actions: seq<Action>, i: nat, id: JobId)
    requires HonestRun(env, worlds, actions) && i < |worlds|
    requires id in worlds[i].fabric.jobs && RearrangeableJob(env, worlds[i].fabric.jobs[id].definition)
    requires StatusOf(worlds[i].fabric.jobs[id]).JobCompleted?
    ensures var definition, outputs := worlds[i].fabric.jobs[id].definition, StatusOf(worlds[i].fabric.jobs[id]).outputs;
            && Available(worlds[i].contents, outputs)
            && JobMeaning(env, definition, |definition.outputs|) == Some(Lookup(worlds[i].contents, outputs))
  {
    hide Inv, ContentsOk, HonestRun, RearrangeableJob, JobMeans, StatusOf, JobMeaning;
    RunKeepsMeaning(env, worlds, actions, i);
    var job := worlds[i].fabric.jobs[id];
    CompletedRoles(worlds[i].fabric, id);
    JobMeansAt(env, worlds[i], id);
    RearrangeableIsValid(env, job.definition);
    assert job.definition.outputs[..|job.definition.outputs|] == job.definition.outputs;
    OutputsMean(env, worlds[i].contents, job, |job.definition.outputs|);
  }

  /** Two honest runs that complete the same definition deliver the same bytes. */
  lemma RunsAgree(env: Env, worlds: seq<World>, actions: seq<Action>, i: nat, id: JobId,
                  worlds': seq<World>, actions': seq<Action>, i': nat, id': JobId)
    requires HonestRun(env, worlds, actions) && i < |worlds| && HonestRun(env, worlds', actions') && i' < |worlds'|
    requires id in worlds[i].fabric.jobs && id' in worlds'[i'].fabric.jobs
    requires worlds[i].fabric.jobs[id].definition == worlds'[i'].fabric.jobs[id'].definition
    requires RearrangeableJob(env, worlds[i].fabric.jobs[id].definition)
    requires StatusOf(worlds[i].fabric.jobs[id]).JobCompleted? && StatusOf(worlds'[i'].fabric.jobs[id']).JobCompleted?
    ensures var outputs, outputs' := StatusOf(worlds[i].fabric.jobs[id]).outputs, StatusOf(worlds'[i'].fabric.jobs[id']).outputs;
            && Available(worlds[i].contents, outputs) && Available(worlds'[i'].contents, outputs')
            && Lookup(worlds[i].contents, outputs) == Lookup(worlds'[i'].contents, outputs')
  {
    hide HonestRun, RearrangeableJob, StatusOf, JobMeaning, Lookup, Available;
    CompletedJobMeansDefinition(env, worlds, actions, i, id);
    CompletedJobMeansDefinition(env, worlds', actions', i', id');
  }
}
