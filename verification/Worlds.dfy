/** Runs together with the bytes behind the objects, under honest agents. */
module Worlds {
  import opened Wrappers
  import opened Core
  import opened Sequences
  import opened Execution
  import opened RoleGraph
  import opened Sharding
  import opened ReductionPlanning
  import opened ReductionTree
  import opened Admission
  import opened FabricModel
  import opened FabricInvariant
  import opened FabricSteps
  import opened FabricCommit
  import opened FabricRuns
  import opened Denotation

  datatype World = World(fabric: State, contents: Contents)

  // ----- honest steps -----

  /** What the agent holding this task computes from the current contents. */
  function TaskOutcome(env: Env, contents: Contents, spec: TaskSpec): Option<Bytes>
  {
    if Available(contents, spec.inputs) then Outcome(RunTask(env.exec, spec, Lookup(contents, spec.inputs))) else None
  }

  /** One fresh object with the computed bytes. */
  ghost predicate HonestOutput(env: Env, w: World, t: TaskId, outputs: seq<ObjectMetadata>, contents': Contents)
    requires t in w.fabric.tasks
  {
    && |outputs| == 1
    && outputs[0].id !in w.contents && outputs[0].id !in env.statics
    && var outcome := TaskOutcome(env, w.contents, w.fabric.tasks[t].spec);
       outcome.Some? && contents' == w.contents[outputs[0].id := outcome.value]
  }

  /** Contents are immutable; a newly published object has the announced size and, if a job names it, the known bytes. */
  ghost predicate HonestPublication(env: Env, w: World, published: ObjectMetadata, contents': Contents)
  {
    && published.id in contents' && |contents'[published.id]| == published.sizeBytes
    && (published.id in env.statics ==> contents'[published.id] == env.statics[published.id])
    && contents' == w.contents[published.id := contents'[published.id]]
    && (published.id in w.contents ==> contents' == w.contents)
  }

  ghost predicate HonestStep(env: Env, w: World, w': World, action: Action)
  {
    && Enabled(w.fabric, action) && w'.fabric == Step(w.fabric, action)
    && match action
       case CommitExecution(lease, outputs, _) =>
         lease.task in w.fabric.tasks && HonestOutput(env, w, lease.task, outputs, w'.contents)
       case PublishObject(published) => HonestPublication(env, w, published, w'.contents)
       case _ => w'.contents == w.contents
  }

  ghost predicate HonestRun(env: Env, worlds: seq<World>, actions: seq<Action>)
  {
    && |worlds| == |actions| + 1
    && worlds[0] == World(EmptyState(), map[])
    && forall i :: 0 <= i < |actions| ==> HonestStep(env, worlds[i], worlds[i + 1], actions[i])
  }

  // ----- contents -----

  ghost predicate Grows(contents: Contents, contents': Contents)
  {
    forall o :: o in contents ==> o in contents' && contents'[o] == contents[o]
  }

  lemma LookupGrows(contents: Contents, contents': Contents, ids: seq<ObjectId>)
    requires Grows(contents, contents') && Available(contents, ids)
    ensures Available(contents', ids) && Lookup(contents', ids) == Lookup(contents, ids)
  {
  }

  /** What jobs name statically is what was published, sizes included. */
  ghost predicate StaticsAgree(env: Env, w: World)
  {
    && (forall o :: o in w.contents && o in env.statics ==> w.contents[o] == env.statics[o])
    && (forall o :: o in w.fabric.objects && o in env.statics ==> w.fabric.objects[o].sizeBytes == |env.statics[o]|)
  }

  /** A completed task has one output, holding what the task computes from its inputs. */
  ghost predicate ComputedTask(env: Env, w: World, t: TaskId)
    requires t in w.fabric.tasks
  {
    w.fabric.tasks[t].status.Completed? ==>
      var outputs := w.fabric.tasks[t].status.outputs;
      |outputs| == 1 && outputs[0] in w.contents
      && TaskOutcome(env, w.contents, w.fabric.tasks[t].spec) == Some(w.contents[outputs[0]])
  }

  ghost predicate ContentsOk(env: Env, w: World)
  {
    && StaticsAgree(env, w)
    && forall t :: t in w.fabric.tasks ==> ComputedTask(env, w, t)
  }

  lemma OutcomeGrows(env: Env, contents: Contents, contents': Contents, spec: TaskSpec)
    requires Grows(contents, contents') && TaskOutcome(env, contents, spec).Some?
    ensures TaskOutcome(env, contents', spec) == TaskOutcome(env, contents, spec)
  {
    hide RunTask;
    LookupGrows(contents, contents', spec.inputs);
  }

  lemma StepGrows(env: Env, w: World, w': World, action: Action)
    requires HonestStep(env, w, w', action)
    ensures Grows(w.contents, w'.contents)
  {
    hide Enabled, Step, TaskOutcome;
  }

  lemma {:induction false} PublishedSizes(objects: Objects, published: seq<ObjectMetadata>, id: ObjectId)
    requires id in PublishAll(objects, published)
    ensures id in objects || id in Ids(published)
    ensures id in objects ==> PublishAll(objects, published)[id].sizeBytes == objects[id].sizeBytes
  {
    if published != [] {
      var n := |published| - 1;
      if id in PublishAll(objects, published[..n]) { PublishedSizes(objects, published[..n], id); }
      assert Ids(published) == Ids(published[..n]) + [published[n].id];
      PublishKeepsObjects(objects, published);
    }
  }

  lemma StepKeepsStatics(env: Env, w: World, w': World, action: Action)
    requires HonestStep(env, w, w', action) && StaticsAgree(env, w)
    ensures StaticsAgree(env, w')
  {
    hide TaskOutcome, ValidJob, ChoiceAllowed, LevelAllowed, AfterTask, MarkUncertain, AdmissibleTask, CanPublish, CanCommit,
      Materialize, PlaceLevel, DropLocation, DropLinks, AddLocations, NewJob, PublishAll;
    match action {
      case CommitExecution(lease, outputs, _) =>
        forall o | o in w'.fabric.objects && o in env.statics
          ensures w'.fabric.objects[o].sizeBytes == |env.statics[o]|
        {
          PublishedSizes(w.fabric.objects, outputs, o);
          assert Ids(outputs) == [outputs[0].id];
        }
      case MaterializeRole(job, role, choice) => MaterializeKeepsObjects(w.fabric, job, role, choice);
      case PlaceReduction(job, role, items) => PlaceKeepsObjects(w.fabric, job, role, items);
      case _ =>
    }
  }

  lemma MaterializeKeepsObjects(s: State, id: JobId, name: string, choice: RoleChoice)
    requires ChoiceAllowed(s, id, name, choice)
    ensures Materialize(s, id, name, choice).objects == s.objects
  {
    hide AdmissibleTask, ShardsAllowed, DependencyOutputs;
  }

  lemma PlaceKeepsObjects(s: State, id: JobId, name: string, choice: Option<seq<LevelItem>>)
    requires LevelAllowed(s, id, name, choice)
    ensures PlaceLevel(s, id, name, choice).objects == s.objects
  {
    hide LevelOf;
  }

  /** Nothing but a commit completes a task. */
  lemma OnlyCommitCompletes(s: State, action: Action, t: TaskId)
    requires Inv(s) && Enabled(s, action)
    requires t in Step(s, action).tasks && Step(s, action).tasks[t].status.Completed?
    ensures (action.CommitExecution? && action.lease.task == t)
            || (t in s.tasks && s.tasks[t] == Step(s, action).tasks[t])
  {
    hide Inv, ValidJob, ChoiceAllowed, LevelAllowed, AfterTask, PublishAll, MarkUncertain, AdmissibleTask, CanPublish,
      Materialize, PlaceLevel, NewJob, ConsistentOutputs, CanCommit;
    match action {
      case MaterializeRole(job, role, choice) => MaterializeCompletesNoTask(s, Step(s, action), job, role, choice, t);
      case PlaceReduction(job, role, items) => PlaceCompletesNoTask(s, Step(s, action), job, role, items, t);
      case _ =>
    }
  }

  lemma AddedNotCompleted(s: State, s': State, specs: seq<TaskSpec>, binding: Binding, t: TaskId)
    requires TasksAdded(s, s', specs, binding) && t in s'.tasks && s'.tasks[t].status.Completed?
    ensures t in s.tasks && s.tasks[t] == s'.tasks[t]
  {
    forall u | u in TaskIdsOf(specs) ensures u in s'.tasks && s'.tasks[u].status.Pending? {
      var i :| 0 <= i < |TaskIdsOf(specs)| && TaskIdsOf(specs)[i] == u;
      assert s'.tasks[specs[i].id] == TaskRecord(specs[i], Pending);
    }
  }

  lemma MaterializeCompletesNoTask(s: State, s': State, id: JobId, name: string, choice: RoleChoice, t: TaskId)
    requires Inv(s) && MaterializeStep(s, s', id, name, choice)
    requires t in s'.tasks && s'.tasks[t].status.Completed?
    ensures t in s.tasks && s.tasks[t] == s'.tasks[t]
  {
    hide Inv, MaterializeStep, TasksAdded, ReadyInputs, ShardsAllowed, ChainAllowed, FusedSpec, SetRoles;
    StepIsIdle(s, s', id, name, choice);
    match choice {
      case Infeasible => InfeasibleTasks(s, s', id, name);
      case Direct(task, template) => DirectShape(s, s', id, name, task, template);
      case Fused(_, _, _, _) => FusedStepShape(s, s', id, name, choice);
      case Shards(specs) => ShardsShape(s, s', id, name, specs); AddedNotCompleted(s, s', specs, Shard(id, name), t);
    }
  }

  lemma InfeasibleTasks(s: State, s': State, id: JobId, name: string)
    requires MaterializeStep(s, s', id, name, Infeasible)
    ensures s'.tasks == s.tasks
  {
  }

  lemma PlaceCompletesNoTask(s: State, s': State, id: JobId, name: string, choice: Option<seq<LevelItem>>, t: TaskId)
    requires Inv(s) && PlaceStep(s, s', id, name, choice)
    requires t in s'.tasks && s'.tasks[t].status.Completed?
    ensures t in s.tasks && s.tasks[t] == s'.tasks[t]
  {
    hide Inv, PlaceStep, RoleOk, JobShape, TasksAdded;
    PlaceAt(s, s', id, name, choice);
    InvAt(s, id, name);
    if choice.None? {
      PlaceNoneShape(s, s', id, name);
    } else {
      PlaceShape(s, s', id, name, choice.value);
      AddedNotCompleted(s, s', ReducerTasks(choice.value), Reduction(id, name), t);
    }
  }

  lemma CommittedStatus(s: State, action: Action)
    requires action.CommitExecution? && Enabled(s, action)
    ensures action.lease.task in s.tasks && s.tasks[action.lease.task].status.Running?
    ensures action.lease.task in Step(s, action).tasks
    ensures Step(s, action).tasks[action.lease.task] == s.tasks[action.lease.task].(status := Completed(Ids(action.outputs)))
    ensures CommitStep(s, Step(s, action), action.lease.task, action.outputs)
  {
    hide AfterTask, PublishAll, CanPublish, ConsistentOutputs;
  }

  lemma StepKeepsContents(env: Env, w: World, w': World, action: Action)
    requires Inv(w.fabric) && HonestStep(env, w, w', action) && ContentsOk(env, w)
    ensures ContentsOk(env, w')
  {
    StepKeepsStatics(env, w, w', action);
    StepGrows(env, w, w', action);
    hide Inv, Enabled, Step, TaskOutcome, StaticsAgree;
    forall t | t in w'.fabric.tasks && w'.fabric.tasks[t].status.Completed? ensures ComputedTask(env, w', t) {
      OnlyCommitCompletes(w.fabric, action, t);
      if action.CommitExecution? && action.lease.task == t {
        CommittedStatus(w.fabric, action);
        assert Ids(action.outputs)[0] == action.outputs[0].id;
        OutcomeGrows(env, w.contents, w'.contents, w.fabric.tasks[t].spec);
      } else {
        assert ComputedTask(env, w, t);
        OutcomeGrows(env, w.contents, w'.contents, w.fabric.tasks[t].spec);
      }
    }
  }
}
