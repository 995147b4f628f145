/** What the objects of each role hold along honest runs, and the steps that leave this unchanged. */
module RunMeaning {
  import opened Wrappers
  import opened Core
  import opened Sequences
  import opened Execution
  import opened FusionRewrite
  import opened RoleGraph
  import opened Partition
  import opened Sharding
  import opened ReductionTree
  import opened ReductionPlanning
  import opened Admission
  import opened FabricModel
  import opened FabricInvariant
  import opened FabricSteps
  import opened FabricCommit
  import opened FabricRuns
  import opened Progress
  import opened Denotation
  import opened Worlds

  // ----- what the objects of a role hold -----

  /** Nobody will read the outputs of this role: it is no job output, and its consumers are completed. */
  ghost predicate Hidden(job: JobRecord, name: string)
  {
    && name !in job.definition.outputs
    && forall c :: HasRole(job.definition.roles, c) && name in Role(job.definition.roles, c).dependsOn ==>
         c in job.roles && job.roles[c].Done?
  }

  ghost predicate Known(env: Env, contents: Contents, definition: JobDefinition, name: string, ids: seq<ObjectId>)
    requires ValidJob(definition) && HasRole(definition.roles, name)
  {
    Available(contents, ids) && Meaning(env, definition, name) == Some(Lookup(contents, ids))
  }

  /** The current reduction inputs still reduce, in one go, to what the role means. */
  ghost predicate Reduces(env: Env, contents: Contents, job: JobRecord, name: string, ids: seq<ObjectId>)
    requires ValidJob(job.definition) && HasRole(job.definition.roles, name)
  {
    && ReductionOf(job, name).Some? && Available(contents, ids)
    && Flat(ReducerOf(env, ReductionOf(job, name).value), Lookup(contents, ids)) == Meaning(env, job.definition, name)
  }

  ghost predicate RoleMeans(env: Env, contents: Contents, job: JobRecord, name: string)
  {
    ValidJob(job.definition) && HasRole(job.definition.roles, name) && name in job.roles ==>
      match job.roles[name]
      case Done(outputs) => Known(env, contents, job.definition, name, outputs) || (outputs == [] && Hidden(job, name))
      case Reducing(_, _, _) => name in job.reductions && Reduces(env, contents, job, name, job.reductions[name].inputs)
      case _ => true
  }

  ghost predicate JobMeans(env: Env, contents: Contents, job: JobRecord)
  {
    RearrangeableJob(env, job.definition) ==>
      forall name :: name in job.roles ==> RoleMeans(env, contents, job, name)
  }

  ghost predicate WorldMeans(env: Env, w: World)
  {
    forall id :: id in w.fabric.jobs ==> JobMeans(env, w.contents, w.fabric.jobs[id])
  }

  // ----- steps that complete nothing -----

  /** The role was not completed, and if it is being reduced it still reduces the same inputs. */
  ghost predicate Still(job: JobRecord, job': JobRecord, name: string)
  {
    && name in job.roles && name in job'.roles
    && (job'.roles[name].Done? ==> job.roles[name] == job'.roles[name])
    && (job'.roles[name].Reducing? ==>
          && job.roles[name].Reducing? && name in job'.reductions
          && (name in job.reductions ==> job.reductions[name].inputs == job'.reductions[name].inputs))
  }

  lemma RoleMeansKept(env: Env, contents: Contents, contents': Contents, job: JobRecord, job': JobRecord, name: string)
    requires Grows(contents, contents') && JobKept(job, job') && Still(job, job', name)
    requires RoleMeans(env, contents, job, name)
    ensures RoleMeans(env, contents', job', name)
  {
    hide ValidJob, Meaning, Flat, ReducerOf;
    if ValidJob(job.definition) && HasRole(job.definition.roles, name) {
      match job'.roles[name] {
        case Done(outputs) =>
          if Known(env, contents, job.definition, name, outputs) { LookupGrows(contents, contents', outputs); }
        case Reducing(_, _, _) => LookupGrows(contents, contents', job.reductions[name].inputs);
        case _ =>
      }
    }
  }

  /** It remains to look at the roles that were completed or advanced to another reduction level. */
  lemma JobMeansKept(env: Env, contents: Contents, contents': Contents, job: JobRecord, job': JobRecord, changed: set<string>)
    requires JobMeans(env, contents, job) && Grows(contents, contents') && JobKept(job, job')
    requires forall r :: r in job.roles && r !in changed ==> Still(job, job', r)
    requires RearrangeableJob(env, job.definition) ==> forall r :: r in changed ==> RoleMeans(env, contents', job', r)
    ensures JobMeans(env, contents', job')
  {
    hide ValidJob, RoleMeans, Rearrangeable, Still;
    if RearrangeableJob(env, job.definition) {
      forall r | r in job'.roles ensures RoleMeans(env, contents', job', r) {
        if r !in changed {
          assert JobKept(job, job') && r in job.roles;
          RoleMeansKept(env, contents, contents', job, job', r);
        }
      }
    }
  }

  ghost predicate JobStill(s: State, s': State, id: JobId)
    requires id in s'.jobs
  {
    if id in s.jobs then
      JobKept(s.jobs[id], s'.jobs[id]) && forall r :: r in s.jobs[id].roles ==> Still(s.jobs[id], s'.jobs[id], r)
    else forall r :: r in s'.jobs[id].roles ==> s'.jobs[id].roles[r].Waiting?
  }

  lemma SameJobStill(s: State, s': State, id: JobId)
    requires id in s.jobs && id in s'.jobs && s'.jobs[id] == s.jobs[id]
    requires forall r :: r in s.jobs[id].roles && s.jobs[id].roles[r].Reducing? ==> r in s.jobs[id].reductions
    ensures JobStill(s, s', id)
  {
  }

  lemma ReducingIsRecorded(s: State, id: JobId)
    requires Inv(s) && id in s.jobs
    ensures forall r :: r in s.jobs[id].roles && s.jobs[id].roles[r].Reducing? ==> r in s.jobs[id].reductions
  {
    hide Inv, RoleOk, JobShape;
    forall r | r in s.jobs[id].roles && s.jobs[id].roles[r].Reducing? ensures r in s.jobs[id].reductions {
      InvAt(s, id, r);
    }
  }

  /** Only commits complete roles or produce new reduction inputs. */
  lemma OthersAreStill(s: State, action: Action, id: JobId)
    requires Inv(s) && Enabled(s, action) && !action.CommitExecution? && id in Step(s, action).jobs
    ensures JobStill(s, Step(s, action), id)
  {
    hide Inv, JobStill, Enabled, Step;
    if id in s.jobs { ReducingIsRecorded(s, id); }
    if Quiet(action) {
      QuietFrame(s, action);
      QuietJobsSame(s, action);
      SameJobStill(s, Step(s, action), id);
    } else {
      JobActionIsStill(s, action, id);
    }
  }

  lemma QuietJobsSame(s: State, action: Action)
    requires Quiet(action) && Enabled(s, action)
    ensures Step(s, action).jobs == s.jobs
  {
    QuietFrame(s, action);
  }

  lemma JobActionIsStill(s: State, action: Action, id: JobId)
    requires Inv(s) && Enabled(s, action) && !action.CommitExecution? && !Quiet(action) && id in Step(s, action).jobs
    requires id in s.jobs ==> forall r :: r in s.jobs[id].roles && s.jobs[id].roles[r].Reducing? ==> r in s.jobs[id].reductions
    ensures JobStill(s, Step(s, action), id)
  {
    hide Inv, ValidJob, Materialize, PlaceLevel, Reap, ChoiceAllowed, LevelAllowed, JobStill;
    match action {
      case SubmitJob(job, definition) => NewJobIsStill(s, job, definition, id);
      case ReapExecution(t, _) => ReapIsStill(s, Reap(s, t), t, id);
      case MaterializeRole(job, role, choice) => MaterializeIsStill(s, Step(s, action), job, role, choice, id);
      case PlaceReduction(job, role, items) => PlaceIsStill(s, Step(s, action), job, role, items, id);
    }
  }

  lemma NewJobIsStill(s: State, job: JobId, definition: JobDefinition, id: JobId)
    requires job !in s.jobs && id in WithJob(s, job, NewJob(definition)).jobs
    requires id in s.jobs ==> forall r :: r in s.jobs[id].roles && s.jobs[id].roles[r].Reducing? ==> r in s.jobs[id].reductions
    ensures JobStill(s, WithJob(s, job, NewJob(definition)), id)
  {
  }

  lemma ReapIsStill(s: State, s': State, t: TaskId, id: JobId)
    requires Inv(s) && ReapStep(s, s', t) && id in s'.jobs
    requires id in s.jobs ==> forall r :: r in s.jobs[id].roles && s.jobs[id].roles[r].Reducing? ==> r in s.jobs[id].reductions
    ensures JobStill(s, s', id)
  {
    hide Inv, BindingOk;
    if !s.tasks[t].spec.effects.AutomaticallyRetryable() && t in s.bindings {
      BindingOf(s, t);
      LostTaskShape(s, s', t);
    }
  }

  lemma PlaceIsStill(s: State, s': State, job: JobId, name: string, choice: Option<seq<LevelItem>>, id: JobId)
    requires Inv(s) && PlaceStep(s, s', job, name, choice) && id in s'.jobs
    requires id in s.jobs ==> forall r :: r in s.jobs[id].roles && s.jobs[id].roles[r].Reducing? ==> r in s.jobs[id].reductions
    ensures JobStill(s, s', id)
  {
    hide Inv, PlaceStep, TasksAdded, RoleOk, JobShape;
    PlaceAt(s, s', job, name, choice);
    InvAt(s, job, name);
    if choice.None? {
      PlaceNoneShape(s, s', job, name);
    } else {
      PlaceShape(s, s', job, name, choice.value);
    }
  }

  lemma MaterializeIsStill(s: State, s': State, job: JobId, name: string, choice: RoleChoice, id: JobId)
    requires Inv(s) && MaterializeStep(s, s', job, name, choice) && id in s'.jobs
    requires id in s.jobs ==> forall r :: r in s.jobs[id].roles && s.jobs[id].roles[r].Reducing? ==> r in s.jobs[id].reductions
    ensures JobStill(s, s', id)
  {
    hide Inv, MaterializeStep, TasksAdded, ReadyInputs, ShardsAllowed, FusedShape, Progresses;
    StepIsIdle(s, s', job, name, choice);
    match choice {
      case Infeasible => InfeasibleShape(s, s', job, name);
      case Direct(task, template) => DirectShape(s, s', job, name, task, template);
      case Fused(_, _, _, _) =>
        FusedStepShape(s, s', job, name, choice);
        if s' != s {
          FusedIsStill(s, s', job, name, choice, id);
        }
      case Shards(specs) => ShardsShape(s, s', job, name, specs);
    }
  }

  lemma FusedIsStill(s: State, s': State, job: JobId, name: string, choice: RoleChoice, id: JobId)
    requires FusedShape(s, s', job, name, choice) && id in s'.jobs
    requires id in s.jobs ==> forall r :: r in s.jobs[id].roles && s.jobs[id].roles[r].Reducing? ==> r in s.jobs[id].reductions
    ensures JobStill(s, s', id)
  {
    hide ChainAllowed, FusedSpec;
    ChainIsIdle(s, s', job, name, choice);
    ChainLeavesOthers(s, s', job, name, choice);
    if id == job {
      forall r | r in s.jobs[id].roles ensures Still(s.jobs[id], s'.jobs[id], r) {
        if r !in Members(choice.chain) { assert StatusKept(s.jobs[id], s'.jobs[id], r); }
      }
    }
  }
}
