/**
 * What the fabric's methods leave behind, as traces of steps: the predicates and lemmas behind the
 * contracts of the methods in FabricRuntime. They relate the in-place updates of a pass over ready
 * roles, of a placed reduction level, of a commit and of reaping several executions to the steps of
 * the transition system, and say which of them leave no role stuck.
 */
module FabricTraces {
  import opened Wrappers
  import opened Core
  import opened Sequences
  import opened RoleGraph
  import opened FusionRewrite
  import opened Scheduler
  import opened Sharding
  import opened ReductionPlanning
  import opened Admission
  import opened ChainPlanner
  import opened FusionSelection
  import opened ReadySelection
  import opened FabricModel
  import opened FabricInvariant
  import opened FabricSteps
  import opened FabricCommit
  import opened FabricRuns
  import opened LeaseSafety
  import opened FabricReady
  import opened PlannerDecisions
  import opened Refusals
  import opened Progress

  datatype FabricError =
    | ResourceNotActive(resource: ResourceId)
    | StaleResourceEpoch(resource: ResourceId)
    | UnknownObject(id: ObjectId)
    | ObjectConflict(id: ObjectId)
    | UnknownTask(task: TaskId)
    | DuplicateTask(task: TaskId)
    | InvalidTask
    | UnknownJob(job: JobId)
    | DuplicateJob(job: JobId)
    | InvalidJob
    | TaskNotPending(task: TaskId)
    | StaleExecution
    | ExecutionExpired
    | Scheduling(reason: ScheduleError)

  datatype MembershipLease = MembershipLease(resource: ResourceId, epoch: nat, expiresAt: u64)

  /** The scheduler's answer among the resources now free. */
  ghost predicate ScheduledAs(s: State, planner: Planner, spec: TaskSpec, result: Result<PlacementDecision, FabricError>)
  {
    exists context :: PlanningView(s, planner, context) &&
      result == match Choose(spec, context)
                case Success(decision) => Success(decision)
                case Failure(reason) => Failure(Scheduling(reason))
  }

  // ----- traces -----

  lemma {:induction false} ReachesThen(s: State, actions: seq<Action>, t: State, action: Action)
    requires Reaches(s, actions, t) && Enabled(t, action)
    ensures Reaches(s, actions + [action], Step(t, action))
    decreases |actions|
  {
    hide Enabled, Step;
    if actions == [] {
      assert [action][1..] == [];
    } else {
      assert (actions + [action])[1..] == actions[1..] + [action];
      ReachesThen(Step(s, actions[0]), actions[1..], t, action);
    }
  }

  lemma {:induction false} ReachesAll(s: State, actions: seq<Action>, t: State, more: seq<Action>, u: State)
    requires Reaches(s, actions, t) && Reaches(t, more, u)
    ensures Reaches(s, actions + more, u)
    decreases |actions|
  {
    hide Enabled, Step;
    if actions == [] {
      assert actions + more == more;
    } else {
      assert (actions + more)[1..] == actions[1..] + more;
      ReachesAll(Step(s, actions[0]), actions[1..], t, more, u);
    }
  }

  /** The checks an execution lease must pass, in the order the fabric makes them. */
  function LeaseError(s: State, lease: ExecutionLease, now: u64): (r: Option<FabricError>)
    ensures r.None? <==> HoldsLease(s, lease, now)
  {
    if !IsActive(s, lease.resource, now) then Some(ResourceNotActive(lease.resource))
    else if s.resources[lease.resource].descriptor.epoch != lease.epoch then Some(StaleResourceEpoch(lease.resource))
    else if lease.task !in s.tasks then Some(UnknownTask(lease.task))
    else if !s.tasks[lease.task].status.Running? || s.tasks[lease.task].status.lease.execution != lease.execution
    then Some(StaleExecution)
    else
      var current := s.tasks[lease.task].status.lease;
      if current.expiresAt <= now then Some(ExecutionExpired)
      else if current.resource != lease.resource || current.epoch != lease.epoch then Some(StaleExecution)
      else None
  }

  // ----- publishing several objects -----

  /** Publishing in order succeeds exactly when the objects fit the known ones and each other. */
  lemma {:induction false} PublishesInOrder(objects: Objects, published: seq<ObjectMetadata>, k: nat)
    requires k < |published|
    requires forall i :: 0 <= i < |published| ==> CanPublish(objects, published[i])
    requires ConsistentOutputs(published[..k])
    ensures CanPublish(PublishAll(objects, published[..k]), published[k]) <==> ConsistentOutputs(published[..k + 1])
  {
    var upto := published[..k + 1];
    assert upto[..k] == published[..k] && upto[k] == published[k];
    PublishedIdentity(objects, published[..k], published[k].id);
    if ConsistentOutputs(upto) {
      forall i | 0 <= i < k && published[..k][i].id == published[k].id ensures SameObjectIdentity(published[..k][i], published[k]) {
        assert upto[i] == published[..k][i];
      }
    }
  }

  /** The object known under an id is the one known before, or the first one published under it. */
  lemma {:induction false} PublishedIdentity(objects: Objects, published: seq<ObjectMetadata>, id: ObjectId)
    requires forall i :: 0 <= i < |published| ==> CanPublish(objects, published[i])
    requires ConsistentOutputs(published)
    ensures id in PublishAll(objects, published) <==> id in objects || exists i :: 0 <= i < |published| && published[i].id == id
    ensures forall i :: 0 <= i < |published| && published[i].id == id ==>
              SameObjectIdentity(PublishAll(objects, published)[id], published[i])
    ensures id in objects ==> SameObjectIdentity(PublishAll(objects, published)[id], objects[id])
  {
    hide AddLocations;
    if published != [] {
      var n := |published| - 1;
      var front := published[..n];
      assert ConsistentOutputs(front) by {
        forall i, j | 0 <= i < j < n && front[i].id == front[j].id ensures SameObjectIdentity(front[i], front[j]) {
          assert published[i] == front[i] && published[j] == front[j];
        }
      }
      PublishedIdentity(objects, front, id);
      forall i | 0 <= i < |published| && published[i].id == id
        ensures id in PublishAll(objects, published) && SameObjectIdentity(PublishAll(objects, published)[id], published[i])
      {
        if i < n { assert front[i] == published[i]; }
      }
      if i :| 0 <= i < n && front[i].id == id { assert published[i].id == id; }
    }
  }

  lemma InconsistentPrefix(published: seq<ObjectMetadata>, k: nat)
    requires k <= |published| && !ConsistentOutputs(published[..k])
    ensures !ConsistentOutputs(published)
  {
    var i, j :| 0 <= i < j < k && published[..k][i].id == published[..k][j].id && !SameObjectIdentity(published[..k][i], published[..k][j]);
    assert published[i].id == published[j].id;
  }

  lemma OneLocation(known: seq<ResourceId>, resource: ResourceId)
    ensures AddLocations(known, [resource]) == if resource in known then known else known + [resource]
  {
    assert [resource][..0] == [];
    assert AddLocations(known, []) == known;
  }

  // ----- passes over one job -----

  /** Only this job, and tasks and bindings, may differ. */
  ghost predicate OnlyJob(s: State, s': State, id: JobId)
  {
    && s'.resources == s.resources && s'.objects == s.objects && s'.links == s.links && s'.issued == s.issued
    && s'.jobs.Keys == s.jobs.Keys && forall j :: j in s.jobs && j != id ==> s'.jobs[j] == s.jobs[j]
  }

  lemma MaterializeIsAction(s: State, s': State, id: JobId, name: string, choice: RoleChoice)
    requires MaterializeStep(s, s', id, name, choice)
    ensures Enabled(s, Action.MaterializeRole(id, name, choice)) && s' == Step(s, Action.MaterializeRole(id, name, choice))
    ensures id in s.jobs && OnlyJob(s, s', id)
  {
    hide ShardsAllowed, ChainAllowed, AdmissibleTask, FusedPipelineTask, SetRoles, DependencyOutputs;
  }

  lemma ChoiceIsDecided(s: State, id: JobId, waiting: set<string>, item: ReadyRole, planner: Planner, choice: RoleChoice)
    requires id in s.jobs && StillReady(s.jobs[id], waiting, item) && RoleDecided(s, item, planner, choice)
    requires WaitingRoles(s.jobs[id]) <= waiting
    ensures Decided(s, Action.MaterializeRole(id, item.role.name, choice), planner)
  {
    hide StillReady, RoleDecided;
  }

  /** The entries from `from` on are still accurate, and no other role became ready. */
  ghost predicate PassAt(s: State, id: JobId, waiting: set<string>, ready: seq<ReadyRole>, from: nat)
  {
    && id in s.jobs && from <= |ready| && Awaiting(s.jobs[id], ready, from) && WaitingRoles(s.jobs[id]) <= waiting
    && (forall j :: from <= j < |ready| ==> StillReady(s.jobs[id], waiting, ready[j]))
    && forall i, j :: 0 <= i < j < |ready| ==> ready[i].role.name != ready[j].role.name
  }

  lemma PassStep(s: State, s': State, id: JobId, waiting: set<string>, ready: seq<ReadyRole>, from: nat, choice: RoleChoice)
    requires Inv(s) && PassAt(s, id, waiting, ready, from) && from < |ready|
    requires MaterializeStep(s, s', id, ready[from].role.name, choice) && ChoiceFrom(ready[from], choice)
    requires choice.Fused? ==> s' != s
    ensures PassAt(s', id, waiting, ready, from + 1)
  {
    hide Inv, MaterializeStep, StillReady, Awaiting, TouchesOnly, JobShape, ChoiceFrom;
    AwaitingStep(s, s', id, ready, from, choice);
    MaterializeCompletesNothing(s, s', id, ready[from].role.name, choice);
    StepTouchesOnly(s, s', id, ready[from], choice);
    JobIsShaped(s, id);
    ShapeFacts(s.jobs[id]);
    forall j | from + 1 <= j < |ready| ensures StillReady(s'.jobs[id], waiting, ready[j]) {
      StaysReady(s.jobs[id], s'.jobs[id], waiting, ready[from], ready[j]);
    }
  }

  lemma PassStarts(s: State, id: JobId, ready: seq<ReadyRole>)
    requires Inv(s) && id in s.jobs && Snapshot(s.jobs[id], |s.jobs[id].definition.roles|, ready)
    ensures PassAt(s, id, WaitingRoles(s.jobs[id]), ready, 0)
  {
    JobIsShaped(s, id);
    hide Inv, StillReady, Awaiting, JobShape;
    SnapshotIsAwaited(s.jobs[id], ready);
  }

  lemma PassEnds(s: State, id: JobId, waiting: set<string>, ready: seq<ReadyRole>)
    requires PassAt(s, id, waiting, ready, |ready|)
    ensures id in s.jobs && Unstuck(s.jobs[id])
  {
    hide StillReady, Awaiting, Unstuck;
    NothingAwaiting(s.jobs[id], ready);
  }

  // ----- what a pass leaves undone -----

  /** Every role left ready is one the pass found that nothing can run. */
  ghost predicate RolesTried(job: JobRecord, id: JobId, trace: seq<Action>)
  {
    forall r :: r in job.roles && job.roles[r].Ready? ==> Action.MaterializeRole(id, r, RoleChoice.Infeasible) in trace
  }

  /** Every level left without tasks is one the pass found that cannot be placed. */
  ghost predicate LevelsTried(job: JobRecord, id: JobId, trace: seq<Action>)
  {
    forall r :: LevelUnplaced(job, r) ==> PlaceReduction(id, r, None) in trace
  }

  /** A ready role has been tried, or is among the entries from `from` on. */
  ghost predicate TriedSoFar(job: JobRecord, id: JobId, ready: seq<ReadyRole>, from: nat, trace: seq<Action>)
    requires from <= |ready|
  {
    forall r :: r in job.roles && job.roles[r].Ready? ==>
      || Action.MaterializeRole(id, r, RoleChoice.Infeasible) in trace
      || exists j :: from <= j < |ready| && ready[j].role.name == r
  }

  /** No level lost its tasks. */
  ghost predicate LevelsKept(job: JobRecord, job': JobRecord)
  {
    forall r :: LevelUnplaced(job', r) ==> LevelUnplaced(job, r)
  }

  /** A role step leaves no role ready but the one it found infeasible, and does not touch reductions. */
  lemma MaterializeLeavesReady(s: State, s': State, id: JobId, name: string, choice: RoleChoice)
    requires Inv(s) && MaterializeStep(s, s', id, name, choice) && (choice.Fused? ==> s' != s)
    ensures id in s.jobs && id in s'.jobs && LevelsKept(s.jobs[id], s'.jobs[id])
    ensures forall r :: r in s'.jobs[id].roles && s'.jobs[id].roles[r].Ready? ==>
              if r == name then choice.Infeasible? else r in s.jobs[id].roles && s.jobs[id].roles[r].Ready?
  {
    hide Inv, MaterializeStep, TasksAdded, ReadyInputs, ShardsAllowed, ChainAllowed, FusedSpec, FusedShape, ReductionOf;
    StepIsIdle(s, s', id, name, choice);
    MaterializeCompletesNothing(s, s', id, name, choice);
    match choice {
      case Infeasible => InfeasibleShape(s, s', id, name);
      case Direct(task, template) => DirectShape(s, s', id, name, task, template);
      case Fused(_, _, _, _) =>
        FusedStepShape(s, s', id, name, choice);
        FusedLeavesReady(s, s', id, name, choice);
      case Shards(specs) => ShardsShape(s, s', id, name, specs);
    }
    forall r ensures ReductionOf(s'.jobs[id], r) == ReductionOf(s.jobs[id], r) { SameReduction(s.jobs[id], s'.jobs[id], r); }
  }

  lemma FusedLeavesReady(s: State, s': State, id: JobId, name: string, choice: RoleChoice)
    requires FusedShape(s, s', id, name, choice)
    ensures id in s.jobs && id in s'.jobs && s'.jobs[id].reductions == s.jobs[id].reductions
    ensures forall r :: r in s'.jobs[id].roles && (s'.jobs[id].roles[r].Ready? || s'.jobs[id].roles[r].Reducing?) ==>
              r != name && r in s.jobs[id].roles && s'.jobs[id].roles[r] == s.jobs[id].roles[r]
  {
    ChainIsIdle(s, s', id, name, choice);
    ChainLeavesOthers(s, s', id, name, choice);
    assert name in Members(choice.chain) by { assert choice.chain[0] == name; }
    hide ChainAllowed, FusedSpec;
    forall r | r in s'.jobs[id].roles && r !in Members(choice.chain) ensures s'.jobs[id].roles[r] == s.jobs[id].roles[r] {
      assert StatusKept(s.jobs[id], s'.jobs[id], r);
    }
  }

  lemma TryingStarts(s: State, id: JobId, ready: seq<ReadyRole>)
    requires Inv(s) && id in s.jobs && Snapshot(s.jobs[id], |s.jobs[id].definition.roles|, ready)
    ensures TriedSoFar(s.jobs[id], id, ready, 0, [])
  {
    hide Inv, StillReady, JobShape, DependencyOutputs, ReductionOf;
    var job := s.jobs[id];
    forall r | r in job.roles && job.roles[r].Ready? ensures exists j :: 0 <= j < |ready| && ready[j].role.name == r {
      InvAt(s, id, r);
      var role := Role(job.definition.roles, r);
      var i :| 0 <= i < |job.definition.roles| && job.definition.roles[i] == role;
      assert Materializable(job, job.definition.roles[i]);
    }
  }

  lemma TryingStep(s: State, s': State, id: JobId, ready: seq<ReadyRole>, from: nat, choice: RoleChoice, trace: seq<Action>)
    requires Inv(s) && from < |ready| && id in s.jobs && TriedSoFar(s.jobs[id], id, ready, from, trace)
    requires MaterializeStep(s, s', id, ready[from].role.name, choice) && (choice.Fused? ==> s' != s)
    ensures id in s'.jobs && LevelsKept(s.jobs[id], s'.jobs[id])
    ensures TriedSoFar(s'.jobs[id], id, ready, from + 1, trace + [Action.MaterializeRole(id, ready[from].role.name, choice)])
  {
    hide Inv, MaterializeStep, LevelsKept;
    var name := ready[from].role.name;
    MaterializeLeavesReady(s, s', id, name, choice);
    var job', more := s'.jobs[id], trace + [Action.MaterializeRole(id, name, choice)];
    forall r | r in job'.roles && job'.roles[r].Ready?
      ensures Action.MaterializeRole(id, r, RoleChoice.Infeasible) in more || exists j :: from + 1 <= j < |ready| && ready[j].role.name == r
    {
      if r != name && !(Action.MaterializeRole(id, r, RoleChoice.Infeasible) in trace) {
        var j :| from <= j < |ready| && ready[j].role.name == r;
        assert j != from;
      }
    }
  }

  lemma TryingEnds(job: JobRecord, id: JobId, ready: seq<ReadyRole>, trace: seq<Action>)
    requires TriedSoFar(job, id, ready, |ready|, trace)
    ensures RolesTried(job, id, trace)
  {
  }

  /** Nothing waits without reason: every role and level still to be given tasks was found impossible to run. */
  ghost predicate FullyTried(job: JobRecord, id: JobId, trace: seq<Action>)
  {
    Unstuck(job) && RolesTried(job, id, trace) && LevelsTried(job, id, trace)
  }

  /** No task of the job is pending or running. */
  ghost predicate NoTaskActive(s: State, id: JobId)
    requires id in s.jobs
  {
    forall name, t :: name in s.jobs[id].roles && t in OwnTasks(s.jobs[id].roles[name]) && t in s.tasks ==> !s.tasks[t].status.Active()
  }

  /** The pass found that nothing can run some role or level of the job. */
  ghost predicate AwaitsResources(id: JobId, trace: seq<Action>)
  {
    exists name :: Action.MaterializeRole(id, name, RoleChoice.Infeasible) in trace || PlaceReduction(id, name, None) in trace
  }

  /** After a pass, a running job without an unfinished task waits for resources and for nothing else. */
  lemma IdleJobAwaitsResources(s: State, id: JobId, trace: seq<Action>)
    requires Inv(s) && id in s.jobs && StatusOf(s.jobs[id]).JobRunning? && FullyTried(s.jobs[id], id, trace)
    requires NoTaskActive(s, id)
    ensures AwaitsResources(id, trace)
  {
    hide Inv, Unstuck, LevelUnplaced, StatusOf;
    RunningJobProgresses(s, id);
    var name :| CanProgress(s, id, name);
    assert Action.MaterializeRole(id, name, RoleChoice.Infeasible) in trace || PlaceReduction(id, name, None) in trace;
  }

  /** No job idles without a reason the pass has just established. */
  ghost predicate NoneIdle(s: State, trace: seq<Action>)
  {
    forall j :: j in s.jobs && StatusOf(s.jobs[j]).JobRunning? && NoTaskActive(s, j) ==> AwaitsResources(j, trace)
  }

  lemma TriedJobsDoNotIdle(s: State, trace: seq<Action>)
    requires Inv(s) && forall j :: j in s.jobs ==> FullyTried(s.jobs[j], j, trace)
    ensures NoneIdle(s, trace)
  {
    hide Inv, FullyTried, NoTaskActive, StatusOf, AwaitsResources;
    forall j | j in s.jobs && StatusOf(s.jobs[j]).JobRunning? && NoTaskActive(s, j) ensures AwaitsResources(j, trace) {
      IdleJobAwaitsResources(s, j, trace);
    }
  }

  /** All levels have been tried, and the roles of every job but those that remain. */
  ghost predicate PassesMade(jobs: map<JobId, JobRecord>, remaining: set<JobId>, trace: seq<Action>)
  {
    forall j :: j in jobs ==> LevelsTried(jobs[j], j, trace) && (j in remaining || (Unstuck(jobs[j]) && RolesTried(jobs[j], j, trace)))
  }

  lemma NoPassesYet(jobs: map<JobId, JobRecord>, trace: seq<Action>)
    requires forall j :: j in jobs ==> LevelsTried(jobs[j], j, trace)
    ensures PassesMade(jobs, jobs.Keys, trace)
  {
    hide LevelsTried;
  }

  lemma AllPassesMade(jobs: map<JobId, JobRecord>, trace: seq<Action>)
    requires PassesMade(jobs, {}, trace)
    ensures forall j :: j in jobs ==> FullyTried(jobs[j], j, trace)
  {
    hide LevelsTried, RolesTried, Unstuck;
  }

  /** Members, objects, links and the definitions of all jobs are as before. */
  ghost predicate SameJobs(s: State, s': State)
  {
    Undisturbed(s, s') && forall j :: j in s.jobs ==> s'.jobs[j].definition == s.jobs[j].definition
  }

  ghost predicate AllAdmissible(jobs: map<JobId, JobRecord>)
  {
    forall j :: j in jobs ==> PipelinesAdmissible(jobs[j].definition)
  }

  lemma RefreshedJobs(s: State, s': State)
    requires Undisturbed(s, s') && forall j :: j in s.jobs ==> QuietJob(s.jobs[j], s'.jobs[j])
    ensures SameJobs(s, s')
  {
  }

  lemma JobsStaySame(start: State, s: State, s': State, id: JobId)
    requires SameJobs(start, s) && OnlyJob(s, s', id) && id in s.jobs && s'.jobs[id].definition == s.jobs[id].definition
    ensures SameJobs(start, s') && s'.jobs.Keys == s.jobs.Keys && id in start.jobs && start.jobs[id].definition == s.jobs[id].definition
  {
  }

  lemma PassOutcome(start: State, id: JobId, trace: seq<Action>, pass: seq<Action>, outcome: Result<(), FabricError>)
    requires id in start.jobs && PassResult(start.jobs[id].definition, pass, outcome) && NoneRefused(trace)
    ensures outcome.Success? <==> NoneRefused(trace + pass)
    ensures outcome.Failure? ==> outcome.error == InvalidTask && !AllAdmissible(start.jobs)
  {
    hide NoneRefused, PipelinesAdmissible;
    NoneRefusedAll(trace, pass);
  }

  lemma OnePassMore(s: State, s': State, remaining: set<JobId>, id: JobId, trace: seq<Action>, pass: seq<Action>)
    requires PassesMade(s.jobs, remaining + {id}, trace) && id in s.jobs && OnlyJob(s, s', id)
    requires LevelsKept(s.jobs[id], s'.jobs[id]) && Unstuck(s'.jobs[id]) && RolesTried(s'.jobs[id], id, pass)
    ensures PassesMade(s'.jobs, remaining, trace + pass)
  {
    hide Unstuck, LevelUnplaced;
    forall j | j in s'.jobs
      ensures LevelsTried(s'.jobs[j], j, trace + pass)
      ensures j in remaining || (Unstuck(s'.jobs[j]) && RolesTried(s'.jobs[j], j, trace + pass))
    {
      assert LevelsTried(s.jobs[j], j, trace);
      if j == id { assert RolesTried(s'.jobs[id], id, pass); }
    }
  }

  // ----- reduction levels -----

  /** The job once a reduction with these inputs has been recorded: finished, or awaiting its level. */
  function Settled(s: State, id: JobId, name: string): State
    requires id in s.jobs && name in s.jobs[id].reductions
  {
    var job := s.jobs[id];
    var reduction := job.reductions[name];
    if |reduction.inputs| <= 1 then
      WithJob(s, id, SetRole(job, name, Done(reduction.inputs)).(reductions := job.reductions - {name}))
    else WithJob(s, id, SetRole(job, name, Reducing([], 0, reduction.level)))
  }

  lemma LevelIsAllowed(s: State, id: JobId, name: string, items: seq<LevelItem>, first: TaskId, groups: seq<seq<ObjectId>>)
    requires id in s.jobs && LevelUnplaced(s.jobs[id], name) && forall t :: t in s.tasks ==> t < first
    requires HasReduce(items)
    requires LevelOf(ReductionOf(s.jobs[id], name).value, s.jobs[id].reductions[name].inputs, first, items, groups)
    ensures LevelAllowed(s, id, name, Some(items)) && FreshIds(s.tasks, TaskIdsOf(ReducerTasks(items)))
    ensures forall k :: 0 <= k < |ReducerTasks(items)| ==> AdmissibleTask(ReducerTasks(items)[k])
  {
    hide HasReduce, AdmissibleTask, LevelOf, ReductionOf;
    AllLevelTaskIds(ReductionOf(s.jobs[id], name).value, s.jobs[id].reductions[name].inputs, first, items, groups);
    var specs := ReducerTasks(items);
    forall i | 0 <= i < |specs| ensures TaskIdsOf(specs)[i] !in s.tasks { assert specs[i].id >= first; }
  }

  /** Admissible tasks under different ids from `first` up to `first + k`. */
  ghost predicate NumberedBelow(specs: seq<TaskSpec>, first: TaskId, k: nat)
  {
    && (forall i :: 0 <= i < |specs| ==> first <= specs[i].id < first + k && AdmissibleTask(specs[i]))
    && forall i, j :: 0 <= i < j < |specs| ==> specs[i].id != specs[j].id
  }

  lemma NothingNumbered(first: TaskId)
    ensures NumberedBelow([], first, 0)
  {
  }

  lemma Numbered(specs: seq<TaskSpec>, spec: TaskSpec, first: TaskId, k: nat)
    requires NumberedBelow(specs, first, k) && spec.id == first + k && AdmissibleTask(spec)
    ensures NumberedBelow(specs + [spec], first, k + 1)
  {
    hide AdmissibleTask;
  }

  lemma StillNumbered(specs: seq<TaskSpec>, first: TaskId, k: nat)
    requires NumberedBelow(specs, first, k)
    ensures NumberedBelow(specs, first, k + 1)
  {
    hide AdmissibleTask;
  }

  /** A level's tasks carry rising ids from `first` on and pass validation. */
  lemma {:induction false} LevelTaskIds(reduction: RoleReductionSpec, inputs: seq<ObjectId>, first: TaskId, items: seq<LevelItem>,
                                        groups: seq<seq<ObjectId>>, k: nat)
    requires LevelOf(reduction, inputs, first, items, groups) && k <= |items|
    ensures var specs := ReducerTasks(items[..k]);
            NumberedBelow(specs, first, k)
  {
    hide AdmissibleTask, NumberedBelow;
    if k == 0 {
      NothingNumbered(first);
      assert items[..k] == [];
    } else {
      LevelTaskIds(reduction, inputs, first, items, groups, k - 1);
      assert items[..k][..k - 1] == items[..k - 1];
      assert ItemFor(reduction, groups[k - 1], first + (k - 1), items[k - 1]);
      if items[k - 1].Reduce? {
        PlainTaskIsAdmissible(first + (k - 1), reduction.task, groups[k - 1]);
        Numbered(ReducerTasks(items[..k - 1]), items[k - 1].task, first, k - 1);
        assert ReducerTasks(items[..k]) == ReducerTasks(items[..k - 1]) + [items[k - 1].task];
      } else {
        StillNumbered(ReducerTasks(items[..k - 1]), first, k - 1);
        assert ReducerTasks(items[..k]) == ReducerTasks(items[..k - 1]) + [];
        assert ReducerTasks(items[..k]) == ReducerTasks(items[..k - 1]);
      }
    }
  }

  lemma AllLevelTaskIds(reduction: RoleReductionSpec, inputs: seq<ObjectId>, first: TaskId, items: seq<LevelItem>,
                        groups: seq<seq<ObjectId>>)
    requires LevelOf(reduction, inputs, first, items, groups)
    ensures forall i :: 0 <= i < |ReducerTasks(items)| ==> first <= ReducerTasks(items)[i].id && AdmissibleTask(ReducerTasks(items)[i])
    ensures forall i, j :: 0 <= i < j < |ReducerTasks(items)| ==> ReducerTasks(items)[i].id != ReducerTasks(items)[j].id
  {
    hide AdmissibleTask, LevelOf, ReducerTasks;
    LevelTaskIds(reduction, inputs, first, items, groups, |items|);
    assert items[..|items|] == items;
  }

  lemma PlaceIsAction(s: State, s': State, id: JobId, name: string, choice: Option<seq<LevelItem>>)
    requires PlaceStep(s, s', id, name, choice)
    ensures Enabled(s, PlaceReduction(id, name, choice)) && s' == Step(s, PlaceReduction(id, name, choice))
    ensures id in s.jobs && OnlyJob(s, s', id) && QuietJob(s.jobs[id], s'.jobs[id])
  {
    hide LevelOf, AddTasks, BindAll, ReducerTasks;
  }

  lemma ReductionIsValid(s: State, id: JobId, name: string)
    requires Inv(s) && id in s.jobs && ReductionOf(s.jobs[id], name).Some?
    ensures ReductionOf(s.jobs[id], name).value.maxFanIn >= 2 && ReductionOf(s.jobs[id], name).value.localityRttMs >= 0.0
  {
    hide Inv, Acyclic, ValidImplementations;
    JobIsShaped(s, id);
    RoleIsValid(s.jobs[id], name);
  }

  /** What the planner made of the level is its decision for this state. */
  lemma LevelIsDecided(s: State, id: JobId, name: string, planner: Planner, context: Context, items: Option<seq<LevelItem>>)
    requires id in s.jobs && LevelUnplaced(s.jobs[id], name) && PlanningView(s, planner, context)
    requires LevelChosen(ReductionOf(s.jobs[id], name).value, s.jobs[id].reductions[name].inputs, 0.0, map[], context, items)
    ensures Decided(s, PlaceReduction(id, name, items), planner)
  {
    hide LevelChosen, PlanningView, ReductionOf;
  }

  lemma OnePlanned(s: State, action: Action, s': State, planner: Planner)
    requires Enabled(s, action) && Decided(s, action, planner) && s' == Step(s, action)
    ensures Planned(s, [action], s', planner)
  {
    hide Enabled, Step, Decided;
    assert [action][1..] == [];
    assert Planned(s', [], s', planner);
  }

  lemma NoLevelPlaced(s: State, id: JobId, name: string)
    requires Inv(s) && id in s.jobs && LevelUnplaced(s.jobs[id], name)
    ensures PlaceStep(s, s, id, name, None)
  {
    hide Inv, JobShape, RoleOk, ReductionOf;
    JobIsShaped(s, id);
    InvAt(s, id, name);
    UnplacedStatus(s, id, name);
    assert PlaceLevel(s, id, name, None).jobs[id].roles == s.jobs[id].roles;
    assert PlaceLevel(s, id, name, None).jobs == s.jobs;
  }

  /** A placed level is no longer without tasks. */
  lemma PlacedHasItems(s: State, s': State, id: JobId, name: string, items: seq<LevelItem>)
    requires PlaceStep(s, s', id, name, Some(items))
    ensures id in s'.jobs && !LevelUnplaced(s'.jobs[id], name)
  {
    hide LevelOf, AddTasks, BindAll, ReducerTasks, ReductionOf;
  }

  lemma SettledIsUnplaced(s: State, id: JobId, name: string)
    requires id in s.jobs && name in s.jobs[id].reductions && |s.jobs[id].reductions[name].inputs| > 1
    requires name in s.jobs[id].roles && s.jobs[id].reductions[name].items == [] && ReductionOf(s.jobs[id], name).Some?
    ensures var s' := Settled(s, id, name);
            && id in s'.jobs && LevelUnplaced(s'.jobs[id], name) && ReductionOf(s'.jobs[id], name) == ReductionOf(s.jobs[id], name)
            && OnlyJob(s, s', id)
  {
  }

  lemma LevelCarried(s: State, s': State, id: JobId, name: string, items: seq<LevelItem>)
    requires id in s.jobs && LevelUnplaced(s.jobs[id], name) && LevelAllowed(s, id, name, Some(items))
    requires var job := s.jobs[id];
             && s'.tasks == AddTasks(s.tasks, ReducerTasks(items))
             && s'.bindings == BindAll(s.bindings, TaskIdsOf(ReducerTasks(items)), Reduction(id, name))
             && s' == s.(tasks := s'.tasks, bindings := s'.bindings,
                  jobs := s.jobs[id := SetRole(job, name, Reducing(TaskIdsOf(ReducerTasks(items)), 0, job.reductions[name].level))
                                       .(reductions := job.reductions[name := job.reductions[name].(items := ItemsOf(items))])])
    ensures PlaceStep(s, s', id, name, Some(items))
  {
    hide LevelAllowed, AddTasks, BindAll, ReducerTasks;
  }

  lemma PassEntry(s: State, id: JobId, waiting: set<string>, ready: seq<ReadyRole>, k: nat)
    requires PassAt(s, id, waiting, ready, k) && k < |ready|
    ensures id in s.jobs && StillReady(s.jobs[id], waiting, ready[k]) && WaitingRoles(s.jobs[id]) <= waiting
  {
    hide StillReady, Awaiting;
  }

  /** Nothing was completed, and nothing started waiting. */
  ghost predicate QuietJob(job: JobRecord, job': JobRecord)
  {
    && job'.definition == job.definition && job'.roles.Keys == job.roles.Keys
    && (forall r :: r in job.roles && job'.roles[r].Waiting? ==> job.roles[r].Waiting?)
    && forall r :: r in job'.roles && job'.roles[r].Done? ==> job.roles[r].Done?
  }

  /** Members, objects, links and the set of jobs are as before. */
  ghost predicate Undisturbed(s: State, s': State)
  {
    s'.resources == s.resources && s'.objects == s.objects && s'.links == s.links && s'.issued == s.issued
    && s'.jobs.Keys == s.jobs.Keys
  }

  lemma RecordedIsUnplaced(s: State, id: JobId, name: string)
    requires Inv(s) && id in s.jobs && name in s.jobs[id].reductions
    requires |s.jobs[id].reductions[name].inputs| > 1 && s.jobs[id].reductions[name].items == []
    ensures LevelUnplaced(s.jobs[id], name)
  {
    hide Inv, RoleOk, ValidJob, ReductionOf;
    JobIsShaped(s, id);
    InvAt(s, id, name);
    ReducingFacts(s, id, name);
  }

  lemma UnplacedIsSettled(s: State, id: JobId, name: string)
    requires Inv(s) && id in s.jobs && LevelUnplaced(s.jobs[id], name)
    ensures Settled(s, id, name) == s
  {
    hide RoleOk, BindingOk, JobShape, ReductionOf;
    assert RoleOk(s, id, name);
    UnplacedStatus(s, id, name);
    assert Settled(s, id, name).jobs[id].roles == s.jobs[id].roles;
    assert Settled(s, id, name).jobs == s.jobs;
  }

  /** The recorded levels with inputs to reduce but no tasks yet. */
  function UnplacedLevels(jobs: map<JobId, JobRecord>): set<(JobId, string)>
  {
    set j, n | j in jobs && n in jobs[j].reductions
               && |jobs[j].reductions[n].inputs| > 1 && jobs[j].reductions[n].items == [] :: (j, n)
  }

  /** The trace so far has placed levels only, and `pairs` still await theirs. */
  ghost predicate RefreshAt(start: State, s: State, trace: seq<Action>, pairs: set<(JobId, string)>, planner: Planner)
  {
    && Planned(start, trace, s, planner) && Undisturbed(start, s) && NoneRefused(trace)
    && (forall j :: j in start.jobs ==> j in s.jobs && QuietJob(start.jobs[j], s.jobs[j]))
    && (forall pair :: pair in pairs ==> pair.0 in s.jobs && LevelUnplaced(s.jobs[pair.0], pair.1))
    && forall j, r :: j in s.jobs && LevelUnplaced(s.jobs[j], r) ==> (j, r) in pairs || PlaceReduction(j, r, None) in trace
  }

  lemma RefreshStarts(s: State, pairs: set<(JobId, string)>, planner: Planner)
    requires Inv(s) && pairs == UnplacedLevels(s.jobs)
    ensures RefreshAt(s, s, [], pairs, planner)
  {
    hide Inv, LevelUnplaced;
    forall pair | pair in pairs ensures pair.0 in s.jobs && LevelUnplaced(s.jobs[pair.0], pair.1) {
      RecordedIsUnplaced(s, pair.0, pair.1);
    }
    forall j, r | j in s.jobs && LevelUnplaced(s.jobs[j], r) ensures (j, r) in pairs { UnplacedIsRecorded(s.jobs[j], r); }
  }

  lemma UnplacedIsRecorded(job: JobRecord, name: string)
    requires LevelUnplaced(job, name)
    ensures name in job.reductions && |job.reductions[name].inputs| > 1 && job.reductions[name].items == []
  {
  }

  lemma RefreshEntry(start: State, s: State, trace: seq<Action>, pairs: set<(JobId, string)>, planner: Planner, id: JobId, name: string)
    requires Inv(s) && RefreshAt(start, s, trace, pairs + {(id, name)}, planner)
    ensures id in s.jobs && LevelUnplaced(s.jobs[id], name) && Settled(s, id, name) == s
    ensures name in s.jobs[id].roles && name in s.jobs[id].reductions && s.jobs[id].reductions[name].items == []
    ensures ReductionOf(s.jobs[id], name).Some? && |s.jobs[id].reductions[name].inputs| > 1
  {
    hide Inv, Planned, Settled;
    assert (id, name) in pairs + {(id, name)};
    UnplacedIsSettled(s, id, name);
  }

  lemma RefreshStep(start: State, s: State, s': State, trace: seq<Action>, placed: seq<Action>, id: JobId, name: string,
                    pairs: set<(JobId, string)>, planner: Planner)
    requires RefreshAt(start, s, trace, pairs + {(id, name)}, planner) && (id, name) !in pairs
    requires Planned(s, placed, s', planner) && id in s.jobs && id in s'.jobs && OnlyJob(s, s', id)
    requires QuietJob(s.jobs[id], s'.jobs[id])
    requires forall r :: r in s'.jobs[id].roles && r != name ==> StatusKept(s.jobs[id], s'.jobs[id], r)
    requires LevelUnplaced(s'.jobs[id], name) ==> PlaceReduction(id, name, None) in placed
    requires NoneRefused(placed)
    ensures RefreshAt(start, s', trace + placed, pairs, planner)
  {
    NoneRefusedAll(trace, placed);
    hide NoneRefused, LevelUnplaced, Planned, StatusKept, QuietJob;
    PlannedAll(start, trace, s, placed, s', planner);
    assert s'.jobs[id].definition == s.jobs[id].definition && s'.jobs[id].roles.Keys == s.jobs[id].roles.Keys by {
      QuietShape(s.jobs[id], s'.jobs[id]);
    }
    OthersUnplaced(s, s', id, name, pairs);
    StaysQuiet(start, s, s', id);
    forall j, r | j in s'.jobs && LevelUnplaced(s'.jobs[j], r)
      ensures (j, r) in pairs || PlaceReduction(j, r, None) in trace + placed
    {
      if j != id || r != name {
        StillUnplaced(s, s', id, name, j, r);
      }
    }
  }

  lemma QuietShape(job: JobRecord, job': JobRecord)
    requires QuietJob(job, job')
    ensures job'.definition == job.definition && job'.roles.Keys == job.roles.Keys
  {
  }

  lemma StaysQuiet(start: State, s: State, s': State, id: JobId)
    requires id in s.jobs && id in s'.jobs && OnlyJob(s, s', id) && QuietJob(s.jobs[id], s'.jobs[id])
    requires forall j :: j in start.jobs ==> j in s.jobs && QuietJob(start.jobs[j], s.jobs[j])
    ensures forall j :: j in start.jobs ==> j in s'.jobs && QuietJob(start.jobs[j], s'.jobs[j])
  {
    hide QuietJob;
    forall j | j in start.jobs ensures j in s'.jobs && QuietJob(start.jobs[j], s'.jobs[j]) {
      if j == id { QuietTwice(start.jobs[j], s.jobs[j], s'.jobs[j]); }
    }
  }

  lemma StillUnplaced(s: State, s': State, id: JobId, name: string, j: JobId, r: string)
    requires id in s.jobs && id in s'.jobs && OnlyJob(s, s', id) && s'.jobs[id].definition == s.jobs[id].definition
    requires forall r :: r in s'.jobs[id].roles && r != name ==> StatusKept(s.jobs[id], s'.jobs[id], r)
    requires j in s'.jobs && LevelUnplaced(s'.jobs[j], r) && (j != id || r != name)
    ensures j in s.jobs && LevelUnplaced(s.jobs[j], r)
  {
    if j == id { assert StatusKept(s.jobs[id], s'.jobs[id], r); }
  }

  lemma RefreshEnds(start: State, s: State, trace: seq<Action>, planner: Planner)
    requires RefreshAt(start, s, trace, {}, planner)
    ensures Planned(start, trace, s, planner) && Undisturbed(start, s) && NoneRefused(trace)
    ensures forall j :: j in start.jobs ==> j in s.jobs && QuietJob(start.jobs[j], s.jobs[j])
    ensures forall j :: j in s.jobs ==> LevelsTried(s.jobs[j], j, trace)
  {
  }

  lemma OthersUnplaced(s: State, s': State, id: JobId, name: string, pairs: set<(JobId, string)>)
    requires id in s.jobs && id in s'.jobs && OnlyJob(s, s', id) && s'.jobs[id].definition == s.jobs[id].definition
    requires s'.jobs[id].roles.Keys == s.jobs[id].roles.Keys
    requires forall r :: r in s'.jobs[id].roles && r != name ==> StatusKept(s.jobs[id], s'.jobs[id], r)
    requires (id, name) !in pairs && forall pair :: pair in pairs ==> pair.0 in s.jobs && LevelUnplaced(s.jobs[pair.0], pair.1)
    ensures forall pair :: pair in pairs ==> pair.0 in s'.jobs && LevelUnplaced(s'.jobs[pair.0], pair.1)
  {
    forall pair | pair in pairs ensures pair.0 in s'.jobs && LevelUnplaced(s'.jobs[pair.0], pair.1) {
      if pair.0 == id { assert StatusKept(s.jobs[id], s'.jobs[id], pair.1); }
    }
  }

  // ----- commits -----

  /** Between marking the task completed and advancing its role. */
  ghost predicate Committing(s: State, now: State, task: TaskId, published: seq<ObjectMetadata>, outputs: seq<ObjectId>)
  {
    && Inv(s) && task in s.tasks && Bound(s, task) && CommitStep(s, Commit(s, task, published), task, published)
    && outputs == Ids(published)
    && now == s.(tasks := CommittedTasks(s, task, published), objects := PublishAll(s.objects, published))
  }

  /** A pass over the roles of one job fails exactly when it decided on a pipeline that is refused. */
  ghost predicate PassResult(definition: JobDefinition, trace: seq<Action>, result: Result<(), FabricError>)
  {
    && (result.Success? <==> NoneRefused(trace))
    && (result.Failure? ==> result.error == InvalidTask && !PipelinesAdmissible(definition))
  }

  lemma NoneRefusedAll(trace: seq<Action>, more: seq<Action>)
    ensures NoneRefused(trace + more) <==> NoneRefused(trace) && NoneRefused(more)
  {
    hide RefusedChoice;
    forall action ensures action in trace + more <==> action in trace || action in more {}
  }

  lemma NothingRefused()
    ensures NoneRefused([])
  {
  }

  lemma OneRefused(trace: seq<Action>, job: JobId, role: string, choice: RoleChoice)
    ensures NoneRefused(trace + [Action.MaterializeRole(job, role, choice)]) <==> NoneRefused(trace) && !RefusedChoice(choice)
  {
    hide RefusedChoice;
    var one := [Action.MaterializeRole(job, role, choice)];
    NoneRefusedAll(trace, one);
    assert one[0] in one;
  }

  lemma JobGraph(s: State, id: JobId)
    requires Inv(s) && id in s.jobs
    ensures ValidGraph(s.jobs[id].definition.roles, s.jobs[id].definition.outputs)
  {
    hide Inv, JobShape, ValidGraph;
    JobIsShaped(s, id);
    ShapeGraph(s.jobs[id]);
  }

  lemma ShapeGraph(job: JobRecord)
    requires JobShape(job)
    ensures ValidGraph(job.definition.roles, job.definition.outputs)
  {
  }

  /**
   * The commit happened; what follows it are role actions. They fail only for a job that may meet a
   * refused pipeline, and otherwise no job became stuck.
   */
  ghost predicate Completes(s: State, task: TaskId, published: seq<ObjectMetadata>, trace: seq<Action>, s': State,
                            result: Result<(), FabricError>, planner: Planner)
  {
    && task in s.tasks && Bound(s, task)
    && Planned(Commit(s, task, published), trace, s', planner)
    && (if task in s.bindings then PassResult(s.jobs[s.bindings[task].job].definition, trace, result)
        else result.Success? && trace == [])
    && (result.Success? && (forall j :: j in s.jobs ==> Unstuck(s.jobs[j])) ==> forall j :: j in s'.jobs ==> Unstuck(s'.jobs[j]))
  }

  lemma CommitBinding(s: State, task: TaskId, published: seq<ObjectMetadata>)
    requires Inv(s) && task in s.bindings
    ensures BindingOk(s, task)
  {
    hide Inv;
    BindingOf(s, task);
  }

  lemma OnePassCompletes(s: State, task: TaskId, published: seq<ObjectMetadata>, trace: seq<Action>, s': State,
                         result: Result<(), FabricError>, id: JobId, planner: Planner)
    requires task in s.tasks && Bound(s, task) && CommitStep(s, Commit(s, task, published), task, published)
    requires task in s.bindings && s.bindings[task].job == id && id in s.jobs
    requires Planned(Commit(s, task, published), trace, s', planner) && OnlyJob(Commit(s, task, published), s', id)
    requires id in s'.jobs && (result.Success? ==> Unstuck(s'.jobs[id]))
    requires PassResult(s.jobs[id].definition, trace, result)
    ensures Completes(s, task, published, trace, s', result, planner)
  {
    hide Unstuck, AfterTask, PublishAll, Planned, PassResult;
  }

  lemma PlacingCompletes(s: State, task: TaskId, published: seq<ObjectMetadata>, trace: seq<Action>, s': State,
                         result: Result<(), FabricError>, id: JobId, planner: Planner)
    requires task in s.tasks && Bound(s, task) && CommitStep(s, Commit(s, task, published), task, published)
    requires task in s.bindings && s.bindings[task].job == id && id in s.jobs && id in Commit(s, task, published).jobs
    requires Planned(Commit(s, task, published), trace, s', planner) && OnlyJob(Commit(s, task, published), s', id)
    requires result.Success? && id in s'.jobs && QuietJob(s.jobs[id], Commit(s, task, published).jobs[id])
    requires QuietJob(Commit(s, task, published).jobs[id], s'.jobs[id])
    requires PassResult(s.jobs[id].definition, trace, result)
    ensures Completes(s, task, published, trace, s', result, planner)
  {
    hide Unstuck, AfterTask, PublishAll, Planned, PassResult;
    if forall j :: j in s.jobs ==> Unstuck(s.jobs[j]) {
      UnstuckKept(s.jobs[id], Commit(s, task, published).jobs[id]);
      UnstuckKept(Commit(s, task, published).jobs[id], s'.jobs[id]);
    }
  }

  lemma NothingCompletes(s: State, task: TaskId, published: seq<ObjectMetadata>, s': State, planner: Planner)
    requires task in s.tasks && Bound(s, task) && s' == Commit(s, task, published) && s'.jobs == s.jobs
    ensures Completes(s, task, published, [], s', Success(()), planner)
  {
    hide Unstuck, Commit;
  }

  lemma SameJob(jobs: map<JobId, JobRecord>, id: JobId)
    requires id in jobs
    ensures jobs[id := jobs[id]] == jobs
  {
  }

  lemma StartIsSettled(s: State, now: State, id: JobId, name: string, gathered: seq<ObjectId>)
    requires id in s.jobs && id in now.jobs && name in s.jobs[id].roles && |gathered| > 1 && ReductionOf(s.jobs[id], name).Some?
    requires s.jobs[id].roles[name].Sharded?
    requires now.jobs[id] == SetRole(s.jobs[id], name, Reducing([], 0, 0))
                             .(reductions := s.jobs[id].reductions[name := ActiveReduction(0, gathered, [])])
    ensures Settled(now, id, name) == now && ReductionOf(now.jobs[id], name).Some? && QuietJob(s.jobs[id], now.jobs[id])
  {
    assert Settled(now, id, name).jobs[id].roles == now.jobs[id].roles;
    assert Settled(now, id, name).jobs == now.jobs;
  }

  /** A completed reducer has exactly one output. */
  predicate OneOutput(tasks: Tasks, item: ReductionItem)
  {
    item.TaskItem? && item.task in tasks && tasks[item.task].status.Completed? ==> |tasks[item.task].status.outputs| == 1
  }

  lemma CommitIsEnabled(s: State, lease: ExecutionLease, outputs: seq<ObjectMetadata>, now: u64)
    requires CanCommit(s, lease, outputs, now) && ConsistentOutputs(outputs) && Bound(s, lease.task)
    ensures Enabled(s, CommitExecution(lease, outputs, now))
    ensures CommitStep(s, Commit(s, lease.task, outputs), lease.task, outputs)
  {
    hide Commit, CanPublish;
  }

  /** An active task's job, and for a reducer its level, are on record. */
  lemma BoundInInv(s: State, task: TaskId)
    requires Inv(s) && task in s.tasks && s.tasks[task].status.Active()
    ensures Bound(s, task)
  {
    hide Inv, BindingOk;
    if task in s.bindings {
      BindingOf(s, task);
      BoundByBinding(s, task);
      if s.bindings[task].Reduction? { InvAt(s, s.bindings[task].job, s.bindings[task].role); }
    }
  }

  lemma BoundByBinding(s: State, task: TaskId)
    requires task in s.bindings && BindingOk(s, task) && s.tasks[task].status.Active()
    ensures s.bindings[task].job in s.jobs
    ensures s.bindings[task].FusedChain? ==> s.bindings[task].roles != []
    ensures !s.bindings[task].FusedChain? ==> s.bindings[task].role in s.jobs[s.bindings[task].job].roles
    ensures s.bindings[task].Reduction? ==> s.jobs[s.bindings[task].job].roles[s.bindings[task].role].Reducing?
  {
    hide InstanceTask, FusedTask, DependencyOutputs, PrivateEdge;
  }

  lemma LevelHasOneOutputEach(s: State, task: TaskId, published: seq<ObjectMetadata>, id: JobId, name: string)
    requires Inv(s) && task in s.tasks && |published| == 1 && id in s.jobs && name in s.jobs[id].roles
    requires s.jobs[id].roles[name].Reducing? && name in s.jobs[id].reductions
    ensures var items := s.jobs[id].reductions[name].items;
            forall i :: 0 <= i < |items| ==> OneOutput(CommittedTasks(s, task, published), items[i])
  {
    hide Inv, RoleOk, JobShape, ItemTasks;
    var items := s.jobs[id].reductions[name].items;
    InvAt(s, id, name);
    forall i | 0 <= i < |items| ensures OneOutput(CommittedTasks(s, task, published), items[i]) {
      if items[i].TaskItem? && items[i].task != task {
        ItemTaskListed(items, i);
        ReducerOutput(s, id, name, items[i].task);
      }
    }
  }

  lemma ReducerOutput(s: State, id: JobId, name: string, t: TaskId)
    requires Inv(s) && id in s.jobs && name in s.jobs[id].roles && RoleOk(s, id, name) && s.jobs[id].roles[name].Reducing?
    requires name in s.jobs[id].reductions && t in ItemTasks(s.jobs[id].reductions[name].items)
    ensures t in s.tasks && (s.tasks[t].status.Completed? ==> |s.tasks[t].status.outputs| == 1)
  {
    hide Inv, LevelInputs;
    var ids := ItemTasks(s.jobs[id].reductions[name].items);
    var k :| 0 <= k < |ids| && ids[k] == t;
    assert ReducerTaskOk(s, id, name, ReductionOf(s.jobs[id], name).value, ids[k]);
    BindingOf(s, t);
  }

  lemma ReducerWaits(s: State, now: State, task: TaskId, published: seq<ObjectMetadata>, planner: Planner)
    requires Inv(s) && task in s.tasks && Bound(s, task)
    requires CommitStep(s, Commit(s, task, published), task, published) && ReducerCommit(s, Commit(s, task, published), task, published)
    requires var id, name := s.bindings[task].job, s.bindings[task].role;
             var reduction := s.jobs[id].reductions[name];
             var ids := ItemTasks(reduction.items);
             var tasks' := CommittedTasks(s, task, published);
             && NumCompleted(tasks', ids) < |ids|
             && now == s.(tasks := tasks', objects := PublishAll(s.objects, published),
                          jobs := s.jobs[id := SetRole(s.jobs[id], name, Reducing(ids, NumCompleted(tasks', ids), reduction.level))])
    ensures now == Commit(s, task, published) && Completes(s, task, published, [], now, Success(()), planner)
  {
    hide Inv, CommitStep, Commit, PublishAll, NumCompleted, ItemTasks, LevelOutputs, Unstuck;
    var id := s.bindings[task].job;
    PlacingCompletes(s, task, published, [], now, Success(()), id, planner);
  }

  lemma ReducerAdvances(s: State, now: State, task: TaskId, published: seq<ObjectMetadata>, next: seq<ObjectId>)
    requires Inv(s) && task in s.tasks && Bound(s, task)
    requires CommitStep(s, Commit(s, task, published), task, published) && ReducerCommit(s, Commit(s, task, published), task, published)
    requires var id, name := s.bindings[task].job, s.bindings[task].role;
             var reduction := s.jobs[id].reductions[name];
             var ids := ItemTasks(reduction.items);
             var tasks' := CommittedTasks(s, task, published);
             && NumCompleted(tasks', ids) >= |ids| && next == LevelOutputs(tasks', reduction.items)
             && now == s.(tasks := tasks', objects := PublishAll(s.objects, published),
                          jobs := s.jobs[id := s.jobs[id].(reductions :=
                            s.jobs[id].reductions[name := ActiveReduction(reduction.level + 1, next, [])])])
    ensures var id, name := s.bindings[task].job, s.bindings[task].role;
            && id in now.jobs && name in now.jobs[id].roles && name in now.jobs[id].reductions
            && Settled(now, id, name) == Commit(s, task, published) && ReductionOf(now.jobs[id], name).Some?
  {
    hide Inv, CommitStep, Commit, PublishAll, NumCompleted, ItemTasks, LevelOutputs, RoleOk, JobShape, ReductionOf;
    var id, name := s.bindings[task].job, s.bindings[task].role;
    InvAt(s, id, name);
    ReducingFacts(s, id, name);
    SameReduction(s.jobs[id], now.jobs[id], name);
    assert Settled(now, id, name).jobs[id].reductions == Commit(s, task, published).jobs[id].reductions;
    assert Settled(now, id, name).jobs == Commit(s, task, published).jobs;
  }

  lemma SameReduction(job: JobRecord, job': JobRecord, name: string)
    requires job.definition == job'.definition
    ensures ReductionOf(job, name) == ReductionOf(job', name)
  {
  }

  lemma AdvanceCompletes(s: State, task: TaskId, published: seq<ObjectMetadata>, trace: seq<Action>, advanced: State, s': State,
                         result: Result<(), FabricError>, next: seq<ObjectId>, planner: Planner)
    requires Inv(s) && task in s.tasks && Bound(s, task) && task in s.bindings && s.bindings[task].job in s.jobs
    requires CommitStep(s, Commit(s, task, published), task, published) && ReducerCommit(s, Commit(s, task, published), task, published)
    requires var id, name := s.bindings[task].job, s.bindings[task].role;
             && id in advanced.jobs && name in advanced.jobs[id].reductions && advanced.jobs[id].reductions[name].inputs == next
             && Settled(advanced, id, name) == Commit(s, task, published)
             && Planned(Commit(s, task, published), trace, s', planner) && id in s'.jobs && OnlyJob(advanced, s', id)
             && PassResult(s.jobs[id].definition, trace, result)
             && (|next| <= 1 && result.Success? ==> Unstuck(s'.jobs[id]))
             && (|next| > 1 ==> result.Success? && QuietJob(Commit(s, task, published).jobs[id], s'.jobs[id]))
    ensures Completes(s, task, published, trace, s', result, planner)
  {
    hide Inv, CommitStep, Commit, PublishAll, NumCompleted, ItemTasks, LevelOutputs, Unstuck, Planned, PassResult;
    var id := s.bindings[task].job;
    if |next| <= 1 {
      OnePassCompletes(s, task, published, trace, s', result, id, planner);
    } else {
      AdvanceIsQuiet(s, task, published);
      PlacingCompletes(s, task, published, trace, s', result, id, planner);
    }
  }

  lemma AdvanceIsQuiet(s: State, task: TaskId, published: seq<ObjectMetadata>)
    requires task in s.tasks && Bound(s, task) && task in s.bindings
    requires ReducerCommit(s, Commit(s, task, published), task, published)
    requires s.bindings[task].job in s.jobs && s.bindings[task].job in Commit(s, task, published).jobs
    requires !Commit(s, task, published).jobs[s.bindings[task].job].roles[s.bindings[task].role].Done?
    ensures QuietJob(s.jobs[s.bindings[task].job], Commit(s, task, published).jobs[s.bindings[task].job])
  {
    hide Commit, PublishAll, NumCompleted, ItemTasks, LevelOutputs;
  }

  // ----- reaping several executions -----

  function MarkedJobs(jobs: map<JobId, JobRecord>, bindings: map<TaskId, Binding>, task: TaskId): map<JobId, JobRecord>
  {
    if task in bindings && bindings[task].job in jobs
    then jobs[bindings[task].job := MarkUncertain(jobs[bindings[task].job], bindings[task])] else jobs
  }

  function MarkedAll(jobs: map<JobId, JobRecord>, bindings: map<TaskId, Binding>, ids: seq<TaskId>): map<JobId, JobRecord>
  {
    if ids == [] then jobs else MarkedJobs(MarkedAll(jobs, bindings, ids[..|ids| - 1]), bindings, ids[|ids| - 1])
  }

  /** The reaped tasks that cannot be replayed. */
  function UncertainOf(tasks: Tasks, ids: seq<TaskId>): seq<TaskId>
  {
    if ids == [] then []
    else
      var n := |ids| - 1;
      UncertainOf(tasks, ids[..n]) + if ids[n] in tasks && ReapedStatus(tasks[ids[n]].spec).Uncertain? then [ids[n]] else []
  }

  /** One reaping step after another. */
  function ReapAll(s: State, ids: seq<TaskId>): State
  {
    if ids == [] then s
    else
      var before := ReapAll(s, ids[..|ids| - 1]);
      if ids[|ids| - 1] in before.tasks then Reap(before, ids[|ids| - 1]) else before
  }

  ghost predicate ReapAt(s: State, ids: seq<TaskId>, trace: seq<Action>, now: u64)
  {
    && Inv(s) && Inv(ReapAll(s, ids)) && Reaches(s, trace, ReapAll(s, ids))
    && (forall i :: 0 <= i < |ids| ==> ids[i] in s.tasks && Expired(s.tasks[ids[i]], now))
    && (forall j :: j in s.jobs ==> j in ReapAll(s, ids).jobs && QuietJob(s.jobs[j], ReapAll(s, ids).jobs[j]))
    && forall k :: 0 <= k < |trace| ==> trace[k].ReapExecution? && trace[k].now == now
  }

  lemma ReapStarts(s: State)
    requires Inv(s)
    ensures forall now :: ReapAt(s, [], [], now)
    ensures ReapAll(s, []) == s && UncertainOf(s.tasks, []) == []
  {
    hide Inv;
  }

  lemma {:induction false} ReapedTasks(s: State, ids: seq<TaskId>)
    ensures ReapAll(s, ids).tasks.Keys == s.tasks.Keys && ReapAll(s, ids).bindings == s.bindings
    ensures ReapAll(s, ids).jobs.Keys == s.jobs.Keys
    ensures forall t :: t in s.tasks ==>
              ReapAll(s, ids).tasks[t] == if t in ids then s.tasks[t].(status := ReapedStatus(s.tasks[t].spec)) else s.tasks[t]
    ensures Undisturbed(s, ReapAll(s, ids))
  {
    hide MarkUncertain;
    if ids != [] {
      var n := |ids| - 1;
      ReapedTasks(s, ids[..n]);
      assert forall t :: t in ids <==> t in ids[..n] || t == ids[n];
    }
  }

  lemma ReapedOne(s: State, before: State, t: TaskId, marked: map<JobId, JobRecord>)
    requires t in before.tasks && before == s.(tasks := before.tasks, jobs := marked)
    ensures Reap(before, t) == s.(tasks := Reap(before, t).tasks,
              jobs := if ReapedStatus(before.tasks[t].spec).Uncertain? then MarkedJobs(marked, s.bindings, t) else marked)
  {
    hide MarkUncertain;
  }

  lemma UncertainPushed(tasks: Tasks, ids: seq<TaskId>)
    requires ids != [] && ids[|ids| - 1] in tasks
    ensures var n := |ids| - 1;
            UncertainOf(tasks, ids) == UncertainOf(tasks, ids[..n]) + if ReapedStatus(tasks[ids[n]].spec).Uncertain? then [ids[n]] else []
  {
  }

  lemma MarkedPushed(jobs: map<JobId, JobRecord>, bindings: map<TaskId, Binding>, ids: seq<TaskId>, t: TaskId)
    ensures MarkedAll(jobs, bindings, ids + [t]) == MarkedJobs(MarkedAll(jobs, bindings, ids), bindings, t)
  {
    hide MarkedJobs;
    assert (ids + [t])[..|ids|] == ids;
  }

  /** Reaping in order marks the roles of the uncertain tasks in the same order. */
  lemma {:induction false} ReapedJobs(s: State, ids: seq<TaskId>)
    requires forall i :: 0 <= i < |ids| ==> ids[i] in s.tasks
    ensures ReapAll(s, ids) == s.(tasks := ReapAll(s, ids).tasks, jobs := MarkedAll(s.jobs, s.bindings, UncertainOf(s.tasks, ids)))
  {
    hide MarkedJobs, Reap, ReapedStatus;
    if ids != [] {
      var n := |ids| - 1;
      ReapedJobs(s, ids[..n]);
      ReapedSpecs(s, ids[..n]);
      var front := UncertainOf(s.tasks, ids[..n]);
      UncertainPushed(s.tasks, ids);
      MarkedPushed(s.jobs, s.bindings, front, ids[n]);
      assert front + [] == front;
      ReapedOne(s, ReapAll(s, ids[..n]), ids[n], MarkedAll(s.jobs, s.bindings, front));
    }
  }

  lemma ReapedSpecs(s: State, ids: seq<TaskId>)
    ensures ReapAll(s, ids).tasks.Keys == s.tasks.Keys
    ensures forall t :: t in s.tasks ==> ReapAll(s, ids).tasks[t].spec == s.tasks[t].spec
  {
    ReapedTasks(s, ids);
    hide ReapAll;
  }

  /** One more task is one more step, and only its own record changes. */
  lemma ReapOneMore(s: State, ids: seq<TaskId>, t: TaskId)
    requires t in s.tasks && t !in ids
    ensures ReapAll(s, ids).tasks.Keys == s.tasks.Keys && ReapAll(s, ids).tasks[t] == s.tasks[t]
    ensures ReapAll(s, ids + [t]) == Reap(ReapAll(s, ids), t)
    ensures UncertainOf(s.tasks, ids + [t]) == UncertainOf(s.tasks, ids) + if ReapedStatus(s.tasks[t].spec).Uncertain? then [t] else []
  {
    hide Reap;
    ReapedTasks(s, ids);
    assert (ids + [t])[..|ids|] == ids;
  }

  lemma ReapMore(s: State, ids: seq<TaskId>, trace: seq<Action>, now: u64, t: TaskId)
    requires ReapAt(s, ids, trace, now) && t in s.tasks && t !in ids && Expired(s.tasks[t], now)
    ensures ReapAt(s, ids + [t], trace + [ReapExecution(t, now)], now)
    ensures ReapAll(s, ids + [t]).tasks == ReapAll(s, ids).tasks[t := s.tasks[t].(status := ReapedStatus(s.tasks[t].spec))]
    ensures UncertainOf(s.tasks, ids + [t]) == UncertainOf(s.tasks, ids) + if ReapedStatus(s.tasks[t].spec).Uncertain? then [t] else []
  {
    hide Inv, MarkUncertain, QuietJob, ReapAll, UncertainOf, Reaches;
    ReapOneMore(s, ids, t);
    var before := ReapAll(s, ids);
    ReapTakesBack(before, t, now);
    ReachesThen(s, trace, before, ReapExecution(t, now));
    ReapKeepsInv(before, Reap(before, t), t);
    ReapIsQuiet(before, t);
    forall j | j in s.jobs ensures QuietJob(s.jobs[j], Reap(before, t).jobs[j]) {
      QuietTwice(s.jobs[j], before.jobs[j], Reap(before, t).jobs[j]);
    }
  }

  lemma ReapTakesBack(s: State, t: TaskId, now: u64)
    requires t in s.tasks && Expired(s.tasks[t], now)
    ensures Enabled(s, ReapExecution(t, now)) && Step(s, ReapExecution(t, now)) == Reap(s, t)
    ensures Reap(s, t).tasks == s.tasks[t := s.tasks[t].(status := ReapedStatus(s.tasks[t].spec))]
  {
    hide MarkUncertain;
  }

  lemma QuietTwice(a: JobRecord, b: JobRecord, c: JobRecord)
    requires QuietJob(a, b) && QuietJob(b, c)
    ensures QuietJob(a, c)
  {
  }

  lemma ReapIsQuiet(s: State, t: TaskId)
    requires Inv(s) && t in s.tasks && s.tasks[t].status.Running?
    ensures Reap(s, t).jobs.Keys == s.jobs.Keys
    ensures forall j :: j in s.jobs ==> QuietJob(s.jobs[j], Reap(s, t).jobs[j])
  {
    hide Inv, BindingOk;
    if !s.tasks[t].spec.effects.AutomaticallyRetryable() && t in s.bindings {
      BindingOf(s, t);
      LostTaskShape(s, Reap(s, t), t);
    }
  }

  lemma ReapEnds(s: State, ids: seq<TaskId>, trace: seq<Action>, now: u64)
    requires ReapAt(s, ids, trace, now)
    ensures Inv(ReapAll(s, ids)) && Reaches(s, trace, ReapAll(s, ids))
    ensures forall j :: j in s.jobs ==> j in ReapAll(s, ids).jobs && QuietJob(s.jobs[j], ReapAll(s, ids).jobs[j])
    ensures forall k :: 0 <= k < |trace| ==> trace[k].ReapExecution? && trace[k].now == now
    ensures forall i :: 0 <= i < |ids| ==> ids[i] in s.tasks
  {
  }

  // ----- carrying out a choice -----

  /** The role record the entry was taken from. */
  lemma EntryFacts(s: State, id: JobId, waiting: set<string>, item: ReadyRole)
    requires id in s.jobs && StillReady(s.jobs[id], waiting, item)
    ensures var job := s.jobs[id];
            && HasRole(job.definition.roles, item.role.name) && Role(job.definition.roles, item.role.name) == item.role
            && Materializable(job, item.role) && DependencyOutputs(job.roles, item.role.dependsOn) == Some(item.inputs)
            && item.role.name in job.roles
  {
    hide DependencyOutputs, IsFusionChain;
  }

  lemma CarriedInfeasible(s: State, s': State, id: JobId, waiting: set<string>, item: ReadyRole)
    requires id in s.jobs && StillReady(s.jobs[id], waiting, item) && item.role.Logical?
    requires s' == WithJob(s, id, SetRole(s.jobs[id], item.role.name, Ready))
    ensures MaterializeStep(s, s', id, item.role.name, RoleChoice.Infeasible)
  {
    EntryFacts(s, id, waiting, item);
    hide StillReady, Materializable, DependencyOutputs, FindRole;
  }

  lemma CarriedDirect(s: State, s': State, id: JobId, waiting: set<string>, item: ReadyRole, task: TaskId, template: TaskTemplate)
    requires id in s.jobs && StillReady(s.jobs[id], waiting, item) && task !in s.tasks
    requires !item.role.FansOut() && InstanceOf(item.role, template)
    requires s' == WithJob(FabricModel.Submit(s, template.Instantiate(task, item.inputs)), id,
                           SetRole(s.jobs[id], item.role.name, Submitted(task))).(bindings := s.bindings[task := Single(id, item.role.name)])
    ensures MaterializeStep(s, s', id, item.role.name, Direct(task, template))
  {
    EntryFacts(s, id, waiting, item);
    hide StillReady, Materializable, DependencyOutputs, FindRole, InstanceOf;
  }

  lemma CarriedShards(s: State, s': State, id: JobId, waiting: set<string>, item: ReadyRole, specs: seq<TaskSpec>)
    requires id in s.jobs && StillReady(s.jobs[id], waiting, item)
    requires item.role.FansOut() && FreshIds(s.tasks, TaskIdsOf(specs)) && ShardsAllowed(item.role, item.inputs, s.objects, specs)
    requires s' == WithJob(s, id, SetRole(s.jobs[id], item.role.name, Sharded(TaskIdsOf(specs), 0)))
                   .(tasks := AddTasks(s.tasks, specs), bindings := BindAll(s.bindings, TaskIdsOf(specs), Shard(id, item.role.name)))
    ensures MaterializeStep(s, s', id, item.role.name, Shards(specs))
  {
    EntryFacts(s, id, waiting, item);
    hide StillReady, Materializable, DependencyOutputs, FindRole, ShardsAllowed, FreshIds;
  }

  lemma ChoiceIsFused(s: State, id: JobId, waiting: set<string>, item: ReadyRole, choice: RoleChoice)
    requires id in s.jobs && StillReady(s.jobs[id], waiting, item) && choice.Fused? && choice.task !in s.tasks
    requires item.role.Chainable() && ChainAllowed(s.jobs[id], item.role.name, choice.chain, choice.templates)
    ensures ChoiceAllowed(s, id, item.role.name, choice)
  {
    EntryFacts(s, id, waiting, item);
    hide StillReady, Materializable, DependencyOutputs, FindRole, ChainAllowed;
  }

  lemma CarriedFused(s: State, s': State, id: JobId, waiting: set<string>, item: ReadyRole, choice: RoleChoice)
    requires choice.Fused? && ChoiceAllowed(s, id, item.role.name, choice) && choice.templates != []
    requires id in s.jobs && StillReady(s.jobs[id], waiting, item)
    requires var fused := FusedPipelineTask(choice.task, choice.templates, item.inputs, choice.requirements);
             s' == if !AdmissibleTask(fused) then s
                   else WithJob(FabricModel.Submit(s, fused), id, SetRoles(s.jobs[id], choice.chain, Submitted(choice.task)))
                        .(bindings := s.bindings[choice.task := FusedChain(id, choice.chain)])
    ensures MaterializeStep(s, s', id, item.role.name, choice)
    ensures MaterializeFails(s, id, item.role.name, choice)
            <==> !AdmissibleTask(FusedPipelineTask(choice.task, choice.templates, item.inputs, choice.requirements))
  {
    EntryFacts(s, id, waiting, item);
    hide StillReady, Materializable, DependencyOutputs, FindRole, ChainAllowed, AdmissibleTask, FusedPipelineTask, SetRoles;
  }

  /** The choice is refused exactly when its pipeline is not admissible for this entry. */
  lemma RefusedMeans(s: State, id: JobId, waiting: set<string>, item: ReadyRole, choice: RoleChoice)
    requires choice.Fused? && ChoiceAllowed(s, id, item.role.name, choice) && choice.templates != []
    requires id in s.jobs && StillReady(s.jobs[id], waiting, item)
    ensures RefusedChoice(choice)
            <==> !AdmissibleTask(FusedPipelineTask(choice.task, choice.templates, item.inputs, choice.requirements))
  {
    RefusedIff(s, id, item.role.name, choice);
    EntryFacts(s, id, waiting, item);
    hide StillReady, Materializable, DependencyOutputs, FindRole, ChainAllowed, AdmissibleTask, FusedPipelineTask, RefusedChoice;
  }

  lemma OnlyPipelinesAreRefused(choice: RoleChoice)
    requires !choice.Fused?
    ensures !RefusedChoice(choice)
  {
  }

  lemma StepKeepsDefinition(s: State, s': State, id: JobId, name: string, choice: RoleChoice)
    requires Inv(s) && MaterializeStep(s, s', id, name, choice)
    ensures id in s.jobs && id in s'.jobs && s'.jobs[id].definition == s.jobs[id].definition
  {
    hide Inv, MaterializeStep;
    MaterializeCompletesNothing(s, s', id, name, choice);
  }

  /** A fused step that was not refused changed something. */
  lemma AdmittedChanges(s: State, s': State, id: JobId, name: string, choice: RoleChoice)
    requires MaterializeStep(s, s', id, name, choice) && choice.Fused?
    ensures id in s.jobs && HasRole(s.jobs[id].definition.roles, name) && Materializable(s.jobs[id], Role(s.jobs[id].definition.roles, name))
    ensures !MaterializeFails(s, id, name, choice) ==> s' != s
  {
    hide AdmissibleTask, FusedPipelineTask, SetRoles, DependencyOutputs;
    assert [choice.task][0] !in s.tasks;
    if !MaterializeFails(s, id, name, choice) {
      FusedId(choice.task, choice.templates,
              DependencyOutputs(s.jobs[id].roles, Role(s.jobs[id].definition.roles, name).dependsOn).value, choice.requirements);
      assert choice.task in s'.tasks;
    }
  }

  lemma {:induction false} SpecsAdded(tasks: Tasks, specs: seq<TaskSpec>, k: nat)
    requires k < |specs| && FreshIds(tasks, TaskIdsOf(specs))
    ensures specs[k].id !in AddTasks(tasks, specs[..k])
    ensures AddTasks(tasks, specs[..k + 1]) == AddTasks(tasks, specs[..k])[specs[k].id := TaskRecord(specs[k], TaskStatus.Pending)]
  {
    var front := specs[..k];
    forall i, j | 0 <= i < j < k ensures front[i].id != front[j].id {
      assert TaskIdsOf(specs)[i] != TaskIdsOf(specs)[j];
    }
    AddTasksEffect(tasks, front);
    assert specs[..k + 1][..k] == front;
    assert TaskIdsOf(specs)[k] == specs[k].id;
    forall t | t in TaskIdsOf(front) ensures t != specs[k].id {
      var i :| 0 <= i < k && TaskIdsOf(front)[i] == t;
      assert TaskIdsOf(specs)[i] == t;
    }
  }

  lemma BindingsAdded(bindings: map<TaskId, Binding>, specs: seq<TaskSpec>, k: nat, binding: Binding)
    requires k < |specs|
    ensures BindAll(bindings, TaskIdsOf(specs[..k + 1]), binding) == BindAll(bindings, TaskIdsOf(specs[..k]), binding)[specs[k].id := binding]
  {
    assert TaskIdsOf(specs[..k + 1])[..k] == TaskIdsOf(specs[..k]);
  }

  lemma NumberedAreFresh(tasks: Tasks, specs: seq<TaskSpec>, first: TaskId)
    requires forall t :: t in tasks ==> t < first
    requires forall k :: 0 <= k < |specs| ==> specs[k].id == first + k
    ensures FreshIds(tasks, TaskIdsOf(specs))
  {
  }

  lemma ShardsAreAdmissible(role: RoleSpec, dependencies: seq<ObjectId>, objects: Objects, specs: seq<TaskSpec>)
    requires role.Logical? && ShardsAllowed(role, dependencies, objects, specs)
    ensures forall k :: 0 <= k < |specs| ==> AdmissibleTask(specs[k])
  {
    hide AdmissibleTask, InstantiateShardTask;
    forall k | 0 <= k < |specs| ensures AdmissibleTask(specs[k]) {
      assert ShardInstance(role, dependencies, objects, specs[k], k, |specs|);
      var policy := if role.shards.Auto? then Some(role.shards.policy) else None;
      var template :| InstanceOf(role, template)
        && InstantiateShardTask(specs[k].id, template, dependencies, k, |specs|, policy, objects) == Some(specs[k]);
      ShardTaskIsAdmissible(specs[k].id, template, dependencies, k, |specs|, policy, objects);
    }
  }

  /** The planner's selection, as a choice for this entry. */
  lemma SelectionIsAllowed(s: State, id: JobId, waiting: set<string>, item: ReadyRole, context: FusionContext, first: TaskId,
                           comparison: Comparison, selection: Selection)
    requires Inv(s) && id in s.jobs && StillReady(s.jobs[id], waiting, item) && item.role.Logical?
    requires forall t :: t in s.tasks ==> t < first
    requires AllLogical(item.chain) && item.chain != []
    requires BestSelection(item.chain, item.inputs, context, first, comparison, Some(selection))
    ensures 2 <= |selection.tasks| <= |item.chain|
    ensures selection.task == FusedPipelineTask(first, selection.tasks, item.inputs, selection.requirements)
    ensures ChoiceAllowed(s, id, item.role.name, Fused(first, NamesOf(item.chain[..|selection.tasks|]), selection.tasks, selection.requirements))
  {
    hide Inv, BestSelection, FusedPipelineTask, Fusable, NextInChain, ChainAllowed, JobShape, Materializable, ChoiceAllowed;
    SelectionIsFusable(item.chain, item.inputs, context, first, comparison, selection);
    JobIsShaped(s, id);
    ShapeFacts(s.jobs[id]);
    EntryFacts(s, id, waiting, item);
    SelectedChainIsAllowed(s.jobs[id], waiting, item.chain, selection.tasks);
    ChoiceIsFused(s, id, waiting, item, Fused(first, NamesOf(item.chain[..|selection.tasks|]), selection.tasks, selection.requirements));
  }

  lemma FusedId(id: TaskId, templates: seq<TaskTemplate>, dependencies: seq<ObjectId>, requirements: ResourceRequirements)
    requires templates != []
    ensures FusedPipelineTask(id, templates, dependencies, requirements).id == id
  {
    hide ExternalBindings, LaterStages;
  }

  lemma TemplateIsInstance(role: RoleSpec, i: nat)
    requires i < |role.Templates()|
    ensures InstanceOf(role, role.Templates()[i])
  {
  }

  lemma FusedOutcome(s: State, s': State, id: JobId, waiting: set<string>, item: ReadyRole, choice: RoleChoice, fused: TaskSpec)
    requires id in s.jobs && StillReady(s.jobs[id], waiting, item)
    requires MaterializeStep(s, s', id, item.role.name, choice) && choice.Fused? && choice.templates != []
    requires fused == FusedPipelineTask(choice.task, choice.templates, item.inputs, choice.requirements)
    ensures AdmissibleTask(fused) <==> s' != s
  {
    EntryFacts(s, id, waiting, item);
    AdmittedChanges(s, s', id, item.role.name, choice);
    hide StillReady, Materializable, DependencyOutputs, FindRole, ChainAllowed, AdmissibleTask, FusedPipelineTask, SetRoles;
  }

  lemma HasImplementations(role: RoleSpec)
    requires ValidRole(role) && role.Logical?
    ensures role.implementations != []
  {
  }

  lemma ShapeFacts(job: JobRecord)
    requires JobShape(job)
    ensures ValidJob(job.definition) && job.roles.Keys == Names(job.definition.roles) && UniqueNames(job.definition.roles)
  {
    hide Acyclic;
  }

  lemma ChainIsLogical(job: JobRecord, waiting: set<string>, item: ReadyRole)
    requires JobShape(job) && StillReady(job, waiting, item) && item.role.Logical?
    ensures AllLogical(item.chain) && item.chain != []
  {
    hide NextInChain, DependencyOutputs, PrivateEdge, ValidRole;
    ShapeFacts(job);
    ChainEdgesArePrivate(job.definition, waiting, item.chain);
  }

  // ----- helpers for the role pass -----

  lemma {:induction false} MissingDependency(roles: RoleStates, dependencies: seq<string>, k: nat)
    requires k <= |dependencies| && DependencyOutputs(roles, dependencies[..k]).None?
    ensures DependencyOutputs(roles, dependencies).None?
    decreases |dependencies| - k
  {
    if k == |dependencies| {
      assert dependencies[..k] == dependencies;
    } else {
      assert dependencies[..k + 1][..k] == dependencies[..k];
      MissingDependency(roles, dependencies, k + 1);
    }
  }

  lemma RoleListed(job: JobRecord, k: nat)
    requires JobShape(job) && k < |job.definition.roles|
    ensures ValidGraph(job.definition.roles, job.definition.outputs) && UniqueNames(job.definition.roles)
    ensures FindRole(job.definition.roles, job.definition.roles[k].name) == Some(job.definition.roles[k])
    ensures job.definition.roles[k].name in job.roles
  {
    hide Acyclic;
    RoleIsUnique(job.definition.roles, job.definition.roles[k]);
    assert job.definition.roles[k].name in Names(job.definition.roles);
  }

  lemma JobIsShaped(s: State, id: JobId)
    requires Inv(s) && id in s.jobs
    ensures JobShape(s.jobs[id])
  {
    hide BindingOk, RoleOk;
  }

  /** A fresh entry: the chain was taken under exactly the roles now waiting. */
  lemma EntryIsReady(job: JobRecord, k: nat, chain: seq<RoleSpec>, inputs: seq<ObjectId>)
    requires JobShape(job) && k < |job.definition.roles|
    requires Materializable(job, job.definition.roles[k])
    requires DependencyOutputs(job.roles, job.definition.roles[k].dependsOn) == Some(inputs)
    requires job.definition.roles[k].Logical? ==>
               IsFusionChain(job.definition, WaitingRoles(job), chain) && chain[0] == job.definition.roles[k]
               && (if chain[0].Chainable() then NextInChain(job.definition, WaitingRoles(job), chain[|chain| - 1]).None? else |chain| == 1)
    ensures StillReady(job, WaitingRoles(job), ReadyRole(job.definition.roles[k], inputs, chain))
  {
    hide NextInChain, DependencyOutputs, IsFusionChain, Materializable, JobShape;
    RoleListed(job, k);
    if job.definition.roles[k].Logical? { ChainStillWaits(job, chain); }
  }

  lemma ChainStillWaits(job: JobRecord, chain: seq<RoleSpec>)
    requires UniqueNames(job.definition.roles)
    requires IsFusionChain(job.definition, WaitingRoles(job), chain) && chain[0] in job.definition.roles
    ensures forall i :: 1 <= i < |chain| ==> chain[i].name in job.roles && job.roles[chain[i].name].Waiting?
  {
    hide NextInChain, PrivateEdge, IsFusionChain;
    ChainEdgesArePrivate(job.definition, WaitingRoles(job), chain);
  }

  /** Entries are accurate and come from the first `k` roles. */
  ghost predicate AccurateEntries(job: JobRecord, k: nat, ready: seq<ReadyRole>)
    requires k <= |job.definition.roles|
  {
    forall j :: 0 <= j < |ready| ==>
      StillReady(job, WaitingRoles(job), ready[j]) && exists i :: 0 <= i < k && job.definition.roles[i].name == ready[j].role.name
  }

  predicate DistinctEntries(ready: seq<ReadyRole>)
  {
    forall i, j :: 0 <= i < j < |ready| ==> ready[i].role.name != ready[j].role.name
  }

  /** No role among the first `k` that could be materialised is missing. */
  predicate AllEntries(job: JobRecord, k: nat, ready: seq<ReadyRole>)
    requires k <= |job.definition.roles|
  {
    forall i :: 0 <= i < k && Materializable(job, job.definition.roles[i]) ==>
      exists j :: 0 <= j < |ready| && ready[j].role.name == job.definition.roles[i].name
  }

  /** The entries taken from the first `k` roles. */
  ghost predicate Snapshot(job: JobRecord, k: nat, ready: seq<ReadyRole>)
    requires k <= |job.definition.roles|
  {
    AccurateEntries(job, k, ready) && DistinctEntries(ready) && AllEntries(job, k, ready)
  }

  lemma SnapshotPushed(job: JobRecord, k: nat, ready: seq<ReadyRole>, entry: ReadyRole)
    requires JobShape(job) && k < |job.definition.roles| && Snapshot(job, k, ready)
    requires entry.role == job.definition.roles[k] && StillReady(job, WaitingRoles(job), entry)
    ensures Snapshot(job, k + 1, ready + [entry])
  {
    hide JobShape, StillReady, Materializable, AccurateEntries, DistinctEntries, AllEntries;
    RoleListed(job, k);
    EntriesStayAccurate(job, k, ready, entry);
    EntriesStayDistinct(job, k, ready, entry);
    EntriesStayAll(job, k, ready, entry);
  }

  lemma EntriesStayAccurate(job: JobRecord, k: nat, ready: seq<ReadyRole>, entry: ReadyRole)
    requires k < |job.definition.roles| && AccurateEntries(job, k, ready)
    requires entry.role == job.definition.roles[k] && StillReady(job, WaitingRoles(job), entry)
    ensures AccurateEntries(job, k + 1, ready + [entry])
  {
    hide StillReady;
    assert job.definition.roles[k].name == entry.role.name;
  }

  lemma EntriesStayDistinct(job: JobRecord, k: nat, ready: seq<ReadyRole>, entry: ReadyRole)
    requires k < |job.definition.roles| && AccurateEntries(job, k, ready) && DistinctEntries(ready)
    requires entry.role == job.definition.roles[k] && UniqueNames(job.definition.roles)
    ensures DistinctEntries(ready + [entry])
  {
    hide StillReady;
  }

  lemma EntriesStayAll(job: JobRecord, k: nat, ready: seq<ReadyRole>, entry: ReadyRole)
    requires k < |job.definition.roles| && AllEntries(job, k, ready) && entry.role == job.definition.roles[k]
    ensures AllEntries(job, k + 1, ready + [entry])
  {
    hide Materializable;
    var grown := ready + [entry];
    forall i | 0 <= i < k + 1 && Materializable(job, job.definition.roles[i])
      ensures exists j :: 0 <= j < |grown| && grown[j].role.name == job.definition.roles[i].name
    {
      if i < k {
        var j :| 0 <= j < |ready| && ready[j].role.name == job.definition.roles[i].name;
        assert grown[j].role.name == job.definition.roles[i].name;
      } else {
        assert grown[|ready|].role.name == job.definition.roles[i].name;
      }
    }
  }

  lemma EmptySnapshot(job: JobRecord)
    ensures Snapshot(job, 0, [])
  {
  }

  lemma SnapshotSkipped(job: JobRecord, k: nat, ready: seq<ReadyRole>)
    requires k < |job.definition.roles| && Snapshot(job, k, ready) && !Materializable(job, job.definition.roles[k])
    ensures Snapshot(job, k + 1, ready)
  {
    hide StillReady, Materializable;
  }

  lemma SnapshotIsAwaited(job: JobRecord, ready: seq<ReadyRole>)
    requires JobShape(job) && Snapshot(job, |job.definition.roles|, ready)
    ensures Awaiting(job, ready, 0)
  {
    hide StillReady, DependencyOutputs;
    forall name | name in job.roles && job.roles[name].Waiting? && HasRole(job.definition.roles, name)
                  && DependencyOutputs(job.roles, Role(job.definition.roles, name).dependsOn).Some?
      ensures exists j :: 0 <= j < |ready| && ready[j].role.name == name
    {
      var role := Role(job.definition.roles, name);
      var i :| 0 <= i < |job.definition.roles| && job.definition.roles[i] == role;
      assert Materializable(job, job.definition.roles[i]);
    }
  }

  lemma DropKeeps(s: State, resource: ResourceId)
    ensures Enabled(s, DropResource(resource))
    ensures var s' := Step(s, DropResource(resource));
            && s'.resources == s.resources - {resource} && s'.tasks == s.tasks && s'.jobs == s.jobs
            && s'.bindings == s.bindings && s'.issued == s.issued
  {
  }
}
