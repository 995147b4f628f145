/** Leases over whole runs: at most one commit per task, no revival of reaped executions, mutual exclusion. */
module LeaseSafety {
  import opened Wrappers
  import opened Core
  import opened Admission
  import opened ReductionPlanning
  import opened FabricModel
  import opened FabricInvariant
  import opened FabricSteps
  import opened FabricCommit
  import opened FabricRuns

  // ----- what each step does to leases -----

  predicate RunsUnder(s: State, t: TaskId, execution: ExecutionId)
  {
    t in s.tasks && s.tasks[t].status.Running? && s.tasks[t].status.lease.execution == execution
  }

  /** Running tasks hold leases in their own name under distinct execution ids that were really issued. */
  ghost predicate LeaseInv(s: State)
  {
    && (forall t :: t in s.tasks && s.tasks[t].status.Running? ==>
          s.tasks[t].status.lease.task == t && s.tasks[t].status.lease.execution in s.issued)
    && (forall t, u :: t in s.tasks && u in s.tasks && t != u && s.tasks[t].status.Running? && s.tasks[u].status.Running? ==>
          s.tasks[t].status.lease.execution != s.tasks[u].status.lease.execution)
  }

  /** An execution id that was issued and is no longer anybody's current one. */
  ghost predicate Retired(s: State, execution: ExecutionId)
  {
    execution in s.issued && forall t :: !RunsUnder(s, t, execution)
  }

  /** The task's effects must not be replayed and it has been handed out at least once. */
  ghost predicate StartedOnce(s: State, t: TaskId)
  {
    t in s.tasks && !s.tasks[t].spec.effects.AutomaticallyRetryable() && !s.tasks[t].status.Pending?
  }

  /** All a step can do to the leases: one begin, one renewal, or leaving leases alone and ending some. */
  ghost predicate LeaseStep(s: State, s': State, action: Action)
  {
    match action
    case BeginExecution(task, resource, execution, expiresAt, now) =>
      && s'.issued == s.issued + {execution} && s'.tasks.Keys == s.tasks.Keys
      && task in s.tasks && s.tasks[task].status.Pending? && resource in s.resources
      && s'.tasks[task].status == Running(LeaseFor(s, task, resource, execution, expiresAt))
      && (forall t :: t in s.tasks && t != task ==> s'.tasks[t] == s.tasks[t])
    case RenewExecution(lease, expiresAt, now) =>
      && s'.issued == s.issued && s'.tasks.Keys == s.tasks.Keys
      && HoldsLease(s, lease, now)
      && s'.tasks[lease.task] == s.tasks[lease.task].(status := Running(s.tasks[lease.task].status.lease.(expiresAt := expiresAt)))
      && (forall t :: t in s.tasks && t != lease.task ==> s'.tasks[t] == s.tasks[t])
    case _ =>
      && s'.issued == s.issued
      && (forall t :: t in s.tasks ==> t in s'.tasks)
      && (forall t :: t in s'.tasks && s'.tasks[t].status.Running? ==> t in s.tasks && s'.tasks[t] == s.tasks[t])
      && (forall t :: StartedOnce(s, t) ==> StartedOnce(s', t))
  }

  lemma StepLeases(s: State, action: Action)
    requires Inv(s) && Enabled(s, action)
    ensures LeaseStep(s, Step(s, action), action)
  {
    hide Inv, LeaseStep, ChoiceAllowed, LevelAllowed, Materialize, PlaceLevel;
    match action {
      case MaterializeRole(job, role, choice) => MaterializeLeases(s, Step(s, action), job, role, choice, action);
      case PlaceReduction(job, role, items) => PlaceLeases(s, Step(s, action), job, role, items, action);
      case _ => OtherLeases(s, action);
    }
  }

  lemma OtherLeases(s: State, action: Action)
    requires Enabled(s, action) && !action.MaterializeRole? && !action.PlaceReduction?
    ensures LeaseStep(s, Step(s, action), action)
  {
    hide Enabled, Step, LeaseStep;
    match action {
      case CommitExecution(_, _, _) => CommitLeases(s, action);
      case BeginExecution(_, _, _, _, _) => BeginLeases(s, action);
      case RenewExecution(_, _, _) => RenewLeases(s, action);
      case ReapExecution(_, _) => ReapLeases(s, action);
      case SubmitTask(_) => SubmitLeases(s, action);
      case _ => NoLeases(s, action);
    }
  }

  lemma BeginLeases(s: State, action: Action)
    requires Enabled(s, action) && action.BeginExecution?
    ensures LeaseStep(s, Step(s, action), action)
  {
  }

  lemma RenewLeases(s: State, action: Action)
    requires Enabled(s, action) && action.RenewExecution?
    ensures LeaseStep(s, Step(s, action), action)
  {
  }

  lemma ReapLeases(s: State, action: Action)
    requires Enabled(s, action) && action.ReapExecution?
    ensures LeaseStep(s, Step(s, action), action)
  {
    hide Reap;
    ReapTouches(s, action.task);
  }

  lemma ReapTouches(s: State, task: TaskId)
    requires task in s.tasks
    ensures Reap(s, task).tasks == s.tasks[task := s.tasks[task].(status := ReapedStatus(s.tasks[task].spec))]
    ensures Reap(s, task).issued == s.issued
  {
    hide MarkUncertain;
  }

  lemma SubmitLeases(s: State, action: Action)
    requires Enabled(s, action) && action.SubmitTask?
    ensures LeaseStep(s, Step(s, action), action)
  {
    hide AdmissibleTask;
  }

  /** Members, links, objects and jobs come and go without touching a task. */
  lemma NoLeases(s: State, action: Action)
    requires Enabled(s, action) && (action.RegisterResource? || action.HeartbeatResource? || action.DropResource? || action.SetLinks?
               || action.PublishObject? || action.AddLocation? || action.SubmitJob?)
    ensures LeaseStep(s, Step(s, action), action)
  {
    hide ValidJob, Publish, CanPublish, DropLocation, DropLinks, AddLocations, NewJob;
    assert Step(s, action).tasks == s.tasks && Step(s, action).issued == s.issued;
  }

  lemma CommitLeases(s: State, action: Action)
    requires Enabled(s, action) && action.CommitExecution?
    ensures LeaseStep(s, Step(s, action), action)
  {
    hide AfterTask, PublishAll, CanPublish, ConsistentOutputs;
  }

  lemma MaterializeLeases(s: State, s': State, id: JobId, name: string, choice: RoleChoice, action: Action)
    requires Inv(s) && MaterializeStep(s, s', id, name, choice) && action == MaterializeRole(id, name, choice)
    ensures LeaseStep(s, s', action)
  {
    hide Inv, MaterializeStep, TasksAdded, ReadyInputs, ShardsAllowed, ChainAllowed, FusedSpec, SetRoles;
    StepIsIdle(s, s', id, name, choice);
    match choice {
      case Infeasible => InfeasibleLeases(s, s', id, name);
      case Direct(task, template) => DirectShape(s, s', id, name, task, template);
      case Fused(_, _, _, _) => FusedStepShape(s, s', id, name, choice);
      case Shards(specs) => ShardsShape(s, s', id, name, specs); AddedAreLeaseFree(s, s', specs, Shard(id, name));
    }
  }

  lemma InfeasibleLeases(s: State, s': State, id: JobId, name: string)
    requires MaterializeStep(s, s', id, name, Infeasible)
    ensures s'.tasks == s.tasks && s'.issued == s.issued
  {
  }

  lemma AddedAreLeaseFree(s: State, s': State, specs: seq<TaskSpec>, binding: Binding)
    requires TasksAdded(s, s', specs, binding)
    ensures forall t :: t in s.tasks ==> t in s'.tasks && s'.tasks[t] == s.tasks[t]
    ensures forall t :: t in s'.tasks && s'.tasks[t].status.Running? ==> t in s.tasks
  {
    forall t | t in TaskIdsOf(specs) ensures t in s'.tasks && s'.tasks[t].status.Pending? {
      var i :| 0 <= i < |TaskIdsOf(specs)| && TaskIdsOf(specs)[i] == t;
      assert s'.tasks[specs[i].id] == TaskRecord(specs[i], Pending);
    }
  }

  lemma PlaceLeases(s: State, s': State, id: JobId, name: string, choice: Option<seq<LevelItem>>, action: Action)
    requires Inv(s) && PlaceStep(s, s', id, name, choice) && action == PlaceReduction(id, name, choice)
    ensures LeaseStep(s, s', action)
  {
    hide Inv, PlaceStep, RoleOk, JobShape, TasksAdded;
    PlaceAt(s, s', id, name, choice);
    InvAt(s, id, name);
    if choice.None? {
      PlaceNoneShape(s, s', id, name);
    } else {
      PlaceShape(s, s', id, name, choice.value);
      AddedAreLeaseFree(s, s', ReducerTasks(choice.value), Reduction(id, name));
    }
  }

  // ----- invariants of runs -----

  lemma LeaseStepKeeps(s: State, s': State, action: Action)
    requires LeaseInv(s) && LeaseStep(s, s', action) && Enabled(s, action)
    ensures LeaseInv(s')
    ensures forall e :: Retired(s, e) ==> Retired(s', e)
    ensures forall t :: StartedOnce(s, t) ==> StartedOnce(s', t)
  {
    hide LeaseInv, LeaseStep, Retired, StartedOnce, Enabled;
    if action.BeginExecution? { BeginIsFresh(s, action); }
    LeasesKept(s, s', action);
  }

  lemma BeginIsFresh(s: State, action: Action)
    requires Enabled(s, action) && action.BeginExecution?
    ensures action.execution !in s.issued
  {
  }

  lemma LeasesKept(s: State, s': State, action: Action)
    requires LeaseInv(s) && LeaseStep(s, s', action) && (action.BeginExecution? ==> action.execution !in s.issued)
    ensures LeaseInv(s')
    ensures forall e :: Retired(s, e) ==> Retired(s', e)
    ensures forall t :: StartedOnce(s, t) ==> StartedOnce(s', t)
  {
    forall e | Retired(s, e) ensures Retired(s', e) {
      forall t ensures !RunsUnder(s', t, e) {
        assert !RunsUnder(s, t, e);
      }
    }
  }

  lemma {:induction false} RunLeases(states: seq<State>, actions: seq<Action>, i: nat)
    requires IsRun(states, actions) && i < |states|
    ensures LeaseInv(states[i])
  {
    hide Inv, Enabled, Step, LeaseStep;
    if i > 0 {
      RunLeases(states, actions, i - 1);
      RunKeepsInv(states, actions, i - 1);
      StepLeases(states[i - 1], actions[i - 1]);
      LeaseStepKeeps(states[i - 1], states[i], actions[i - 1]);
    }
  }

  lemma {:induction false} RetiredForever(states: seq<State>, actions: seq<Action>, i: nat, j: nat, execution: ExecutionId)
    requires IsRun(states, actions) && i <= j < |states| && Retired(states[i], execution)
    ensures Retired(states[j], execution)
    decreases j
  {
    hide Inv, Enabled, Step, LeaseStep, Retired, LeaseInv;
    if i < j {
      RetiredForever(states, actions, i, j - 1, execution);
      RunLeases(states, actions, j - 1);
      RunKeepsInv(states, actions, j - 1);
      StepLeases(states[j - 1], actions[j - 1]);
      LeaseStepKeeps(states[j - 1], states[j], actions[j - 1]);
    }
  }

  lemma {:induction false} StartedForever(states: seq<State>, actions: seq<Action>, i: nat, j: nat, t: TaskId)
    requires IsRun(states, actions) && i <= j < |states| && StartedOnce(states[i], t)
    ensures StartedOnce(states[j], t)
    decreases j
  {
    hide Inv, Enabled, Step, LeaseStep, StartedOnce, LeaseInv;
    if i < j {
      StartedForever(states, actions, i, j - 1, t);
      RunLeases(states, actions, j - 1);
      RunKeepsInv(states, actions, j - 1);
      StepLeases(states[j - 1], actions[j - 1]);
      LeaseStepKeeps(states[j - 1], states[j], actions[j - 1]);
    }
  }

  // ----- safety of commits -----

  lemma StepAt(states: seq<State>, actions: seq<Action>, i: nat)
    requires IsRun(states, actions) && i < |actions|
    ensures Enabled(states[i], actions[i]) && states[i + 1] == Step(states[i], actions[i])
  {
  }

  lemma CommitNeedsRunning(s: State, lease: ExecutionLease, outputs: seq<ObjectMetadata>, now: u64)
    requires Enabled(s, CommitExecution(lease, outputs, now))
    ensures RunsUnder(s, lease.task, lease.execution)
    ensures lease.task in Step(s, CommitExecution(lease, outputs, now)).tasks
    ensures Step(s, CommitExecution(lease, outputs, now)).tasks[lease.task].status == Completed(Ids(outputs))
  {
    hide AfterTask, PublishAll, CanPublish, ConsistentOutputs;
  }

  /** A task commits at most once in a run. */
  lemma CommitsAtMostOnce(states: seq<State>, actions: seq<Action>, i: nat, j: nat)
    requires IsRun(states, actions) && i < j < |actions|
    requires actions[i].CommitExecution? && actions[j].CommitExecution?
    ensures actions[i].lease.task != actions[j].lease.task
  {
    hide Enabled, Step;
    StepAt(states, actions, i);
    StepAt(states, actions, j);
    var first, second := actions[i], actions[j];
    CommitNeedsRunning(states[i], first.lease, first.outputs, first.now);
    CommitNeedsRunning(states[j], second.lease, second.outputs, second.now);
    RunProgressesAt(states, actions, i + 1, j, first.lease.task);
  }

  lemma RunProgressesAt(states: seq<State>, actions: seq<Action>, i: nat, j: nat, t: TaskId)
    requires IsRun(states, actions) && i <= j < |states| && t in states[i].tasks
    ensures t in states[j].tasks && states[j].tasks[t].spec == states[i].tasks[t].spec
    ensures !states[i].tasks[t].status.Active() ==> states[j].tasks[t].status == states[i].tasks[t].status
  {
    RunProgresses(states, actions, i, j);
    assert TaskAdvances(states[i], states[j], t);
  }

  lemma ReapRetires(s: State, t: TaskId, now: u64)
    requires LeaseInv(s) && Enabled(s, ReapExecution(t, now))
    ensures s.tasks[t].status.Running?
    ensures Retired(Step(s, ReapExecution(t, now)), s.tasks[t].status.lease.execution)
  {
    hide MarkUncertain;
    var e := s.tasks[t].status.lease.execution;
    forall u ensures !RunsUnder(Step(s, ReapExecution(t, now)), u, e) {}
  }

  /** Once an execution has been reaped, neither its completion nor its renewal is ever accepted again. */
  lemma ReapedExecutionIsDead(states: seq<State>, actions: seq<Action>, i: nat, j: nat)
    requires IsRun(states, actions) && i < j < |actions| && actions[i].ReapExecution?
    requires actions[j].CommitExecution? || actions[j].RenewExecution?
    ensures actions[i].task in states[i].tasks && states[i].tasks[actions[i].task].status.Running?
    ensures actions[j].lease.execution != states[i].tasks[actions[i].task].status.lease.execution
  {
    hide LeaseInv, Enabled, Step, Retired;
    StepAt(states, actions, i);
    StepAt(states, actions, j);
    RunLeases(states, actions, i);
    ReapRetires(states[i], actions[i].task, actions[i].now);
    var e := states[i].tasks[actions[i].task].status.lease.execution;
    RetiredForever(states, actions, i + 1, j, e);
    RetiredIsRefused(states[j], actions[j], e);
  }

  lemma RetiredIsRefused(s: State, action: Action, execution: ExecutionId)
    requires Retired(s, execution) && Enabled(s, action) && (action.CommitExecution? || action.RenewExecution?)
    ensures action.lease.execution != execution
  {
    hide CanPublish, ConsistentOutputs, Bound;
    assert !RunsUnder(s, action.lease.task, execution);
  }

  /** A task whose effects are exclusive is handed out at most once in a run. */
  lemma ExclusiveBeginsOnce(states: seq<State>, actions: seq<Action>, i: nat, j: nat)
    requires IsRun(states, actions) && i < j < |actions|
    requires actions[i].BeginExecution? && actions[j].BeginExecution?
    requires actions[i].task in states[i].tasks && states[i].tasks[actions[i].task].spec.effects == Exclusive
    ensures actions[i].task != actions[j].task
  {
    hide Enabled, Step, StartedOnce;
    StepAt(states, actions, i);
    StepAt(states, actions, j);
    if actions[i].task == actions[j].task {
      BeginStarts(states[i], actions[i]);
      StartedForever(states, actions, i + 1, j, actions[i].task);
      StartedIsRefused(states[j], actions[j]);
    }
  }

  lemma BeginStarts(s: State, action: Action)
    requires action.BeginExecution? && Enabled(s, action) && s.tasks[action.task].spec.effects == Exclusive
    ensures StartedOnce(Step(s, action), action.task)
  {
  }

  lemma StartedIsRefused(s: State, action: Action)
    requires action.BeginExecution? && Enabled(s, action)
    ensures !StartedOnce(s, action.task)
  {
  }

  // ----- epochs -----

  /** While a resource stays registered its epoch never falls. */
  lemma {:induction false} EpochsRise(states: seq<State>, actions: seq<Action>, i: nat, j: nat, resource: ResourceId)
    requires IsRun(states, actions) && i <= j < |states| && resource in states[i].resources
    requires forall k :: i <= k < j ==> actions[k] != DropResource(resource)
    ensures resource in states[j].resources
    ensures states[i].resources[resource].descriptor.epoch <= states[j].resources[resource].descriptor.epoch
    decreases j
  {
    if i < j {
      EpochsRise(states, actions, i, j - 1, resource);
      StepEpochs(states[j - 1], actions[j - 1], resource);
    }
  }

  lemma StepEpochs(s: State, action: Action, resource: ResourceId)
    requires Enabled(s, action) && resource in s.resources && action != DropResource(resource)
    ensures resource in Step(s, action).resources
    ensures var before, after := s.resources[resource].descriptor.epoch, Step(s, action).resources[resource].descriptor.epoch;
            if action.RegisterResource? && action.descriptor.id == resource then after == before + 1 else after == before
  {
    hide ValidJob, ChoiceAllowed, LevelAllowed, AfterTask, PublishAll, MarkUncertain, AdmissibleTask, CanPublish, CanCommit,
      Materialize, PlaceLevel, DropLocation, DropLinks, AddLocations, Publish, NewJob;
    match action {
      case MaterializeRole(job, role, choice) => MaterializeKeepsResources(s, job, role, choice);
      case PlaceReduction(job, role, items) => PlaceKeepsResources(s, job, role, items);
      case _ =>
    }
  }

  lemma MaterializeKeepsResources(s: State, id: JobId, name: string, choice: RoleChoice)
    requires ChoiceAllowed(s, id, name, choice)
    ensures Materialize(s, id, name, choice).resources == s.resources
  {
    hide AdmissibleTask, ShardsAllowed, DependencyOutputs;
  }

  lemma PlaceKeepsResources(s: State, id: JobId, name: string, choice: Option<seq<LevelItem>>)
    requires LevelAllowed(s, id, name, choice)
    ensures PlaceLevel(s, id, name, choice).resources == s.resources
  {
    hide LevelOf;
  }

  /** A lease of an earlier incarnation of a resource that has stayed registered is never honoured. */
  lemma StaleIncarnationIsRefused(states: seq<State>, actions: seq<Action>, i: nat, k: nat, j: nat,
                                  lease: ExecutionLease, now: u64)
    requires IsRun(states, actions) && i <= k < j < |states|
    requires lease.resource in states[i].resources
    requires lease.epoch <= states[i].resources[lease.resource].descriptor.epoch
    requires actions[k].RegisterResource? && actions[k].descriptor.id == lease.resource
    requires forall m :: i <= m < j ==> actions[m] != DropResource(lease.resource)
    ensures !HoldsLease(states[j], lease, now)
  {
    EpochsRise(states, actions, i, k, lease.resource);
    StepEpochs(states[k], actions[k], lease.resource);
    EpochsRise(states, actions, k + 1, j, lease.resource);
  }

  /**
   * Removal forgets the epoch: a lease held before a resource was removed and registered again is
   * honoured afterwards exactly when the new descriptor announces the lease's epoch again.
   */
  lemma EpochRestartsAfterRemoval(s: State, lease: ExecutionLease, descriptor: ResourceDescriptor, expiresAt: u64, now: u64)
    requires HoldsLease(s, lease, now) && descriptor.id == lease.resource && expiresAt > now
    ensures HoldsLease(Register(RemoveResource(s, lease.resource), descriptor, expiresAt), lease, now)
            <==> lease.epoch == (if descriptor.epoch >= 1 then descriptor.epoch else 1)
  {
    hide DropLocation, DropLinks;
  }

  // ----- mutual exclusion on resources -----

  function NowOf(action: Action): Option<u64>
  {
    match action
    case BeginExecution(_, _, _, _, now) => Some(now)
    case RenewExecution(_, _, now) => Some(now)
    case CommitExecution(_, _, now) => Some(now)
    case ReapExecution(_, now) => Some(now)
    case _ => None
  }

  /** No task holds an unexpired lease on this resource. */
  predicate ResourceFree(s: State, resource: ResourceId, now: u64)
  {
    forall t :: t in s.tasks && s.tasks[t].status.Running? && s.tasks[t].status.lease.resource == resource ==>
      s.tasks[t].status.lease.expiresAt <= now
  }

  /** Of any two leases on one resource, at least one has expired by `clock`. */
  ghost predicate MutuallyExclusive(s: State, clock: u64)
  {
    forall t, u :: (t in s.tasks && u in s.tasks && t != u && s.tasks[t].status.Running? && s.tasks[u].status.Running?
                    && s.tasks[t].status.lease.resource == s.tasks[u].status.lease.resource) ==>
      s.tasks[t].status.lease.expiresAt <= clock || s.tasks[u].status.lease.expiresAt <= clock
  }

  /** Work is handed out as polling does it, to free resources only, and the clock never goes back. */
  ghost predicate IsTimedRun(states: seq<State>, actions: seq<Action>, clocks: seq<u64>)
  {
    && IsRun(states, actions) && |clocks| == |states|
    && forall i :: 0 <= i < |actions| ==> Timely(states[i], actions[i], clocks[i], clocks[i + 1])
  }

  /** The step's reading of the clock lies between the two, and work is handed out to a free resource. */
  ghost predicate Timely(s: State, action: Action, clock: u64, clock': u64)
  {
    && clock <= clock'
    && (NowOf(action).Some? ==> clock <= NowOf(action).value <= clock')
    && (action.BeginExecution? ==> ResourceFree(s, action.resource, action.now))
  }

  lemma LeaseStepExclusive(s: State, s': State, action: Action, clock: u64, clock': u64)
    requires MutuallyExclusive(s, clock) && LeaseStep(s, s', action) && clock <= clock'
    requires NowOf(action).Some? ==> clock <= NowOf(action).value <= clock'
    requires action.BeginExecution? ==> ResourceFree(s, action.resource, action.now)
    ensures MutuallyExclusive(s', clock')
  {
  }

  /** At every moment of a polled run each resource has at most one unexpired execution. */
  lemma {:induction false} ResourcesAreExclusive(states: seq<State>, actions: seq<Action>, clocks: seq<u64>, i: nat, now: u64,
                                                 t: TaskId, u: TaskId)
    requires IsTimedRun(states, actions, clocks) && i < |states| && clocks[i] <= now
    requires t in states[i].tasks && u in states[i].tasks
    requires states[i].tasks[t].status.Running? && states[i].tasks[t].status.lease.expiresAt > now
    requires states[i].tasks[u].status.Running? && states[i].tasks[u].status.lease.expiresAt > now
    requires states[i].tasks[t].status.lease.resource == states[i].tasks[u].status.lease.resource
    ensures t == u
  {
    hide IsTimedRun;
    TimedRunExclusive(states, actions, clocks, i);
  }

  lemma {:induction false} TimedRunExclusive(states: seq<State>, actions: seq<Action>, clocks: seq<u64>, i: nat)
    requires IsTimedRun(states, actions, clocks) && i < |states|
    ensures i < |clocks| && MutuallyExclusive(states[i], clocks[i])
  {
    hide Inv, Enabled, Step, LeaseStep, ResourceFree;
    if i > 0 {
      TimedRunExclusive(states, actions, clocks, i - 1);
      RunKeepsInv(states, actions, i - 1);
      StepLeases(states[i - 1], actions[i - 1]);
      LeaseStepExclusive(states[i - 1], states[i], actions[i - 1], clocks[i - 1], clocks[i]);
    }
  }
}
