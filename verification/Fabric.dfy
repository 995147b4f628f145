/**
 * The fabric as an object whose maps are updated in place. Every method is proved against the
 * transition system of FabricModel: what it leaves behind is what the listed steps lead to.
 * Clock readings and fresh execution ids are arguments; fresh task ids are drawn above all known ones.
 */
module FabricRuntime {
  import opened Wrappers
  import opened Core
  import opened Sequences
  import opened RoleGraph
  import opened FusionRewrite
  import opened Scheduler
  import opened Sharding
  import opened ShardCount
  import opened ReductionPlanning
  import opened Admission
  import opened ChainPlanner
  import opened FusionSelection
  import opened ReadySelection
  import opened FabricModel
  import opened FabricInvariant
  import opened FabricSteps
  import opened FabricCommit
  import opened FabricRuns
  import opened LeaseSafety
  import opened FabricReady
  import opened PlannerDecisions
  import opened Refusals
  import opened Progress
  import opened InterruptedCommits
  import opened FabricTraces

  method CollectDependencyOutputs(roles: RoleStates, dependencies: seq<string>) returns (inputs: Option<seq<ObjectId>>)
    ensures inputs == DependencyOutputs(roles, dependencies)
  {
    var collected: seq<ObjectId> := [];
    for k := 0 to |dependencies|
      invariant DependencyOutputs(roles, dependencies[..k]) == Some(collected)
    {
      assert dependencies[..k + 1][..k] == dependencies[..k];
      if dependencies[k] !in roles || !roles[dependencies[k]].Done? {
        MissingDependency(roles, dependencies, k + 1);
        return None;
      }
      collected := collected + roles[dependencies[k]].outputs;
    }
    assert dependencies[..|dependencies|] == dependencies;
    return Some(collected);
  }

  class Fabric {
    var resources: map<ResourceId, RegisteredResource>
    var objects: Objects
    var tasks: Tasks
    var jobs: map<JobId, JobRecord>
    var bindings: map<TaskId, Binding>
    var links: Topology
    ghost var issued: set<ExecutionId>
    const riskMultiplier: real := 1.0
    const minimumSavedMs: real := 20.0
    const membershipTtlMs: u64
    const executionTtlMs: u64
    /** Stands for the fresh ids under which the planner predicts intermediate outputs. */
    const intermediate: ObjectId

    ghost function View(): State
      reads this
    {
      State(resources, objects, tasks, jobs, bindings, links, issued)
    }

    ghost predicate Valid()
      reads this
    {
      Inv(View()) && forall r :: r in resources ==> resources[r].descriptor.id == r
    }

    /** The planner as a pass at time `now` uses it. */
    ghost function PlannerAt(now: u64): Planner
    {
      Planner(riskMultiplier, minimumSavedMs, intermediate, now)
    }

    constructor (membershipTtlMs: u64, executionTtlMs: u64, intermediate: ObjectId)
      ensures Valid() && View() == EmptyState()
    {
      resources, objects, tasks, jobs, bindings, links, issued := map[], map[], map[], map[], map[], [], {};
      this.membershipTtlMs, this.executionTtlMs, this.intermediate := membershipTtlMs, executionTtlMs, intermediate;
      new;
      InvInitially();
    }

    // ----- membership and links -----

    method SetTopology(topology: Topology)
      requires Valid()
      modifies this
      ensures Valid() && View() == Step(old(View()), SetLinks(topology))
    {
      hide Inv;
      links := topology;
      StepKeepsInv(old(View()), SetLinks(topology));
    }

    method RegisterResource(descriptor: ResourceDescriptor, now: u64) returns (lease: MembershipLease)
      requires Valid()
      modifies this
      ensures Valid()
      ensures View() == Step(old(View()), Action.RegisterResource(descriptor, lease.expiresAt))
      ensures lease == MembershipLease(descriptor.id, NextEpoch(old(View()), descriptor), SaturatingAdd(now, membershipTtlMs))
    {
      hide Inv;
      var epoch := if descriptor.id in resources then resources[descriptor.id].descriptor.epoch + 1
                   else if descriptor.epoch >= 1 then descriptor.epoch else 1;
      lease := MembershipLease(descriptor.id, epoch, SaturatingAdd(now, membershipTtlMs));
      resources := resources[descriptor.id := RegisteredResource(descriptor.(epoch := epoch), lease.expiresAt)];
      StepKeepsInv(old(View()), Action.RegisterResource(descriptor, lease.expiresAt));
    }

    method Heartbeat(resource: ResourceId, epoch: nat, now: u64) returns (result: Result<MembershipLease, FabricError>)
      requires Valid()
      modifies this
      ensures Valid()
      ensures result.Success? <==> CanHeartbeat(old(View()), resource, epoch)
      ensures match result
              case Success(lease) =>
                && lease == MembershipLease(resource, epoch, SaturatingAdd(now, membershipTtlMs))
                && View() == Step(old(View()), HeartbeatResource(resource, lease.expiresAt))
              case Failure(error) =>
                && error == (if resource in resources then StaleResourceEpoch(resource) else ResourceNotActive(resource))
                && View() == old(View())
    {
      hide Inv;
      if resource !in resources {
        return Failure(ResourceNotActive(resource));
      }
      if resources[resource].descriptor.epoch != epoch {
        return Failure(StaleResourceEpoch(resource));
      }
      var expiresAt := SaturatingAdd(now, membershipTtlMs);
      resources := resources[resource := resources[resource].(expiresAt := expiresAt)];
      StepKeepsInv(old(View()), HeartbeatResource(resource, expiresAt));
      return Success(MembershipLease(resource, epoch, expiresAt));
    }

    method RemoveResource(resource: ResourceId)
      requires Valid()
      modifies this
      ensures Valid() && View() == Step(old(View()), DropResource(resource))
    {
      hide Inv;
      resources := resources - {resource};
      objects := map o | o in objects :: objects[o].(locations := DropLocation(objects[o].locations, resource));
      links := DropLinks(links, resource);
      StepKeepsInv(old(View()), DropResource(resource));
    }

    /** Removes exactly the members whose membership has run out. */
    method ExpireResources(now: u64) returns (expired: set<ResourceId>, ghost trace: seq<Action>)
      requires Valid()
      modifies this
      ensures Valid()
      ensures expired == set r | r in old(resources) && old(resources)[r].expiresAt <= now
      ensures resources == old(resources) - expired
      ensures tasks == old(tasks) && jobs == old(jobs) && bindings == old(bindings) && issued == old(issued)
      ensures Reaches(old(View()), trace, View()) && forall i :: 0 <= i < |trace| ==> trace[i].DropResource?
    {
      hide Inv, Enabled, Step;
      expired := set r | r in resources && resources[r].expiresAt <= now;
      var remaining := expired;
      trace := [];
      while remaining != {}
        invariant Valid() && remaining <= expired
        invariant resources == old(resources) - (expired - remaining)
        invariant tasks == old(tasks) && jobs == old(jobs) && bindings == old(bindings) && issued == old(issued)
        invariant Reaches(old(View()), trace, View()) && forall i :: 0 <= i < |trace| ==> trace[i].DropResource?
        decreases |remaining|
      {
        var resource :| resource in remaining;
        remaining := remaining - {resource};
        ghost var before := View();
        RemoveResource(resource);
        DropKeeps(before, resource);
        ReachesThen(old(View()), trace, before, DropResource(resource));
        trace := trace + [DropResource(resource)];
      }
    }

    method ResourceEpoch(resource: ResourceId, now: u64) returns (epoch: Option<nat>)
      ensures epoch == if IsActive(View(), resource, now) then Some(resources[resource].descriptor.epoch) else None
    {
      if resource !in resources || resources[resource].expiresAt <= now {
        return None;
      }
      return Some(resources[resource].descriptor.epoch);
    }

    // ----- objects -----

    method PublishObject(published: ObjectMetadata) returns (result: Result<(), FabricError>)
      modifies this`objects
      ensures result.Success? <==> CanPublish(old(objects), published)
      ensures match result
              case Success(_) => objects == Publish(old(objects), published)
              case Failure(error) => error == ObjectConflict(published.id) && objects == old(objects)
    {
      if published.id in objects {
        var existing := objects[published.id];
        if !SameObjectIdentity(existing, published) {
          return Failure(ObjectConflict(published.id));
        }
        var locations := existing.locations;
        for k := 0 to |published.locations|
          invariant locations == AddLocations(existing.locations, published.locations[..k])
        {
          assert published.locations[..k + 1][..k] == published.locations[..k];
          if published.locations[k] !in locations {
            locations := locations + [published.locations[k]];
          }
        }
        assert published.locations[..|published.locations|] == published.locations;
        objects := objects[published.id := existing.(locations := locations)];
        return Success(());
      }
      objects := objects[published.id := published];
      return Success(());
    }

    method AddObjectLocation(id: ObjectId, resource: ResourceId) returns (result: Result<(), FabricError>)
      requires Valid()
      modifies this
      ensures Valid()
      ensures match result
              case Success(_) => id in old(objects) && View() == Step(old(View()), AddLocation(id, resource))
              case Failure(error) => id !in old(objects) && error == UnknownObject(id) && View() == old(View())
    {
      hide Inv;
      if id !in objects {
        return Failure(UnknownObject(id));
      }
      var known := objects[id].locations;
      OneLocation(known, resource);
      objects := objects[id := objects[id].(locations := if resource in known then known else known + [resource])];
      StepKeepsInv(old(View()), AddLocation(id, resource));
      return Success(());
    }

    // ----- tasks and scheduling -----

    method Submit(spec: TaskSpec) returns (result: Result<TaskId, FabricError>)
      modifies this`tasks
      ensures match result
              case Success(id) => CanSubmit(old(View()), spec) && id == spec.id && View() == FabricModel.Submit(old(View()), spec)
              case Failure(error) =>
                && !CanSubmit(old(View()), spec) && tasks == old(tasks)
                && error == (if !AdmissibleTask(spec) then InvalidTask else DuplicateTask(spec.id))
    {
      if !AdmissibleTask(spec) {
        return Failure(InvalidTask);
      }
      if spec.id in tasks {
        return Failure(DuplicateTask(spec.id));
      }
      tasks := tasks[spec.id := TaskRecord(spec, Pending)];
      return Success(spec.id);
    }

    /** Active members that hold no unexpired execution. */
    method SchedulableResources(now: u64) returns (free: seq<ResourceDescriptor>)
      requires Valid()
      ensures FreeListing(View(), now, free)
    {
      var busy: set<ResourceId> := {};
      var unseen := tasks.Keys;
      while unseen != {}
        invariant unseen <= tasks.Keys
        invariant forall t :: t in tasks && t !in unseen && tasks[t].status.Running? && tasks[t].status.lease.expiresAt > now ==>
                    tasks[t].status.lease.resource in busy
        invariant forall r :: r in busy ==> !ResourceFree(View(), r, now)
        decreases |unseen|
      {
        var t :| t in unseen;
        unseen := unseen - {t};
        if tasks[t].status.Running? && tasks[t].status.lease.expiresAt > now {
          busy := busy + {tasks[t].status.lease.resource};
        }
      }
      free := [];
      var remaining := resources.Keys;
      while remaining != {}
        invariant remaining <= resources.Keys
        invariant forall d :: d in free ==> d.id in resources && d.id !in remaining && resources[d.id].descriptor == d
                                            && resources[d.id].expiresAt > now && d.id !in busy
        invariant forall r :: r in resources && r !in remaining && resources[r].expiresAt > now && r !in busy ==>
                    resources[r].descriptor in free
        decreases |remaining|
      {
        var r :| r in remaining;
        remaining := remaining - {r};
        if resources[r].expiresAt > now && r !in busy {
          free := free + [resources[r].descriptor];
        }
      }
    }

    /** Asks the scheduler for the cheapest free resource; its answer, or its refusal, is the result. */
    method ScheduleTask(task: TaskId, now: u64) returns (result: Result<PlacementDecision, FabricError>)
      requires Valid()
      ensures task in tasks && tasks[task].status.Pending? ==> ScheduledAs(View(), PlannerAt(now), tasks[task].spec, result)
      ensures result.Success? ==>
                && task in tasks && tasks[task].status.Pending?
                && IsActive(View(), result.value.resource, now) && ResourceFree(View(), result.value.resource, now)
                && resources[result.value.resource].descriptor.Supports(tasks[task].spec.requirements)
      ensures task !in tasks ==> result == Failure(UnknownTask(task))
      ensures task in tasks && !tasks[task].status.Pending? ==> result == Failure(TaskNotPending(task))
    {
      hide Inv, Score;
      if task !in tasks {
        return Failure(UnknownTask(task));
      }
      if !tasks[task].status.Pending? {
        return Failure(TaskNotPending(task));
      }
      var active := SchedulableResources(now);
      var context := Context(riskMultiplier, active, objects, links);
      assert PlanningView(View(), PlannerAt(now), context);
      match Choose(tasks[task].spec, context) {
        case Success(decision) =>
          ghost var r :| 0 <= r < |active| && active[r].id == decision.resource
                         && PlacementCost(tasks[task].spec, active[r], context) == Some(decision.cost);
          assert active[r] in active;
          return Success(decision);
        case Failure(reason) => return Failure(Scheduling(reason));
      }
    }

    // ----- leases -----

    method BeginExecution(task: TaskId, resource: ResourceId, execution: ExecutionId, now: u64)
      returns (result: Result<ExecutionLease, FabricError>)
      requires Valid() && execution !in issued
      modifies this
      ensures Valid()
      ensures result.Success? <==> CanBegin(old(View()), task, resource, now)
      ensures match result
              case Success(lease) =>
                && lease == LeaseFor(old(View()), task, resource, execution, SaturatingAdd(now, executionTtlMs))
                && View() == Step(old(View()), Action.BeginExecution(task, resource, execution, lease.expiresAt, now))
              case Failure(error) =>
                && View() == old(View())
                && error == (if !IsActive(View(), resource, now) then ResourceNotActive(resource)
                             else if task !in tasks then UnknownTask(task) else TaskNotPending(task))
    {
      hide Inv;
      if resource !in resources || resources[resource].expiresAt <= now {
        return Failure(ResourceNotActive(resource));
      }
      if task !in tasks {
        return Failure(UnknownTask(task));
      }
      if !tasks[task].status.Pending? {
        return Failure(TaskNotPending(task));
      }
      var lease := ExecutionLease(task, execution, resource, resources[resource].descriptor.epoch, SaturatingAdd(now, executionTtlMs));
      tasks := tasks[task := tasks[task].(status := Running(lease))];
      issued := issued + {execution};
      StepKeepsInv(old(View()), Action.BeginExecution(task, resource, execution, lease.expiresAt, now));
      return Success(lease);
    }

    method RenewExecution(lease: ExecutionLease, now: u64) returns (result: Result<ExecutionLease, FabricError>)
      requires Valid()
      modifies this
      ensures Valid()
      ensures match result
              case Success(renewed) =>
                && HoldsLease(old(View()), lease, now)
                && renewed == old(tasks)[lease.task].status.lease.(expiresAt := SaturatingAdd(now, executionTtlMs))
                && View() == Step(old(View()), Action.RenewExecution(lease, renewed.expiresAt, now))
              case Failure(error) => LeaseError(old(View()), lease, now) == Some(error) && View() == old(View())
    {
      hide Inv;
      var error := CheckLease(lease, now);
      if error.Some? {
        return Failure(error.value);
      }
      var renewed := tasks[lease.task].status.lease.(expiresAt := SaturatingAdd(now, executionTtlMs));
      tasks := tasks[lease.task := tasks[lease.task].(status := Running(renewed))];
      StepKeepsInv(old(View()), Action.RenewExecution(lease, renewed.expiresAt, now));
      return Success(renewed);
    }

    method CheckLease(lease: ExecutionLease, now: u64) returns (error: Option<FabricError>)
      ensures error == LeaseError(View(), lease, now)
    {
      if lease.resource !in resources || resources[lease.resource].expiresAt <= now {
        return Some(ResourceNotActive(lease.resource));
      }
      if resources[lease.resource].descriptor.epoch != lease.epoch {
        return Some(StaleResourceEpoch(lease.resource));
      }
      if lease.task !in tasks {
        return Some(UnknownTask(lease.task));
      }
      match tasks[lease.task].status {
        case Running(current) =>
          if current.execution != lease.execution {
            return Some(StaleExecution);
          }
          if current.expiresAt <= now {
            return Some(ExecutionExpired);
          }
          if current.resource != lease.resource || current.epoch != lease.epoch {
            return Some(StaleExecution);
          }
          return None;
        case _ => return Some(StaleExecution);
      }
    }

    // ----- the role pass: what is ready -----

    /** Draws a task id above all known ones; the source draws UUIDs. */
    method FreshTaskIds() returns (first: TaskId)
      ensures forall t :: t in tasks ==> t < first
    {
      first := 0;
      var unseen := tasks.Keys;
      while unseen != {}
        invariant unseen <= tasks.Keys && forall t :: t in tasks && t !in unseen ==> t < first
        decreases |unseen|
      {
        var t :| t in unseen;
        unseen := unseen - {t};
        if t >= first {
          first := t + 1;
        }
      }
    }

    method PlanningContext(now: u64) returns (context: Context)
      requires Valid()
      ensures PlanningView(View(), PlannerAt(now), context)
    {
      hide Inv;
      var free := SchedulableResources(now);
      return Context(riskMultiplier, free, objects, links);
    }

    /** The roles that can be materialised now, in definition order, with their inputs and fusion chains. */
    method ReadyRoles(id: JobId) returns (ready: seq<ReadyRole>)
      requires Valid() && id in jobs
      ensures Snapshot(jobs[id], |jobs[id].definition.roles|, ready)
    {
      hide Inv, Snapshot, StillReady, JobShape;
      var job := jobs[id];
      JobIsShaped(View(), id);
      ready := [];
      EmptySnapshot(job);
      for k := 0 to |job.definition.roles|
        invariant Snapshot(job, k, ready)
      {
        var role := job.definition.roles[k];
        RoleListed(job, k);
        var inputs := CollectDependencyOutputs(job.roles, role.dependsOn);
        if inputs.Some? && (job.roles[role.name].Waiting? || (role.Logical? && job.roles[role.name].Ready?)) {
          var chain := [role];
          if role.Logical? {
            chain := FusionChain(job.definition, WaitingRoles(job), role);
          }
          EntryIsReady(job, k, chain, inputs.value);
          SnapshotPushed(job, k, ready, ReadyRole(role, inputs.value, chain));
          ready := ready + [ReadyRole(role, inputs.value, chain)];
        } else {
          SnapshotSkipped(job, k, ready);
        }
      }
    }

    // ----- the role pass: materialising -----

    method SubmitAll(specs: seq<TaskSpec>, binding: Binding)
      requires FreshIds(tasks, TaskIdsOf(specs)) && forall k :: 0 <= k < |specs| ==> AdmissibleTask(specs[k])
      modifies this`tasks, this`bindings
      ensures tasks == AddTasks(old(tasks), specs) && bindings == BindAll(old(bindings), TaskIdsOf(specs), binding)
    {
      hide AdmissibleTask, FreshIds;
      for k := 0 to |specs|
        invariant tasks == AddTasks(old(tasks), specs[..k])
        invariant bindings == BindAll(old(bindings), TaskIdsOf(specs[..k]), binding)
      {
        SpecsAdded(old(tasks), specs, k);
        BindingsAdded(old(bindings), specs, k, binding);
        var submitted := Submit(specs[k]);
        bindings := bindings[specs[k].id := binding];
      }
      assert specs[..|specs|] == specs;
    }

    method MarkReady(id: JobId, ghost waiting: set<string>, item: ReadyRole) returns (ghost choice: RoleChoice)
      requires Valid() && id in jobs && StillReady(jobs[id], waiting, item) && item.role.Logical?
      modifies this
      ensures Valid() && choice == RoleChoice.Infeasible
      ensures MaterializeStep(old(View()), View(), id, item.role.name, choice)
    {
      hide Inv, StillReady, MaterializeStep;
      jobs := jobs[id := SetRole(jobs[id], item.role.name, Ready)];
      choice := RoleChoice.Infeasible;
      CarriedInfeasible(old(View()), View(), id, waiting, item);
      MaterializeKeepsInv(old(View()), View(), id, item.role.name, choice);
    }

    method SubmitSingle(id: JobId, ghost waiting: set<string>, item: ReadyRole, template: TaskTemplate, task: TaskId)
      returns (ghost choice: RoleChoice)
      requires Valid() && id in jobs && StillReady(jobs[id], waiting, item) && task !in tasks
      requires !item.role.FansOut() && InstanceOf(item.role, template)
      modifies this
      ensures Valid() && choice == Direct(task, template)
      ensures MaterializeStep(old(View()), View(), id, item.role.name, choice)
    {
      hide Inv, StillReady, MaterializeStep, InstanceOf;
      var spec := template.Instantiate(task, item.inputs);
      PlainTaskIsAdmissible(task, template, item.inputs);
      var submitted := Submit(spec);
      bindings := bindings[task := Single(id, item.role.name)];
      jobs := jobs[id := SetRole(jobs[id], item.role.name, Submitted(task))];
      choice := Direct(task, template);
      CarriedDirect(old(View()), View(), id, waiting, item, task, template);
      MaterializeKeepsInv(old(View()), View(), id, item.role.name, choice);
    }

    method MaterializeShards(id: JobId, ghost waiting: set<string>, item: ReadyRole, context: Context) returns (ghost choice: RoleChoice)
      requires Valid() && id in jobs && StillReady(jobs[id], waiting, item) && item.role.FansOut()
      requires context.objects == objects
      modifies this
      ensures Valid() && !choice.Fused? && FanOutChosen(item, context, choice)
      ensures MaterializeStep(old(View()), View(), id, item.role.name, choice)
    {
      hide Inv, StillReady, MaterializeStep, ShardsAllowed, JobShape, ValidRole, ShardsChosen, CannotFanOut;
      JobIsShaped(View(), id);
      EntryFacts(View(), id, waiting, item);
      RoleIsValid(jobs[id], item.role.name);
      HasImplementations(item.role);
      var first := FreshTaskIds();
      var specs := SelectReadyShards(item.role, item.inputs, context, first);
      if specs.None? {
        choice := MarkReady(id, waiting, item);
        return;
      }
      NumberedAreFresh(tasks, specs.value, first);
      ShardsAreAdmissible(item.role, item.inputs, objects, specs.value);
      SubmitAll(specs.value, Shard(id, item.role.name));
      jobs := jobs[id := SetRole(jobs[id], item.role.name, Sharded(TaskIdsOf(specs.value), 0))];
      choice := Shards(specs.value);
      CarriedShards(old(View()), View(), id, waiting, item, specs.value);
      MaterializeKeepsInv(old(View()), View(), id, item.role.name, choice);
    }

    /** Submits the selected pipeline for the first roles of the chain, unless validation refuses it. */
    method MaterializeFused(id: JobId, ghost waiting: set<string>, item: ReadyRole, fused: TaskSpec, ghost choice: RoleChoice,
                            names: seq<string>)
      returns (result: Result<(), FabricError>)
      requires Valid() && id in jobs && StillReady(jobs[id], waiting, item)
      requires choice.Fused? && choice.templates != [] && choice.chain == names && choice.task == fused.id && fused.id !in tasks
      requires fused == FusedPipelineTask(choice.task, choice.templates, item.inputs, choice.requirements)
      requires ChoiceAllowed(View(), id, item.role.name, choice)
      modifies this
      ensures Valid() && MaterializeStep(old(View()), View(), id, item.role.name, choice)
      ensures result == if AdmissibleTask(fused) then Success(()) else Failure(InvalidTask)
      ensures result.Success? <==> !RefusedChoice(choice)
    {
      hide Inv, StillReady, MaterializeStep, AdmissibleTask, FusedPipelineTask, ChoiceAllowed, RefusedChoice;
      RefusedMeans(View(), id, waiting, item, choice);
      var submitted := Submit(fused);
      if submitted.Failure? {
        CarriedFused(old(View()), View(), id, waiting, item, choice);
        return Failure(submitted.error);
      }
      bindings := bindings[fused.id := FusedChain(id, names)];
      var job := jobs[id];
      for k := 0 to |names|
        invariant job == SetRoles(jobs[id], names[..k], Submitted(fused.id))
      {
        assert names[..k + 1][..k] == names[..k];
        job := SetRole(job, names[k], Submitted(fused.id));
      }
      assert names[..|names|] == names;
      jobs := jobs[id := job];
      CarriedFused(old(View()), View(), id, waiting, item, choice);
      MaterializeKeepsInv(old(View()), View(), id, item.role.name, choice);
      return Success(());
    }

    /**
     * One entry of the snapshot. It fails exactly where task validation refuses the planner's pipeline,
     * which the job's definition can rule out.
     */
    method MaterializeRole(id: JobId, ghost waiting: set<string>, item: ReadyRole, now: u64)
      returns (result: Result<(), FabricError>, ghost choice: RoleChoice)
      requires Valid() && id in jobs && StillReady(jobs[id], waiting, item)
      modifies this
      ensures Valid() && MaterializeStep(old(View()), View(), id, item.role.name, choice) && ChoiceFrom(item, choice)
      ensures RoleDecided(old(View()), item, PlannerAt(now), choice)
      ensures result.Success? <==> !RefusedChoice(choice)
      ensures choice.Fused? && result.Success? ==> View() != old(View())
      ensures result.Failure? ==>
                result.error == InvalidTask && View() == old(View()) && !PipelinesAdmissible(old(jobs)[id].definition)
    {
      hide Inv, StillReady, MaterializeStep, BestSelection, ChoiceAllowed, Runs, JobShape, FusedPipelineTask, AdmissibleTask, PlanningView,
        RoleDecided, WellChosen, FanOutChosen, FusionChosen, FusionDeclined, SingleChosen, RefusedChoice, PipelinesAdmissible, ValidGraph;
      JobIsShaped(View(), id);
      EntryFacts(View(), id, waiting, item);
      var first := FreshTaskIds();
      var context := PlanningContext(now);
      ghost var s, planner := View(), PlannerAt(now);
      if item.role.Cooperative? {
        choice := SubmitSingle(id, waiting, item, item.role.task, first);
        CooperativeDecided(s, item, planner, context, choice);
        OnlyPipelinesAreRefused(choice);
        return Success(()), choice;
      }
      if item.role.FansOut() {
        PlanningObjects(s, planner, context);
        choice := MaterializeShards(id, waiting, item, context);
        FanOutDecided(s, item, planner, context, choice);
        OnlyPipelinesAreRefused(choice);
        return Success(()), choice;
      }
      ChainIsLogical(jobs[id], waiting, item);
      var planning := FusionContext(context, minimumSavedMs, intermediate);
      var selection, comparison := SelectReadyFusion(item.chain, item.inputs, planning, first);
      if selection.Some? {
        SelectionIsAllowed(View(), id, waiting, item, planning, first, comparison, selection.value);
        var names := NamesOf(item.chain[..|selection.value.tasks|]);
        choice := Fused(first, names, selection.value.tasks, selection.value.requirements);
        FusedId(first, selection.value.tasks, item.inputs, selection.value.requirements);
        result := MaterializeFused(id, waiting, item, selection.value.task, choice, names);
        FusedOutcome(old(View()), View(), id, waiting, item, choice, selection.value.task);
        FusionIsDecided(s, item, planner, context, comparison, selection.value, choice);
        JobGraph(s, id);
        if PipelinesAdmissible(s.jobs[id].definition) { DecidedIsAdmitted(s, id, waiting, item, planner, choice); }
        return;
      }
      var selected := SelectReadyRole(item.role, item.inputs, context, first);
      if selected.None? {
        choice := MarkReady(id, waiting, item);
        NothingChosen(item, context, first);
        SingleDecided(s, item, planner, context, first, comparison, choice);
        OnlyPipelinesAreRefused(choice);
        return Success(()), choice;
      }
      TemplateIsInstance(item.role, selected.value.implementation);
      choice := SubmitSingle(id, waiting, item, item.role.Templates()[selected.value.implementation], first);
      CheapestChosen(item, context, first, selected.value);
      SingleDecided(s, item, planner, context, first, comparison, choice);
      OnlyPipelinesAreRefused(choice);
      return Success(()), choice;
    }

    // ----- the role pass: all ready roles of one job -----

    /**
     * Materialises every role that is ready. Success leaves no role of the job waiting for completed
     * dependencies, and leaves a role ready only if the planner just found that nothing can run it. It fails
     * exactly when it decides on a pipeline that validation refuses, never for a job whose pipelines are admissible.
     */
    method MaterializeReadyRoles(id: JobId, now: u64) returns (result: Result<(), FabricError>, ghost trace: seq<Action>)
      requires Valid()
      modifies this
      ensures Valid() && Planned(old(View()), trace, View(), PlannerAt(now)) && OnlyJob(old(View()), View(), id)
      ensures id !in old(jobs) ==> result == Failure(UnknownJob(id)) && View() == old(View())
      ensures id in old(jobs) ==>
                && id in jobs && LevelsKept(old(jobs)[id], jobs[id]) && jobs[id].definition == old(jobs)[id].definition
                && PassResult(old(jobs)[id].definition, trace, result)
                && (result.Success? ==> Unstuck(jobs[id]) && RolesTried(jobs[id], id, trace))
    {
      hide Inv, StillReady, MaterializeStep, ChoiceFrom, Enabled, Step, Unstuck, PassAt, Snapshot, Decided, RoleDecided, TriedSoFar,
        LevelUnplaced, NoneRefused, RefusedChoice, PipelinesAdmissible;
      trace := [];
      if id !in jobs {
        return Failure(UnknownJob(id)), trace;
      }
      ghost var waiting := WaitingRoles(jobs[id]);
      var ready := ReadyRoles(id);
      PassStarts(View(), id, ready);
      TryingStarts(View(), id, ready);
      NothingRefused();
      for k := 0 to |ready|
        invariant Valid() && Planned(old(View()), trace, View(), PlannerAt(now)) && OnlyJob(old(View()), View(), id)
        invariant PassAt(View(), id, waiting, ready, k)
        invariant id in jobs && TriedSoFar(jobs[id], id, ready, k, trace) && LevelsKept(old(jobs)[id], jobs[id])
        invariant jobs[id].definition == old(jobs)[id].definition && NoneRefused(trace)
      {
        ghost var before := View();
        PassEntry(before, id, waiting, ready, k);
        var outcome, choice := MaterializeRole(id, waiting, ready[k], now);
        ghost var action := Action.MaterializeRole(id, ready[k].role.name, choice);
        MaterializeIsAction(before, View(), id, ready[k].role.name, choice);
        ChoiceIsDecided(before, id, waiting, ready[k], PlannerAt(now), choice);
        PlannedThen(old(View()), trace, before, action, PlannerAt(now));
        ghost var sofar := trace;
        OneRefused(trace, id, ready[k].role.name, choice);
        StepKeepsDefinition(before, View(), id, ready[k].role.name, choice);
        trace := trace + [action];
        if outcome.Failure? {
          return Failure(outcome.error), trace;
        }
        PassStep(before, View(), id, waiting, ready, k, choice);
        TryingStep(before, View(), id, ready, k, choice, sofar);
      }
      PassEnds(View(), id, waiting, ready);
      TryingEnds(jobs[id], id, ready, trace);
      return Success(()), trace;
    }

    // ----- reductions -----

    /** Places the recorded level, finishes the role if a single input is left, or leaves the level for later. */
    method MaterializeReductionLevel(id: JobId, name: string, now: u64)
      returns (result: Result<(), FabricError>, ghost trace: seq<Action>)
      requires id in jobs && name in jobs[id].reductions && jobs[id].reductions[name].items == []
      requires name in jobs[id].roles && ReductionOf(jobs[id], name).Some?
      requires Inv(Settled(View(), id, name)) && forall r :: r in resources ==> resources[r].descriptor.id == r
      modifies this
      ensures Valid() && Planned(Settled(old(View()), id, name), trace, View(), PlannerAt(now))
      ensures id in jobs && OnlyJob(old(View()), View(), id)
      ensures PassResult(old(jobs)[id].definition, trace, result)
      ensures old(|jobs[id].reductions[name].inputs|) <= 1 && result.Success? ==> Unstuck(jobs[id])
      ensures old(|jobs[id].reductions[name].inputs|) > 1 ==>
                && result.Success? && QuietJob(Settled(old(View()), id, name).jobs[id], jobs[id])
                && (LevelUnplaced(jobs[id], name) ==> PlaceReduction(id, name, None) in trace)
                && forall r :: r in jobs[id].roles && r != name ==> StatusKept(old(jobs)[id], jobs[id], r)
    {
      hide PipelinesAdmissible, LevelChosen, WellGrouped, GroupStuck, Decided, PlanningView, LevelsKept, RolesTried;
      hide Inv, Enabled, Step, Unstuck, LevelOf, AllPlaced, ReductionOf, LevelAllowed, PlaceLevel, AdmissibleTask, LevelUnplaced, ItemsOf,
        ReducerTasks, TaskIdsOf, AddTasks, BindAll, FreshIds, HasReduce;
      trace := [];
      var job := jobs[id];
      var state := job.reductions[name];
      ghost var settled := Settled(View(), id, name);
      if |state.inputs| <= 1 {
        jobs := jobs[id := SetRole(job, name, Done(state.inputs)).(reductions := job.reductions - {name})];
        assert View() == settled;
        result, trace := MaterializeReadyRoles(id, now);
        return;
      }
      jobs := jobs[id := SetRole(job, name, Reducing([], 0, state.level))];
      assert View() == settled;
      SettledIsUnplaced(old(View()), id, name);
      var context := PlanningContext(now);
      var first := FreshTaskIds();
      var reduction := ReductionOf(job, name).value;
      var items, after, groups := SelectReductionLevel(reduction, state.inputs, 0.0, map[], context, first);
      ReductionIsValid(settled, id, name);
      LevelIsDecided(settled, id, name, PlannerAt(now), context, items);
      if items.None? {
        NoLevelPlaced(settled, id, name);
        PlaceIsAction(settled, settled, id, name, items);
        trace := [PlaceReduction(id, name, items)];
        OnePlanned(settled, PlaceReduction(id, name, items), settled, PlannerAt(now));
        return Success(()), trace;
      }
      LevelIsAllowed(settled, id, name, items.value, first, groups);
      SubmitAll(ReducerTasks(items.value), Reduction(id, name));
      jobs := jobs[id := SetRole(jobs[id], name, Reducing(TaskIdsOf(ReducerTasks(items.value)), 0, state.level))
                         .(reductions := job.reductions[name := state.(items := ItemsOf(items.value))])];
      LevelCarried(settled, View(), id, name, items.value);
      PlaceLevelKeepsInv(settled, View(), id, name, items);
      PlaceIsAction(settled, View(), id, name, items);
      trace := [PlaceReduction(id, name, items)];
      OnePlanned(settled, PlaceReduction(id, name, items), View(), PlannerAt(now));
      PlacedHasItems(settled, View(), id, name, items.value);
      return Success(()), trace;
    }

    /** Tries again to place every recorded level that has no tasks yet; those left were found impossible to place. */
    method RefreshReductions(now: u64) returns (ghost trace: seq<Action>)
      requires Valid()
      modifies this
      ensures Valid() && Planned(old(View()), trace, View(), PlannerAt(now)) && Undisturbed(old(View()), View())
      ensures forall j :: j in old(jobs) ==> QuietJob(old(jobs)[j], jobs[j])
      ensures NoneRefused(trace) && forall j :: j in jobs ==> LevelsTried(jobs[j], j, trace)
    {
      hide Inv, RefreshAt, LevelUnplaced, Planned, NoneRefused, PipelinesAdmissible;
      var unplaced := UnplacedLevels(jobs);
      trace := [];
      RefreshStarts(View(), unplaced, PlannerAt(now));
      while unplaced != {}
        invariant Valid() && RefreshAt(old(View()), View(), trace, unplaced, PlannerAt(now))
        decreases |unplaced|
      {
        var pair :| pair in unplaced;
        assert unplaced == unplaced - {pair} + {(pair.0, pair.1)};
        unplaced := unplaced - {pair};
        ghost var before := View();
        RefreshEntry(old(View()), before, trace, unplaced, PlannerAt(now), pair.0, pair.1);
        var result, placed := MaterializeReductionLevel(pair.0, pair.1, now);
        RefreshStep(old(View()), before, View(), trace, placed, pair.0, pair.1, unplaced, PlannerAt(now));
        trace := trace + placed;
      }
      RefreshEnds(old(View()), View(), trace, PlannerAt(now));
    }

    /**
     * Refreshes reductions and then the roles of every job. Afterwards no role of any job is stuck, and
     * whatever still awaits resources is something this very pass found impossible to place. The pass
     * is aborted by the first refused pipeline of any job, and only by that.
     */
    method RefreshReadyRoles(now: u64) returns (result: Result<(), FabricError>, ghost trace: seq<Action>)
      requires Valid()
      modifies this
      ensures Valid() && Planned(old(View()), trace, View(), PlannerAt(now)) && SameJobs(old(View()), View())
      ensures result.Success? ==> forall j :: j in jobs ==> FullyTried(jobs[j], j, trace)
      ensures result.Success? <==> NoneRefused(trace)
      ensures result.Failure? ==> result.error == InvalidTask && !AllAdmissible(old(jobs))
    {
      hide Inv, Enabled, Step, Unstuck, Planned, RolesTried, LevelsTried, LevelsKept, NoneRefused, PipelinesAdmissible, PassesMade, FullyTried,
        PassResult, Undisturbed, OnlyJob, QuietJob;
      trace := RefreshReductions(now);
      NoPassesYet(jobs, trace);
      RefreshedJobs(old(View()), View());
      var remaining := jobs.Keys;
      while remaining != {}
        invariant Valid() && Planned(old(View()), trace, View(), PlannerAt(now)) && SameJobs(old(View()), View())
        invariant remaining <= jobs.Keys && PassesMade(jobs, remaining, trace) && NoneRefused(trace)
        decreases |remaining|
      {
        var id :| id in remaining;
        assert remaining == remaining - {id} + {id};
        remaining := remaining - {id};
        ghost var before := View();
        var outcome, pass := MaterializeReadyRoles(id, now);
        PlannedAll(old(View()), trace, before, pass, View(), PlannerAt(now));
        JobsStaySame(old(View()), before, View(), id);
        PassOutcome(old(View()), id, trace, pass, outcome);
        if outcome.Failure? {
          return Failure(outcome.error), trace + pass;
        }
        OnePassMore(before, View(), remaining, id, trace, pass);
        trace := trace + pass;
      }
      AllPassesMade(jobs, trace);
      return Success(()), trace;
    }

    // ----- completing a role -----

    method CompleteSingle(task: TaskId, outputs: seq<ObjectId>, ghost s: State, ghost published: seq<ObjectMetadata>, now: u64)
      returns (result: Result<(), FabricError>, ghost trace: seq<Action>)
      requires Committing(s, View(), task, published, outputs) && task in bindings && bindings[task].Single?
      requires forall r :: r in resources ==> resources[r].descriptor.id == r
      modifies this
      ensures Valid() && Completes(s, task, published, trace, View(), result, PlannerAt(now))
    {
      hide PassResult;
      hide Inv, Enabled, Step, Unstuck, Commit, CommitStep, PublishAll, BindingOk;
      CommitBinding(s, task, published);
      SingleFacts(s, Commit(s, task, published), task, published);
      var id, name := bindings[task].job, bindings[task].role;
      jobs := jobs[id := SetRole(jobs[id], name, Done(outputs))];
      CommitKeepsInv(s, View(), task, published);
      result, trace := MaterializeReadyRoles(id, now);
      OnePassCompletes(s, task, published, trace, View(), result, id, PlannerAt(now));
    }

    method CompleteChain(task: TaskId, outputs: seq<ObjectId>, ghost s: State, ghost published: seq<ObjectMetadata>, now: u64)
      returns (result: Result<(), FabricError>, ghost trace: seq<Action>)
      requires Committing(s, View(), task, published, outputs) && task in bindings && bindings[task].FusedChain?
      requires forall r :: r in resources ==> resources[r].descriptor.id == r
      modifies this
      ensures Valid() && Completes(s, task, published, trace, View(), result, PlannerAt(now))
    {
      hide PassResult;
      hide Inv, Enabled, Step, Unstuck, Commit, CommitStep, PublishAll, BindingOk;
      CommitBinding(s, task, published);
      FusedFacts(s, Commit(s, task, published), task, published);
      var id, names := bindings[task].job, bindings[task].roles;
      var last := |names| - 1;
      var job := jobs[id];
      for k := 0 to last
        invariant job == SetRoles(jobs[id], names[..k], Done([]))
      {
        assert names[..k + 1][..k] == names[..k];
        job := SetRole(job, names[k], Done([]));
      }
      SetRolesEffect(jobs[id], names[..last], Done([]));
      jobs := jobs[id := SetRole(job, names[last], Done(outputs))];
      CommitKeepsInv(s, View(), task, published);
      result, trace := MaterializeReadyRoles(id, now);
      OnePassCompletes(s, task, published, trace, View(), result, id, PlannerAt(now));
    }

    /** Counts the completed tasks and gathers their outputs in task order. */
    method GatherOutputs(ids: seq<TaskId>) returns (completed: nat, outputs: seq<ObjectId>)
      ensures completed == NumCompleted(tasks, ids) && outputs == CompletedOutputs(tasks, ids)
    {
      completed, outputs := 0, [];
      for k := 0 to |ids|
        invariant completed == NumCompleted(tasks, ids[..k]) && outputs == CompletedOutputs(tasks, ids[..k])
      {
        assert ids[..k + 1][..k] == ids[..k];
        if ids[k] in tasks && tasks[ids[k]].status.Completed? {
          completed, outputs := completed + 1, outputs + tasks[ids[k]].status.outputs;
        }
      }
      assert ids[..|ids|] == ids;
    }

    method CompleteShard(task: TaskId, outputs: seq<ObjectId>, ghost s: State, ghost published: seq<ObjectMetadata>, now: u64)
      returns (result: Result<(), FabricError>, ghost trace: seq<Action>)
      requires Committing(s, View(), task, published, outputs) && task in bindings && bindings[task].Shard?
      requires forall r :: r in resources ==> resources[r].descriptor.id == r
      modifies this
      ensures Valid() && Completes(s, task, published, trace, View(), result, PlannerAt(now))
    {
      hide PassResult;
      hide Inv, Enabled, Step, Unstuck, Commit, CommitStep, PublishAll, BindingOk, ReductionOf, NumCompleted, CompletedOutputs, RoleOk, JobShape;
      CommitBinding(s, task, published);
      ShardFacts(s, Commit(s, task, published), task, published);
      var id, name := bindings[task].job, bindings[task].role;
      InvAt(s, id, name);
      var job := jobs[id];
      match job.roles[name] {
        case Sharded(ids, _) =>
          var completed, gathered := GatherOutputs(ids);
          if completed == |ids| && ReductionOf(job, name).Some? && |gathered| > 1 {
            jobs := jobs[id := SetRole(job, name, Reducing([], 0, 0)).(reductions := job.reductions[name := ActiveReduction(0, gathered, [])])];
            CommitKeepsInv(s, View(), task, published);
            StartIsSettled(s, View(), id, name, gathered);
            result, trace := MaterializeReductionLevel(id, name, now);
            PlacingCompletes(s, task, published, trace, View(), result, id, PlannerAt(now));
            return;
          }
          jobs := jobs[id := SetRole(job, name, if completed == |ids| then Done(gathered) else Sharded(ids, completed))];
          CommitKeepsInv(s, View(), task, published);
          result, trace := MaterializeReadyRoles(id, now);
          OnePassCompletes(s, task, published, trace, View(), result, id, PlannerAt(now));
        case _ =>
          SameJob(s.jobs, id);
          CommitKeepsInv(s, View(), task, published);
          NothingCompletes(s, task, published, View(), PlannerAt(now));
          return Success(()), [];
      }
    }

    /** Walks the level: its tasks, how many are completed, and the inputs of the next level. */
    method GatherLevel(items: seq<ReductionItem>) returns (ids: seq<TaskId>, completed: nat, next: seq<ObjectId>)
      requires forall i :: 0 <= i < |items| ==> OneOutput(tasks, items[i])
      ensures ids == ItemTasks(items) && completed == NumCompleted(tasks, ids) && next == LevelOutputs(tasks, items)
    {
      ids, completed, next := [], 0, [];
      for k := 0 to |items|
        invariant ids == ItemTasks(items[..k]) && completed == NumCompleted(tasks, ids) && next == LevelOutputs(tasks, items[..k])
      {
        assert items[..k + 1][..k] == items[..k];
        match items[k] {
          case CarryItem(id) =>
            assert ItemTasks(items[..k + 1]) == ItemTasks(items[..k]);
            next := next + [id];
          case TaskItem(t) =>
            assert (ids + [t])[..|ids|] == ids;
            ids := ids + [t];
            if t in tasks && tasks[t].status.Completed? {
              var outputs := tasks[t].status.outputs;
              assert OneOutput(tasks, items[k]) && outputs == [outputs[0]];
              completed, next := completed + 1, next + [outputs[0]];
            } else {
              assert LevelOutputs(tasks, items[..k + 1]) == LevelOutputs(tasks, items[..k]);
            }
        }
      }
      assert items[..|items|] == items;
    }

    method CompleteReducer(task: TaskId, outputs: seq<ObjectId>, ghost s: State, ghost published: seq<ObjectMetadata>, now: u64)
      returns (result: Result<(), FabricError>, ghost trace: seq<Action>)
      requires Committing(s, View(), task, published, outputs) && task in bindings && bindings[task].Reduction?
      requires forall r :: r in resources ==> resources[r].descriptor.id == r
      modifies this
      ensures Valid() && Completes(s, task, published, trace, View(), result, PlannerAt(now))
    {
      hide PassResult;
      hide Inv, Enabled, Step, Unstuck, Commit, CommitStep, PublishAll, BindingOk, ReductionOf, NumCompleted, LevelOutputs, ItemTasks, RoleOk,
        JobShape, OneOutput;
      CommitBinding(s, task, published);
      ReducerFacts(s, Commit(s, task, published), task, published);
      var id, name := bindings[task].job, bindings[task].role;
      var job := jobs[id];
      var state := job.reductions[name];
      LevelHasOneOutputEach(s, task, published, id, name);
      var ids, completed, next := GatherLevel(state.items);
      CommitKeepsInv(s, Commit(s, task, published), task, published);
      if completed < |ids| {
        jobs := jobs[id := SetRole(job, name, Reducing(ids, completed, state.level))];
        ReducerWaits(s, View(), task, published, PlannerAt(now));
        return Success(()), [];
      }
      jobs := jobs[id := job.(reductions := job.reductions[name := ActiveReduction(state.level + 1, next, [])])];
      ReducerAdvances(s, View(), task, published, next);
      ghost var advanced := View();
      result, trace := MaterializeReductionLevel(id, name, now);
      AdvanceCompletes(s, task, published, trace, advanced, View(), result, next, PlannerAt(now));
    }

    /** Advances whatever the completed task works for. */
    method CompleteCooperativeRole(task: TaskId, outputs: seq<ObjectId>, ghost s: State, ghost published: seq<ObjectMetadata>, now: u64)
      returns (result: Result<(), FabricError>, ghost trace: seq<Action>)
      requires Committing(s, View(), task, published, outputs)
      requires forall r :: r in resources ==> resources[r].descriptor.id == r
      modifies this
      ensures Valid() && Completes(s, task, published, trace, View(), result, PlannerAt(now))
    {
      hide Inv, Unstuck, CommitStep, PublishAll, Completes, Planned;
      if task !in bindings {
        CommitKeepsInv(s, View(), task, published);
        NothingCompletes(s, task, published, View(), PlannerAt(now));
        return Success(()), [];
      }
      match bindings[task] {
        case Single(_, _) => result, trace := CompleteSingle(task, outputs, s, published, now);
        case FusedChain(_, _) => result, trace := CompleteChain(task, outputs, s, published, now);
        case Shard(_, _) => result, trace := CompleteShard(task, outputs, s, published, now);
        case Reduction(_, _) => result, trace := CompleteReducer(task, outputs, s, published, now);
      }
    }

    // ----- completing an execution -----

    /** Publishes in order, up to the first output that contradicts an earlier one. */
    method PublishOutputs(outputs: seq<ObjectMetadata>) returns (conflict: Option<FabricError>, ghost k: int)
      requires forall i :: 0 <= i < |outputs| ==> CanPublish(objects, outputs[i])
      modifies this`objects
      ensures match conflict
              case None => ConsistentOutputs(outputs) && objects == PublishAll(old(objects), outputs)
              case Some(error) =>
                InterruptedAt(outputs, k) && error == ObjectConflict(outputs[k].id) && objects == PublishAll(old(objects), outputs[..k])
    {
      hide AddLocations;
      k := 0;
      for i := 0 to |outputs|
        invariant objects == PublishAll(old(objects), outputs[..i]) && ConsistentOutputs(outputs[..i])
      {
        assert outputs[..i + 1][..i] == outputs[..i];
        PublishesInOrder(old(objects), outputs, i);
        var published := PublishObject(outputs[i]);
        if published.Failure? {
          return Some(published.error), i;
        }
      }
      assert outputs[..|outputs|] == outputs;
      return None, k;
    }

    /**
     * Commits an execution's outputs. Nothing changes when a check fails. If two outputs share an id
     * under different identities, publishing stops at the first contradiction: the task stays completed
     * with some of its outputs published, and this call does not advance its role (InterruptedCommits
     * says which roles are advanced later). Otherwise the commit and the role actions it enables have
     * taken place.
     */
    method CompleteExecution(lease: ExecutionLease, outputs: seq<ObjectMetadata>, now: u64)
      returns (result: Result<(), FabricError>, ghost trace: seq<Action>)
      requires Valid()
      modifies this
      ensures !CanCommit(old(View()), lease, outputs, now) ==>
                result.Failure? && View() == old(View())
                && (!HoldsLease(old(View()), lease, now) ==> LeaseError(old(View()), lease, now) == Some(result.error))
      ensures CanCommit(old(View()), lease, outputs, now) && !ConsistentOutputs(outputs) ==>
                && result.Failure? && result.error.ObjectConflict?
                && exists k :: InterruptedAt(outputs, k) && result.error.id == outputs[k].id
                               && View() == Interrupted(old(View()), lease.task, outputs, PublishAll(old(objects), outputs[..k]))
      ensures CanCommit(old(View()), lease, outputs, now) && ConsistentOutputs(outputs) ==>
                Enabled(old(View()), CommitExecution(lease, outputs, now))
                && Completes(old(View()), lease.task, outputs, trace, View(), result, PlannerAt(now))
      ensures (CanCommit(old(View()), lease, outputs, now) ==> ConsistentOutputs(outputs)) ==> Valid()
    {
      hide Inv, Unstuck, Completes, Commit, AddLocations, Enabled, AfterTask, PublishAll, ConsistentOutputs;
      trace := [];
      var error := CheckLease(lease, now);
      if error.Some? {
        return Failure(error.value), trace;
      }
      if lease.task in bindings && bindings[lease.task].Reduction? && |outputs| != 1 {
        return Failure(InvalidJob), trace;
      }
      for k := 0 to |outputs|
        invariant forall i :: 0 <= i < k ==> CanPublish(objects, outputs[i])
      {
        if outputs[k].id in objects && !SameObjectIdentity(objects[outputs[k].id], outputs[k]) {
          return Failure(ObjectConflict(outputs[k].id)), trace;
        }
      }
      ghost var s := View();
      var ids := Ids(outputs);
      tasks := tasks[lease.task := tasks[lease.task].(status := TaskStatus.Completed(ids))];
      ghost var k;
      var conflict;
      conflict, k := PublishOutputs(outputs);
      if conflict.Some? {
        InconsistentPrefix(outputs, k + 1);
        assert View() == Interrupted(s, lease.task, outputs, PublishAll(s.objects, outputs[..k]));
        return Failure(conflict.value), trace;
      }
      BoundInInv(s, lease.task);
      CommitIsEnabled(s, lease, outputs, now);
      result, trace := CompleteCooperativeRole(lease.task, ids, s, outputs, now);
    }

    // ----- reaping -----

    method MarkCooperativeRoleUncertain(task: TaskId)
      modifies this`jobs
      ensures jobs == MarkedJobs(old(jobs), bindings, task)
    {
      if task !in bindings || bindings[task].job !in jobs {
        return;
      }
      var id := bindings[task].job;
      match bindings[task] {
        case FusedChain(_, names) =>
          var job := jobs[id];
          for k := 0 to |names|
            invariant job == SetRoles(jobs[id], names[..k], RoleUncertain)
          {
            assert names[..k + 1][..k] == names[..k];
            job := SetRole(job, names[k], RoleUncertain);
          }
          assert names[..|names|] == names;
          jobs := jobs[id := job];
        case Single(_, name) => jobs := jobs[id := SetRole(jobs[id], name, RoleUncertain)];
        case Shard(_, name) => jobs := jobs[id := SetRole(jobs[id], name, RoleUncertain)];
        case Reduction(_, name) => jobs := jobs[id := SetRole(jobs[id], name, RoleUncertain)];
      }
    }

    /** Puts every expired task back, or marks it uncertain; the uncertain ones are returned for their roles. */
    method ReapTasks(now: u64) returns (changed: seq<TaskId>, uncertain: seq<TaskId>, ghost trace: seq<Action>)
      requires Valid()
      modifies this`tasks
      ensures ReapAt(old(View()), changed, trace, now) && tasks == ReapAll(old(View()), changed).tasks
      ensures uncertain == UncertainOf(old(tasks), changed)
      ensures forall t :: t in changed <==> t in old(tasks) && Expired(old(tasks)[t], now)
    {
      hide Inv, Reap, ReapAt, ReapAll, UncertainOf;
      ghost var s := View();
      changed, uncertain, trace := [], [], [];
      var unseen := tasks.Keys;
      ReapStarts(s);
      while unseen != {}
        invariant unseen <= s.tasks.Keys && ReapAt(s, changed, trace, now)
        invariant tasks == ReapAll(s, changed).tasks && uncertain == UncertainOf(s.tasks, changed)
        invariant forall t :: t in changed <==> t in s.tasks && t !in unseen && Expired(s.tasks[t], now)
        decreases |unseen|
      {
        var t :| t in unseen;
        unseen := unseen - {t};
        ReapedTasks(s, changed);
        if Expired(tasks[t], now) {
          ReapMore(s, changed, trace, now, t);
          var status := ReapedStatus(tasks[t].spec);
          tasks := tasks[t := tasks[t].(status := status)];
          uncertain := uncertain + if status.Uncertain? then [t] else [];
          changed := changed + [t];
          trace := trace + [ReapExecution(t, now)];
        }
      }
    }

    /**
     * Takes back every expired execution: replayable tasks become pending again, others uncertain
     * together with their roles. Exactly the expired tasks change.
     */
    method ReapExpiredExecutions(now: u64) returns (changed: seq<TaskId>, ghost trace: seq<Action>)
      requires Valid()
      modifies this
      ensures Valid() && Reaches(old(View()), trace, View()) && Undisturbed(old(View()), View())
      ensures forall t :: t in changed <==> t in old(tasks) && Expired(old(tasks)[t], now)
      ensures tasks.Keys == old(tasks).Keys && forall t :: t in tasks ==>
                tasks[t] == if t in changed then old(tasks)[t].(status := ReapedStatus(old(tasks)[t].spec)) else old(tasks)[t]
      ensures forall j :: j in old(jobs) ==> QuietJob(old(jobs)[j], jobs[j])
      ensures forall k :: 0 <= k < |trace| ==> trace[k].ReapExecution? && trace[k].now == now
    {
      hide Inv, ReapAt, ReapAll, UncertainOf, Expired, ReapedStatus, Reaches, QuietJob, MarkedJobs;
      ghost var s := View();
      var uncertain;
      changed, uncertain, trace := ReapTasks(now);
      for k := 0 to |uncertain|
        invariant View() == s.(tasks := ReapAll(s, changed).tasks, jobs := MarkedAll(s.jobs, s.bindings, uncertain[..k]))
      {
        assert uncertain[..k + 1][..k] == uncertain[..k];
        MarkCooperativeRoleUncertain(uncertain[k]);
      }
      assert uncertain[..|uncertain|] == uncertain;
      ReapEnds(s, changed, trace, now);
      ReapedJobs(s, changed);
      ReapedTasks(s, changed);
    }

    // ----- jobs -----

    method SubmitJob(id: JobId, definition: JobDefinition, now: u64) returns (result: Result<JobId, FabricError>, ghost trace: seq<Action>)
      requires Valid()
      modifies this
      ensures Valid()
      ensures var accepted := ValidJob(definition)
                              && forall i :: 0 <= i < |definition.roles| ==> RecordsMatchObjects(definition.roles[i], old(objects));
              if !accepted || id in old(jobs)
              then result == Failure(if !accepted then InvalidJob else DuplicateJob(id)) && View() == old(View())
              else
                && Enabled(old(View()), Action.SubmitJob(id, definition))
                && Planned(Step(old(View()), Action.SubmitJob(id, definition)), trace, View(), PlannerAt(now))
                && id in jobs
                && (result.Success? <==> NoneRefused(trace))
                && if result.Success? then result.value == id && Unstuck(jobs[id]) && RolesTried(jobs[id], id, trace)
                   else result.error == InvalidTask && !PipelinesAdmissible(definition)
    {
      hide Inv, ValidJob, RecordsMatchObjects, Unstuck, Planned, RolesTried, LevelsKept, NoneRefused, PipelinesAdmissible;
      trace := [];
      var valid := ValidateJob(definition, objects);
      if !valid {
        return Failure(InvalidJob), trace;
      }
      if id in jobs {
        return Failure(DuplicateJob(id)), trace;
      }
      jobs := jobs[id := NewJob(definition)];
      assert View() == Step(old(View()), Action.SubmitJob(id, definition));
      SubmitJobKeepsInv(old(View()), id, definition);
      var outcome;
      outcome, trace := MaterializeReadyRoles(id, now);
      result := if outcome.Success? then Success(id) else Failure(outcome.error);
    }

    method JobStatus(id: JobId) returns (status: Option<Progress.JobStatus>)
      ensures status == if id in jobs then Some(StatusOf(jobs[id])) else None
    {
      if id !in jobs {
        return None;
      }
      var job := jobs[id];
      if exists r :: r in job.roles && job.roles[r].RoleUncertain? {
        return Some(JobUncertain);
      }
      if exists r :: r in job.roles && !job.roles[r].Done? {
        return Some(JobRunning);
      }
      var outputs: seq<ObjectId> := [];
      for k := 0 to |job.definition.outputs|
        invariant outputs == JobOutputs(job.roles, job.definition.outputs[..k])
      {
        var name := job.definition.outputs[k];
        assert job.definition.outputs[..k + 1][..k] == job.definition.outputs[..k];
        if name in job.roles && job.roles[name].Done? {
          outputs := outputs + job.roles[name].outputs;
        } else {
          outputs := outputs + [];
        }
      }
      assert job.definition.outputs[..|job.definition.outputs|] == job.definition.outputs;
      return Some(JobCompleted(outputs));
    }
  }
}
