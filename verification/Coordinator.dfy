/** The coordinator's request handlers that hand out and expire leases, each one atomic step under its lock. */
module CoordinatorService {
  import opened Wrappers
  import opened Core
  import opened Scheduler
  import opened FabricModel
  import opened FabricInvariant
  import opened FabricSteps
  import opened FabricRuns
  import opened LeaseSafety
  import opened Progress
  import opened PlannerDecisions
  import opened Refusals
  import opened FabricTraces
  import opened CoordinatorRuns
  import opened FabricRuntime

  datatype ApiError = NotFound | Conflict | FromFabric(error: FabricError)

  const SHA256_PREFIX := "sha256:"

  /** The object is known, has a supported digest and a replica at a registered endpoint. */
  predicate Resolvable(objects: Objects, endpoints: set<ResourceId>, id: ObjectId)
  {
    && id in objects && objects[id].digest.Some? && SHA256_PREFIX <= objects[id].digest.value
    && exists i :: 0 <= i < |objects[id].locations| && objects[id].locations[i] in endpoints
  }

  class Coordinator {
    const fabric: Fabric
    var endpoints: set<ResourceId>

    constructor (fabric: Fabric)
      ensures this.fabric == fabric && endpoints == {}
    {
      this.fabric := fabric;
      endpoints := {};
    }

    method RegisterResource(descriptor: ResourceDescriptor, now: u64) returns (lease: MembershipLease)
      requires fabric.Valid()
      modifies this`endpoints, fabric
      ensures fabric.Valid() && lease.resource == descriptor.id
      ensures fabric.View() == Step(old(fabric.View()), Action.RegisterResource(descriptor, lease.expiresAt))
      ensures Served(old(fabric.View()), Change(Action.RegisterResource(descriptor, lease.expiresAt)), fabric.View(), now, now)
      ensures endpoints == old(endpoints) + {descriptor.id}
    {
      hide Served, Enabled, Step;
      lease := fabric.RegisterResource(descriptor, now);
      RegistrationIsServed(old(fabric.View()), descriptor, lease.expiresAt, now);
      endpoints := endpoints + {lease.resource};
    }

    method ResolveInputs(ids: seq<ObjectId>) returns (resolved: bool)
      ensures resolved <==> forall i :: 0 <= i < |ids| ==> Resolvable(fabric.objects, endpoints, ids[i])
    {
      for k := 0 to |ids|
        invariant forall i :: 0 <= i < k ==> Resolvable(fabric.objects, endpoints, ids[i])
      {
        if !Resolvable(fabric.objects, endpoints, ids[k]) {
          return false;
        }
      }
      return true;
    }

    /**
     * Answers a worker asking for work: only its current incarnation may ask, every ready role is
     * materialised first, and a pending task is leased to it exactly if the scheduler chose this very
     * resource among the free ones; without such a task there is no work. A refused pipeline of any job
     * fails the request of every worker, and only a job whose pipelines are not all admissible can bring one up.
     * Planning reads the clock at `now`, the lease begins at `later`.
     */
    method PollWork(resource: ResourceId, epoch: nat, execution: ExecutionId, now: u64, later: u64)
      returns (result: Result<Option<ExecutionLease>, ApiError>, ghost before: State, ghost trace: seq<Action>)
      requires fabric.Valid() && execution !in fabric.issued && now <= later
      modifies fabric
      ensures fabric.Valid()
      ensures !IsActive(old(fabric.View()), resource, now) ==> result == Failure(NotFound) && fabric.View() == old(fabric.View())
      ensures IsActive(old(fabric.View()), resource, now) && old(fabric.resources)[resource].descriptor.epoch != epoch ==>
                result == Failure(Conflict) && fabric.View() == old(fabric.View())
      ensures Served(old(fabric.View()), Poll(fabric.PlannerAt(now), later), fabric.View(), now, later)
      ensures result.Success? ==> NoneRefused(trace) && NoneIdle(fabric.View(), trace)
      ensures match result
              case Success(Some(lease)) =>
                && lease.resource == resource && lease.epoch == epoch && lease.execution == execution
                && HandedOut(old(fabric.View()), before, fabric.View(), trace, lease, resource, execution, fabric.PlannerAt(now), later)
                && forall j :: j in fabric.jobs ==> FullyTried(fabric.jobs[j], j, trace)
              case Success(None) =>
                && Planned(old(fabric.View()), trace, fabric.View(), fabric.PlannerAt(now))
                && (forall j :: j in fabric.jobs ==> FullyTried(fabric.jobs[j], j, trace))
                && forall t :: t in fabric.tasks && fabric.tasks[t].status.Pending? ==>
                     MeantForOthers(fabric.View(), fabric.PlannerAt(now), fabric.tasks[t].spec, resource)
              case Failure(error) =>
                && Planned(old(fabric.View()), trace, fabric.View(), fabric.PlannerAt(now))
                && ((error == FromFabric(InvalidTask) && !NoneRefused(trace) && !AllAdmissible(old(fabric.jobs)))
                    || (error == FromFabric(ResourceNotActive(resource)) && !IsActive(fabric.View(), resource, later))
                    || !IsActive(old(fabric.View()), resource, now) || old(fabric.resources)[resource].descriptor.epoch != epoch
                    || (error == Conflict && exists t ::
                          && t in fabric.tasks && fabric.tasks[t].status.Pending?
                          && MeantFor(fabric.View(), fabric.PlannerAt(now), fabric.tasks[t].spec, resource)
                          && exists i :: 0 <= i < |fabric.tasks[t].spec.inputs|
                                         && !Resolvable(fabric.objects, endpoints, fabric.tasks[t].spec.inputs[i])))
    {
      hide Inv, ResourceFree, Resolvable, FullyTried, Decided, ScheduledAs, NoneRefused, AllAdmissible, Served, NoneIdle;
      before, trace := fabric.View(), [];
      var current := fabric.ResourceEpoch(resource, now);
      if current.None? {
        PlanIsServed(before, trace, fabric.View(), fabric.PlannerAt(now), later);
        return Failure(NotFound), before, trace;
      }
      if current.value != epoch {
        PlanIsServed(before, trace, fabric.View(), fabric.PlannerAt(now), later);
        return Failure(Conflict), before, trace;
      }
      var refreshed;
      refreshed, trace := fabric.RefreshReadyRoles(now);
      before := fabric.View();
      PlanIsServed(old(fabric.View()), trace, before, fabric.PlannerAt(now), later);
      if refreshed.Failure? {
        return Failure(FromFabric(refreshed.error)), before, trace;
      }
      var pending := set t | t in fabric.tasks && fabric.tasks[t].status.Pending?;
      while pending != {}
        invariant fabric.View() == before && fabric.Valid()
        invariant forall t :: t in pending ==> t in fabric.tasks && fabric.tasks[t].status.Pending?
        invariant forall t :: t in fabric.tasks && fabric.tasks[t].status.Pending? && t !in pending ==>
                    MeantForOthers(fabric.View(), fabric.PlannerAt(now), fabric.tasks[t].spec, resource)
        decreases |pending|
      {
        SomethingIn(pending);
        var task :| task in pending;
        pending := pending - {task};
        var decision := fabric.ScheduleTask(task, now);
        if decision.Success? && decision.value.resource == resource {
          var resolved := ResolveInputs(fabric.tasks[task].spec.inputs);
          if !resolved {
            return Failure(Conflict), before, trace;
          }
          var begun := fabric.BeginExecution(task, resource, execution, later);
          if begun.Failure? {
            return Failure(FromFabric(begun.error)), before, trace;
          }
          BeginKeepsJobs(before, task, resource, execution, begun.value.expiresAt, later);
          TriedJobsDoNotIdle(fabric.View(), trace);
          HandOutIsServed(old(fabric.View()), before, fabric.View(), trace, begun.value, resource, execution, fabric.PlannerAt(now), later);
          return Success(Some(begun.value)), before, trace;
        }
      }
      TriedJobsDoNotIdle(fabric.View(), trace);
      return Success(None), before, trace;
    }

    /** Drops lapsed members, then takes back lapsed executions. */
    method MaintenanceTick(now: u64) returns (ghost trace: seq<Action>)
      requires fabric.Valid()
      modifies this`endpoints, fabric
      ensures fabric.Valid() && Reaches(old(fabric.View()), trace, fabric.View())
      ensures Served(old(fabric.View()), Maintain(now), fabric.View(), now, now)
      ensures forall r :: r in fabric.resources ==> fabric.resources[r].expiresAt > now
      ensures forall t :: t in fabric.tasks ==> !Expired(fabric.tasks[t], now)
      ensures endpoints == old(endpoints) - (set r | r in old(fabric.resources) && old(fabric.resources)[r].expiresAt <= now)
      ensures forall j :: j in old(fabric.jobs) ==> j in fabric.jobs && QuietJob(old(fabric.jobs)[j], fabric.jobs[j])
    {
      hide Inv, Enabled, Step, QuietJob, Served;
      var expired;
      expired, trace := fabric.ExpireResources(now);
      endpoints := endpoints - expired;
      ghost var between := fabric.View();
      ghost var reaped: seq<Action>;
      var changed;
      changed, reaped := fabric.ReapExpiredExecutions(now);
      ReachesAll(old(fabric.View()), trace, between, reaped, fabric.View());
      trace := trace + reaped;
      TickIsServed(old(fabric.View()), fabric.View(), trace, now);
    }
  }

  lemma BeginKeepsJobs(s: State, task: TaskId, resource: ResourceId, execution: ExecutionId, expiresAt: u64, now: u64)
    requires CanBegin(s, task, resource, now) && execution !in s.issued
    ensures Step(s, Action.BeginExecution(task, resource, execution, expiresAt, now)).jobs == s.jobs
  {
  }

  lemma SomethingIn(tasks: set<TaskId>)
    requires tasks != {}
    ensures exists t :: t in tasks
  {
    var t :| t in tasks;
  }
}
