/** Sequences of coordinator requests are polled runs: no worker is ever given two tasks at once. */
module CoordinatorRuns {
  import opened Wrappers
  import opened Core
  import opened Scheduler
  import opened FabricModel
  import opened LeaseSafety
  import opened Progress
  import opened PlannerDecisions
  import opened Refusals
  import opened FabricTraces

  /** Asked about this task, the scheduler names exactly this resource. */
  ghost predicate MeantFor(s: State, planner: Planner, spec: TaskSpec, resource: ResourceId)
  {
    exists decision :: ScheduledAs(s, planner, spec, Result<PlacementDecision, FabricError>.Success(decision)) && decision.resource == resource
  }

  /** Asked about this task, the scheduler names another resource or none. */
  ghost predicate MeantForOthers(s: State, planner: Planner, spec: TaskSpec, resource: ResourceId)
  {
    exists result :: ScheduledAs(s, planner, spec, result) && (result.Success? ==> result.value.resource != resource)
  }

  /**
   * A hand-out: a pass led to `before`, where the resource was free and the task meant for it, and then
   * the task was begun, at a possibly later reading of the clock.
   */
  ghost predicate HandedOut(start: State, before: State, end: State, trace: seq<Action>, lease: ExecutionLease,
                            resource: ResourceId, execution: ExecutionId, planner: Planner, later: u64)
  {
    && Planned(start, trace, before, planner) && planner.now <= later
    && ResourceFree(before, resource, planner.now) && CanBegin(before, lease.task, resource, later)
    && MeantFor(before, planner, before.tasks[lease.task].spec, resource)
    && execution !in before.issued
    && lease == LeaseFor(before, lease.task, resource, execution, lease.expiresAt)
    && end == Step(before, Action.BeginExecution(lease.task, resource, execution, lease.expiresAt, later))
  }

  // ----- what handling a request can do -----

  datatype Request =
    | Poll(planner: Planner, later: u64)
    | Complete(lease: ExecutionLease, outputs: seq<ObjectMetadata>, planner: Planner)
    | Extend(lease: ExecutionLease, expiresAt: u64, now: u64)
    | Maintain(now: u64)
    | Accept(job: JobId, definition: JobDefinition, planner: Planner)
    | Change(action: Action)

  /** Members, links, objects and single tasks come and go in one step. */
  predicate IsChange(action: Action)
  {
    || action.RegisterResource? || action.HeartbeatResource? || action.DropResource? || action.SetLinks?
    || action.PublishObject? || action.AddLocation? || action.SubmitTask?
  }

  ghost predicate PollServed(s: State, t: State, planner: Planner, later: u64)
  {
    || (exists trace :: Planned(s, trace, t, planner))
    || exists before, trace, lease, resource, execution :: HandedOut(s, before, t, trace, lease, resource, execution, planner, later)
  }

  ghost predicate CommitServed(s: State, lease: ExecutionLease, outputs: seq<ObjectMetadata>, t: State, planner: Planner)
  {
    && Enabled(s, CommitExecution(lease, outputs, planner.now))
    && exists trace :: Planned(Commit(s, lease.task, outputs), trace, t, planner)
  }

  ghost predicate Maintained(s: State, t: State, trace: seq<Action>, now: u64)
  {
    Reaches(s, trace, t) && forall k :: 0 <= k < |trace| ==> trace[k].DropResource? || (trace[k].ReapExecution? && trace[k].now == now)
  }

  /** What the handlers promise, for readings of the clock between `from` and `to`; a failed check changes nothing. */
  ghost predicate Served(s: State, request: Request, t: State, from: u64, to: u64)
  {
    from <= to &&
    match request
    case Poll(planner, later) => from <= planner.now <= later <= to && PollServed(s, t, planner, later)
    case Complete(lease, outputs, planner) =>
      from <= planner.now <= to && (s == t || CommitServed(s, lease, outputs, t, planner))
    case Extend(lease, expiresAt, now) =>
      from <= now <= to && (s == t || (HoldsLease(s, lease, now) && t == Step(s, RenewExecution(lease, expiresAt, now))))
    case Maintain(now) => from <= now <= to && exists trace :: Maintained(s, t, trace, now)
    case Accept(job, definition, planner) =>
      s == t || (Enabled(s, SubmitJob(job, definition)) && exists trace :: Planned(Step(s, SubmitJob(job, definition)), trace, t, planner))
    case Change(action) => s == t || (IsChange(action) && Enabled(s, action) && t == Step(s, action))
  }

  lemma PlanIsServed(s: State, trace: seq<Action>, t: State, planner: Planner, later: u64)
    requires Planned(s, trace, t, planner) && planner.now <= later
    ensures Served(s, Poll(planner, later), t, planner.now, later)
  {
    hide Planned, HandedOut;
    assert PollServed(s, t, planner, later);
  }

  lemma HandOutIsServed(s: State, before: State, t: State, trace: seq<Action>, lease: ExecutionLease, resource: ResourceId,
                        execution: ExecutionId, planner: Planner, later: u64)
    requires HandedOut(s, before, t, trace, lease, resource, execution, planner, later)
    ensures Served(s, Poll(planner, later), t, planner.now, later)
  {
    HandOutIsLater(s, before, t, trace, lease, resource, execution, planner, later);
    hide Planned, HandedOut;
    assert PollServed(s, t, planner, later);
  }

  lemma HandOutIsLater(s: State, before: State, t: State, trace: seq<Action>, lease: ExecutionLease, resource: ResourceId,
                       execution: ExecutionId, planner: Planner, later: u64)
    requires HandedOut(s, before, t, trace, lease, resource, execution, planner, later)
    ensures planner.now <= later
  {
    hide Planned, Enabled, Step, MeantFor, ResourceFree;
  }

  lemma TickIsServed(s: State, t: State, trace: seq<Action>, now: u64)
    requires Maintained(s, t, trace, now)
    ensures Served(s, Maintain(now), t, now, now)
  {
    hide Maintained;
  }

  lemma RegistrationIsServed(s: State, descriptor: ResourceDescriptor, expiresAt: u64, now: u64)
    ensures var action := Action.RegisterResource(descriptor, expiresAt);
            Enabled(s, action) && Served(s, Change(action), Step(s, action), now, now)
  {
    hide Register;
  }

  /** A commit that took place, as `CompleteExecution` promises it. */
  lemma CommitIsServed(s: State, lease: ExecutionLease, outputs: seq<ObjectMetadata>, trace: seq<Action>, t: State,
                       result: Result<(), FabricError>, planner: Planner)
    requires Enabled(s, CommitExecution(lease, outputs, planner.now)) && Completes(s, lease.task, outputs, trace, t, result, planner)
    ensures Served(s, Complete(lease, outputs, planner), t, planner.now, planner.now)
  {
    hide Planned, PassResult, Unstuck, Enabled;
    CommitCanBe(s, lease, outputs, planner.now);
    assert CommitServed(s, lease, outputs, t, planner);
  }

  lemma CommitCanBe(s: State, lease: ExecutionLease, outputs: seq<ObjectMetadata>, now: u64)
    requires Enabled(s, CommitExecution(lease, outputs, now))
    ensures lease.task in s.tasks && Bound(s, lease.task)
    ensures Step(s, CommitExecution(lease, outputs, now)) == Commit(s, lease.task, outputs)
  {
    hide CanPublish, ConsistentOutputs, Commit;
  }

  // ----- steps with readings of the clock -----

  function Later(clock: u64, action: Action): u64
  {
    if NowOf(action).Some? && NowOf(action).value > clock then NowOf(action).value else clock
  }

  /** The readings in the trace never go back, and work is handed out to free resources only. */
  ghost predicate Timed(s: State, trace: seq<Action>, t: State, from: u64, to: u64)
    decreases |trace|
  {
    if trace == [] then s == t && from <= to
    else
      && Enabled(s, trace[0]) && TimelyStep(s, trace[0], from)
      && Timed(Step(s, trace[0]), trace[1..], t, Later(from, trace[0]), to)
  }

  ghost predicate TimelyStep(s: State, action: Action, from: u64)
  {
    && (NowOf(action).Some? ==> from <= NowOf(action).value)
    && (action.BeginExecution? ==> ResourceFree(s, action.resource, action.now))
  }

  lemma {:induction false} StartsSooner(s: State, trace: seq<Action>, t: State, sooner: u64, from: u64, to: u64)
    requires Timed(s, trace, t, from, to) && sooner <= from
    ensures Timed(s, trace, t, sooner, to)
    decreases |trace|
  {
    hide Enabled, Step, ResourceFree;
    if trace != [] {
      StartsSooner(Step(s, trace[0]), trace[1..], t, Later(sooner, trace[0]), Later(from, trace[0]), to);
    }
  }

  lemma {:induction false} TimedThen(s: State, trace: seq<Action>, t: State, more: seq<Action>, u: State, from: u64, between: u64, to: u64)
    requires Timed(s, trace, t, from, between) && Timed(t, more, u, between, to)
    ensures Timed(s, trace + more, u, from, to)
    decreases |trace|
  {
    hide Enabled, Step, TimelyStep;
    if trace == [] {
      assert trace + more == more;
      StartsSooner(s, more, u, from, between, to);
    } else {
      assert (trace + more)[1..] == trace[1..] + more;
      TimedThen(Step(s, trace[0]), trace[1..], t, more, u, Later(from, trace[0]), between, to);
    }
  }

  /** A pass takes no lease, so it may happen at any time. */
  lemma {:induction false} PlannedIsTimed(s: State, trace: seq<Action>, t: State, planner: Planner, from: u64, to: u64)
    requires Planned(s, trace, t, planner) && from <= to
    ensures Timed(s, trace, t, from, to)
    decreases |trace|
  {
    hide Enabled, Step, RoleDecided, LevelDecided;
    if trace != [] {
      PlannedIsTimed(Step(s, trace[0]), trace[1..], t, planner, from, to);
    }
  }

  lemma {:induction false} MaintainedIsTimed(s: State, trace: seq<Action>, t: State, now: u64)
    requires Maintained(s, t, trace, now)
    ensures Timed(s, trace, t, now, now)
    decreases |trace|
  {
    hide Enabled, Step;
    if trace != [] {
      forall k | 0 <= k < |trace| - 1
        ensures trace[1..][k].DropResource? || (trace[1..][k].ReapExecution? && trace[1..][k].now == now)
      {
        assert trace[1..][k] == trace[k + 1];
      }
      MaintainedIsTimed(Step(s, trace[0]), trace[1..], t, now);
    }
  }

  lemma OneTimed(s: State, action: Action, t: State, now: u64)
    requires Enabled(s, action) && TimelyStep(s, action, now) && t == Step(s, action)
    requires NowOf(action).Some? ==> NowOf(action).value == now
    ensures Timed(s, [action], t, now, now)
  {
    hide Enabled, Step, TimelyStep;
    assert [action][1..] == [];
    assert Timed(t, [], t, Later(now, action), now);
  }

  lemma Widen(s: State, trace: seq<Action>, t: State, from: u64, a: u64, b: u64, to: u64)
    requires Timed(s, trace, t, a, b) && from <= a && b <= to
    ensures Timed(s, trace, t, from, to)
  {
    hide Enabled, Step, TimelyStep;
    StartsSooner(s, trace, t, from, a, b);
    EndsLater(s, trace, t, from, b, to);
  }

  lemma {:induction false} EndsLater(s: State, trace: seq<Action>, t: State, from: u64, b: u64, to: u64)
    requires Timed(s, trace, t, from, b) && b <= to
    ensures Timed(s, trace, t, from, to)
    decreases |trace|
  {
    hide Enabled, Step, TimelyStep;
    if trace != [] { EndsLater(Step(s, trace[0]), trace[1..], t, Later(from, trace[0]), b, to); }
  }

  // ----- requests -----

  lemma HandOutIsTimed(s: State, before: State, t: State, trace: seq<Action>, lease: ExecutionLease, resource: ResourceId,
                       execution: ExecutionId, planner: Planner, later: u64) returns (all: seq<Action>)
    requires HandedOut(s, before, t, trace, lease, resource, execution, planner, later)
    ensures Timed(s, all, t, planner.now, later)
  {
    hide Planned, Timed, MeantFor;
    var action := Action.BeginExecution(lease.task, resource, execution, lease.expiresAt, later);
    PlannedIsTimed(s, trace, before, planner, planner.now, later);
    OneTimed(before, action, t, later);
    all := trace + [action];
    TimedThen(s, trace, before, [action], t, planner.now, later, later);
  }

  lemma CommitIsTimed(s: State, lease: ExecutionLease, outputs: seq<ObjectMetadata>, t: State, planner: Planner) returns (all: seq<Action>)
    requires CommitServed(s, lease, outputs, t, planner)
    ensures Timed(s, all, t, planner.now, planner.now)
  {
    hide Planned, Timed, Enabled, Commit;
    var action := CommitExecution(lease, outputs, planner.now);
    CommitCanBe(s, lease, outputs, planner.now);
    var trace :| Planned(Commit(s, lease.task, outputs), trace, t, planner);
    OneTimed(s, action, Commit(s, lease.task, outputs), planner.now);
    PlannedIsTimed(Commit(s, lease.task, outputs), trace, t, planner, planner.now, planner.now);
    all := [action] + trace;
    TimedThen(s, [action], Commit(s, lease.task, outputs), trace, t, planner.now, planner.now, planner.now);
  }

  lemma AcceptIsTimed(s: State, action: Action, t: State, planner: Planner, trace: seq<Action>, now: u64) returns (all: seq<Action>)
    requires action.SubmitJob? && Enabled(s, action) && Planned(Step(s, action), trace, t, planner)
    ensures Timed(s, all, t, now, now)
  {
    hide Planned, Timed, Enabled, Step;
    OneTimed(s, action, Step(s, action), now);
    PlannedIsTimed(Step(s, action), trace, t, planner, now, now);
    all := [action] + trace;
    TimedThen(s, [action], Step(s, action), trace, t, now, now, now);
  }

  lemma ChangeIsTimed(s: State, action: Action, t: State, now: u64)
    requires IsChange(action) && Enabled(s, action) && t == Step(s, action)
    ensures Timed(s, [action], t, now, now)
  {
    hide Enabled, Step, Timed;
    OneTimed(s, action, t, now);
  }

  lemma RenewalIsTimed(s: State, lease: ExecutionLease, expiresAt: u64, t: State, now: u64)
    requires HoldsLease(s, lease, now) && t == Step(s, RenewExecution(lease, expiresAt, now))
    ensures Timed(s, [RenewExecution(lease, expiresAt, now)], t, now, now)
  {
    hide Timed, Step, HoldsLease;
    OneTimed(s, RenewExecution(lease, expiresAt, now), t, now);
  }

  lemma UnchangedIsTimed(s: State, from: u64, to: u64)
    requires from <= to
    ensures Timed(s, [], s, from, to)
  {
  }

  /** However a request is served, the steps taken are timely. */
  lemma RequestIsTimed(s: State, request: Request, t: State, from: u64, to: u64) returns (trace: seq<Action>)
    requires Served(s, request, t, from, to)
    ensures Timed(s, trace, t, from, to)
  {
    hide Planned, Timed, Enabled, Step, HandedOut, CommitServed, Maintained, HoldsLease;
    if s == t {
      UnchangedIsTimed(s, from, to);
      return [];
    }
    match request {
      case Poll(planner, later) =>
        if plan :| Planned(s, plan, t, planner) {
          PlannedIsTimed(s, plan, t, planner, from, to);
          return plan;
        }
        var before, plan, lease, resource, execution :| HandedOut(s, before, t, plan, lease, resource, execution, planner, later);
        trace := HandOutIsTimed(s, before, t, plan, lease, resource, execution, planner, later);
        Widen(s, trace, t, from, planner.now, later, to);
      case Complete(lease, outputs, planner) =>
        trace := CommitIsTimed(s, lease, outputs, t, planner);
        Widen(s, trace, t, from, planner.now, planner.now, to);
      case Extend(lease, expiresAt, now) =>
        RenewalIsTimed(s, lease, expiresAt, t, now);
        trace := [RenewExecution(lease, expiresAt, now)];
        Widen(s, trace, t, from, now, now, to);
      case Maintain(now) =>
        trace :| Maintained(s, t, trace, now);
        MaintainedIsTimed(s, trace, t, now);
        Widen(s, trace, t, from, now, now, to);
      case Accept(job, definition, planner) =>
        var plan :| Planned(Step(s, SubmitJob(job, definition)), plan, t, planner);
        trace := AcceptIsTimed(s, SubmitJob(job, definition), t, planner, plan, from);
        Widen(s, trace, t, from, from, from, to);
      case Change(action) =>
        ChangeIsTimed(s, action, t, from);
        trace := [action];
        Widen(s, trace, t, from, from, from, to);
    }
  }

  // ----- histories -----

  /** Requests served one after the other from an empty fabric, under a clock that never goes back. */
  ghost predicate History(states: seq<State>, requests: seq<Request>, clocks: seq<u64>)
  {
    && |states| == |clocks| == |requests| + 1 && states[0] == EmptyState()
    && forall i :: 0 <= i < |requests| ==> Served(states[i], requests[i], states[i + 1], clocks[i], clocks[i + 1])
  }

  lemma {:induction false} HistoryIsTimed(states: seq<State>, requests: seq<Request>, clocks: seq<u64>, n: nat)
    returns (trace: seq<Action>)
    requires History(states, requests, clocks) && n < |states|
    ensures Timed(EmptyState(), trace, states[n], clocks[0], clocks[n])
  {
    hide Timed, Served;
    if n == 0 {
      UnchangedIsTimed(EmptyState(), clocks[0], clocks[0]);
      return [];
    }
    var earlier := HistoryIsTimed(states, requests, clocks, n - 1);
    assert Served(states[n - 1], requests[n - 1], states[n - 1 + 1], clocks[n - 1], clocks[n - 1 + 1]);
    var last := RequestIsTimed(states[n - 1], requests[n - 1], states[n], clocks[n - 1], clocks[n]);
    TimedThen(EmptyState(), earlier, states[n - 1], last, states[n], clocks[0], clocks[n - 1], clocks[n]);
    return earlier + last;
  }

  /** A timely trace continues a timed run. */
  lemma {:induction false} ContinueRun(states: seq<State>, actions: seq<Action>, clocks: seq<u64>, trace: seq<Action>, t: State, to: u64)
    returns (states': seq<State>, actions': seq<Action>, clocks': seq<u64>)
    requires IsTimedRun(states, actions, clocks) && Timed(states[|states| - 1], trace, t, clocks[|clocks| - 1], to)
    ensures IsTimedRun(states', actions', clocks') && actions' == actions + trace
    ensures states'[|states'| - 1] == t && clocks'[|clocks'| - 1] <= to
    decreases |trace|
  {
    hide Enabled, Step, ResourceFree;
    if trace == [] {
      assert actions + trace == actions;
      return states, actions, clocks;
    }
    var s, clock := states[|states| - 1], clocks[|clocks| - 1];
    OneStepMore(states, actions, clocks, trace[0]);
    assert actions + trace == actions + [trace[0]] + trace[1..];
    states', actions', clocks' := ContinueRun(states + [Step(s, trace[0])], actions + [trace[0]], clocks + [Later(clock, trace[0])], trace[1..], t, to);
  }

  lemma OneStepMore(states: seq<State>, actions: seq<Action>, clocks: seq<u64>, action: Action)
    requires IsTimedRun(states, actions, clocks)
    requires Enabled(states[|states| - 1], action) && TimelyStep(states[|states| - 1], action, clocks[|clocks| - 1])
    ensures IsTimedRun(states + [Step(states[|states| - 1], action)], actions + [action], clocks + [Later(clocks[|clocks| - 1], action)])
  {
    hide Enabled, Step, ResourceFree;
    var n := |actions|;
    var states', actions', clocks' :=
      states + [Step(states[n], action)], actions + [action], clocks + [Later(clocks[n], action)];
    assert |states| - 1 == n && |clocks| - 1 == n && states'[0] == states[0];
    forall i | 0 <= i < |actions'|
      ensures Enabled(states'[i], actions'[i]) && states'[i + 1] == Step(states'[i], actions'[i])
      ensures Timely(states'[i], actions'[i], clocks'[i], clocks'[i + 1])
    {
      if i < n {
        assert states'[i] == states[i] && states'[i + 1] == states[i + 1] && actions'[i] == actions[i];
        assert clocks'[i] == clocks[i] && clocks'[i + 1] == clocks[i + 1];
        assert Timely(states[i], actions[i], clocks[i], clocks[i + 1]);
      }
    }
  }

  /** Every history of requests is a timed run of the fabric that ends in the same state. */
  lemma HistoryIsTimedRun(states: seq<State>, requests: seq<Request>, clocks: seq<u64>, n: nat)
    returns (run: seq<State>, actions: seq<Action>, readings: seq<u64>)
    requires History(states, requests, clocks) && n < |states|
    ensures IsTimedRun(run, actions, readings) && run[|run| - 1] == states[n] && readings[|readings| - 1] <= clocks[n]
  {
    hide Enabled, Step, Timed, Served;
    var trace := HistoryIsTimed(states, requests, clocks, n);
    run, actions, readings := ContinueRun([EmptyState()], [], [clocks[0]], trace, states[n], clocks[n]);
  }

  /** In every history of requests, each resource has at most one unexpired execution at any time. */
  lemma RequestsKeepResourcesExclusive(states: seq<State>, requests: seq<Request>, clocks: seq<u64>, n: nat, now: u64, t: TaskId, u: TaskId)
    requires History(states, requests, clocks) && n < |states| && clocks[n] <= now
    requires t in states[n].tasks && u in states[n].tasks
    requires states[n].tasks[t].status.Running? && states[n].tasks[t].status.lease.expiresAt > now
    requires states[n].tasks[u].status.Running? && states[n].tasks[u].status.lease.expiresAt > now
    requires states[n].tasks[t].status.lease.resource == states[n].tasks[u].status.lease.resource
    ensures t == u
  {
    hide History, IsTimedRun;
    var run, actions, readings := HistoryIsTimedRun(states, requests, clocks, n);
    RunLengths(run, actions, readings);
    ResourcesAreExclusive(run, actions, readings, |run| - 1, now, t, u);
  }

  lemma RunLengths(run: seq<State>, actions: seq<Action>, readings: seq<u64>)
    requires IsTimedRun(run, actions, readings)
    ensures |run| == |readings| == |actions| + 1
  {
  }
}
