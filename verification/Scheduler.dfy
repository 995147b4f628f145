/** The placement cost model and the argmin over resources, with costs as non-negative reals. */
module Scheduler {
  import opened Wrappers
  import opened Core

  datatype PlacementBreakdown = PlacementBreakdown(
    computeMs: real, inputTransferMs: real, queueMs: real, startupMs: real, riskPenaltyMs: real, totalMs: real)

  datatype PlacementDecision = PlacementDecision(resource: ResourceId, cost: PlacementBreakdown)

  datatype ScheduleError = MissingObject(id: ObjectId) | NoCandidate

  /** The scheduler's setting and its view of the fabric at one instant. */
  datatype Context = Context(
    riskMultiplier: real, resources: seq<ResourceDescriptor>, objects: Objects, topology: Topology)

  function Max(a: real, b: real): real { if a >= b then a else b }

  function Clamp01(p: real): real { if p < 0.0 then 0.0 else if p > 1.0 then 1.0 else p }

  // ----- input transfers -----

  /** The cheapest transfer from any replica that can reach `destination`. */
  function BestTransfer(topology: Topology, locations: seq<ResourceId>, destination: ResourceId, bytes: u64)
    : (r: Option<real>)
    ensures r.Some? ==> r.value >= 0.0
    ensures r.Some? ==> forall i :: 0 <= i < |locations| ==>
              var t := TransferTimeMs(topology, locations[i], destination, bytes);
              t.Some? ==> r.value <= t.value
    ensures r.Some? ==> exists i :: (0 <= i < |locations| &&
              TransferTimeMs(topology, locations[i], destination, bytes) == r)
    ensures r.None? ==> forall i :: 0 <= i < |locations| ==>
              TransferTimeMs(topology, locations[i], destination, bytes).None?
  {
    if locations == [] then None
    else
      var n := |locations| - 1;
      var best := BestTransfer(topology, locations[..n], destination, bytes);
      var last := TransferTimeMs(topology, locations[n], destination, bytes);
      if best.Some? && (last.None? || best.value <= last.value) then best else last
  }

  /** The bytes of input `index` that must reach a resource without a replica; `None` if out of range. */
  function TransferBytes(task: TaskSpec, index: nat, size: u64): Option<u64>
  {
    match task.InputByteRange(index)
    case None => Some(size)
    case Some((offset, length)) => if offset + length > size then None else Some(length)
  }

  function InputTransferMs(task: TaskSpec, index: nat, resource: ResourceId, objects: Objects, topology: Topology)
    : (r: Option<real>)
    requires index < |task.inputs| && task.inputs[index] in objects
    ensures r.Some? ==> r.value >= 0.0
  {
    var input := objects[task.inputs[index]];
    if resource in input.locations then Some(0.0)
    else
      match TransferBytes(task, index, input.sizeBytes)
      case None => None
      case Some(bytes) =>
        if bytes == 0 then Some(0.0) else BestTransfer(topology, input.locations, resource, bytes)
  }

  predicate InputsKnown(task: TaskSpec, objects: Objects)
  {
    forall i :: 0 <= i < |task.inputs| ==> task.inputs[i] in objects
  }

  /** Transfers of the first `count` inputs; one unreachable input makes the placement infeasible. */
  function TotalTransferMs(task: TaskSpec, count: nat, resource: ResourceId, objects: Objects, topology: Topology)
    : (r: Option<real>)
    requires count <= |task.inputs| && InputsKnown(task, objects)
    ensures r.Some? ==> r.value >= 0.0
  {
    if count == 0 then Some(0.0)
    else
      match TotalTransferMs(task, count - 1, resource, objects, topology)
      case None => None
      case Some(sofar) =>
        match InputTransferMs(task, count - 1, resource, objects, topology)
        case None => None
        case Some(ms) => Some(sofar + ms)
  }

  lemma {:induction false} TransferFailurePersists(task: TaskSpec, count: nat, later: nat, resource: ResourceId,
                                                   objects: Objects, topology: Topology)
    requires count <= later <= |task.inputs| && InputsKnown(task, objects)
    requires TotalTransferMs(task, count, resource, objects, topology).None?
    ensures TotalTransferMs(task, later, resource, objects, topology).None?
    decreases later
  {
    if count < later { TransferFailurePersists(task, count, later - 1, resource, objects, topology); }
  }

  // ----- scoring -----

  function Breakdown(referenceMs: real, resource: ResourceDescriptor, transferMs: real, riskMultiplier: real)
    : PlacementBreakdown
    requires resource.performanceScore > 0.0
  {
    var compute := referenceMs / resource.performanceScore;
    var queue, startup := Max(resource.queueDelayMs, 0.0), Max(resource.startupDelayMs, 0.0);
    var risk := compute * Clamp01(resource.failureProbability) * riskMultiplier;
    PlacementBreakdown(compute, transferMs, queue, startup, risk, compute + transferMs + queue + startup + risk)
  }

  function Score(task: TaskSpec, resource: ResourceDescriptor, context: Context): Option<PlacementBreakdown>
    requires resource.performanceScore > 0.0 && InputsKnown(task, context.objects)
  {
    match TotalTransferMs(task, |task.inputs|, resource.id, context.objects, context.topology)
    case None => None
    case Some(transferMs) => Some(Breakdown(task.cost.computeMs, resource, transferMs, context.riskMultiplier))
  }

  method ScoreCandidate(task: TaskSpec, resource: ResourceDescriptor, context: Context)
    returns (cost: Option<PlacementBreakdown>)
    requires resource.performanceScore > 0.0 && InputsKnown(task, context.objects)
    ensures cost == Score(task, resource, context)
  {
    var inputTransferMs := 0.0;
    for k := 0 to |task.inputs|
      invariant TotalTransferMs(task, k, resource.id, context.objects, context.topology) == Some(inputTransferMs)
    {
      var ms := InputTransferMs(task, k, resource.id, context.objects, context.topology);
      if ms.None? {
        TransferFailurePersists(task, k + 1, |task.inputs|, resource.id, context.objects, context.topology);
        return None;
      }
      inputTransferMs := inputTransferMs + ms.value;
    }
    return Some(Breakdown(task.cost.computeMs, resource, inputTransferMs, context.riskMultiplier));
  }

  // ----- choosing -----

  /** What running `task` on `resource` would cost; `None` when it cannot run there. */
  function PlacementCost(task: TaskSpec, resource: ResourceDescriptor, context: Context): Option<PlacementBreakdown>
  {
    if InputsKnown(task, context.objects) && resource.Supports(task.requirements)
    then Score(task, resource, context) else None
  }

  predicate NothingRuns(task: TaskSpec, context: Context)
  {
    forall r :: 0 <= r < |context.resources| ==> PlacementCost(task, context.resources[r], context).None?
  }

  predicate NonNegativeCosts(task: TaskSpec, context: Context)
  {
    task.cost.computeMs >= 0.0 && context.riskMultiplier >= 0.0
  }

  lemma CostsAreNonNegative(task: TaskSpec, resource: ResourceDescriptor, context: Context)
    requires NonNegativeCosts(task, context) && PlacementCost(task, resource, context).Some?
    ensures PlacementCost(task, resource, context).value.totalMs >= 0.0
  {
    var compute := task.cost.computeMs / resource.performanceScore;
    var p := Clamp01(resource.failureProbability);
    assert compute >= 0.0;
    assert compute * p >= 0.0;
    assert compute * p * context.riskMultiplier >= 0.0;
  }

  function FirstMissing(inputs: seq<ObjectId>, objects: Objects): Option<ObjectId>
  {
    if inputs == [] then None
    else if inputs[0] !in objects then Some(inputs[0])
    else FirstMissing(inputs[1..], objects)
  }

  /** The first cheapest resource among the first `count`. */
  function CheapestOf(task: TaskSpec, context: Context, count: nat): (r: Option<PlacementDecision>)
    requires count <= |context.resources|
    ensures r.None? ==> forall i :: 0 <= i < count ==> PlacementCost(task, context.resources[i], context).None?
    ensures r.Some? ==> exists i :: 0 <= i < count && context.resources[i].id == r.value.resource
                                    && PlacementCost(task, context.resources[i], context) == Some(r.value.cost)
    ensures r.Some? ==> forall i :: 0 <= i < count ==>
              var cost := PlacementCost(task, context.resources[i], context);
              cost.Some? ==> r.value.cost.totalMs <= cost.value.totalMs
  {
    if count == 0 then None
    else
      var best := CheapestOf(task, context, count - 1);
      var last := PlacementCost(task, context.resources[count - 1], context);
      if last.Some? && (best.None? || last.value.totalMs < best.value.cost.totalMs)
      then Some(PlacementDecision(context.resources[count - 1].id, last.value)) else best
  }

  function Choose(task: TaskSpec, context: Context): (r: Result<PlacementDecision, ScheduleError>)
    ensures r.Success? ==> InputsKnown(task, context.objects)
    ensures r.Success? <==> exists i :: 0 <= i < |context.resources| && PlacementCost(task, context.resources[i], context).Some?
    ensures r.Success? ==> exists i :: 0 <= i < |context.resources| && context.resources[i].id == r.value.resource
                                       && PlacementCost(task, context.resources[i], context) == Some(r.value.cost)
    ensures r.Success? ==> forall i :: 0 <= i < |context.resources| ==>
              var cost := PlacementCost(task, context.resources[i], context);
              cost.Some? ==> r.value.cost.totalMs <= cost.value.totalMs
  {
    match FirstMissing(task.inputs, context.objects)
    case Some(id) =>
      MissingIsUnknown(task.inputs, context.objects);
      Failure(MissingObject(id))
    case None =>
      MissingIsUnknown(task.inputs, context.objects);
      match CheapestOf(task, context, |context.resources|)
      case None => Failure(NoCandidate)
      case Some(decision) => Success(decision)
  }

  lemma {:induction false} MissingIsUnknown(inputs: seq<ObjectId>, objects: Objects)
    ensures FirstMissing(inputs, objects).None? <==> forall i :: 0 <= i < |inputs| ==> inputs[i] in objects
  {
    if inputs == [] {
    } else if inputs[0] !in objects {
      assert FirstMissing(inputs, objects) == Some(inputs[0]);
    } else {
      MissingIsUnknown(inputs[1..], objects);
      forall i | 1 <= i < |inputs| ensures inputs[i] == inputs[1..][i - 1] {}
      assert FirstMissing(inputs, objects) == FirstMissing(inputs[1..], objects);
      if FirstMissing(inputs[1..], objects).Some? {
        var i :| 0 <= i < |inputs[1..]| && inputs[1..][i] !in objects;
        assert inputs[i + 1] !in objects;
      }
    }
  }

  /** The placement cost ignores the task's identity and everything the cost model does not read. */
  lemma SameShapeSameCost(a: TaskSpec, b: TaskSpec, resource: ResourceDescriptor, context: Context)
    requires a.inputs == b.inputs && a.requirements == b.requirements && a.cost == b.cost
    requires forall i :: 0 <= i < |a.inputs| ==> a.InputByteRange(i) == b.InputByteRange(i)
    ensures PlacementCost(a, resource, context) == PlacementCost(b, resource, context)
  {
    assert InputsKnown(a, context.objects) <==> InputsKnown(b, context.objects);
    if InputsKnown(a, context.objects) && resource.Supports(a.requirements) {
      SameTransfers(a, b, |a.inputs|, resource.id, context);
      assert Score(a, resource, context) == Score(b, resource, context);
    } else {
      assert PlacementCost(a, resource, context).None?;
      assert PlacementCost(b, resource, context).None?;
    }
  }

  lemma {:induction false} SameTransfers(a: TaskSpec, b: TaskSpec, count: nat, resource: ResourceId, context: Context)
    requires count <= |a.inputs| && a.inputs == b.inputs && InputsKnown(a, context.objects)
    requires forall i :: 0 <= i < |a.inputs| ==> a.InputByteRange(i) == b.InputByteRange(i)
    ensures TotalTransferMs(a, count, resource, context.objects, context.topology)
            == TotalTransferMs(b, count, resource, context.objects, context.topology)
  {
    if count > 0 {
      SameTransfers(a, b, count - 1, resource, context);
      assert a.InputByteRange(count - 1) == b.InputByteRange(count - 1);
    }
  }
}
