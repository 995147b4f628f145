/** Placing one reduction level: groups of the current inputs, each reduced by one task or carried. */
module ReductionPlanning {
  import opened Wrappers
  import opened Core
  import opened Sequences
  import opened Scheduler
  import opened Sharding
  import opened ReductionTree

  datatype LevelItem =
    | Carry(id: ObjectId)
    | Reduce(task: TaskSpec, resource: ResourceId, startMs: real, cost: PlacementBreakdown)
  {
    function FinishMs(): real
      requires Reduce?
    {
      startMs + cost.totalMs
    }
  }

  /** The item made for one group: singletons are carried, larger groups get a reducer task. */
  ghost predicate ItemFor(reduction: RoleReductionSpec, group: seq<ObjectId>, id: TaskId, item: LevelItem)
  {
    if |group| == 1 then item == Carry(group[0])
    else item.Reduce? && item.task == reduction.task.Instantiate(id, group)
  }

  /** The items follow the groups in order; the task for group `g` carries the id `firstId + g`. */
  ghost predicate LevelOf(reduction: RoleReductionSpec, inputs: seq<ObjectId>, firstId: TaskId,
                          items: seq<LevelItem>, groups: seq<seq<ObjectId>>)
  {
    && |items| == |groups|
    && Grouping(groups, inputs, reduction.maxFanIn)
    && forall g :: 0 <= g < |groups| ==> ItemFor(reduction, groups[g], firstId + g, items[g])
  }

  predicate HasReduce(items: seq<LevelItem>)
  {
    exists g :: 0 <= g < |items| && items[g].Reduce?
  }

  function AvailabilityAfterItems(availability: Availability, items: seq<LevelItem>): Availability
  {
    if items == [] then availability
    else
      var n := |items| - 1;
      var before := AvailabilityAfterItems(availability, items[..n]);
      if items[n].Carry? then before else before[items[n].resource := items[n].FinishMs()]
  }

  ghost predicate ReducerPick(readyMs: real, availability: Availability, context: Context, item: LevelItem, r: nat)
    requires item.Reduce?
  {
    && EarliestPick([item.task], readyMs, availability, context, Pick(0, r, item.startMs, item.cost))
    && context.resources[r].id == item.resource
  }

  /** Each reducer is the earliest pick given the ones placed before it. */
  ghost predicate PlacedItem(readyMs: real, availability: Availability, context: Context, items: seq<LevelItem>, g: nat)
    requires g < |items|
  {
    items[g].Reduce? ==>
      exists r: nat :: ReducerPick(readyMs, AvailabilityAfterItems(availability, items[..g]), context, items[g], r)
  }

  method PlaceReducer(task: TaskSpec, readyMs: real, availability: Availability, context: Context)
    returns (item: Option<LevelItem>)
    ensures item.Some? ==>
              && item.value.Reduce? && item.value.task == task
              && exists r: nat :: ReducerPick(readyMs, availability, context, item.value, r)
    ensures item.None? <==> NothingRuns(task, context)
  {
    hide PlacementCost;
    var best := PickEarliest([task], readyMs, availability, context);
    if best.None? {
      NoPickNothingRuns([task], readyMs, availability, context);
      assert [task][0] == task;
      return None;
    }
    var pick := best.value;
    assert pick == Pick(0, pick.resource, pick.startMs, pick.cost);
    var placed := Reduce(task, context.resources[pick.resource].id, pick.startMs, pick.cost);
    assert ReducerPick(readyMs, availability, context, placed, pick.resource);
    return Some(placed);
  }

  ghost predicate AllPlaced(readyMs: real, availability: Availability, context: Context, items: seq<LevelItem>)
  {
    forall g :: 0 <= g < |items| ==> PlacedItem(readyMs, availability, context, items, g)
  }

  /** The group needs a reducer, and no resource can run it. */
  ghost predicate GroupStuck(reduction: RoleReductionSpec, groups: seq<seq<ObjectId>>, firstId: TaskId, context: Context, g: nat)
  {
    g < |groups| && |groups[g]| != 1 && NothingRuns(reduction.task.Instantiate(firstId + g, groups[g]), context)
  }

  method PlaceGroups(reduction: RoleReductionSpec, inputs: seq<ObjectId>, groups: seq<seq<ObjectId>>, readyMs: real,
                     availability: Availability, context: Context, firstId: TaskId)
    returns (items: Option<seq<LevelItem>>, after: Availability)
    requires Grouping(groups, inputs, reduction.maxFanIn)
    ensures items.Some? ==>
              && LevelOf(reduction, inputs, firstId, items.value, groups)
              && after == AvailabilityAfterItems(availability, items.value)
              && AllPlaced(readyMs, availability, context, items.value)
    ensures items.None? <==> exists g: nat :: GroupStuck(reduction, groups, firstId, context, g)
  {
    hide NothingRuns, ReducerPick;
    var placed: seq<LevelItem> := [];
    after := availability;
    for g := 0 to |groups|
      invariant |placed| == g && after == AvailabilityAfterItems(availability, placed)
      invariant forall i :: 0 <= i < g ==> ItemFor(reduction, groups[i], firstId + i, placed[i])
      invariant AllPlaced(readyMs, availability, context, placed)
      invariant forall i: nat :: i < g ==> !GroupStuck(reduction, groups, firstId, context, i)
    {
      var item;
      if |groups[g]| == 1 {
        item := Carry(groups[g][0]);
      } else {
        var reducer := PlaceReducer(reduction.task.Instantiate(firstId + g, groups[g]), readyMs, after, context);
        if reducer.None? {
          assert GroupStuck(reduction, groups, firstId, context, g);
          return None, after;
        }
        item := reducer.value;
      }
      PlacedExtends(readyMs, availability, context, placed, item);
      placed := placed + [item];
      if item.Reduce? {
        after := after[item.resource := item.FinishMs()];
      }
    }
    return Some(placed), after;
  }

  lemma PlacedExtends(readyMs: real, availability: Availability, context: Context, placed: seq<LevelItem>, item: LevelItem)
    requires AllPlaced(readyMs, availability, context, placed)
    requires item.Reduce? ==>
               exists r: nat :: ReducerPick(readyMs, AvailabilityAfterItems(availability, placed), context, item, r)
    ensures AllPlaced(readyMs, availability, context, placed + [item])
    ensures (placed + [item])[..|placed|] == placed
  {
    forall i | 0 <= i < |placed| ensures PlacedItem(readyMs, availability, context, placed + [item], i) {
      assert (placed + [item])[..i] == placed[..i] && (placed + [item])[i] == placed[i];
      assert PlacedItem(readyMs, availability, context, placed, i);
    }
  }

  /** The level was grouped by locality, or in chunks where locality reduces nothing. */
  ghost predicate WellGrouped(reduction: RoleReductionSpec, inputs: seq<ObjectId>, context: Context, groups: seq<seq<ObjectId>>)
  {
    && Grouping(groups, inputs, reduction.maxFanIn)
    && (|| (AnyGroupReduces(groups)
            && GreedyLocal(groups, reduction.maxFanIn, reduction.localityRttMs, context.objects, context.topology))
        || Chunks(groups, reduction.maxFanIn))
  }

  /** The groups' reducers, numbered from `first` on, placed greedily; nothing if one runs nowhere. */
  ghost predicate GroupsPlaced(reduction: RoleReductionSpec, inputs: seq<ObjectId>, readyMs: real, availability: Availability,
                               context: Context, items: Option<seq<LevelItem>>, firstId: TaskId, groups: seq<seq<ObjectId>>)
  {
    match items
    case Some(placed) =>
      LevelOf(reduction, inputs, firstId, placed, groups) && AllPlaced(readyMs, availability, context, placed) && HasReduce(placed)
    case None => exists g: nat :: GroupStuck(reduction, groups, firstId, context, g)
  }

  ghost predicate LevelChosen(reduction: RoleReductionSpec, inputs: seq<ObjectId>, readyMs: real, availability: Availability,
                              context: Context, items: Option<seq<LevelItem>>)
  {
    exists firstId, groups ::
      && WellGrouped(reduction, inputs, context, groups)
      && GroupsPlaced(reduction, inputs, readyMs, availability, context, items, firstId, groups)
  }

  lemma GroupedWell(reduction: RoleReductionSpec, inputs: seq<ObjectId>, context: Context, groups: seq<seq<ObjectId>>)
    requires Grouping(groups, inputs, reduction.maxFanIn)
    requires || (AnyGroupReduces(groups)
                 && GreedyLocal(groups, reduction.maxFanIn, reduction.localityRttMs, context.objects, context.topology))
             || Chunks(groups, reduction.maxFanIn)
    ensures WellGrouped(reduction, inputs, context, groups)
  {
  }

  lemma SomethingReduces(reduction: RoleReductionSpec, inputs: seq<ObjectId>, firstId: TaskId, items: seq<LevelItem>,
                         groups: seq<seq<ObjectId>>)
    requires LevelOf(reduction, inputs, firstId, items, groups) && exists g :: 0 <= g < |groups| && |groups[g]| > 1
    ensures HasReduce(items) && |items| == |groups|
  {
    var g :| 0 <= g < |groups| && |groups[g]| > 1;
    assert ItemFor(reduction, groups[g], firstId + g, items[g]);
  }

  /**
   * One reduction level. With two or more inputs and a fan-in of at least two, every level that can be
   * placed contains a reducer, so the next level is strictly shorter. With valid settings a level is
   * given up exactly when some group's reducer can run nowhere.
   */
  method SelectReductionLevel(reduction: RoleReductionSpec, inputs: seq<ObjectId>, readyMs: real,
                              availability: Availability, context: Context, firstId: TaskId)
    returns (items: Option<seq<LevelItem>>, after: Availability, ghost groups: seq<seq<ObjectId>>)
    requires |inputs| >= 2
    ensures items.Some? ==>
              && reduction.maxFanIn >= 2
              && LevelOf(reduction, inputs, firstId, items.value, groups)
              && HasReduce(items.value) && |items.value| < |inputs|
              && after == AvailabilityAfterItems(availability, items.value)
              && AllPlaced(readyMs, availability, context, items.value)
    ensures reduction.maxFanIn < 2 || reduction.localityRttMs < 0.0 ==> items.None?
    ensures reduction.maxFanIn >= 2 && reduction.localityRttMs >= 0.0 ==>
              && WellGrouped(reduction, inputs, context, groups)
              && (items.None? <==> exists g: nat :: GroupStuck(reduction, groups, firstId, context, g))
              && LevelChosen(reduction, inputs, readyMs, availability, context, items)
  {
    hide GroupStuck, LevelOf, AllPlaced, WellGrouped;
    groups := [];
    if reduction.maxFanIn < 2 || reduction.localityRttMs < 0.0 {
      return None, availability, groups;
    }
    var chosen := ReductionGroups(inputs, reduction.maxFanIn, reduction.localityRttMs, context.objects, context.topology);
    groups := chosen;
    items, after := PlaceGroups(reduction, inputs, chosen, readyMs, availability, context, firstId);
    assert WellGrouped(reduction, inputs, context, groups) by { GroupedWell(reduction, inputs, context, groups); }
    if items.Some? { SomethingReduces(reduction, inputs, firstId, items.value, groups); }
    assert GroupsPlaced(reduction, inputs, readyMs, availability, context, items, firstId, groups);
  }
}
