/** Placements packed one after another onto resources, and why they never overlap. */
module Schedule {
  import opened Wrappers
  import opened Core
  import opened Sequences
  import opened Partition
  import opened Scheduler
  import opened Sharding
  import opened ReductionPlanning

  datatype Placement = Placement(resource: ResourceId, startMs: real, cost: PlacementBreakdown)
  {
    function FinishMs(): real { startMs + cost.totalMs }
  }

  /** One of the two is over before the other starts. */
  predicate Disjoint(a: Placement, b: Placement)
  {
    a.resource == b.resource ==> a.FinishMs() <= b.startMs || b.FinishMs() <= a.startMs
  }

  function After(availability: Availability, placements: seq<Placement>): Availability
  {
    if placements == [] then availability
    else
      var last := placements[|placements| - 1];
      After(availability, placements[..|placements| - 1])[last.resource := last.FinishMs()]
  }

  /** Each placement starts when its resource is free, given the ones before it, and does not run backwards. */
  predicate Packed(availability: Availability, placements: seq<Placement>)
  {
    forall k :: 0 <= k < |placements| ==>
      && placements[k].startMs >= AvailableAt(After(availability, placements[..k]), placements[k].resource)
      && placements[k].cost.totalMs >= 0.0
  }

  /** Nothing in the list starts before `readyMs`. */
  predicate StartsFrom(readyMs: real, placements: seq<Placement>)
  {
    forall k :: 0 <= k < |placements| ==> placements[k].startMs >= readyMs
  }

  predicate EndsBy(finishMs: real, placements: seq<Placement>)
  {
    forall k :: 0 <= k < |placements| ==> placements[k].FinishMs() <= finishMs
  }

  /** The resources are taken at least until these placements are over. */
  predicate Reserved(availability: Availability, placements: seq<Placement>)
  {
    forall k :: 0 <= k < |placements| ==> placements[k].FinishMs() <= AvailableAt(availability, placements[k].resource)
  }

  predicate NoEarlierThan(availability: Availability, placements: seq<Placement>)
  {
    forall k :: 0 <= k < |placements| ==> AvailableAt(availability, placements[k].resource) <= placements[k].startMs
  }

  predicate PairwiseDisjoint(placements: seq<Placement>)
  {
    forall i, j :: 0 <= i < j < |placements| ==> Disjoint(placements[i], placements[j])
  }

  ghost predicate Later(before: Availability, after: Availability)
  {
    forall r :: AvailableAt(before, r) <= AvailableAt(after, r)
  }

  lemma LaterStep(availability: Availability, last: Placement)
    requires last.startMs >= AvailableAt(availability, last.resource) && last.cost.totalMs >= 0.0
    ensures Later(availability, availability[last.resource := last.FinishMs()])
  {
  }

  lemma FactsPushed(availability: Availability, after: Availability, front: seq<Placement>, last: Placement)
    requires Later(availability, after) && NoEarlierThan(availability, front) && Reserved(after, front) && PairwiseDisjoint(front)
    requires last.startMs >= AvailableAt(after, last.resource) && last.cost.totalMs >= 0.0
    ensures Later(availability, after[last.resource := last.FinishMs()])
    ensures NoEarlierThan(availability, front + [last]) && PairwiseDisjoint(front + [last])
    ensures Reserved(after[last.resource := last.FinishMs()], front + [last])
  {
    LaterStep(after, last);
    var all := front + [last];
    forall i, j | 0 <= i < j < |all| ensures Disjoint(all[i], all[j]) {
      assert all[i] == front[i];
    }
  }

  lemma PackedLast(availability: Availability, placements: seq<Placement>)
    requires Packed(availability, placements) && placements != []
    ensures var n := |placements| - 1;
            && Packed(availability, placements[..n])
            && placements[n].startMs >= AvailableAt(After(availability, placements[..n]), placements[n].resource)
            && placements[n].cost.totalMs >= 0.0
  {
    var n := |placements| - 1;
    forall k | 0 <= k < n ensures placements[..n][..k] == placements[..k] {}
  }

  lemma {:induction false} PackedFacts(availability: Availability, placements: seq<Placement>)
    requires Packed(availability, placements)
    ensures Later(availability, After(availability, placements))
    ensures NoEarlierThan(availability, placements) && Reserved(After(availability, placements), placements)
    ensures PairwiseDisjoint(placements)
  {
    if placements != [] {
      var n := |placements| - 1;
      PackedLast(availability, placements);
      hide Packed, Later, NoEarlierThan, Reserved, PairwiseDisjoint, AvailableAt;
      PackedFacts(availability, placements[..n]);
      FactsPushed(availability, After(availability, placements[..n]), placements[..n], placements[n]);
      assert placements == placements[..n] + [placements[n]];
    }
  }

  lemma {:induction false} AfterAppend(availability: Availability, a: seq<Placement>, b: seq<Placement>)
    ensures After(availability, a + b) == After(After(availability, a), b)
  {
    if b == [] {
      assert a + b == a;
    } else {
      var n := |b| - 1;
      assert (a + b)[..|a| + n] == a + b[..n];
      AfterAppend(availability, a, b[..n]);
    }
  }

  lemma PackedAppend(availability: Availability, a: seq<Placement>, b: seq<Placement>)
    requires Packed(availability, a) && Packed(After(availability, a), b)
    ensures Packed(availability, a + b) && After(availability, a + b) == After(After(availability, a), b)
  {
    AfterAppend(availability, a, b);
    forall k | 0 <= k < |a + b|
      ensures (a + b)[k].startMs >= AvailableAt(After(availability, (a + b)[..k]), (a + b)[k].resource)
      ensures (a + b)[k].cost.totalMs >= 0.0
    {
      if k < |a| {
        assert (a + b)[..k] == a[..k];
      } else {
        assert (a + b)[..k] == a + b[..k - |a|];
        AfterAppend(availability, a, b[..k - |a|]);
      }
    }
  }

  // ----- shards and reducers are packed -----

  function ShardPlacement(selection: ShardSelection): Placement
  {
    Placement(selection.resource, selection.startMs, selection.cost)
  }

  function ShardPlacements(selections: seq<ShardSelection>): (r: seq<Placement>)
    ensures |r| == |selections|
  {
    seq(|selections|, i requires 0 <= i < |selections| => ShardPlacement(selections[i]))
  }

  lemma {:induction false} ShardsAfter(availability: Availability, selections: seq<ShardSelection>)
    ensures After(availability, ShardPlacements(selections)) == AvailabilityAfter(availability, selections)
  {
    if selections != [] {
      var n := |selections| - 1;
      ShardsAfter(availability, selections[..n]);
      assert ShardPlacements(selections)[..n] == ShardPlacements(selections[..n]);
    }
  }

  /** All tasks of a job to be planned cost a non-negative amount. */
  ghost predicate NonNegativeJob(job: ShardJob, context: Context)
  {
    && context.riskMultiplier >= 0.0
    && (forall i :: 0 <= i < |job.role.Templates()| ==> job.role.Templates()[i].cost.computeMs >= 0.0)
    && (job.policy.Some? ==> job.policy.value.perShardOverheadMs >= 0.0)
  }

  lemma FractionIsNonNegative(part: TaskShardPartition, computeMs: real)
    requires computeMs >= 0.0
    ensures computeMs * part.WorkFraction() >= 0.0
  {
    var fraction := part.WorkFraction();
    if part.UnitTotal() != 0 {
      assert fraction == part.UnitCount() as real / part.UnitTotal() as real;
      assert fraction >= 0.0;
    }
  }

  lemma ShardTaskIsNonNegative(template: TaskTemplate, id: TaskId, dependencies: seq<ObjectId>, index: u32, count: u32,
                               policy: Option<AutoShardPolicy>, objects: Objects)
    requires index < count && template.cost.computeMs >= 0.0 && (policy.Some? ==> policy.value.perShardOverheadMs >= 0.0)
    requires InstantiateShardTask(id, template, dependencies, index, count, policy, objects).Some?
    ensures InstantiateShardTask(id, template, dependencies, index, count, policy, objects).value.cost.computeMs >= 0.0
  {
    hide PartitionOfSize, ScaledOutputBytes;
    if policy.Some? {
      var part := ConcretePartition(template, policy.value.partition, index, count, objects).value;
      FractionIsNonNegative(part, template.cost.computeMs);
    }
  }

  lemma AlternativeIsNonNegative(job: ShardJob, context: Context, k: u32, t: nat)
    requires job.Valid() && NonNegativeJob(job, context) && k < job.count && t < |job.role.Templates()|
    requires job.Alternatives(k, context.objects).Some?
    ensures NonNegativeCosts(job.Alternatives(k, context.objects).value[t], context)
  {
    hide InstantiateShardTask;
    ShardTaskIsNonNegative(job.role.Templates()[t], job.firstId + k, job.dependencies, k, job.count, job.policy, context.objects);
  }

  lemma GreedyShard(job: ShardJob, availability: Availability, context: Context, selections: seq<ShardSelection>,
                    picks: seq<Pick>, k: nat)
    requires job.Valid() && NonNegativeJob(job, context)
    requires GreedySelections(job, availability, context, selections, picks) && k < |selections|
    ensures selections[k].startMs == StartMs(job.readyMs, AvailabilityAfter(availability, selections[..k]), selections[k].resource)
    ensures selections[k].cost.totalMs >= 0.0
  {
    hide PlacementCost, NonNegativeCosts, NonNegativeJob;
    assert GreedyChoice(job, availability, context, selections, k, picks[k]);
    var tasks := job.Alternatives(k, context.objects).value;
    AlternativeIsNonNegative(job, context, k, picks[k].option);
    CostsAreNonNegative(tasks[picks[k].option], context.resources[picks[k].resource], context);
  }

  lemma GreedyIsPacked(job: ShardJob, availability: Availability, context: Context, selections: seq<ShardSelection>, picks: seq<Pick>)
    requires job.Valid() && NonNegativeJob(job, context)
    requires GreedySelections(job, availability, context, selections, picks)
    ensures Packed(availability, ShardPlacements(selections)) && StartsFrom(job.readyMs, ShardPlacements(selections))
  {
    hide GreedySelections, NonNegativeJob;
    var placements := ShardPlacements(selections);
    forall k | 0 <= k < |placements|
      ensures placements[k].startMs >= AvailableAt(After(availability, placements[..k]), placements[k].resource)
      ensures placements[k].startMs >= job.readyMs && placements[k].cost.totalMs >= 0.0
    {
      GreedyShard(job, availability, context, selections, picks, k);
      assert placements[..k] == ShardPlacements(selections[..k]);
      ShardsAfter(availability, selections[..k]);
    }
    assert StartsFrom(job.readyMs, placements);
  }

  function ItemPlacements(items: seq<LevelItem>): seq<Placement>
  {
    if items == [] then []
    else
      var n := |items| - 1;
      ItemPlacements(items[..n]) + if items[n].Reduce? then [Placement(items[n].resource, items[n].startMs, items[n].cost)] else []
  }

  lemma {:induction false} ItemsAfter(availability: Availability, items: seq<LevelItem>)
    ensures After(availability, ItemPlacements(items)) == AvailabilityAfterItems(availability, items)
  {
    if items != [] {
      var n := |items| - 1;
      ItemsAfter(availability, items[..n]);
      if items[n].Reduce? {
        assert ItemPlacements(items)[..|ItemPlacements(items[..n])|] == ItemPlacements(items[..n]);
      } else {
        assert ItemPlacements(items) == ItemPlacements(items[..n]);
      }
    }
  }

  ghost predicate NonNegativeItems(items: seq<LevelItem>, context: Context)
  {
    forall g :: 0 <= g < |items| && items[g].Reduce? ==> NonNegativeCosts(items[g].task, context)
  }

  lemma AllPlacedPrefix(readyMs: real, availability: Availability, context: Context, items: seq<LevelItem>, n: nat)
    requires AllPlaced(readyMs, availability, context, items) && n <= |items|
    ensures AllPlaced(readyMs, availability, context, items[..n])
  {
    hide ReducerPick;
    forall g | 0 <= g < n ensures PlacedItem(readyMs, availability, context, items[..n], g) {
      assert items[..n][..g] == items[..g];
      assert PlacedItem(readyMs, availability, context, items, g);
    }
  }

  lemma {:induction false} LevelIsPacked(readyMs: real, availability: Availability, context: Context, items: seq<LevelItem>)
    requires AllPlaced(readyMs, availability, context, items) && NonNegativeItems(items, context)
    ensures Packed(availability, ItemPlacements(items)) && StartsFrom(readyMs, ItemPlacements(items))
  {
    hide AllPlaced, NonNegativeCosts, AvailableAt;
    if items != [] {
      var n := |items| - 1;
      AllPlacedPrefix(readyMs, availability, context, items, n);
      LevelIsPacked(readyMs, availability, context, items[..n]);
      if items[n].Reduce? {
        ReducerIsPacked(readyMs, availability, context, items);
        ItemsAfter(availability, items[..n]);
        var last := Placement(items[n].resource, items[n].startMs, items[n].cost);
        OnePacked(readyMs, AvailabilityAfterItems(availability, items[..n]), last);
        PackedAppend(availability, ItemPlacements(items[..n]), [last]);
      } else {
        assert ItemPlacements(items) == ItemPlacements(items[..n]);
      }
    }
  }

  lemma OnePacked(readyMs: real, availability: Availability, last: Placement)
    requires last.startMs == StartMs(readyMs, availability, last.resource) && last.cost.totalMs >= 0.0
    ensures Packed(availability, [last]) && StartsFrom(readyMs, [last])
  {
    assert [last][..0] == [];
  }

  lemma ReducerIsPacked(readyMs: real, availability: Availability, context: Context, items: seq<LevelItem>)
    requires AllPlaced(readyMs, availability, context, items) && NonNegativeItems(items, context)
    requires items != [] && items[|items| - 1].Reduce?
    ensures var n := |items| - 1;
            && items[n].startMs == StartMs(readyMs, AvailabilityAfterItems(availability, items[..n]), items[n].resource)
            && items[n].cost.totalMs >= 0.0
  {
    hide PlacementCost, NonNegativeCosts, AvailabilityAfterItems;
    var n := |items| - 1;
    assert PlacedItem(readyMs, availability, context, items, n);
    var r: nat :| ReducerPick(readyMs, AvailabilityAfterItems(availability, items[..n]), context, items[n], r);
    assert [items[n].task][0] == items[n].task;
    CostsAreNonNegative(items[n].task, context.resources[r], context);
  }

  // ----- latest finish -----

  function Latest(placements: seq<Placement>, floor: real): (r: real)
    ensures r >= floor && EndsBy(r, placements)
    ensures r == floor || exists k :: 0 <= k < |placements| && placements[k].FinishMs() == r
  {
    if placements == [] then floor
    else Max(Latest(placements[..|placements| - 1], floor), placements[|placements| - 1].FinishMs())
  }

  lemma {:induction false} LatestAppend(a: seq<Placement>, b: seq<Placement>, floor: real)
    ensures Latest(a + b, floor) == Latest(b, Latest(a, floor))
  {
    if b == [] {
      assert a + b == a;
    } else {
      var n := |b| - 1;
      assert (a + b)[..|a| + n] == a + b[..n];
      LatestAppend(a, b[..n], floor);
    }
  }
}
