/** For fixed shard counts the greedy loop is optimal over all assignments. */
module ShardOptimality {
  import opened Wrappers
  import opened Core
  import opened Scheduler
  import opened Sharding

  /** An implementation and a resource for each shard, by position. */
  type Assignment = seq<(nat, nat)>

  ghost predicate DistinctResources(context: Context)
  {
    forall i, j :: 0 <= i < j < |context.resources| ==> context.resources[i].id != context.resources[j].id
  }

  ghost predicate FixedJob(job: ShardJob, context: Context)
  {
    && job.Valid() && job.policy.None? && job.count > 0 && job.readyMs >= 0.0
    && context.riskMultiplier >= 0.0
    && (forall t :: 0 <= t < |job.role.Templates()| ==> job.role.Templates()[t].cost.computeMs >= 0.0)
    && DistinctResources(context)
  }

  /** The cost of any one shard under implementation `t` on resource `r`. */
  function ShardCost(job: ShardJob, context: Context, t: nat, r: nat): Option<PlacementBreakdown>
    requires job.Valid()
  {
    if t < |job.role.Templates()| && r < |context.resources|
    then PlacementCost(job.role.Templates()[t].Instantiate(job.firstId, job.dependencies), context.resources[r], context)
    else None
  }

  lemma ShardCostIsIndexFree(job: ShardJob, context: Context, k: u32, t: nat, r: nat)
    requires FixedJob(job, context) && k < job.count
    requires t < |job.role.Templates()| && r < |context.resources|
    ensures job.Alternatives(k, context.objects).Some?
    ensures PlacementCost(job.Alternatives(k, context.objects).value[t], context.resources[r], context)
            == ShardCost(job, context, t, r)
    ensures ShardCost(job, context, t, r).Some? ==> ShardCost(job, context, t, r).value.totalMs >= 0.0
  {
    var base := job.role.Templates()[t].Instantiate(job.firstId, job.dependencies);
    SameShapeSameCost(job.Alternatives(k, context.objects).value[t], base, context.resources[r], context);
    if PlacementCost(base, context.resources[r], context).Some? {
      CostsAreNonNegative(base, context.resources[r], context);
    }
  }

  ghost predicate FeasibleAssignment(job: ShardJob, context: Context, assignment: Assignment)
    requires job.Valid()
  {
    forall i :: 0 <= i < |assignment| ==> ShardCost(job, context, assignment[i].0, assignment[i].1).Some?
  }

  /** Milliseconds of work per (implementation, resource) pair. */
  type Costs = (nat, nat) -> real

  ghost function CostsOf(job: ShardJob, context: Context): Costs
    requires job.Valid()
  {
    (t: nat, r: nat) => if ShardCost(job, context, t, r).Some? then ShardCost(job, context, t, r).value.totalMs else 0.0
  }

  /** The time resource `r` spends on the shards assigned to it. */
  ghost function Load(costs: Costs, assignment: Assignment, r: nat): real
  {
    if assignment == [] then 0.0
    else
      var n := |assignment| - 1;
      var (t, on) := assignment[n];
      Load(costs, assignment[..n], r) + if on == r then costs(t, on) else 0.0
  }

  ghost function CountOn(assignment: Assignment, r: nat): nat
  {
    if assignment == [] then 0
    else CountOn(assignment[..|assignment| - 1], r) + if assignment[|assignment| - 1].1 == r then 1 else 0
  }

  /** Each resource works its shards off back to back from the moment it is free; all are done by `deadline`. */
  ghost predicate FinishesBy(job: ShardJob, availability: Availability, context: Context,
                             assignment: Assignment, deadline: real)
    requires job.Valid() && FeasibleAssignment(job, context, assignment)
  {
    && job.readyMs <= deadline
    && forall i :: 0 <= i < |assignment| ==>
         StartMs(job.readyMs, availability, context.resources[assignment[i].1].id)
         + Load(CostsOf(job, context), assignment, assignment[i].1) <= deadline
  }

  ghost function AssignmentOf(picks: seq<Pick>): Assignment
  {
    seq(|picks|, i requires 0 <= i < |picks| => (picks[i].option, picks[i].resource))
  }

  lemma GreedyPickFacts(job: ShardJob, availability: Availability, context: Context,
                        selections: seq<ShardSelection>, picks: seq<Pick>, k: nat)
    requires FixedJob(job, context) && GreedySelections(job, availability, context, selections, picks) && k < |picks|
    ensures picks[k].resource < |context.resources|
    ensures ShardCost(job, context, picks[k].option, picks[k].resource) == Some(picks[k].cost)
    ensures picks[k].cost.totalMs >= 0.0
    ensures selections[k].resource == context.resources[picks[k].resource].id
    ensures selections[k].startMs == picks[k].startMs && selections[k].cost == picks[k].cost
    ensures picks[k].startMs == StartMs(job.readyMs, AvailabilityAfter(availability, selections[..k]),
                                        context.resources[picks[k].resource].id)
  {
    assert GreedyChoice(job, availability, context, selections, k, picks[k]);
    ShardCostIsIndexFree(job, context, k, picks[k].option, picks[k].resource);
  }

  /** No other placement of shard `k` would finish earlier. */
  lemma GreedyPickIsEarliest(job: ShardJob, availability: Availability, context: Context,
                             selections: seq<ShardSelection>, picks: seq<Pick>, k: nat, t: nat, r: nat)
    requires FixedJob(job, context) && GreedySelections(job, availability, context, selections, picks) && k < |picks|
    requires ShardCost(job, context, t, r).Some?
    ensures var cost := ShardCost(job, context, t, r).value;
            var start := StartMs(job.readyMs, AvailabilityAfter(availability, selections[..k]), context.resources[r].id);
            && picks[k].FinishMs() <= start + cost.totalMs
            && (picks[k].resource == r ==> picks[k].cost.totalMs <= cost.totalMs)
  {
    assert GreedyChoice(job, availability, context, selections, k, picks[k]);
    ShardCostIsIndexFree(job, context, k, t, r);
    var start := StartMs(job.readyMs, AvailabilityAfter(availability, selections[..k]), context.resources[r].id);
    var other := Pick(t, r, start, ShardCost(job, context, t, r).value);
    assert IsPick(job.Alternatives(k, context.objects).value, job.readyMs,
                  AvailabilityAfter(availability, selections[..k]), context, other);
  }

  lemma GreedyIsFeasible(job: ShardJob, availability: Availability, context: Context,
                         selections: seq<ShardSelection>, picks: seq<Pick>)
    requires FixedJob(job, context) && GreedySelections(job, availability, context, selections, picks)
    ensures forall k :: 0 <= k <= |picks| ==> FeasibleAssignment(job, context, AssignmentOf(picks[..k]))
  {
    forall k, i | 0 <= k <= |picks| && 0 <= i < k
      ensures ShardCost(job, context, AssignmentOf(picks[..k])[i].0, AssignmentOf(picks[..k])[i].1).Some?
    {
      GreedyPickFacts(job, availability, context, selections, picks, i);
    }
  }

  lemma {:induction false} LoadIsNonNegative(costs: Costs, assignment: Assignment, r: nat)
    requires forall i :: 0 <= i < |assignment| ==> costs(assignment[i].0, assignment[i].1) >= 0.0
    ensures Load(costs, assignment, r) >= 0.0
  {
    if assignment != [] {
      LoadIsNonNegative(costs, assignment[..|assignment| - 1], r);
    }
  }

  lemma FeasibleCosts(job: ShardJob, context: Context, assignment: Assignment)
    requires FixedJob(job, context) && FeasibleAssignment(job, context, assignment)
    ensures forall i :: 0 <= i < |assignment| ==>
              CostsOf(job, context)(assignment[i].0, assignment[i].1)
              == ShardCost(job, context, assignment[i].0, assignment[i].1).value.totalMs >= 0.0
  {
    forall i | 0 <= i < |assignment|
      ensures ShardCost(job, context, assignment[i].0, assignment[i].1).value.totalMs >= 0.0
    {
      ShardCostIsIndexFree(job, context, 0, assignment[i].0, assignment[i].1);
    }
  }

  /** After `k` picks, a resource is free once it has worked off what it was given. */
  lemma {:induction false} GreedyStart(job: ShardJob, availability: Availability, context: Context,
                                       selections: seq<ShardSelection>, picks: seq<Pick>, k: nat, r: nat)
    requires FixedJob(job, context) && GreedySelections(job, availability, context, selections, picks)
    requires k <= |picks| && r < |context.resources|
    requires FeasibleAssignment(job, context, AssignmentOf(picks[..k]))
    ensures StartMs(job.readyMs, AvailabilityAfter(availability, selections[..k]), context.resources[r].id)
            == StartMs(job.readyMs, availability, context.resources[r].id)
               + Load(CostsOf(job, context), AssignmentOf(picks[..k]), r)
    decreases k
  {
    if k > 0 {
      GreedyIsFeasible(job, availability, context, selections, picks);
      GreedyStart(job, availability, context, selections, picks, k - 1, r);
      var now, before := AssignmentOf(picks[..k]), AssignmentOf(picks[..k - 1]);
      assert now[..k - 1] == before;
      FeasibleCosts(job, context, before);
      LoadIsNonNegative(CostsOf(job, context), before, r);
      GreedyStep(job, availability, context, selections, picks, k, r);
      assert CostsOf(job, context)(picks[k - 1].option, picks[k - 1].resource) == picks[k - 1].cost.totalMs by {
        GreedyPickFacts(job, availability, context, selections, picks, k - 1);
      }
    }
  }

  /** One pick moves the start of its own resource by its cost and no other. */
  lemma GreedyStep(job: ShardJob, availability: Availability, context: Context,
                   selections: seq<ShardSelection>, picks: seq<Pick>, k: nat, r: nat)
    requires FixedJob(job, context) && GreedySelections(job, availability, context, selections, picks)
    requires 0 < k <= |picks| && r < |context.resources|
    requires StartMs(job.readyMs, AvailabilityAfter(availability, selections[..k - 1]), context.resources[r].id) >= job.readyMs
    ensures StartMs(job.readyMs, AvailabilityAfter(availability, selections[..k]), context.resources[r].id)
            == StartMs(job.readyMs, AvailabilityAfter(availability, selections[..k - 1]), context.resources[r].id)
               + if picks[k - 1].resource == r then picks[k - 1].cost.totalMs else 0.0
  {
    GreedyPickFacts(job, availability, context, selections, picks, k - 1);
    assert selections[..k][..k - 1] == selections[..k - 1];
    assert picks[k - 1].resource != r ==> selections[k - 1].resource != context.resources[r].id;
  }

  lemma {:induction false} LoadAtLeast(costs: Costs, assignment: Assignment, r: nat, least: real)
    requires forall i :: 0 <= i < |assignment| && assignment[i].1 == r ==> costs(assignment[i].0, r) >= least
    ensures Load(costs, assignment, r) >= CountOn(assignment, r) as real * least
  {
    if assignment != [] {
      var n := |assignment| - 1;
      LoadAtLeast(costs, assignment[..n], r, least);
      if assignment[n].1 == r {
        assert CountOn(assignment, r) as real * least == CountOn(assignment[..n], r) as real * least + least;
      }
    }
  }

  lemma {:induction false} LoadAtMost(costs: Costs, assignment: Assignment, r: nat, most: real)
    requires forall i :: 0 <= i < |assignment| && assignment[i].1 == r ==> costs(assignment[i].0, r) <= most
    ensures Load(costs, assignment, r) <= CountOn(assignment, r) as real * most
  {
    if assignment != [] {
      var n := |assignment| - 1;
      LoadAtMost(costs, assignment[..n], r, most);
      if assignment[n].1 == r {
        assert CountOn(assignment, r) as real * most == CountOn(assignment[..n], r) as real * most + most;
      }
    }
  }

  // ----- some resource gets more shards -----

  lemma {:induction false} CountOnPositive(assignment: Assignment, r: nat)
    ensures CountOn(assignment, r) > 0 <==> exists i :: 0 <= i < |assignment| && assignment[i].1 == r
  {
    if assignment != [] {
      var n := |assignment| - 1;
      CountOnPositive(assignment[..n], r);
      if i :| 0 <= i < |assignment| && assignment[i].1 == r {
        if i < n { assert assignment[..n][i].1 == r; }
      }
      if i :| 0 <= i < n && assignment[..n][i].1 == r { assert assignment[i].1 == r; }
    }
  }

  function Without(assignment: Assignment, r: nat): Assignment
  {
    if assignment == [] then []
    else
      var n := |assignment| - 1;
      if assignment[n].1 == r then Without(assignment[..n], r) else Without(assignment[..n], r) + [assignment[n]]
  }

  lemma {:induction false} WithoutCounts(assignment: Assignment, r: nat, other: nat)
    ensures |Without(assignment, r)| + CountOn(assignment, r) == |assignment|
    ensures CountOn(Without(assignment, r), other) == if other == r then 0 else CountOn(assignment, other)
  {
    if assignment != [] {
      var n := |assignment| - 1;
      WithoutCounts(assignment[..n], r, other);
      if assignment[n].1 != r {
        assert Without(assignment, r)[..|Without(assignment[..n], r)|] == Without(assignment[..n], r);
      }
    }
  }

  /** A longer assignment puts more shards on some resource. */
  lemma {:induction false} SomeResourceGetsMore(a: Assignment, b: Assignment) returns (r: nat)
    requires |a| < |b|
    ensures CountOn(a, r) < CountOn(b, r)
    decreases |b|
  {
    r := b[|b| - 1].1;
    if CountOn(a, r) >= CountOn(b, r) {
      CountOnPositive(b, r);
      WithoutCounts(a, r, r);
      WithoutCounts(b, r, r);
      var s := SomeResourceGetsMore(Without(a, r), Without(b, r));
      WithoutCounts(a, r, s);
      WithoutCounts(b, r, s);
      r := s;
    }
  }

  lemma CheapestEntryOn(costs: Costs, assignment: Assignment, r: nat) returns (e: nat)
    requires CountOn(assignment, r) > 0
    ensures e < |assignment| && assignment[e].1 == r
    ensures forall i :: 0 <= i < |assignment| && assignment[i].1 == r ==>
              costs(assignment[i].0, r) >= costs(assignment[e].0, r)
  {
    CountOnPositive(assignment, r);
    e :| 0 <= e < |assignment| && assignment[e].1 == r;
    for k := 0 to |assignment|
      invariant e < |assignment| && assignment[e].1 == r
      invariant forall i :: 0 <= i < k && assignment[i].1 == r ==>
                  costs(assignment[i].0, r) >= costs(assignment[e].0, r)
    {
      if assignment[k].1 == r && costs(assignment[k].0, r) < costs(assignment[e].0, r) {
        e := k;
      }
    }
  }

  // ----- optimality -----

  /** Some resource is given more shards by the rival, and one more of the rival's cheapest still fits its load. */
  lemma RivalIsBusier(costs: Costs, sofar: Assignment, rival: Assignment) returns (e: nat)
    requires |sofar| < |rival|
    requires forall i :: 0 <= i < |rival| ==> costs(rival[i].0, rival[i].1) >= 0.0
    requires forall i, j :: 0 <= i < |sofar| && 0 <= j < |rival| && sofar[i].1 == rival[j].1 ==>
               costs(sofar[i].0, sofar[i].1) <= costs(rival[j].0, rival[j].1)
    ensures e < |rival|
    ensures Load(costs, sofar, rival[e].1) + costs(rival[e].0, rival[e].1) <= Load(costs, rival, rival[e].1)
  {
    var r := SomeResourceGetsMore(sofar, rival);
    e := CheapestEntryOn(costs, rival, r);
    var cheapest := costs(rival[e].0, r);
    LoadAtLeast(costs, rival, r, cheapest);
    LoadAtMost(costs, sofar, r, cheapest);
    OneMoreShard(Load(costs, sofar, r), Load(costs, rival, r), CountOn(sofar, r), CountOn(rival, r), cheapest);
  }

  /** Any assignment of more than `k` shards takes at least until the greedy loop's shard `k` finishes. */
  lemma GreedyShardIsNoLater(job: ShardJob, availability: Availability, context: Context,
                             selections: seq<ShardSelection>, picks: seq<Pick>, k: nat,
                             rival: Assignment, deadline: real)
    requires FixedJob(job, context) && GreedySelections(job, availability, context, selections, picks)
    requires k < |picks| && k < |rival| && FeasibleAssignment(job, context, rival)
    requires FinishesBy(job, availability, context, rival, deadline)
    ensures selections[k].FinishMs() <= deadline
  {
    GreedyIsFeasible(job, availability, context, selections, picks);
    FeasibleCosts(job, context, rival);
    var sofar := AssignmentOf(picks[..k]);
    forall i, j | 0 <= i < |sofar| && 0 <= j < |rival| && sofar[i].1 == rival[j].1
      ensures CostsOf(job, context)(sofar[i].0, sofar[i].1) <= CostsOf(job, context)(rival[j].0, rival[j].1)
    {
      GreedyUsesCheapest(job, availability, context, selections, picks, i, rival[j].0, rival[j].1);
    }
    var e := RivalIsBusier(CostsOf(job, context), sofar, rival);
    GreedyFinishBound(job, availability, context, selections, picks, k, rival[e].0, rival[e].1);
  }

  lemma GreedyFinishBound(job: ShardJob, availability: Availability, context: Context,
                          selections: seq<ShardSelection>, picks: seq<Pick>, k: nat, t: nat, r: nat)
    requires FixedJob(job, context) && GreedySelections(job, availability, context, selections, picks)
    requires k < |picks| && ShardCost(job, context, t, r).Some?
    ensures selections[k].FinishMs() <= StartMs(job.readyMs, availability, context.resources[r].id)
              + Load(CostsOf(job, context), AssignmentOf(picks[..k]), r) + CostsOf(job, context)(t, r)
  {
    GreedyIsFeasible(job, availability, context, selections, picks);
    GreedyPickIsEarliest(job, availability, context, selections, picks, k, t, r);
    GreedyStart(job, availability, context, selections, picks, k, r);
    GreedyPickFacts(job, availability, context, selections, picks, k);
  }

  /** On every resource the greedy loop uses an implementation at least as cheap as any other. */
  lemma GreedyUsesCheapest(job: ShardJob, availability: Availability, context: Context,
                           selections: seq<ShardSelection>, picks: seq<Pick>, i: nat, t: nat, r: nat)
    requires FixedJob(job, context) && GreedySelections(job, availability, context, selections, picks)
    requires i < |picks| && picks[i].resource == r && ShardCost(job, context, t, r).Some?
    ensures CostsOf(job, context)(picks[i].option, r) <= CostsOf(job, context)(t, r)
  {
    GreedyPickFacts(job, availability, context, selections, picks, i);
    GreedyPickIsEarliest(job, availability, context, selections, picks, i, t, r);
  }

  lemma OneMoreShard(light: real, heavy: real, fewer: nat, more: nat, cost: real)
    requires fewer < more && cost >= 0.0
    requires light <= fewer as real * cost && heavy >= more as real * cost
    ensures light + cost <= heavy
  {
    var rest := (more - fewer - 1) as real;
    assert rest * cost >= 0.0;
    assert more as real * cost == fewer as real * cost + cost + rest * cost;
  }

  /** The greedy selections, read as an assignment, meet any deadline none of them misses. */
  lemma GreedyFinishesBy(job: ShardJob, availability: Availability, context: Context,
                         selections: seq<ShardSelection>, picks: seq<Pick>, deadline: real)
    requires FixedJob(job, context) && GreedySelections(job, availability, context, selections, picks)
    requires job.readyMs <= deadline && forall k :: 0 <= k < |selections| ==> selections[k].FinishMs() <= deadline
    ensures FeasibleAssignment(job, context, AssignmentOf(picks))
    ensures FinishesBy(job, availability, context, AssignmentOf(picks), deadline)
  {
    GreedyIsFeasible(job, availability, context, selections, picks);
    assert picks[..|picks|] == picks;
    forall i | 0 <= i < |picks|
      ensures StartMs(job.readyMs, availability, context.resources[picks[i].resource].id)
              + Load(CostsOf(job, context), AssignmentOf(picks), picks[i].resource) <= deadline
    {
      var last := LastOn(picks, i);
      assert picks[..last + 1] == picks[..last + 1];
      GreedyLastFinish(job, availability, context, selections, picks, last);
      LoadStopsAtLast(CostsOf(job, context), picks, picks[i].resource, last, |picks|);
    }
  }

  /** The last shard given to a resource finishes when the resource has worked off its whole load. */
  lemma GreedyLastFinish(job: ShardJob, availability: Availability, context: Context,
                         selections: seq<ShardSelection>, picks: seq<Pick>, k: nat)
    requires FixedJob(job, context) && GreedySelections(job, availability, context, selections, picks) && k < |picks|
    ensures picks[k].resource < |context.resources|
    ensures StartMs(job.readyMs, availability, context.resources[picks[k].resource].id)
            + Load(CostsOf(job, context), AssignmentOf(picks[..k + 1]), picks[k].resource) == selections[k].FinishMs()
  {
    GreedyIsFeasible(job, availability, context, selections, picks);
    GreedyPickFacts(job, availability, context, selections, picks, k);
    GreedyStart(job, availability, context, selections, picks, k, picks[k].resource);
    assert AssignmentOf(picks[..k + 1])[..k] == AssignmentOf(picks[..k]);
  }

  lemma LastOn(picks: seq<Pick>, i: nat) returns (last: nat)
    requires i < |picks|
    ensures last < |picks| && picks[last].resource == picks[i].resource
    ensures forall j :: last < j < |picks| ==> picks[j].resource != picks[i].resource
  {
    last := i;
    for j := i + 1 to |picks|
      invariant last < j && picks[last].resource == picks[i].resource
      invariant forall m :: last < m < j ==> picks[m].resource != picks[i].resource
    {
      if picks[j].resource == picks[i].resource { last := j; }
    }
  }

  lemma {:induction false} LoadStopsAtLast(costs: Costs, picks: seq<Pick>, r: nat, last: nat, k: nat)
    requires last < k <= |picks| && forall j :: last < j < k ==> picks[j].resource != r
    ensures Load(costs, AssignmentOf(picks[..k]), r) == Load(costs, AssignmentOf(picks[..last + 1]), r)
    decreases k
  {
    if k > last + 1 {
      LoadStopsAtLast(costs, picks, r, last, k - 1);
      assert AssignmentOf(picks[..k])[..k - 1] == AssignmentOf(picks[..k - 1]);
    }
  }

  /**
   * The greedy loop is optimal: its finish time is reached by its own assignment, and no assignment of
   * the same number of shards to implementations and resources meets an earlier deadline.
   */
  lemma GreedyIsOptimal(job: ShardJob, availability: Availability, context: Context,
                        selections: seq<ShardSelection>, picks: seq<Pick>, finishMs: real)
    requires FixedJob(job, context) && GreedySelections(job, availability, context, selections, picks)
    requires |selections| == job.count
    requires IsRoleFinish(job, selections, finishMs)
    ensures FeasibleAssignment(job, context, AssignmentOf(picks))
    ensures FinishesBy(job, availability, context, AssignmentOf(picks), finishMs)
    ensures forall rival: Assignment, deadline: real ::
              (|rival| == job.count && FeasibleAssignment(job, context, rival)
               && FinishesBy(job, availability, context, rival, deadline)) ==> finishMs <= deadline
  {
    GreedyFinishesBy(job, availability, context, selections, picks, finishMs);
    forall rival: Assignment, deadline: real | |rival| == job.count && FeasibleAssignment(job, context, rival)
      && FinishesBy(job, availability, context, rival, deadline)
      ensures finishMs <= deadline
    {
      if finishMs != job.readyMs {
        var k :| 0 <= k < |selections| && selections[k].FinishMs() == finishMs;
        GreedyShardIsNoLater(job, availability, context, selections, picks, k, rival, deadline);
      }
    }
  }

  /** The latest shard finish, and never before the dependencies are ready. */
  ghost predicate IsRoleFinish(job: ShardJob, selections: seq<ShardSelection>, finishMs: real)
  {
    && job.readyMs <= finishMs
    && (forall k :: 0 <= k < |selections| ==> selections[k].FinishMs() <= finishMs)
    && (finishMs == job.readyMs || exists k :: 0 <= k < |selections| && selections[k].FinishMs() == finishMs)
  }

  /** Every resource of `small` is a resource of `large`; `at` says where. */
  ghost predicate Embeds(small: Context, large: Context, at: seq<nat>)
  {
    && |at| == |small.resources|
    && (forall i :: 0 <= i < |at| ==> at[i] < |large.resources| && large.resources[at[i]] == small.resources[i])
    && (forall i, j :: 0 <= i < j < |at| ==> at[i] != at[j])
    && large.objects == small.objects && large.topology == small.topology
    && large.riskMultiplier == small.riskMultiplier
  }

  ghost function Embedded(assignment: Assignment, at: seq<nat>): Assignment
    requires forall i :: 0 <= i < |assignment| ==> assignment[i].1 < |at|
  {
    seq(|assignment|, i requires 0 <= i < |assignment| => (assignment[i].0, at[assignment[i].1]))
  }

  lemma {:induction false} EmbeddedLoad(job: ShardJob, small: Context, large: Context, at: seq<nat>,
                                        assignment: Assignment, r: nat)
    requires job.Valid() && Embeds(small, large, at) && r < |at|
    requires FeasibleAssignment(job, small, assignment)
    ensures forall i :: 0 <= i < |assignment| ==> assignment[i].1 < |at|
    ensures FeasibleAssignment(job, large, Embedded(assignment, at))
    ensures Load(CostsOf(job, large), Embedded(assignment, at), at[r]) == Load(CostsOf(job, small), assignment, r)
  {
    forall i | 0 <= i < |assignment|
      ensures assignment[i].1 < |at|
      ensures ShardCost(job, large, assignment[i].0, at[assignment[i].1]) == ShardCost(job, small, assignment[i].0, assignment[i].1)
    {
      assert ShardCost(job, small, assignment[i].0, assignment[i].1).Some?;
      SameContextSameCost(job.role.Templates()[assignment[i].0].Instantiate(job.firstId, job.dependencies),
                          small.resources[assignment[i].1], small, large);
    }
    if assignment != [] {
      var n := |assignment| - 1;
      EmbeddedLoad(job, small, large, at, assignment[..n], r);
      assert Embedded(assignment, at)[..n] == Embedded(assignment[..n], at);
    }
  }

  lemma SameContextSameCost(task: TaskSpec, resource: ResourceDescriptor, small: Context, large: Context)
    requires large.objects == small.objects && large.topology == small.topology
    requires large.riskMultiplier == small.riskMultiplier
    ensures PlacementCost(task, resource, large) == PlacementCost(task, resource, small)
  {
  }

  /** Adding resources never makes a fixed sharded role finish later. */
  lemma MoreResourcesNeverHurt(job: ShardJob, availability: Availability, small: Context, large: Context, at: seq<nat>,
                               before: seq<ShardSelection>, beforePicks: seq<Pick>, beforeMs: real,
                               after: seq<ShardSelection>, afterPicks: seq<Pick>, afterMs: real)
    requires FixedJob(job, small) && FixedJob(job, large) && Embeds(small, large, at)
    requires GreedySelections(job, availability, small, before, beforePicks) && |before| == job.count
    requires GreedySelections(job, availability, large, after, afterPicks) && |after| == job.count
    requires IsRoleFinish(job, before, beforeMs) && IsRoleFinish(job, after, afterMs)
    ensures afterMs <= beforeMs
  {
    GreedyIsOptimal(job, availability, small, before, beforePicks, beforeMs);
    var rival := AssignmentOf(beforePicks);
    assert ShardCost(job, small, rival[0].0, rival[0].1).Some?;
    EmbeddedLoad(job, small, large, at, rival, rival[0].1);
    var moved := Embedded(rival, at);
    forall i | 0 <= i < |moved|
      ensures StartMs(job.readyMs, availability, large.resources[moved[i].1].id)
              + Load(CostsOf(job, large), moved, moved[i].1) <= beforeMs
    {
      EmbeddedLoad(job, small, large, at, rival, rival[i].1);
    }
    assert FinishesBy(job, availability, large, moved, beforeMs);
    GreedyIsOptimal(job, availability, large, after, afterPicks, afterMs);
  }
}
