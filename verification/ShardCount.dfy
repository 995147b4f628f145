/** Choosing a shard count: evaluate each count greedily, adopt more shards only for a real gain. */
module ShardCount {
  import opened Wrappers
  import opened Core
  import opened Partition
  import opened Scheduler
  import opened Sharding

  /** What evaluating one shard count gave. */
  datatype Trial = Infeasible | Feasible(selections: seq<ShardSelection>, after: Availability, incrementalMs: real)

  function MaxShards(policy: AutoShardPolicy, units: u64): u32
  {
    if units == 0 then 1
    else if policy.maxShards <= units then policy.maxShards else units
  }

  /** The latest of `readyMs` and the finish times. */
  function LatestFinish(selections: seq<ShardSelection>, readyMs: real): (r: real)
    ensures r >= readyMs
    ensures forall k :: 0 <= k < |selections| ==> selections[k].FinishMs() <= r
    ensures r == readyMs || exists k :: 0 <= k < |selections| && selections[k].FinishMs() == r
  {
    if selections == [] then readyMs
    else Max(LatestFinish(selections[..|selections| - 1], readyMs), selections[|selections| - 1].FinishMs())
  }

  function CountJob(role: RoleSpec, dependencies: seq<ObjectId>, policy: AutoShardPolicy, count: u32,
                    readyMs: real, firstId: TaskId): ShardJob
  {
    ShardJob(role, dependencies, count, Some(policy), readyMs, firstId)
  }

  /** `trial` is what the greedy loop makes of this count from the given availability. */
  ghost predicate TrialOf(job: ShardJob, availability: Availability, context: Context, trial: Trial)
    requires job.Valid()
  {
    match trial
    case Infeasible => exists k: u32 :: k < job.count && ShardInfeasible(job, context, k)
    case Feasible(selections, after, incrementalMs) =>
      && |selections| == job.count
      && (exists picks :: GreedySelections(job, availability, context, selections, picks))
      && after == AvailabilityAfter(availability, selections)
      && incrementalMs == LatestFinish(selections, job.readyMs) - job.readyMs
  }

  /** A lower makespan is adopted only when it saves at least the required share of the current one. */
  predicate WorthAdopting(incrementalMs: real, currentMs: real, minGainRatio: real)
  {
    incrementalMs < currentMs &&
    (if currentMs <= 0.0 then 0.0 else (currentMs - incrementalMs) / currentMs) >= minGainRatio
  }

  lemma AdoptionThreshold(incrementalMs: real, currentMs: real, minGainRatio: real)
    requires 0.0 <= incrementalMs && 0.0 <= currentMs && 0.0 <= minGainRatio < 1.0
    ensures WorthAdopting(incrementalMs, currentMs, minGainRatio) ==>
              incrementalMs < currentMs && incrementalMs <= currentMs * (1.0 - minGainRatio)
    ensures !WorthAdopting(incrementalMs, currentMs, minGainRatio) ==>
              incrementalMs >= currentMs || incrementalMs > currentMs * (1.0 - minGainRatio)
  {
    if 0.0 < currentMs {
      var ratio := (currentMs - incrementalMs) / currentMs;
      assert ratio * currentMs == currentMs - incrementalMs;
      assert currentMs * (1.0 - minGainRatio) == currentMs - minGainRatio * currentMs;
      assert (ratio - minGainRatio) * currentMs == ratio * currentMs - minGainRatio * currentMs;
      if ratio >= minGainRatio {
        assert (ratio - minGainRatio) * currentMs >= 0.0;
      } else {
        assert (minGainRatio - ratio) * currentMs > 0.0;
        assert (minGainRatio - ratio) * currentMs == minGainRatio * currentMs - ratio * currentMs;
      }
    }
  }

  /** Among the first `|trials|` counts, `winner` (a count, 0 for none) is the adopted one. */
  ghost predicate Adopted(trials: seq<Trial>, winner: nat, minGainRatio: real)
  {
    && winner <= |trials|
    && (winner == 0 ==> forall c :: 0 <= c < |trials| ==> trials[c].Infeasible?)
    && (winner > 0 ==>
          && trials[winner - 1].Feasible?
          // near-optimal: no larger count saves as much as the threshold demands
          && (forall c :: winner <= c < |trials| && trials[c].Feasible? ==>
                trials[c].incrementalMs >= trials[winner - 1].incrementalMs
                || trials[c].incrementalMs > trials[winner - 1].incrementalMs * (1.0 - minGainRatio))
          // parsimonious: every smaller feasible count is strictly slower
          && (forall c :: 0 <= c < winner - 1 && trials[c].Feasible? ==>
                trials[winner - 1].incrementalMs < trials[c].incrementalMs))
  }

  /** Evaluating one more count keeps the adoption rule, whether the count is adopted or not. */
  lemma AdoptOrKeep(trials: seq<Trial>, winner: nat, minGainRatio: real, trial: Trial)
    requires 0.0 <= minGainRatio < 1.0 && Adopted(trials, winner, minGainRatio)
    requires winner > 0 ==> trials[winner - 1].incrementalMs >= 0.0
    requires trial.Feasible? ==> trial.incrementalMs >= 0.0
    ensures var adopt := trial.Feasible? && (winner == 0 ||
                         WorthAdopting(trial.incrementalMs, trials[winner - 1].incrementalMs, minGainRatio));
            Adopted(trials + [trial], if adopt then |trials| + 1 else winner, minGainRatio)
  {
    if trial.Feasible? && winner > 0 {
      AdoptionThreshold(trial.incrementalMs, trials[winner - 1].incrementalMs, minGainRatio);
    }
  }

  /**
   * The adopted count is near-optimal: its makespan, less the threshold share, is at most that of
   * every feasible count evaluated, and it is no worse than the first feasible count.
   */
  lemma AdoptedIsNearOptimal(trials: seq<Trial>, winner: nat, minGainRatio: real)
    requires 0.0 <= minGainRatio < 1.0 && Adopted(trials, winner, minGainRatio) && winner > 0
    requires trials[winner - 1].incrementalMs >= 0.0
    ensures forall c :: 0 <= c < |trials| && trials[c].Feasible? ==>
              trials[winner - 1].incrementalMs * (1.0 - minGainRatio) <= trials[c].incrementalMs
    ensures forall c :: (0 <= c < |trials| && trials[c].Feasible?
                         && forall b :: 0 <= b < c ==> trials[b].Infeasible?) ==>
              trials[winner - 1].incrementalMs <= trials[c].incrementalMs
  {
    var current := trials[winner - 1].incrementalMs;
    assert current * (1.0 - minGainRatio) == current - current * minGainRatio;
    assert current * minGainRatio >= 0.0;
  }

  method EvaluateCount(job: ShardJob, availability: Availability, context: Context) returns (trial: Trial)
    requires job.Valid()
    ensures TrialOf(job, availability, context, trial)
    ensures trial.Feasible? ==> |trial.selections| == job.count && trial.incrementalMs >= 0.0
  {
    var selections, after, picks := ChooseShards(job, availability, context);
    if selections.None? {
      return Infeasible;
    }
    trial := Feasible(selections.value, after, LatestFinish(selections.value, job.readyMs) - job.readyMs);
  }

  /** `trials` holds the evaluation of the counts 1, 2, … */
  ghost predicate Evaluated(role: RoleSpec, dependencies: seq<ObjectId>, policy: AutoShardPolicy, readyMs: real,
                            availability: Availability, context: Context, firstId: TaskId, trials: seq<Trial>)
    requires role.Logical?
  {
    && |trials| <= policy.maxShards
    && forall c :: 0 <= c < |trials| ==>
         TrialOf(CountJob(role, dependencies, policy, c + 1, readyMs, firstId), availability, context, trials[c])
  }

  lemma NothingEvaluated(role: RoleSpec, dependencies: seq<ObjectId>, policy: AutoShardPolicy, readyMs: real,
                         availability: Availability, context: Context, firstId: TaskId)
    requires role.Logical?
    ensures Evaluated(role, dependencies, policy, readyMs, availability, context, firstId, [])
    ensures Adopted([], 0, policy.minGainRatio)
  {
  }

  lemma EvaluatedPushed(role: RoleSpec, dependencies: seq<ObjectId>, policy: AutoShardPolicy, readyMs: real,
                        availability: Availability, context: Context, firstId: TaskId, trials: seq<Trial>, trial: Trial)
    requires role.Logical? && |trials| < policy.maxShards
    requires Evaluated(role, dependencies, policy, readyMs, availability, context, firstId, trials)
    requires TrialOf(CountJob(role, dependencies, policy, |trials| + 1, readyMs, firstId), availability, context, trial)
    ensures Evaluated(role, dependencies, policy, readyMs, availability, context, firstId, trials + [trial])
  {
    hide TrialOf;
  }

  /** Some shard cannot be partitioned or run anywhere when there are `count` of them. */
  ghost predicate CountInfeasible(role: RoleSpec, dependencies: seq<ObjectId>, policy: AutoShardPolicy, context: Context, count: u32)
    requires role.Logical?
  {
    exists firstId, readyMs, k: u32 ::
      k < count && ShardInfeasible(CountJob(role, dependencies, policy, count, readyMs, firstId), context, k)
  }

  lemma NoneFeasible(role: RoleSpec, dependencies: seq<ObjectId>, policy: AutoShardPolicy, readyMs: real,
                     availability: Availability, context: Context, firstId: TaskId, trials: seq<Trial>)
    requires role.Logical? && Evaluated(role, dependencies, policy, readyMs, availability, context, firstId, trials)
    requires forall c :: 0 <= c < |trials| ==> trials[c].Infeasible?
    ensures forall count: u32 :: 1 <= count <= |trials| ==> CountInfeasible(role, dependencies, policy, context, count)
  {
    hide ShardInfeasible;
    forall count: u32 | 1 <= count <= |trials| ensures CountInfeasible(role, dependencies, policy, context, count) {
      var job := CountJob(role, dependencies, policy, count, readyMs, firstId);
      assert trials[count - 1].Infeasible?;
      assert TrialOf(CountJob(role, dependencies, policy, (count - 1) + 1, readyMs, firstId), availability, context, trials[count - 1]);
      var k: u32 :| k < job.count && ShardInfeasible(job, context, k);
    }
  }

  lemma WinnerIsTrial(role: RoleSpec, dependencies: seq<ObjectId>, policy: AutoShardPolicy, readyMs: real,
                      availability: Availability, context: Context, firstId: TaskId, trials: seq<Trial>, count: u32)
    requires role.Logical? && Evaluated(role, dependencies, policy, readyMs, availability, context, firstId, trials)
    requires 1 <= count <= |trials| && trials[count - 1].Feasible?
    ensures TrialOf(CountJob(role, dependencies, policy, count, readyMs, firstId), availability, context, trials[count - 1])
    ensures trials[count - 1].incrementalMs == LatestFinish(trials[count - 1].selections, readyMs) - readyMs
  {
    hide GreedySelections, LatestFinish;
    assert TrialOf(CountJob(role, dependencies, policy, (count - 1) + 1, readyMs, firstId), availability, context, trials[count - 1]);
  }

  /**
   * Tries every count from one to the cap and returns the adopted count's selections together with
   * exactly the availability those selections leave behind.
   */
  method ChooseAutoShards(role: RoleSpec, dependencies: seq<ObjectId>, policy: AutoShardPolicy, readyMs: real,
                          availability: Availability, context: Context, firstId: TaskId)
    returns (selections: Option<seq<ShardSelection>>, after: Availability, ghost trials: seq<Trial>)
    requires role.Logical? && role.implementations != []
    requires 0.0 <= policy.minGainRatio < 1.0 && policy.maxShards >= 1
    ensures Evaluated(role, dependencies, policy, readyMs, availability, context, firstId, trials)
    ensures var units := PartitionUnits(role.implementations[0].task, policy.partition, context.objects);
            |trials| == if units.None? then 0 else MaxShards(policy, units.value)
    ensures selections.None? ==> after == availability && Adopted(trials, 0, policy.minGainRatio)
    ensures selections.Some? ==>
              && 1 <= |selections.value| <= |trials|
              && Adopted(trials, |selections.value|, policy.minGainRatio)
              && trials[|selections.value| - 1].selections == selections.value
              && trials[|selections.value| - 1].after == after
    ensures match selections
            case Some(chosen) =>
              && |chosen| <= policy.maxShards
              && TrialOf(CountJob(role, dependencies, policy, |chosen|, readyMs, firstId), availability, context,
                         Feasible(chosen, after, LatestFinish(chosen, readyMs) - readyMs))
            case None =>
              var units := PartitionUnits(role.implementations[0].task, policy.partition, context.objects);
              units.Some? ==> forall count: u32 :: 1 <= count <= MaxShards(policy, units.value) ==>
                                CountInfeasible(role, dependencies, policy, context, count)
  {
    hide Evaluated, TrialOf, PartitionUnits, WorthAdopting, CountInfeasible, LatestFinish;
    trials, after, selections := [], availability, None;
    NothingEvaluated(role, dependencies, policy, readyMs, availability, context, firstId);
    var units := PartitionUnits(role.implementations[0].task, policy.partition, context.objects);
    if units.None? {
      return;
    }
    var cap := MaxShards(policy, units.value);
    var winner, current := 0, 0.0;
    for count: int := 1 to cap as int + 1
      invariant |trials| == count - 1
      invariant Evaluated(role, dependencies, policy, readyMs, availability, context, firstId, trials)
      invariant Adopted(trials, winner, policy.minGainRatio)
      invariant if winner == 0 then selections.None? && after == availability
                else selections.Some? && current >= 0.0 && |selections.value| == winner
                     && trials[winner - 1] == Feasible(selections.value, after, current)
    {
      var trial := EvaluateCount(CountJob(role, dependencies, policy, count, readyMs, firstId), availability, context);
      AdoptOrKeep(trials, winner, policy.minGainRatio, trial);
      if trial.Feasible? && (winner == 0 || WorthAdopting(trial.incrementalMs, current, policy.minGainRatio)) {
        winner, current := count, trial.incrementalMs;
        selections, after := Some(trial.selections), trial.after;
      }
      EvaluatedPushed(role, dependencies, policy, readyMs, availability, context, firstId, trials, trial);
      trials := trials + [trial];
    }
    if winner == 0 {
      NoneFeasible(role, dependencies, policy, readyMs, availability, context, firstId, trials);
    } else {
      WinnerIsTrial(role, dependencies, policy, readyMs, availability, context, firstId, trials, winner);
    }
  }

  // ----- what was chosen, or why nothing was -----

  /** Placed greedily, under the fixed count or the adopted one. */
  ghost predicate ShardsChosen(role: RoleSpec, dependencies: seq<ObjectId>, readyMs: real, availability: Availability,
                               context: Context, firstId: TaskId, chosen: seq<ShardSelection>)
    requires role.Logical?
  {
    match role.shards
    case Fixed(count) =>
      |chosen| == count
      && exists picks :: GreedySelections(ShardJob(role, dependencies, count, None, readyMs, firstId), availability, context, chosen, picks)
    case Auto(policy) =>
      exists trials :: AdoptedFrom(role, dependencies, policy, readyMs, availability, context, firstId, chosen, trials)
  }

  /** `trials` evaluates every count up to the cap, and the count of `chosen` is the adopted one. */
  ghost predicate AdoptedFrom(role: RoleSpec, dependencies: seq<ObjectId>, policy: AutoShardPolicy, readyMs: real,
                              availability: Availability, context: Context, firstId: TaskId,
                              chosen: seq<ShardSelection>, trials: seq<Trial>)
    requires role.Logical?
  {
    && role.implementations != []
    && PartitionUnits(role.implementations[0].task, policy.partition, context.objects).Some?
    && |trials| == MaxShards(policy, PartitionUnits(role.implementations[0].task, policy.partition, context.objects).value)
    && Evaluated(role, dependencies, policy, readyMs, availability, context, firstId, trials)
    && 1 <= |chosen| && Adopted(trials, |chosen|, policy.minGainRatio) && trials[|chosen| - 1].selections == chosen
  }

  /** Under the fixed count, or under every count allowed, some shard cannot be partitioned or run anywhere. */
  ghost predicate CannotFanOut(role: RoleSpec, dependencies: seq<ObjectId>, context: Context)
    requires role.Logical? && role.implementations != []
  {
    match role.shards
    case Fixed(count) =>
      exists firstId, readyMs, k: u32 ::
        k < count && ShardInfeasible(ShardJob(role, dependencies, count, None, readyMs, firstId), context, k)
    case Auto(policy) =>
      var units := PartitionUnits(role.implementations[0].task, policy.partition, context.objects);
      units.Some? ==> forall count: u32 :: 1 <= count <= MaxShards(policy, units.value) ==>
                        CountInfeasible(role, dependencies, policy, context, count)
  }

  /** An auto-chosen shard is empty only when the whole input is. */
  lemma AutoShardsNotEmpty(policy: AutoShardPolicy, units: u64, count: u32, index: u32)
    requires 1 <= count <= MaxShards(policy, units) && index < count
    ensures units > 0 ==> PartitionBounds(units, index, count).1 > 0
    ensures units == 0 ==> count == 1
  {
    if units > 0 { ShardsNotEmpty(units, index, count); }
  }
}
