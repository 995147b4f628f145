/** The dynamic program over a chain of single-shard roles, exact over all paths. */
module ChainPlanner {
  import opened Wrappers
  import opened Core
  import opened Scheduler

  // ----- costs along a chain -----

  /** Milliseconds that may be infinite: a link without bandwidth saves any amount of transfer. */
  datatype Milliseconds = Finite(ms: real) | Infinite
  {
    function Plus(other: Milliseconds): Milliseconds
    {
      if Finite? && other.Finite? then Finite(ms + other.ms) else Infinite
    }

    predicate AtLeast(other: Milliseconds)
    {
      Infinite? || (other.Finite? && ms >= other.ms)
    }
  }

  /** `intermediate` stands for the fresh ids under which predicted stage outputs are entered. */
  datatype FusionContext = FusionContext(planning: Context, minimumSavedMs: real, intermediate: ObjectId)

  datatype StateKey = StateKey(implementation: nat, resource: ResourceId, crosses: bool, triggers: bool)

  datatype ChainState = ChainState(
    implementation: nat, resource: ResourceId, outputBytes: u64, totalMs: real,
    crossTransferMs: Milliseconds, crosses: bool, triggers: bool)
  {
    function Key(): StateKey
    {
      StateKey(implementation, resource, crosses, triggers)
    }

    /** Cheaper, or as cheap and avoiding at least as much transfer. */
    predicate NoWorseThan(other: ChainState)
    {
      totalMs < other.totalMs || (totalMs == other.totalMs && crossTransferMs.AtLeast(other.crossTransferMs))
    }
  }

  /** One role run by an implementation on a resource, both given by position. */
  datatype Choice = Choice(implementation: nat, resource: nat)

  /** Where one hop leads. The planner gives up altogether on a feasible hop without a link. */
  datatype Hop = Reached(state: ChainState) | Infeasible | NoLink

  predicate InRange(role: RoleSpec, choice: Choice, context: FusionContext)
  {
    choice.implementation < |role.Templates()| && choice.resource < |context.planning.resources|
  }

  function CostOf(template: TaskTemplate, inputs: seq<ObjectId>, resource: ResourceDescriptor, context: Context): Option<real>
  {
    match PlacementCost(template.Instantiate(0, inputs), resource, context)
    case None => None
    case Some(cost) => Some(cost.totalMs)
  }

  /** The planning context in which the previous role's output exists where that role ran. */
  function Predicted(previous: ChainState, context: FusionContext): Context
  {
    context.planning.(objects := context.planning.objects[context.intermediate :=
      ObjectMetadata(context.intermediate, previous.outputBytes, None, None, [previous.resource], None)])
  }

  function PlaceFirst(role: RoleSpec, dependencies: seq<ObjectId>, choice: Choice, context: FusionContext): Hop
  {
    if !InRange(role, choice, context) then Infeasible
    else
      var template, resource := role.Templates()[choice.implementation], context.planning.resources[choice.resource];
      match CostOf(template, dependencies, resource, context.planning)
      case None => Infeasible
      case Some(totalMs) =>
        Reached(ChainState(choice.implementation, resource.id, template.cost.outputBytes, totalMs, Finite(0.0), false, false))
  }

  /** The transfer a link would cost an intermediate, and whether that is worth fusing for. */
  function SavedTransfer(bytes: u64, link: LinkProfile): Milliseconds
  {
    match link.TransferTimeMs(bytes)
    case None => Infinite
    case Some(ms) => Finite(ms)
  }

  function Advance(previous: ChainState, role: RoleSpec, choice: Choice, context: FusionContext): Hop
  {
    if !InRange(role, choice, context) then Infeasible
    else
      var template, resource := role.Templates()[choice.implementation], context.planning.resources[choice.resource];
      match CostOf(template, [context.intermediate], resource, Predicted(previous, context))
      case None => Infeasible
      case Some(ms) =>
        var next := ChainState(choice.implementation, resource.id, template.cost.outputBytes, previous.totalMs + ms,
                               previous.crossTransferMs, previous.crosses, previous.triggers);
        if previous.resource == resource.id then Reached(next)
        else
          match Link(context.planning.topology, previous.resource, resource.id)
          case None => NoLink
          case Some(link) =>
            var saved := SavedTransfer(previous.outputBytes, link);
            Reached(next.(crossTransferMs := previous.crossTransferMs.Plus(saved), crosses := true,
                          triggers := previous.triggers || saved.AtLeast(Finite(context.minimumSavedMs))))
  }

  // ----- paths -----

  /** A chain is entered with its first role, or behind a fused prefix that has already run. */
  datatype Origin = FirstRole(role: RoleSpec, dependencies: seq<ObjectId>) | Behind(seed: ChainState)

  function Enter(origin: Origin, head: Choice, context: FusionContext): Hop
  {
    match origin
    case FirstRole(role, dependencies) => PlaceFirst(role, dependencies, head, context)
    case Behind(seed) => Reached(seed)
  }

  /** Where the path with these choices leads. */
  function Follow(origin: Origin, roles: seq<RoleSpec>, head: Choice, path: seq<Choice>, context: FusionContext): Hop
    requires |path| <= |roles|
  {
    if path == [] then Enter(origin, head, context)
    else
      var n := |path| - 1;
      match Follow(origin, roles, head, path[..n], context)
      case Reached(previous) => Advance(previous, roles[n], path[n], context)
      case stop => stop
  }

  ghost predicate ReachedBy(origin: Origin, roles: seq<RoleSpec>, k: nat, context: FusionContext, state: ChainState)
    requires k <= |roles|
  {
    exists head, path :: |path| == k && Follow(origin, roles, head, path, context) == Reached(state)
  }

  /** Some hop within the first `k` roles is feasible but has no link. */
  ghost predicate LinkMissing(origin: Origin, roles: seq<RoleSpec>, k: nat, context: FusionContext)
    requires k <= |roles|
  {
    exists head, path :: |path| <= k && Follow(origin, roles, head, path, context) == NoLink
  }

  ghost predicate Unreachable(origin: Origin, roles: seq<RoleSpec>, k: nat, context: FusionContext)
    requires k <= |roles|
  {
    forall state :: !ReachedBy(origin, roles, k, context, state)
  }

  // ----- the state table -----

  type States = map<StateKey, ChainState>

  predicate Dominated(states: States, state: ChainState)
  {
    state.Key() in states && states[state.Key()].NoWorseThan(state)
  }

  /** The table holds, for each key some path of length `k` reaches, the best state reached with it. */
  ghost predicate Covers(states: States, origin: Origin, roles: seq<RoleSpec>, k: nat, context: FusionContext)
    requires k <= |roles|
  {
    && (forall key :: key in states ==> states[key].Key() == key && ReachedBy(origin, roles, k, context, states[key]))
    && (forall state :: ReachedBy(origin, roles, k, context, state) ==> Dominated(states, state))
  }

  method InsertBetter(states: States, candidate: ChainState) returns (states': States)
    ensures Dominated(states', candidate)
    ensures forall state :: Dominated(states, state) ==> Dominated(states', state)
    ensures forall key :: key in states' ==> (key in states && states'[key] == states[key]) || states'[key] == candidate
    ensures forall key :: key in states' && states'[key] == candidate && key !in states ==> key == candidate.Key()
    ensures (forall key :: key in states ==> states[key].Key() == key) ==> forall key :: key in states' ==> states'[key].Key() == key
  {
    var key := candidate.Key();
    var replace := key !in states
      || candidate.totalMs < states[key].totalMs
      || (candidate.totalMs == states[key].totalMs
          && candidate.crossTransferMs != states[key].crossTransferMs
          && candidate.crossTransferMs.AtLeast(states[key].crossTransferMs));
    states' := if replace then states[key := candidate] else states;
  }

  // ----- advancing the table by one role -----

  /** The hop has been taken into account. */
  ghost predicate Handled(next: States, previous: ChainState, role: RoleSpec, choice: Choice, context: FusionContext)
  {
    match Advance(previous, role, choice, context)
    case Reached(state) => Dominated(next, state)
    case Infeasible => true
    case NoLink => false
  }

  /** Every state in the table comes from `previous` by one hop, or was there before. */
  ghost predicate ComesFrom(next: States, next': States, previous: ChainState, role: RoleSpec, context: FusionContext)
  {
    forall key :: key in next' ==>
      && next'[key].Key() == key
      && ((key in next && next[key] == next'[key])
          || exists choice :: Advance(previous, role, choice, context) == Reached(next'[key]))
  }

  ghost predicate Keyed(states: States)
  {
    forall key :: key in states ==> states[key].Key() == key
  }

  lemma OutOfRange(previous: ChainState, role: RoleSpec, context: FusionContext)
    ensures forall choice :: !InRange(role, choice, context) ==> Advance(previous, role, choice, context) == Infeasible
  {
  }

  method AdvanceFrom(previous: ChainState, role: RoleSpec, context: FusionContext, next: States)
    returns (next': Option<States>)
    requires Keyed(next)
    ensures next'.None? ==> exists choice :: Advance(previous, role, choice, context) == NoLink
    ensures next'.Some? ==>
              && Keyed(next'.value)
              && (forall choice :: Handled(next'.value, previous, role, choice, context))
              && (forall state :: Dominated(next, state) ==> Dominated(next'.value, state))
              && ComesFrom(next, next'.value, previous, role, context)
  {
    hide Advance;
    OutOfRange(previous, role, context);
    var states := next;
    for i := 0 to |role.Templates()|
      invariant Keyed(states) && ComesFrom(next, states, previous, role, context)
      invariant forall state :: Dominated(next, state) ==> Dominated(states, state)
      invariant forall choice: Choice :: choice.implementation < i ==> Handled(states, previous, role, choice, context)
    {
      for r := 0 to |context.planning.resources|
        invariant Keyed(states) && ComesFrom(next, states, previous, role, context)
        invariant forall state :: Dominated(next, state) ==> Dominated(states, state)
        invariant forall choice: Choice :: choice.implementation < i ==> Handled(states, previous, role, choice, context)
        invariant forall choice: Choice :: choice.implementation == i && choice.resource < r ==>
                    Handled(states, previous, role, choice, context)
      {
        match Advance(previous, role, Choice(i, r), context) {
          case Reached(state) => states := InsertBetter(states, state);
          case Infeasible =>
          case NoLink => return None;
        }
      }
    }
    return Some(states);
  }

  /** Hops from a key's best state stand for the hops from every state with that key. */
  lemma HopIsMonotone(best: ChainState, other: ChainState, role: RoleSpec, choice: Choice, context: FusionContext)
    requires best.Key() == other.Key() && best.outputBytes == other.outputBytes && best.NoWorseThan(other)
    ensures match Advance(other, role, choice, context)
            case Reached(state) =>
              var hop := Advance(best, role, choice, context);
              hop.Reached? && hop.state.Key() == state.Key() && hop.state.NoWorseThan(state)
            case stop => Advance(best, role, choice, context) == stop
  {
    hide CostOf, SavedTransfer;
    assert Predicted(best, context) == Predicted(other, context);
  }

  /** The bytes handed on after `k` roles depend on the last implementation alone. */
  function BytesAfter(origin: Origin, roles: seq<RoleSpec>, k: nat, implementation: nat): u64
    requires k <= |roles|
  {
    if k == 0 && origin.Behind? then origin.seed.outputBytes
    else
      var templates := if k == 0 then origin.role.Templates() else roles[k - 1].Templates();
      if implementation < |templates| then templates[implementation].cost.outputBytes else 0
  }

  lemma StateBytes(origin: Origin, roles: seq<RoleSpec>, k: nat, context: FusionContext, state: ChainState)
    requires k <= |roles| && ReachedBy(origin, roles, k, context, state)
    ensures state.outputBytes == BytesAfter(origin, roles, k, state.implementation)
  {
    hide CostOf, SavedTransfer, Predicted;
    var head, path :| |path| == k && Follow(origin, roles, head, path, context) == Reached(state);
  }

  lemma OutputBytesOfKey(origin: Origin, roles: seq<RoleSpec>, k: nat, context: FusionContext, a: ChainState, b: ChainState)
    requires k <= |roles| && ReachedBy(origin, roles, k, context, a) && ReachedBy(origin, roles, k, context, b)
    requires a.Key() == b.Key()
    ensures a.outputBytes == b.outputBytes
  {
    hide ReachedBy;
    StateBytes(origin, roles, k, context, a);
    StateBytes(origin, roles, k, context, b);
  }

  lemma PathExtends(origin: Origin, roles: seq<RoleSpec>, k: nat, context: FusionContext, previous: ChainState,
                    choice: Choice)
    requires k < |roles| && ReachedBy(origin, roles, k, context, previous)
    ensures match Advance(previous, roles[k], choice, context)
            case Reached(state) => ReachedBy(origin, roles, k + 1, context, state)
            case NoLink => LinkMissing(origin, roles, k + 1, context)
            case Infeasible => true
  {
    hide Advance;
    var head, path :| |path| == k && Follow(origin, roles, head, path, context) == Reached(previous);
    assert (path + [choice])[..k] == path;
    assert |path + [choice]| == k + 1;
    assert Follow(origin, roles, head, path + [choice], context) == Advance(previous, roles[k], choice, context);
  }

  lemma PathSplits(origin: Origin, roles: seq<RoleSpec>, k: nat, context: FusionContext, state: ChainState)
    returns (previous: ChainState, choice: Choice)
    requires k < |roles| && ReachedBy(origin, roles, k + 1, context, state)
    ensures ReachedBy(origin, roles, k, context, previous)
    ensures Advance(previous, roles[k], choice, context) == Reached(state)
  {
    hide Advance;
    var head, path :| |path| == k + 1 && Follow(origin, roles, head, path, context) == Reached(state);
    previous, choice := Follow(origin, roles, head, path[..k], context).state, path[k];
  }

  /** All hops from all states of the table have been taken into account. */
  ghost predicate AllHandled(states: States, next: States, role: RoleSpec, context: FusionContext)
  {
    forall key, choice :: key in states ==> Handled(next, states[key], role, choice, context)
  }

  ghost predicate AllComeFrom(states: States, next: States, role: RoleSpec, context: FusionContext)
  {
    forall key :: key in next ==>
      next[key].Key() == key
      && exists previous, choice :: previous in states && Advance(states[previous], role, choice, context) == Reached(next[key])
  }

  lemma AdvancedCovers(states: States, next: States, origin: Origin, roles: seq<RoleSpec>, k: nat, context: FusionContext)
    requires k < |roles| && Covers(states, origin, roles, k, context)
    requires AllHandled(states, next, roles[k], context) && AllComeFrom(states, next, roles[k], context)
    ensures Covers(next, origin, roles, k + 1, context)
  {
    hide Advance, ReachedBy;
    forall key | key in next ensures ReachedBy(origin, roles, k + 1, context, next[key]) {
      var previous, choice :| previous in states && Advance(states[previous], roles[k], choice, context) == Reached(next[key]);
      PathExtends(origin, roles, k, context, states[previous], choice);
    }
    forall state | ReachedBy(origin, roles, k + 1, context, state) ensures Dominated(next, state) {
      var previous, choice := PathSplits(origin, roles, k, context, state);
      assert Dominated(states, previous);
      var best := states[previous.Key()];
      OutputBytesOfKey(origin, roles, k, context, best, previous);
      HopIsMonotone(best, previous, roles[k], choice, context);
      assert Handled(next, states[previous.Key()], roles[k], choice, context);
    }
  }

  /** No hop of the role is feasible without a link when the best states' hops all have one. */
  lemma AdvancedHasLinks(states: States, next: States, origin: Origin, roles: seq<RoleSpec>, k: nat, context: FusionContext)
    requires k < |roles| && Covers(states, origin, roles, k, context) && !LinkMissing(origin, roles, k, context)
    requires AllHandled(states, next, roles[k], context)
    ensures !LinkMissing(origin, roles, k + 1, context)
  {
    hide Advance, Dominated;
    forall head, path | |path| <= k + 1 ensures Follow(origin, roles, head, path, context) != NoLink {
      if |path| == k + 1 && Follow(origin, roles, head, path[..k], context).Reached? {
        var previous := Follow(origin, roles, head, path[..k], context).state;
        assert ReachedBy(origin, roles, k, context, previous);
        DominatorHops(states, next, origin, roles, k, context, previous, path[k]);
      } else if |path| == k + 1 {
        assert Follow(origin, roles, head, path[..k], context) != NoLink;
      }
    }
  }

  lemma DominatorHops(states: States, next: States, origin: Origin, roles: seq<RoleSpec>, k: nat, context: FusionContext,
                      previous: ChainState, choice: Choice)
    requires k < |roles| && Covers(states, origin, roles, k, context) && ReachedBy(origin, roles, k, context, previous)
    requires AllHandled(states, next, roles[k], context)
    ensures Advance(previous, roles[k], choice, context) != NoLink
  {
    hide Advance, ReachedBy;
    assert Dominated(states, previous);
    var best := states[previous.Key()];
    OutputBytesOfKey(origin, roles, k, context, best, previous);
    HopIsMonotone(best, previous, roles[k], choice, context);
    assert Handled(next, states[previous.Key()], roles[k], choice, context);
  }

  /** One role further: `None` exactly when a feasible hop lacks a link or the role cannot be reached. */
  method AdvanceChainStates(states: States, ghost origin: Origin, ghost roles: seq<RoleSpec>, ghost k: nat,
                            role: RoleSpec, context: FusionContext) returns (next: Option<States>)
    requires k < |roles| && role == roles[k]
    requires Covers(states, origin, roles, k, context) && !LinkMissing(origin, roles, k, context)
    ensures next.Some? ==>
              && Covers(next.value, origin, roles, k + 1, context) && next.value != map[]
              && !LinkMissing(origin, roles, k + 1, context)
    ensures next.None? ==>
              || LinkMissing(origin, roles, k + 1, context)
              || Unreachable(origin, roles, k + 1, context)
  {
    hide Advance, ReachedBy, LinkMissing, Dominated;
    var table: States := map[];
    var remaining := states.Keys;
    while remaining != {}
      invariant remaining <= states.Keys
      invariant AllComeFrom(states, table, role, context)
      invariant forall key, choice :: key in states && key !in remaining ==> Handled(table, states[key], role, choice, context)
      decreases |remaining|
    {
      var key :| key in remaining;
      remaining := remaining - {key};
      var advanced := AdvanceFrom(states[key], role, context, table);
      if advanced.None? {
        var choice :| Advance(states[key], role, choice, context) == NoLink;
        PathExtends(origin, roles, k, context, states[key], choice);
        return None;
      }
      forall other, choice | other in states && other !in remaining && other != key
        ensures Handled(advanced.value, states[other], role, choice, context)
      {
        assert Handled(table, states[other], role, choice, context);
      }
      table := advanced.value;
    }
    AdvancedCovers(states, table, origin, roles, k, context);
    AdvancedHasLinks(states, table, origin, roles, k, context);
    if table == map[] {
      NothingCovered(table, origin, roles, k + 1, context);
      return None;
    }
    return Some(table);
  }

  lemma NothingCovered(states: States, origin: Origin, roles: seq<RoleSpec>, k: nat, context: FusionContext)
    requires k <= |roles| && Covers(states, origin, roles, k, context) && states == map[]
    ensures Unreachable(origin, roles, k, context)
  {
    hide ReachedBy;
  }

  // ----- the best paths -----

  /** Cheapest state of the table; ties are broken by the iteration order, which is arbitrary. */
  method Cheapest(states: States, crossingOnly: bool) returns (best: Option<ChainState>)
    ensures best.None? <==> forall key :: key in states ==> crossingOnly && !states[key].crosses
    ensures best.Some? ==>
              && (exists key :: key in states && states[key] == best.value)
              && (crossingOnly ==> best.value.crosses)
              && forall key :: key in states && (crossingOnly ==> states[key].crosses) ==> best.value.totalMs <= states[key].totalMs
  {
    best := None;
    var remaining := states.Keys;
    while remaining != {}
      invariant remaining <= states.Keys
      invariant best.None? ==> forall key :: key in states && key !in remaining ==> crossingOnly && !states[key].crosses
      invariant best.Some? ==>
                  && (exists key :: key in states && states[key] == best.value)
                  && (crossingOnly ==> best.value.crosses)
                  && forall key :: key in states && key !in remaining && (crossingOnly ==> states[key].crosses) ==>
                       best.value.totalMs <= states[key].totalMs
      decreases |remaining|
    {
      var key :| key in remaining;
      remaining := remaining - {key};
      if !crossingOnly || states[key].crosses {
        if best.None? || states[key].totalMs < best.value.totalMs {
          best := Some(states[key]);
        }
      }
    }
  }

  datatype ChainPaths = ChainPaths(best: ChainState, bestCrossResource: Option<ChainState>)

  /** No path over all roles is cheaper, and some path costs exactly this. */
  ghost predicate Minimal(origin: Origin, roles: seq<RoleSpec>, context: FusionContext, best: ChainState)
  {
    && ReachedBy(origin, roles, |roles|, context, best)
    && forall state :: ReachedBy(origin, roles, |roles|, context, state) ==> best.totalMs <= state.totalMs
  }

  /** The same among the paths with at least one hop between resources, if there are any. */
  ghost predicate MinimalCrossing(origin: Origin, roles: seq<RoleSpec>, context: FusionContext, best: Option<ChainState>)
  {
    match best
    case None => forall state :: ReachedBy(origin, roles, |roles|, context, state) ==> !state.crosses
    case Some(crossing) =>
      && crossing.crosses && ReachedBy(origin, roles, |roles|, context, crossing)
      && (forall state :: ReachedBy(origin, roles, |roles|, context, state) && state.crosses ==> crossing.totalMs <= state.totalMs)
      // Among the paths that agree in key and cost, it is one that avoids the most transfer.
      && (forall state :: ReachedBy(origin, roles, |roles|, context, state) && state.Key() == crossing.Key() ==>
            crossing.NoWorseThan(state))
  }

  /** The planner finds a path at all: some path reaches the end and no feasible hop lacks its link. */
  ghost predicate Plannable(origin: Origin, roles: seq<RoleSpec>, context: FusionContext)
  {
    !LinkMissing(origin, roles, |roles|, context) && !Unreachable(origin, roles, |roles|, context)
  }

  lemma CheapestIsMinimal(states: States, origin: Origin, roles: seq<RoleSpec>, context: FusionContext, best: ChainState)
    requires Covers(states, origin, roles, |roles|, context)
    requires exists key :: key in states && states[key] == best
    requires forall key :: key in states ==> best.totalMs <= states[key].totalMs
    ensures Minimal(origin, roles, context, best)
  {
    hide ReachedBy;
    forall state | ReachedBy(origin, roles, |roles|, context, state) ensures best.totalMs <= state.totalMs {
      assert Dominated(states, state);
    }
  }

  lemma CheapestCrossingIsMinimal(states: States, origin: Origin, roles: seq<RoleSpec>, context: FusionContext,
                                  best: Option<ChainState>)
    requires Covers(states, origin, roles, |roles|, context)
    requires best.None? ==> forall key :: key in states ==> !states[key].crosses
    requires best.Some? ==>
               && (exists key :: key in states && states[key] == best.value) && best.value.crosses
               && forall key :: key in states && states[key].crosses ==> best.value.totalMs <= states[key].totalMs
    ensures MinimalCrossing(origin, roles, context, best)
  {
    hide ReachedBy;
    forall state | ReachedBy(origin, roles, |roles|, context, state) && state.crosses
      ensures best.Some? && best.value.totalMs <= state.totalMs
    {
      assert Dominated(states, state);
    }
    if best.Some? {
      forall state | ReachedBy(origin, roles, |roles|, context, state) && state.Key() == best.value.Key()
        ensures best.value.NoWorseThan(state)
      {
        assert Dominated(states, state);
      }
    }
  }

  /** Runs the table from `states` through the remaining roles. */
  method AdvanceThrough(states: States, ghost origin: Origin, roles: seq<RoleSpec>, context: FusionContext)
    returns (final: Option<States>)
    requires Covers(states, origin, roles, 0, context) && states != map[] && !LinkMissing(origin, roles, 0, context)
    ensures final.Some? <==> Plannable(origin, roles, context)
    ensures final.Some? ==> Covers(final.value, origin, roles, |roles|, context) && final.value != map[]
  {
    hide Covers, LinkMissing, ReachedBy;
    var table := states;
    for k := 0 to |roles|
      invariant Covers(table, origin, roles, k, context) && table != map[] && !LinkMissing(origin, roles, k, context)
    {
      var next := AdvanceChainStates(table, origin, roles, k, roles[k], context);
      if next.None? {
        StopsForGood(origin, roles, k + 1, context);
        return None;
      }
      table := next.value;
    }
    SomethingReached(table, origin, roles, |roles|, context);
    return Some(table);
  }

  lemma SomethingReached(states: States, origin: Origin, roles: seq<RoleSpec>, k: nat, context: FusionContext)
    requires k <= |roles| && Covers(states, origin, roles, k, context) && states != map[]
    ensures !Unreachable(origin, roles, k, context)
  {
    hide ReachedBy;
    var key :| key in states;
    assert ReachedBy(origin, roles, k, context, states[key]);
  }

  /** What stops a prefix of the chain stops the whole chain. */
  lemma {:induction false} StopsForGood(origin: Origin, roles: seq<RoleSpec>, k: nat, context: FusionContext)
    requires k <= |roles| && (LinkMissing(origin, roles, k, context) || Unreachable(origin, roles, k, context))
    ensures !Plannable(origin, roles, context)
    decreases |roles| - k
  {
    hide Advance;
    if k < |roles| {
      if LinkMissing(origin, roles, k, context) {
        var head, path :| |path| <= k && Follow(origin, roles, head, path, context) == NoLink;
        assert LinkMissing(origin, roles, k + 1, context);
      } else {
        var next := k + 1;
        forall state ensures !ReachedBy(origin, roles, next, context, state) {
          if ReachedBy(origin, roles, next, context, state) {
            var previous, choice := PathSplits(origin, roles, k, context, state);
          }
        }
      }
      StopsForGood(origin, roles, k + 1, context);
    }
  }

  method FirstStates(role: RoleSpec, dependencies: seq<ObjectId>, context: FusionContext, ghost roles: seq<RoleSpec>)
    returns (states: States)
    ensures Covers(states, FirstRole(role, dependencies), roles, 0, context)
    ensures !LinkMissing(FirstRole(role, dependencies), roles, 0, context)
  {
    hide CostOf;
    states := map[];
    for i := 0 to |role.Templates()|
      invariant FirstCovered(states, role, dependencies, context, i, 0)
    {
      for r := 0 to |context.planning.resources|
        invariant FirstCovered(states, role, dependencies, context, i, r)
      {
        match PlaceFirst(role, dependencies, Choice(i, r), context) {
          case Reached(state) => states := InsertBetter(states, state);
          case Infeasible =>
        }
      }
    }
    FirstTableCovers(states, role, dependencies, context, roles);
  }

  predicate Placed(states: States, role: RoleSpec, dependencies: seq<ObjectId>, head: Choice, context: FusionContext)
  {
    match PlaceFirst(role, dependencies, head, context)
    case Reached(state) => Dominated(states, state)
    case _ => true
  }

  /** All placements of the first role with implementation below `i`, or `i` itself and resource below `r`. */
  ghost predicate FirstCovered(states: States, role: RoleSpec, dependencies: seq<ObjectId>, context: FusionContext, i: nat, r: nat)
  {
    && (forall key :: key in states ==>
          states[key].Key() == key && exists head :: PlaceFirst(role, dependencies, head, context) == Reached(states[key]))
    && forall head: Choice :: head.implementation < i || (head.implementation == i && head.resource < r) ==>
         Placed(states, role, dependencies, head, context)
  }

  lemma FirstTableCovers(states: States, role: RoleSpec, dependencies: seq<ObjectId>, context: FusionContext, roles: seq<RoleSpec>)
    requires FirstCovered(states, role, dependencies, context, |role.Templates()|, 0)
    ensures Covers(states, FirstRole(role, dependencies), roles, 0, context)
    ensures !LinkMissing(FirstRole(role, dependencies), roles, 0, context)
  {
    hide CostOf, Advance;
    var origin := FirstRole(role, dependencies);
    forall key | key in states ensures ReachedBy(origin, roles, 0, context, states[key]) {
      var head :| PlaceFirst(role, dependencies, head, context) == Reached(states[key]);
      assert Follow(origin, roles, head, [], context) == Reached(states[key]);
    }
    forall state | ReachedBy(origin, roles, 0, context, state) ensures Dominated(states, state) {
      var head, path :| |path| == 0 && Follow(origin, roles, head, path, context) == Reached(state);
      assert path == [];
      assert Placed(states, role, dependencies, head, context);
    }
  }

  /**
   * The planner's separate paths are exact: it answers exactly when some path is feasible and no
   * feasible hop lacks its link, with a cheapest path over all implementations and resources and a
   * cheapest one among those that change resources.
   */
  method SeparateChainPaths(chain: seq<RoleSpec>, dependencies: seq<ObjectId>, context: FusionContext)
    returns (paths: Option<ChainPaths>)
    ensures paths.Some? <==> chain != [] && Plannable(FirstRole(chain[0], dependencies), chain[1..], context)
    ensures paths.Some? ==>
              && Minimal(FirstRole(chain[0], dependencies), chain[1..], context, paths.value.best)
              && MinimalCrossing(FirstRole(chain[0], dependencies), chain[1..], context, paths.value.bestCrossResource)
  {
    hide Covers, LinkMissing, ReachedBy, Minimal, MinimalCrossing, Plannable;
    if chain == [] {
      return None;
    }
    ghost var origin := FirstRole(chain[0], dependencies);
    var states := FirstStates(chain[0], dependencies, context, chain[1..]);
    if states == map[] {
      NothingCovered(states, origin, chain[1..], 0, context);
      StopsForGood(origin, chain[1..], 0, context);
      return None;
    }
    var final := AdvanceThrough(states, origin, chain[1..], context);
    if final.None? {
      return None;
    }
    var best := Cheapest(final.value, false);
    if best.None? {
      return None;
    }
    var crossing := Cheapest(final.value, true);
    CheapestIsMinimal(final.value, origin, chain[1..], context, best.value);
    CheapestCrossingIsMinimal(final.value, origin, chain[1..], context, crossing);
    return Some(ChainPaths(best.value, crossing));
  }

  const USIZE_MAX: nat := 0xFFFF_FFFF_FFFF_FFFF

  function Seed(outputBytes: u64, resource: ResourceId, totalMs: real): ChainState
  {
    ChainState(USIZE_MAX, resource, outputBytes, totalMs, Finite(0.0), false, false)
  }

  lemma SeedCovers(seed: ChainState, roles: seq<RoleSpec>, context: FusionContext)
    ensures Covers(map[seed.Key() := seed], Behind(seed), roles, 0, context)
    ensures !LinkMissing(Behind(seed), roles, 0, context)
  {
    hide Advance;
    assert Follow(Behind(seed), roles, Choice(0, 0), [], context) == Reached(seed);
  }

  /** The cheapest completion of a chain behind a fused prefix. */
  method BestChainTailTotal(tail: seq<RoleSpec>, outputBytes: u64, resource: ResourceId, initialMs: real, context: FusionContext)
    returns (total: Option<real>)
    ensures total.Some? <==> Plannable(Behind(Seed(outputBytes, resource, initialMs)), tail, context)
    ensures total.Some? ==>
              exists last :: Minimal(Behind(Seed(outputBytes, resource, initialMs)), tail, context, last)
                             && last.totalMs == total.value
  {
    hide Covers, LinkMissing, ReachedBy, Minimal, Plannable;
    var seed := Seed(outputBytes, resource, initialMs);
    SeedCovers(seed, tail, context);
    var states := map[seed.Key() := seed];
    assert seed.Key() in states;
    var final := AdvanceThrough(states, Behind(seed), tail, context);
    if final.None? {
      return None;
    }
    var best := Cheapest(final.value, false);
    if best.None? {
      return None;
    }
    CheapestIsMinimal(final.value, Behind(seed), tail, context, best.value);
    return Some(best.value.totalMs);
  }

  // ----- when the planner gives up -----

  /** A feasible hop without a link moves nothing: only an empty intermediate needs no transfer. */
  lemma MissingLinkMovesNothing(previous: ChainState, role: RoleSpec, choice: Choice, context: FusionContext)
    requires Advance(previous, role, choice, context) == NoLink
    ensures previous.outputBytes == 0
  {
    var template, resource := role.Templates()[choice.implementation], context.planning.resources[choice.resource];
    var task := template.Instantiate(0, [context.intermediate]);
    var planning := Predicted(previous, context);
    var last := |template.inputs|;
    assert task.inputs[last] == context.intermediate;
    if previous.outputBytes != 0 {
      UnreachableInput(task, last, resource, planning, previous);
    }
  }

  lemma UnreachableInput(task: TaskSpec, index: nat, resource: ResourceDescriptor, planning: Context, previous: ChainState)
    requires index == |task.inputs| - 1 && task.shard.None? && InputsKnown(task, planning.objects)
    requires planning.objects[task.inputs[index]].locations == [previous.resource]
    requires planning.objects[task.inputs[index]].sizeBytes == previous.outputBytes != 0
    requires previous.resource != resource.id && Link(planning.topology, previous.resource, resource.id).None?
    ensures TotalTransferMs(task, |task.inputs|, resource.id, planning.objects, planning.topology).None?
  {
    var locations := [previous.resource];
    assert locations[..0] == [];
    assert BestTransfer(planning.topology, locations, resource.id, previous.outputBytes).None?;
  }

  /** Two resources without a link, and two roles exchanging nothing. */
  function UnlinkedContext(): FusionContext
  {
    var a := ResourceDescriptor(0, 1, X86_64, 1, 0, [], {}, 1.0, 0.0, 0.0, 0.0);
    FusionContext(Context(1.0, [a, a.(id := 1)], map[], []), 20.0, 0)
  }

  function SilentRole(name: string, dependsOn: seq<string>): RoleSpec
  {
    var template := TaskTemplate("builtin:concat", "run", [], [], ResourceRequirements(None, 0, None, {}), Pure, CostHint(1.0, 0));
    Logical(name, dependsOn, [RoleImplementation("only", template)], Fixed(1), None)
  }

  /** Staying on one resource is feasible here, yet the planner finds no path at all. */
  lemma GivesUpDespiteFeasiblePath()
    ensures var origin, roles := FirstRole(SilentRole("first", []), []), [SilentRole("second", ["first"])];
            && !Unreachable(origin, roles, 1, UnlinkedContext())
            && !Plannable(origin, roles, UnlinkedContext())
  {
    hide CostOf;
    var origin, roles := FirstRole(SilentRole("first", []), []), [SilentRole("second", ["first"])];
    var context := UnlinkedContext();
    SilentCosts();
    var here, there := Choice(0, 0), Choice(0, 1);
    var first := Enter(origin, here, context);
    assert [here][..0] == [] && [there][..0] == [];
    assert Follow(origin, roles, here, [], context) == first;
    assert Follow(origin, roles, here, [here], context) == Advance(first.state, roles[0], here, context);
    assert Follow(origin, roles, here, [there], context) == Advance(first.state, roles[0], there, context);
    assert Link(context.planning.topology, 0, 1).None?;
    assert ReachedBy(origin, roles, 1, context, Follow(origin, roles, here, [here], context).state);
  }

  lemma SilentCosts()
    ensures var context := UnlinkedContext();
            var first := ChainState(0, 0, 0, 1.0, Finite(0.0), false, false);
            && PlaceFirst(SilentRole("first", []), [], Choice(0, 0), context) == Reached(first)
            && CostOf(SilentRole("second", ["first"]).Templates()[0], [0], context.planning.resources[0], Predicted(first, context)).Some?
            && CostOf(SilentRole("second", ["first"]).Templates()[0], [0], context.planning.resources[1], Predicted(first, context)).Some?
  {
    var context := UnlinkedContext();
    var first := ChainState(0, 0, 0, 1.0, Finite(0.0), false, false);
    var template := SilentRole("first", []).Templates()[0];
    var task := template.Instantiate(0, []);
    assert TotalTransferMs(task, 0, 0, map[], []) == Some(0.0);
    var later := template.Instantiate(0, [0]);
    var objects := Predicted(first, context).objects;
    assert later.inputs == [0];
    assert InputTransferMs(later, 0, 0, objects, []) == Some(0.0);
    assert InputTransferMs(later, 0, 1, objects, []) == Some(0.0);
    assert TotalTransferMs(later, 0, 0, objects, []) == Some(0.0) && TotalTransferMs(later, 0, 1, objects, []) == Some(0.0);
  }

  /** Which fresh id a predicted output is entered under makes no difference. */
  lemma FreshIdIsIrrelevant(template: TaskTemplate, a: ObjectId, b: ObjectId, previous: ChainState, resource: ResourceDescriptor,
                            context: FusionContext)
    requires a !in template.inputs && b !in template.inputs
    ensures CostOf(template, [a], resource, Predicted(previous, context.(intermediate := a)))
            == CostOf(template, [b], resource, Predicted(previous, context.(intermediate := b)))
  {
    hide Breakdown;
    var taskA, taskB := template.Instantiate(0, [a]), template.Instantiate(0, [b]);
    var planA, planB := Predicted(previous, context.(intermediate := a)), Predicted(previous, context.(intermediate := b));
    forall i | 0 <= i < |taskA.inputs|
      ensures (taskA.inputs[i] in planA.objects) == (taskB.inputs[i] in planB.objects)
    {
      if i < |template.inputs| { assert taskA.inputs[i] == template.inputs[i] && taskB.inputs[i] == template.inputs[i]; }
    }
    if InputsKnown(taskA, planA.objects) {
      SameTotalTransfers(taskA, taskB, planA, planB, resource.id, |taskA.inputs|);
    }
  }

  lemma {:induction false} SameTotalTransfers(a: TaskSpec, b: TaskSpec, planA: Context, planB: Context, resource: ResourceId, count: nat)
    requires |a.inputs| == |b.inputs| && count <= |a.inputs| && a.shard.None? && b.shard.None?
    requires InputsKnown(a, planA.objects) && InputsKnown(b, planB.objects) && planA.topology == planB.topology
    requires forall i :: 0 <= i < |a.inputs| ==>
               planA.objects[a.inputs[i]].sizeBytes == planB.objects[b.inputs[i]].sizeBytes
               && planA.objects[a.inputs[i]].locations == planB.objects[b.inputs[i]].locations
    ensures TotalTransferMs(a, count, resource, planA.objects, planA.topology)
            == TotalTransferMs(b, count, resource, planB.objects, planB.topology)
  {
    if count > 0 { SameTotalTransfers(a, b, planA, planB, resource, count - 1); }
  }
}
