/** Which prefix of a chain to fuse, and why that never loses in the planner's own model. */
module FusionSelection {
  import opened Wrappers
  import opened Core
  import opened FusionRewrite
  import opened Scheduler
  import opened Admission
  import opened ChainPlanner

  // ----- combinations of implementations -----

  datatype FusedChoice = FusedChoice(names: seq<string>, tasks: seq<TaskTemplate>, requirements: ResourceRequirements)

  function StartWith(implementation: RoleImplementation): FusedChoice
  {
    FusedChoice([implementation.name], [implementation.task], implementation.task.requirements)
  }

  function ExtendWith(choice: FusedChoice, implementation: RoleImplementation): Option<FusedChoice>
  {
    match CombineRequirements(choice.requirements, implementation.task.requirements)
    case None => None
    case Some(requirements) =>
      Some(FusedChoice(choice.names + [implementation.name], choice.tasks + [implementation.task], requirements))
  }

  ghost predicate AllLogical(chain: seq<RoleSpec>)
  {
    forall i :: 0 <= i < |chain| ==> chain[i].Logical?
  }

  /** One implementation per role, in chain order. */
  ghost predicate Combination(chain: seq<RoleSpec>, picks: seq<nat>)
    requires AllLogical(chain)
  {
    |picks| == |chain| && forall i :: 0 <= i < |chain| ==> picks[i] < |chain[i].implementations|
  }

  ghost predicate Combines(chain: seq<RoleSpec>, picks: seq<nat>, choice: FusedChoice)
    requires AllLogical(chain)
  {
    && chain != [] && Combination(chain, picks)
    && |choice.names| == |choice.tasks| == |chain|
    && (forall i :: 0 <= i < |chain| ==>
          choice.names[i] == chain[i].implementations[picks[i]].name
          && choice.tasks[i] == chain[i].implementations[picks[i]].task)
    && ChainRequirements(choice.tasks) == Some(choice.requirements)
  }

  /** The choice takes one implementation per role and their requirements can be combined. */
  ghost predicate IsFusedChoice(chain: seq<RoleSpec>, choice: FusedChoice)
    requires AllLogical(chain)
  {
    exists picks :: Combines(chain, picks, choice)
  }

  lemma CombinesFirst(chain: seq<RoleSpec>, i: nat)
    requires AllLogical(chain) && |chain| == 1 && i < |chain[0].implementations|
    ensures IsFusedChoice(chain, StartWith(chain[0].implementations[i]))
  {
    assert Combines(chain, [i], StartWith(chain[0].implementations[i]));
  }

  lemma CombinesExtended(chain: seq<RoleSpec>, n: nat, choice: FusedChoice, i: nat)
    requires AllLogical(chain) && 0 < n < |chain| && IsFusedChoice(chain[..n], choice)
    requires i < |chain[n].implementations| && ExtendWith(choice, chain[n].implementations[i]).Some?
    ensures IsFusedChoice(chain[..n + 1], ExtendWith(choice, chain[n].implementations[i]).value)
  {
    hide CombineRequirements;
    var picks :| Combines(chain[..n], picks, choice);
    var extended := ExtendWith(choice, chain[n].implementations[i]).value;
    assert extended.tasks[..n] == choice.tasks;
    assert Combines(chain[..n + 1], picks + [i], extended);
  }

  lemma CombinesShorter(chain: seq<RoleSpec>, n: nat, choice: FusedChoice) returns (shorter: FusedChoice, i: nat)
    requires AllLogical(chain) && 0 < n < |chain| && IsFusedChoice(chain[..n + 1], choice)
    ensures IsFusedChoice(chain[..n], shorter)
    ensures i < |chain[n].implementations| && ExtendWith(shorter, chain[n].implementations[i]) == Some(choice)
  {
    hide CombineRequirements;
    var picks :| Combines(chain[..n + 1], picks, choice);
    i := picks[n];
    var tasks := choice.tasks[..n];
    shorter := FusedChoice(choice.names[..n], tasks, ChainRequirements(tasks).value);
    assert choice.names == choice.names[..n] + [choice.names[n]] && choice.tasks == tasks + [choice.tasks[n]];
    assert Combines(chain[..n], picks[..n], shorter);
  }

  method ExtendChoices(chain: seq<RoleSpec>, n: nat, previous: seq<FusedChoice>) returns (choices: seq<FusedChoice>)
    requires AllLogical(chain) && 0 < n < |chain|
    requires forall choice :: choice in previous <==> IsFusedChoice(chain[..n], choice)
    ensures forall choice :: choice in choices <==> IsFusedChoice(chain[..n + 1], choice)
  {
    hide IsFusedChoice, ExtendWith;
    choices := [];
    for p := 0 to |previous|
      invariant forall choice :: choice in choices ==> IsFusedChoice(chain[..n + 1], choice)
      invariant forall q, i :: 0 <= q < p && 0 <= i < |chain[n].implementations| ==>
                  Kept(choices, ExtendWith(previous[q], chain[n].implementations[i]))
    {
      for i := 0 to |chain[n].implementations|
        invariant forall choice :: choice in choices ==> IsFusedChoice(chain[..n + 1], choice)
        invariant forall q, i :: 0 <= q < p && 0 <= i < |chain[n].implementations| ==>
                    Kept(choices, ExtendWith(previous[q], chain[n].implementations[i]))
        invariant forall j :: 0 <= j < i ==> Kept(choices, ExtendWith(previous[p], chain[n].implementations[j]))
      {
        var extended := ExtendWith(previous[p], chain[n].implementations[i]);
        if extended.Some? {
          assert previous[p] in previous;
          CombinesExtended(chain, n, previous[p], i);
          choices := choices + [extended.value];
        }
      }
    }
    forall choice | IsFusedChoice(chain[..n + 1], choice) ensures choice in choices {
      var shorter, i := CombinesShorter(chain, n, choice);
      var q :| 0 <= q < |previous| && previous[q] == shorter;
      assert Kept(choices, ExtendWith(previous[q], chain[n].implementations[i]));
    }
  }

  predicate Kept(choices: seq<FusedChoice>, choice: Option<FusedChoice>)
  {
    choice.Some? ==> choice.value in choices
  }

  /** All combinations of implementations whose requirements agree, and nothing else. */
  method FusedImplementationChoices(chain: seq<RoleSpec>) returns (choices: seq<FusedChoice>)
    requires AllLogical(chain)
    ensures forall choice :: choice in choices <==> IsFusedChoice(chain, choice)
  {
    choices := [];
    if chain == [] {
      return;
    }
    choices := FirstChoices(chain);
    for n := 1 to |chain|
      invariant forall choice :: choice in choices <==> IsFusedChoice(chain[..n], choice)
    {
      choices := ExtendChoices(chain, n, choices);
      if choices == [] {
        ghost var upto := chain[..n + 1];
        forall choice ensures !IsFusedChoice(upto, choice) { assert choice !in choices; }
        NoChoiceFromHere(chain, n + 1);
        return;
      }
    }
    assert chain[..|chain|] == chain;
  }

  method FirstChoices(chain: seq<RoleSpec>) returns (choices: seq<FusedChoice>)
    requires AllLogical(chain) && chain != []
    ensures forall choice :: choice in choices <==> IsFusedChoice(chain[..1], choice)
  {
    choices := [];
    for i := 0 to |chain[0].implementations|
      invariant |choices| == i && forall j :: 0 <= j < i ==> choices[j] == StartWith(chain[0].implementations[j])
    {
      choices := choices + [StartWith(chain[0].implementations[i])];
    }
    forall choice | choice in choices ensures IsFusedChoice(chain[..1], choice) {
      var j :| 0 <= j < |choices| && choices[j] == choice;
      CombinesFirst(chain[..1], j);
    }
    forall choice | IsFusedChoice(chain[..1], choice) ensures choice in choices {
      var picks :| Combines(chain[..1], picks, choice);
      assert choice.names == [choice.names[0]] && choice.tasks == [choice.tasks[0]];
      assert choice == choices[picks[0]];
    }
  }

  lemma {:induction false} NoChoiceFromHere(chain: seq<RoleSpec>, n: nat)
    requires AllLogical(chain) && 0 < n <= |chain|
    requires forall choice :: !IsFusedChoice(chain[..n], choice)
    ensures forall choice :: !IsFusedChoice(chain, choice)
    decreases |chain| - n
  {
    hide IsFusedChoice, ExtendWith;
    if n == |chain| {
      assert chain[..n] == chain;
    } else {
      var next := chain[..n + 1];
      forall choice ensures !IsFusedChoice(next, choice) {
        if IsFusedChoice(next, choice) {
          var shorter, i := CombinesShorter(chain, n, choice);
        }
      }
      NoChoiceFromHere(chain, n + 1);
    }
  }

  // ----- candidates -----

  predicate AllFusable(role: RoleSpec)
  {
    role.Logical? && forall i :: 0 <= i < |role.implementations| ==> Fusable(role.implementations[i].task)
  }

  /** How many leading roles have fusable implementations only. */
  function FusablePrefix(chain: seq<RoleSpec>): (r: nat)
    ensures r <= |chain| && forall i :: 0 <= i < r ==> AllFusable(chain[i])
    ensures r < |chain| ==> !AllFusable(chain[r])
  {
    if chain == [] || !AllFusable(chain[0]) then 0 else 1 + FusablePrefix(chain[1..])
  }

  datatype Selection = Selection(
    implementations: seq<string>, tasks: seq<TaskTemplate>, requirements: ResourceRequirements, task: TaskSpec,
    resource: ResourceId, cost: PlacementBreakdown, avoidedTransferMs: Milliseconds, savingsMs: real)
  {
    /** More savings, then more avoided transfer, then a longer chain. */
    predicate Better(other: Selection)
    {
      || savingsMs > other.savingsMs
      || (savingsMs == other.savingsMs
          && (|| (avoidedTransferMs != other.avoidedTransferMs && avoidedTransferMs.AtLeast(other.avoidedTransferMs))
              || (avoidedTransferMs == other.avoidedTransferMs && |implementations| > |other.implementations|)))
    }
  }

  lemma BetterIsTransitive(a: Selection, b: Selection, c: Selection)
    requires a.Better(b) && !c.Better(b)
    ensures !c.Better(a)
  {
  }

  /** The planner's view of one chain: the cheapest separate run, and the crossing path found per prefix. */
  datatype Comparison = Comparison(fullMs: real, crossings: map<nat, Option<ChainState>>)

  /** The total when the prefix runs fused as selected and the rest of the chain as cheaply as possible. */
  ghost predicate Projects(chain: seq<RoleSpec>, prefix: nat, selection: Selection, context: FusionContext, totalMs: real)
    requires prefix <= |chain|
  {
    if prefix == |chain| then totalMs == selection.cost.totalMs
    else
      && selection.tasks != []
      && var seed := Seed(selection.tasks[|selection.tasks| - 1].cost.outputBytes, selection.resource, selection.cost.totalMs);
         Plannable(Behind(seed), chain[prefix..], context)
         && exists last :: Minimal(Behind(seed), chain[prefix..], context, last) && last.totalMs == totalMs
  }

  ghost predicate Placed(dependencies: seq<ObjectId>, context: FusionContext, id: TaskId, choice: FusedChoice, selection: Selection)
  {
    && choice.tasks != [] && selection.implementations == choice.names && selection.tasks == choice.tasks
    && selection.requirements == choice.requirements
    && selection.task == FusedPipelineTask(id, choice.tasks, dependencies, choice.requirements)
    && Choose(selection.task, context.planning) == Success(PlacementDecision(selection.resource, selection.cost))
  }

  ghost predicate CandidateOf(chain: seq<RoleSpec>, dependencies: seq<ObjectId>, context: FusionContext, id: TaskId,
                              comparison: Comparison, prefix: nat, choice: FusedChoice, selection: Selection)
  {
    && 2 <= prefix <= FusablePrefix(chain)
    && prefix in comparison.crossings && comparison.crossings[prefix].Some? && comparison.crossings[prefix].value.triggers
    && selection.avoidedTransferMs == comparison.crossings[prefix].value.crossTransferMs
    && Placed(dependencies, context, id, choice, selection)
    && exists totalMs :: Projects(chain, prefix, selection, context, totalMs)
         && selection.savingsMs == comparison.fullMs - totalMs && selection.savingsMs >= 0.0
  }

  lemma ProjectionIsUnique(chain: seq<RoleSpec>, prefix: nat, selection: Selection, context: FusionContext, a: real, b: real)
    requires prefix <= |chain|
    requires Projects(chain, prefix, selection, context, a) && Projects(chain, prefix, selection, context, b)
    ensures a == b
  {
    hide ReachedBy, Plannable;
  }

  lemma PlacedIsUnique(dependencies: seq<ObjectId>, context: FusionContext, id: TaskId, choice: FusedChoice, a: Selection, b: Selection)
    requires Placed(dependencies, context, id, choice, a) && Placed(dependencies, context, id, choice, b)
    ensures a == b.(avoidedTransferMs := a.avoidedTransferMs, savingsMs := a.savingsMs)
  {
    hide Choose, FusedPipelineTask;
  }

  lemma ProjectionIgnoresSavings(chain: seq<RoleSpec>, prefix: nat, a: Selection, b: Selection, context: FusionContext, totalMs: real)
    requires prefix <= |chain| && Projects(chain, prefix, a, context, totalMs)
    requires a == b.(avoidedTransferMs := a.avoidedTransferMs, savingsMs := a.savingsMs)
    ensures Projects(chain, prefix, b, context, totalMs)
  {
    hide Minimal, Plannable;
  }

  /** One choice gives at most one candidate. */
  lemma CandidateIsUnique(chain: seq<RoleSpec>, dependencies: seq<ObjectId>, context: FusionContext, id: TaskId,
                          comparison: Comparison, prefix: nat, choice: FusedChoice, a: Selection, b: Selection)
    requires CandidateOf(chain, dependencies, context, id, comparison, prefix, choice, a)
    requires CandidateOf(chain, dependencies, context, id, comparison, prefix, choice, b)
    ensures a == b
  {
    hide Projects, Placed;
    PlacedIsUnique(dependencies, context, id, choice, a, b);
    var totalA :| Projects(chain, prefix, a, context, totalA) && a.savingsMs == comparison.fullMs - totalA;
    var totalB :| Projects(chain, prefix, b, context, totalB) && b.savingsMs == comparison.fullMs - totalB;
    ProjectionIgnoresSavings(chain, prefix, a, b, context, totalA);
    ProjectionIsUnique(chain, prefix, b, context, totalA, totalB);
  }

  method ProjectedTotal(chain: seq<RoleSpec>, prefix: nat, selection: Selection, context: FusionContext) returns (totalMs: Option<real>)
    requires prefix <= |chain| && selection.tasks != []
    ensures totalMs.Some? ==> Projects(chain, prefix, selection, context, totalMs.value)
    ensures totalMs.None? ==> forall ms :: !Projects(chain, prefix, selection, context, ms)
  {
    hide Plannable, Minimal;
    if prefix == |chain| {
      totalMs := Some(selection.cost.totalMs);
    } else {
      totalMs := BestChainTailTotal(chain[prefix..], selection.tasks[|selection.tasks| - 1].cost.outputBytes,
                                    selection.resource, selection.cost.totalMs, context);
    }
  }

  method EvaluateChoice(chain: seq<RoleSpec>, dependencies: seq<ObjectId>, context: FusionContext, id: TaskId,
                        ghost comparison: Comparison, fullMs: real, crossing: ChainState, prefix: nat, choice: FusedChoice)
    returns (candidate: Option<Selection>)
    requires 2 <= prefix <= FusablePrefix(chain) && choice.tasks != [] && fullMs == comparison.fullMs
    requires prefix in comparison.crossings && comparison.crossings[prefix] == Some(crossing) && crossing.triggers
    ensures candidate.Some? ==> CandidateOf(chain, dependencies, context, id, comparison, prefix, choice, candidate.value)
    ensures candidate.None? ==>
              forall selection :: !CandidateOf(chain, dependencies, context, id, comparison, prefix, choice, selection)
  {
    hide Projects, FusedPipelineTask, Choose, FusablePrefix;
    var task := FusedPipelineTask(id, choice.tasks, dependencies, choice.requirements);
    var decision := Choose(task, context.planning);
    if decision.Failure? {
      return None;
    }
    var draft := Selection(choice.names, choice.tasks, choice.requirements, task, decision.value.resource,
                           decision.value.cost, crossing.crossTransferMs, 0.0);
    var projected := ProjectedTotal(chain, prefix, draft, context);
    if projected.None? {
      forall selection ensures !CandidateOf(chain, dependencies, context, id, comparison, prefix, choice, selection) {
        if CandidateOf(chain, dependencies, context, id, comparison, prefix, choice, selection) {
          var totalMs := DraftProjects(chain, dependencies, context, id, comparison, prefix, choice, selection, draft);
        }
      }
      return None;
    }
    var savings := fullMs - projected.value;
    if savings < 0.0 {
      forall selection ensures !CandidateOf(chain, dependencies, context, id, comparison, prefix, choice, selection) {
        if CandidateOf(chain, dependencies, context, id, comparison, prefix, choice, selection) {
          var totalMs := DraftProjects(chain, dependencies, context, id, comparison, prefix, choice, selection, draft);
          ProjectionIsUnique(chain, prefix, draft, context, totalMs, projected.value);
        }
      }
      return None;
    }
    var selection := draft.(savingsMs := savings);
    ProjectionIgnoresSavings(chain, prefix, draft, selection, context, projected.value);
    return Some(selection);
  }

  lemma DraftProjects(chain: seq<RoleSpec>, dependencies: seq<ObjectId>, context: FusionContext, id: TaskId, comparison: Comparison,
                      prefix: nat, choice: FusedChoice, selection: Selection, draft: Selection) returns (totalMs: real)
    requires CandidateOf(chain, dependencies, context, id, comparison, prefix, choice, selection)
    requires Placed(dependencies, context, id, choice, draft)
    ensures Projects(chain, prefix, draft, context, totalMs)
    ensures selection.savingsMs == comparison.fullMs - totalMs && selection.savingsMs >= 0.0
  {
    hide Projects, Placed, FusablePrefix;
    totalMs :| Projects(chain, prefix, selection, context, totalMs)
      && selection.savingsMs == comparison.fullMs - totalMs && selection.savingsMs >= 0.0;
    PlacedIsUnique(dependencies, context, id, choice, selection, draft);
    ProjectionIgnoresSavings(chain, prefix, selection, draft, context, totalMs);
  }

  // ----- prefixes of a plannable chain -----

  lemma {:induction false} FollowPrefix(origin: Origin, roles: seq<RoleSpec>, k: nat, head: Choice, path: seq<Choice>,
                                        context: FusionContext)
    requires |path| <= k <= |roles|
    ensures Follow(origin, roles[..k], head, path, context) == Follow(origin, roles, head, path, context)
  {
    hide Advance, Enter;
    if path != [] { FollowPrefix(origin, roles, k, head, path[..|path| - 1], context); }
  }

  lemma ReachedInPrefix(origin: Origin, roles: seq<RoleSpec>, k: nat, context: FusionContext, state: ChainState)
    requires k <= |roles| && ReachedBy(origin, roles, k, context, state)
    ensures ReachedBy(origin, roles[..k], k, context, state)
  {
    hide Follow;
    var head, path :| |path| == k && Follow(origin, roles, head, path, context) == Reached(state);
    FollowPrefix(origin, roles, k, head, path, context);
  }

  lemma UnplannablePrefix(origin: Origin, roles: seq<RoleSpec>, k: nat, context: FusionContext)
    requires k <= |roles| && !Plannable(origin, roles[..k], context)
    ensures !Plannable(origin, roles, context)
  {
    hide Follow;
    var short := roles[..k];
    if LinkMissing(origin, short, k, context) {
      var head, path :| |path| <= k && Follow(origin, short, head, path, context) == NoLink;
      FollowPrefix(origin, roles, k, head, path, context);
      assert LinkMissing(origin, roles, k, context);
    } else {
      forall state ensures !ReachedBy(origin, roles, k, context, state) {
        if ReachedBy(origin, roles, k, context, state) { ReachedInPrefix(origin, roles, k, context, state); }
      }
    }
    StopsForGood(origin, roles, k, context);
  }

  /** If the whole chain can be planned, so can every prefix of it. */
  lemma PrefixIsPlannable(chain: seq<RoleSpec>, dependencies: seq<ObjectId>, prefix: nat, context: FusionContext)
    requires 1 <= prefix <= |chain| && Plannable(FirstRole(chain[0], dependencies), chain[1..], context)
    ensures Plannable(FirstRole(chain[0], dependencies), chain[..prefix][1..], context)
  {
    hide Plannable;
    assert chain[..prefix][1..] == chain[1..][..prefix - 1];
    if !Plannable(FirstRole(chain[0], dependencies), chain[..prefix][1..], context) {
      UnplannablePrefix(FirstRole(chain[0], dependencies), chain[1..], prefix - 1, context);
    }
  }

  // ----- the selection -----

  /** All combinations for the prefixes below `upTo`, and those listed for `upTo` itself. */
  ghost predicate Considered(chain: seq<RoleSpec>, upTo: nat, listed: seq<FusedChoice>, prefix: nat, choice: FusedChoice)
    requires AllLogical(chain)
  {
    || (prefix == upTo && choice in listed)
    || (2 <= prefix < upTo && prefix <= |chain| && IsFusedChoice(chain[..prefix], choice))
  }

  /** `best` is a candidate among those considered, and none of them is better. */
  ghost predicate BestSoFar(chain: seq<RoleSpec>, dependencies: seq<ObjectId>, context: FusionContext, id: TaskId,
                            comparison: Comparison, upTo: nat, listed: seq<FusedChoice>, best: Option<Selection>)
    requires AllLogical(chain)
  {
    && (best.Some? ==> exists prefix, choice ::
          Considered(chain, upTo, listed, prefix, choice)
          && CandidateOf(chain, dependencies, context, id, comparison, prefix, choice, best.value))
    && forall prefix, choice, selection ::
         (Considered(chain, upTo, listed, prefix, choice)
          && CandidateOf(chain, dependencies, context, id, comparison, prefix, choice, selection)) ==>
         best.Some? && !selection.Better(best.value)
  }

  lemma ChoiceHasTasks(chain: seq<RoleSpec>, choice: FusedChoice)
    requires AllLogical(chain) && IsFusedChoice(chain, choice)
    ensures choice.tasks != []
  {
  }

  /** Looking at one more choice, and keeping the better of the two, keeps the best. */
  lemma OneMore(chain: seq<RoleSpec>, dependencies: seq<ObjectId>, context: FusionContext, id: TaskId, comparison: Comparison,
                prefix: nat, listed: seq<FusedChoice>, choice: FusedChoice,
                candidate: Option<Selection>, best: Option<Selection>, next: Option<Selection>)
    requires AllLogical(chain)
    requires BestSoFar(chain, dependencies, context, id, comparison, prefix, listed, best)
    requires candidate.Some? ==> CandidateOf(chain, dependencies, context, id, comparison, prefix, choice, candidate.value)
    requires candidate.None? ==>
               forall selection :: !CandidateOf(chain, dependencies, context, id, comparison, prefix, choice, selection)
    requires next == if candidate.Some? && (best.None? || candidate.value.Better(best.value)) then candidate else best
    ensures BestSoFar(chain, dependencies, context, id, comparison, prefix, listed + [choice], next)
  {
    hide CandidateOf, IsFusedChoice;
    var more := listed + [choice];
    forall p, c, selection | Considered(chain, prefix, more, p, c)
                             && CandidateOf(chain, dependencies, context, id, comparison, p, c, selection)
      ensures next.Some? && !selection.Better(next.value)
    {
      if Considered(chain, prefix, listed, p, c) {
        if next != best { BetterIsTransitive(next.value, best.value, selection); }
      } else {
        CandidateIsUnique(chain, dependencies, context, id, comparison, prefix, choice, selection, candidate.value);
      }
    }
    if next.Some? {
      if next == candidate {
        assert Considered(chain, prefix, more, prefix, choice);
      } else {
        var p, c :| Considered(chain, prefix, listed, p, c)
                    && CandidateOf(chain, dependencies, context, id, comparison, p, c, best.value);
        assert Considered(chain, prefix, more, p, c);
      }
    }
  }

  /** A prefix is done once all its combinations have been looked at, or when it has no candidates. */
  lemma PrefixDone(chain: seq<RoleSpec>, dependencies: seq<ObjectId>, context: FusionContext, id: TaskId, comparison: Comparison,
                   prefix: nat, listed: seq<FusedChoice>, best: Option<Selection>)
    requires AllLogical(chain) && 2 <= prefix <= |chain|
    requires BestSoFar(chain, dependencies, context, id, comparison, prefix, listed, best)
    requires forall choice :: choice in listed ==> IsFusedChoice(chain[..prefix], choice)
    requires || (forall choice :: IsFusedChoice(chain[..prefix], choice) ==> choice in listed)
             || (forall choice, selection :: !CandidateOf(chain, dependencies, context, id, comparison, prefix, choice, selection))
    ensures BestSoFar(chain, dependencies, context, id, comparison, prefix + 1, [], best)
  {
    hide CandidateOf, IsFusedChoice;
    var next := prefix + 1;
    forall p, c, selection | Considered(chain, next, [], p, c)
                             && CandidateOf(chain, dependencies, context, id, comparison, p, c, selection)
      ensures best.Some? && !selection.Better(best.value)
    {
      assert Considered(chain, prefix, listed, p, c);
    }
    if best.Some? {
      var p, c :| Considered(chain, prefix, listed, p, c)
                  && CandidateOf(chain, dependencies, context, id, comparison, p, c, best.value);
      assert Considered(chain, next, [], p, c);
    }
  }

  method BestOfPrefix(chain: seq<RoleSpec>, dependencies: seq<ObjectId>, context: FusionContext, id: TaskId,
                      ghost comparison: Comparison, fullMs: real, crossing: ChainState, prefix: nat, before: Option<Selection>)
    returns (best: Option<Selection>)
    requires AllLogical(chain) && 2 <= prefix <= FusablePrefix(chain) && fullMs == comparison.fullMs
    requires prefix in comparison.crossings && comparison.crossings[prefix] == Some(crossing) && crossing.triggers
    requires BestSoFar(chain, dependencies, context, id, comparison, prefix, [], before)
    ensures BestSoFar(chain, dependencies, context, id, comparison, prefix + 1, [], best)
  {
    hide IsFusedChoice, CandidateOf, BestSoFar;
    best := before;
    var choices := FusedImplementationChoices(chain[..prefix]);
    for c := 0 to |choices|
      invariant BestSoFar(chain, dependencies, context, id, comparison, prefix, choices[..c], best)
    {
      assert choices[c] in choices;
      ChoiceHasTasks(chain[..prefix], choices[c]);
      var candidate := EvaluateChoice(chain, dependencies, context, id, comparison, fullMs, crossing, prefix, choices[c]);
      var next := if candidate.Some? && (best.None? || candidate.value.Better(best.value)) then candidate else best;
      OneMore(chain, dependencies, context, id, comparison, prefix, choices[..c], choices[c], candidate, best, next);
      assert choices[..c + 1] == choices[..c] + [choices[c]];
      best := next;
    }
    assert choices[..|choices|] == choices;
    PrefixDone(chain, dependencies, context, id, comparison, prefix, choices, best);
  }

  /** Each prefix up to the fusable part has been compared with one of its cheapest crossing paths. */
  ghost predicate CrossingsFound(chain: seq<RoleSpec>, dependencies: seq<ObjectId>, context: FusionContext,
                                 comparison: Comparison, upTo: nat)
    requires chain != []
  {
    forall prefix :: 2 <= prefix < upTo && prefix <= |chain| ==>
      prefix in comparison.crossings
      && MinimalCrossing(FirstRole(chain[0], dependencies), chain[..prefix][1..], context, comparison.crossings[prefix])
  }

  /** The best of all candidates, given the crossing paths found. */
  ghost predicate BestSelection(chain: seq<RoleSpec>, dependencies: seq<ObjectId>, context: FusionContext, id: TaskId,
                                comparison: Comparison, best: Option<Selection>)
    requires AllLogical(chain) && chain != []
  {
    && CrossingsFound(chain, dependencies, context, comparison, FusablePrefix(chain) + 1)
    && BestSoFar(chain, dependencies, context, id, comparison, FusablePrefix(chain) + 1, [], best)
    && exists full :: Minimal(FirstRole(chain[0], dependencies), chain[1..], context, full) && full.totalMs == comparison.fullMs
  }

  /**
   * Selects the prefix and implementations to fuse. No selection is made when the chain has fewer than
   * two fusable roles in front or cannot be planned separately; otherwise the best candidate, if any.
   */
  method SelectReadyFusion(chain: seq<RoleSpec>, dependencies: seq<ObjectId>, context: FusionContext, id: TaskId)
    returns (selection: Option<Selection>, ghost comparison: Comparison)
    requires AllLogical(chain) && chain != []
    ensures (FusablePrefix(chain) < 2 || !Plannable(FirstRole(chain[0], dependencies), chain[1..], context)) ==> selection.None?
    ensures FusablePrefix(chain) >= 2 && Plannable(FirstRole(chain[0], dependencies), chain[1..], context) ==>
              BestSelection(chain, dependencies, context, id, comparison, selection)
  {
    hide CandidateOf, BestSoFar, Minimal, MinimalCrossing, Plannable, IsFusedChoice;
    comparison := Comparison(0.0, map[]);
    var fusable := FusablePrefix(chain);
    if fusable < 2 {
      return None, comparison;
    }
    var full := SeparateChainPaths(chain, dependencies, context);
    if full.None? {
      return None, comparison;
    }
    selection := None;
    comparison := Comparison(full.value.best.totalMs, map[]);
    NothingConsidered(chain, dependencies, context, id, comparison);
    for prefix := 2 to fusable + 1
      invariant comparison.fullMs == full.value.best.totalMs
      invariant forall p :: p in comparison.crossings ==> p < prefix
      invariant CrossingsFound(chain, dependencies, context, comparison, prefix)
      invariant BestSoFar(chain, dependencies, context, id, comparison, prefix, [], selection)
    {
      PrefixIsPlannable(chain, dependencies, prefix, context);
      var separate := SeparateChainPaths(chain[..prefix], dependencies, context);
      var crossing := separate.value.bestCrossResource;
      ghost var extended := comparison.(crossings := comparison.crossings[prefix := crossing]);
      MoreCrossings(chain, dependencies, context, id, comparison, prefix, crossing, selection);
      comparison := extended;
      if crossing.None? || !crossing.value.triggers {
        NoCandidates(chain, dependencies, context, id, comparison, prefix);
        PrefixDone(chain, dependencies, context, id, comparison, prefix, [], selection);
      } else {
        selection := BestOfPrefix(chain, dependencies, context, id, comparison, full.value.best.totalMs, crossing.value,
                                  prefix, selection);
      }
    }
  }

  lemma NothingConsidered(chain: seq<RoleSpec>, dependencies: seq<ObjectId>, context: FusionContext, id: TaskId, comparison: Comparison)
    requires AllLogical(chain)
    ensures BestSoFar(chain, dependencies, context, id, comparison, 2, [], None)
  {
  }

  lemma NoCandidates(chain: seq<RoleSpec>, dependencies: seq<ObjectId>, context: FusionContext, id: TaskId, comparison: Comparison,
                     prefix: nat)
    requires prefix in comparison.crossings
    requires comparison.crossings[prefix].None? || !comparison.crossings[prefix].value.triggers
    ensures forall choice, selection :: !CandidateOf(chain, dependencies, context, id, comparison, prefix, choice, selection)
  {
  }

  /** Recording the crossing path of a further prefix changes nothing for the earlier ones. */
  lemma MoreCrossings(chain: seq<RoleSpec>, dependencies: seq<ObjectId>, context: FusionContext, id: TaskId,
                      comparison: Comparison, prefix: nat, crossing: Option<ChainState>, best: Option<Selection>)
    requires AllLogical(chain) && BestSoFar(chain, dependencies, context, id, comparison, prefix, [], best)
    ensures BestSoFar(chain, dependencies, context, id, comparison.(crossings := comparison.crossings[prefix := crossing]),
                      prefix, [], best)
  {
    hide Placed, Projects, FusablePrefix, IsFusedChoice;
    var extended := comparison.(crossings := comparison.crossings[prefix := crossing]);
    forall p, choice, selection | Considered(chain, prefix, [], p, choice)
      ensures CandidateOf(chain, dependencies, context, id, extended, p, choice, selection)
              <==> CandidateOf(chain, dependencies, context, id, comparison, p, choice, selection)
    {
    }
  }

  // ----- what a selection promises -----

  /** Fused and then as cheap as possible is never slower than any separate run of the whole chain. */
  lemma FusionNeverLoses(chain: seq<RoleSpec>, dependencies: seq<ObjectId>, context: FusionContext, id: TaskId,
                         comparison: Comparison, selection: Selection, separate: ChainState)
    requires AllLogical(chain) && chain != []
    requires BestSelection(chain, dependencies, context, id, comparison, Some(selection))
    requires ReachedBy(FirstRole(chain[0], dependencies), chain[1..], |chain| - 1, context, separate)
    ensures exists prefix, totalMs ::
              && 2 <= prefix <= FusablePrefix(chain) && prefix == |selection.tasks|
              && Projects(chain, prefix, selection, context, totalMs) && totalMs <= separate.totalMs
  {
    hide Projects, Choose, FusedPipelineTask, FusablePrefix;
    var prefix, choice := SelectionIsCandidate(chain, dependencies, context, id, comparison, selection);
    var totalMs :| Projects(chain, prefix, selection, context, totalMs)
      && selection.savingsMs == comparison.fullMs - totalMs && selection.savingsMs >= 0.0;
    var full :| Minimal(FirstRole(chain[0], dependencies), chain[1..], context, full) && full.totalMs == comparison.fullMs;
    var picks :| Combines(chain[..prefix], picks, choice);
  }

  lemma SelectionIsCandidate(chain: seq<RoleSpec>, dependencies: seq<ObjectId>, context: FusionContext, id: TaskId,
                             comparison: Comparison, selection: Selection) returns (prefix: nat, choice: FusedChoice)
    requires AllLogical(chain) && chain != []
    requires BestSelection(chain, dependencies, context, id, comparison, Some(selection))
    ensures 2 <= prefix <= FusablePrefix(chain) && IsFusedChoice(chain[..prefix], choice)
    ensures CandidateOf(chain, dependencies, context, id, comparison, prefix, choice, selection)
  {
    hide Projects, Placed, IsFusedChoice;
    prefix, choice :| Considered(chain, FusablePrefix(chain) + 1, [], prefix, choice)
      && CandidateOf(chain, dependencies, context, id, comparison, prefix, choice, selection);
  }

  /** The selected task fuses one fusable template of each of the first roles, on a resource fit for all of them. */
  lemma SelectionIsFusable(chain: seq<RoleSpec>, dependencies: seq<ObjectId>, context: FusionContext, id: TaskId,
                           comparison: Comparison, selection: Selection)
    requires AllLogical(chain) && chain != []
    requires BestSelection(chain, dependencies, context, id, comparison, Some(selection))
    ensures 2 <= |selection.tasks| <= |chain|
    ensures selection.task == FusedPipelineTask(id, selection.tasks, dependencies, selection.requirements)
    ensures forall i :: 0 <= i < |selection.tasks| ==>
              selection.tasks[i] in chain[i].Templates() && Fusable(selection.tasks[i])
    ensures exists r :: 0 <= r < |context.planning.resources| && context.planning.resources[r].id == selection.resource
              && forall i :: 0 <= i < |selection.tasks| ==>
                   context.planning.resources[r].Supports(selection.tasks[i].requirements)
  {
    hide FusedPipelineTask, BestSelection, IsFusedChoice, Fusable, FusablePrefix, Choose, CandidateOf;
    var prefix, choice := SelectionIsCandidate(chain, dependencies, context, id, comparison, selection);
    CandidateIsPlaced(chain, dependencies, context, id, comparison, prefix, choice, selection);
    ChoiceIsFusable(chain, prefix, choice);
    FusedRequirements(id, selection.tasks, dependencies, selection.requirements);
    SelectedResource(context.planning, selection);
  }

  lemma FusedRequirements(id: TaskId, tasks: seq<TaskTemplate>, dependencies: seq<ObjectId>, requirements: ResourceRequirements)
    requires tasks != []
    ensures FusedPipelineTask(id, tasks, dependencies, requirements).requirements == requirements
  {
    hide ExternalBindings, LaterStages;
  }

  lemma CandidateIsPlaced(chain: seq<RoleSpec>, dependencies: seq<ObjectId>, context: FusionContext, id: TaskId,
                          comparison: Comparison, prefix: nat, choice: FusedChoice, selection: Selection)
    requires CandidateOf(chain, dependencies, context, id, comparison, prefix, choice, selection)
    ensures Placed(dependencies, context, id, choice, selection)
  {
  }

  lemma ChoiceIsFusable(chain: seq<RoleSpec>, prefix: nat, choice: FusedChoice)
    requires AllLogical(chain) && 2 <= prefix <= FusablePrefix(chain) && IsFusedChoice(chain[..prefix], choice)
    ensures |choice.tasks| == prefix && ChainRequirements(choice.tasks) == Some(choice.requirements)
    ensures forall i :: 0 <= i < |choice.tasks| ==> choice.tasks[i] in chain[i].Templates() && Fusable(choice.tasks[i])
  {
    hide ChainRequirements, Fusable;
    var picks :| Combines(chain[..prefix], picks, choice);
    forall i | 0 <= i < |choice.tasks| ensures choice.tasks[i] in chain[i].Templates() && Fusable(choice.tasks[i]) {
      assert chain[..prefix][i] == chain[i];
      assert chain[i].Templates()[picks[i]] == choice.tasks[i];
    }
  }

  lemma SelectedResource(planning: Context, selection: Selection)
    requires selection.tasks != [] && ChainRequirements(selection.tasks) == Some(selection.requirements)
    requires selection.task.requirements == selection.requirements
    requires Choose(selection.task, planning) == Success(PlacementDecision(selection.resource, selection.cost))
    ensures exists r :: 0 <= r < |planning.resources| && planning.resources[r].id == selection.resource
              && forall i :: 0 <= i < |selection.tasks| ==> planning.resources[r].Supports(selection.tasks[i].requirements)
  {
    hide ChainRequirements, Score;
    var r :| 0 <= r < |planning.resources| && planning.resources[r].id == selection.resource
             && PlacementCost(selection.task, planning.resources[r], planning) == Some(selection.cost);
    ChainSupportsEveryStage(planning.resources[r], selection.tasks);
  }
}
