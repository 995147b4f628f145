/**
 * A reachable fabric in which every pass of the planner ends in a refused pipeline: a valid job of two
 * built-in roles, the second of which names another entrypoint, on two linked workers. Its first role
 * is never given a task, and no other job is reached by the pass that keeps failing on it.
 */
module RefusalExample {
  import opened Wrappers
  import opened Core
  import opened RoleGraph
  import opened FusionRewrite
  import opened Scheduler
  import opened Sharding
  import opened ShardCount
  import opened Admission
  import opened ChainPlanner
  import opened FusionSelection
  import opened ReadySelection
  import opened FabricModel
  import opened FabricInvariant
  import opened FabricSteps
  import opened FabricRuns
  import opened LeaseSafety
  import opened Progress
  import opened FabricReady
  import opened PlannerDecisions
  import opened Refusals
  import opened FabricTraces

  // ----- the fabric -----

  function Template(entrypoint: string): TaskTemplate
  {
    TaskTemplate("builtin:concat", entrypoint, [], [], ResourceRequirements(None, 0, None, {}), Pure, CostHint(1.0, 0))
  }

  function OneOf(name: string, dependsOn: seq<string>, template: TaskTemplate): RoleSpec
  {
    Logical(name, dependsOn, [RoleImplementation("only", template)], Fixed(1), None)
  }

  const FIRST := OneOf("first", [], Template("run"))
  const SECOND := OneOf("second", ["first"], Template("main"))
  const DEFINITION := JobDefinition([FIRST, SECOND], ["second"])

  function Worker(id: ResourceId): ResourceDescriptor
  {
    ResourceDescriptor(id, 1, X86_64, 1, 0, [], {}, 1.0, 0.0, 0.0, 0.0)
  }

  const LINK := LinkProfile(0, 1, 100.0, 1.0)

  function StuckFabric(): State
  {
    State(map[0 := RegisteredResource(Worker(0), U64_MAX), 1 := RegisteredResource(Worker(1), U64_MAX)],
          map[], map[], map[0 := NewJob(DEFINITION)], map[], [LINK], {})
  }

  function StuckTrace(): seq<Action>
  {
    [Action.RegisterResource(Worker(0), U64_MAX), Action.RegisterResource(Worker(1), U64_MAX), SetLinks([LINK]),
     Action.SubmitJob(0, DEFINITION)]
  }

  lemma TheRoles()
    ensures FindRole(DEFINITION.roles, "first") == Some(FIRST) && FindRole(DEFINITION.roles, "second") == Some(SECOND)
    ensures forall n :: HasRole(DEFINITION.roles, n) ==> n == "first" || n == "second"
  {
    assert DEFINITION.roles[1..] == [SECOND] && [SECOND][1..] == [];
  }

  lemma DefinitionIsValid()
    ensures ValidJob(DEFINITION)
  {
    TheRoles();
    NamesAreGood();
    DefinitionIsAcyclic();
    hide Acyclic, FindRole, GoodNames;
    assert "only"[0] == 'o';
  }

  lemma NamesAreGood()
    ensures GoodNames(DEFINITION.roles)
  {
    assert "first"[0] == 'f' && "second"[0] == 's';
  }

  lemma DefinitionIsAcyclic()
    ensures Acyclic(DEFINITION.roles)
  {
    TheRoles();
    hide FindRole;
    var order := ["first", "second"];
    assert order[..1] == ["first"];
    forall n | HasRole(DEFINITION.roles, n) ensures n in order {
      assert order[0] == "first" && order[1] == "second";
    }
    assert TopologicalOrder(DEFINITION.roles, order);
  }

  lemma StuckIsReachable()
    ensures Reaches(EmptyState(), StuckTrace(), StuckFabric()) && Inv(StuckFabric())
  {
    hide ValidJob, Inv;
    DefinitionIsValid();
    var t := StuckTrace();
    var s1 := Step(EmptyState(), t[0]);
    var s2 := Step(s1, t[1]);
    var s3 := Step(s2, t[2]);
    assert t[1..][1..] == t[2..] && t[2..][1..] == t[3..] && t[3..][1..] == [];
    assert Step(s3, t[3]) == StuckFabric();
    assert Reaches(s3, t[3..], StuckFabric());
    assert Reaches(s2, t[2..], StuckFabric());
    assert Reaches(s1, t[1..], StuckFabric());
    InvInitially();
    TraceKeepsInv(EmptyState(), t, StuckFabric());
  }

  // ----- what the planner sees -----

  /** The class's settings: the risk multiplier and the least transfer worth fusing for. */
  predicate DefaultPlanner(planner: Planner)
  {
    planner.riskMultiplier == 1.0 && planner.minimumSavedMs == 20.0 && planner.now < U64_MAX
  }

  /** Both workers are free, whatever the order in which they are listed. */
  ghost predicate BothWorkers(context: Context)
  {
    && context.objects == map[] && context.topology == [LINK] && context.riskMultiplier == 1.0
    && Worker(0) in context.resources && Worker(1) in context.resources
    && forall d :: d in context.resources ==> d == Worker(0) || d == Worker(1)
  }

  lemma BothAreFree(planner: Planner, context: Context)
    requires DefaultPlanner(planner) && PlanningView(StuckFabric(), planner, context)
    ensures BothWorkers(context)
  {
    var s := StuckFabric();
    assert IsActive(s, 0, planner.now) && IsActive(s, 1, planner.now);
    assert Worker(0).id == 0 && Worker(1).id == 1;
  }

  ghost predicate Setup(context: FusionContext)
  {
    BothWorkers(context.planning) && context.minimumSavedMs == 20.0
  }

  /** Any task of one unit of work that needs no transfer costs one unit on either worker. */
  lemma UnitCost(task: TaskSpec, resource: ResourceDescriptor, context: Context, work: real)
    requires context.riskMultiplier == 1.0 && (resource == Worker(0) || resource == Worker(1))
    requires task.requirements == ResourceRequirements(None, 0, None, {}) && task.cost.computeMs == work
    requires InputsKnown(task, context.objects)
    requires TotalTransferMs(task, |task.inputs|, resource.id, context.objects, context.topology) == Some(0.0)
    ensures PlacementCost(task, resource, context).Some? && PlacementCost(task, resource, context).value.totalMs == work
  {
    assert resource.Supports(task.requirements);
    assert work / 1.0 == work && work * 0.0 * 1.0 == 0.0;
  }

  lemma FirstCosts(context: FusionContext, entrypoint: string, resource: ResourceDescriptor)
    requires Setup(context) && resource in context.planning.resources
    ensures CostOf(Template(entrypoint), [], resource, context.planning) == Some(1.0)
  {
    var task := Template(entrypoint).Instantiate(0, []);
    assert task.inputs == [];
    UnitCost(task, resource, context.planning, 1.0);
  }

  lemma SecondCosts(context: FusionContext, entrypoint: string, resource: ResourceDescriptor, previous: ChainState)
    requires Setup(context) && resource in context.planning.resources && previous.outputBytes == 0
    ensures CostOf(Template(entrypoint), [context.intermediate], resource, Predicted(previous, context)) == Some(1.0)
  {
    var planning := Predicted(previous, context);
    var task := Template(entrypoint).Instantiate(0, [context.intermediate]);
    assert task.inputs == [context.intermediate];
    assert InputTransferMs(task, 0, resource.id, planning.objects, planning.topology) == Some(0.0);
    assert TotalTransferMs(task, 0, resource.id, planning.objects, planning.topology) == Some(0.0);
    UnitCost(task, resource, planning, 1.0);
  }

  // ----- paths -----

  lemma WorkersAreLinked()
    ensures Link([LINK], 0, 1) == Some(LINK) && Link([LINK], 1, 0) == Some(LINK)
    ensures SavedTransfer(0, LINK) == Finite(100.0)
  {
    assert 0 as real / (1.0 * 125.0) == 0.0;
  }

  /** Entering the chain costs one unit and moves nothing. */
  lemma Entered(head: Choice, context: FusionContext)
    requires Setup(context)
    ensures match Enter(FirstRole(FIRST, []), head, context)
            case Reached(state) =>
              InRange(FIRST, head, context) && state == ChainState(0, context.planning.resources[head.resource].id, 0, 1.0, Finite(0.0), false, false)
            case stop => stop == Hop.Infeasible && !InRange(FIRST, head, context)
  {
    hide CostOf;
    assert |FIRST.Templates()| == 1;
    if InRange(FIRST, head, context) {
      assert FIRST.Templates()[head.implementation] == Template("run");
      FirstCosts(context, "run", context.planning.resources[head.resource]);
    }
  }

  /** The second hop costs another unit; changing workers avoids enough transfer to trigger fusion. */
  lemma Advanced(previous: ChainState, choice: Choice, context: FusionContext)
    requires Setup(context) && (previous.resource == 0 || previous.resource == 1)
    requires previous == ChainState(0, previous.resource, 0, 1.0, Finite(0.0), false, false)
    ensures match Advance(previous, SECOND, choice, context)
            case Reached(state) =>
              && InRange(SECOND, choice, context) && state.totalMs == 2.0
              && state.crosses == (previous.resource != context.planning.resources[choice.resource].id)
              && (state.crosses ==> state.triggers)
            case stop => stop == Hop.Infeasible && !InRange(SECOND, choice, context)
  {
    hide CostOf;
    assert |SECOND.Templates()| == 1;
    if InRange(SECOND, choice, context) {
      var resource := context.planning.resources[choice.resource];
      assert resource in context.planning.resources;
      assert SECOND.Templates()[choice.implementation] == Template("main");
      SecondCosts(context, "main", resource, previous);
      WorkersAreLinked();
    }
  }

  /** Every path of the two roles. */
  lemma Paths(head: Choice, path: seq<Choice>, context: FusionContext)
    requires Setup(context) && |path| <= 1
    ensures match Follow(FirstRole(FIRST, []), [SECOND], head, path, context)
            case Reached(state) => |path| == 1 ==> state.totalMs == 2.0 && (state.crosses ==> state.triggers)
            case stop => stop == Hop.Infeasible
  {
    hide Advance, Enter;
    Entered(head, context);
    var origin := FirstRole(FIRST, []);
    var entered := Enter(origin, head, context);
    assert Follow(origin, [SECOND], head, [], context) == entered;
    if path == [] {
    } else {
      assert path[..0] == [];
      match entered {
        case Reached(state) =>
          assert context.planning.resources[head.resource] in context.planning.resources;
          Advanced(state, path[0], context);
          assert Follow(origin, [SECOND], head, path, context) == Advance(state, SECOND, path[0], context);
        case Infeasible =>
          assert Follow(origin, [SECOND], head, path, context) == Hop.Infeasible;
      }
    }
  }

  lemma CrossingPath(context: FusionContext) returns (state: ChainState)
    requires Setup(context)
    ensures ReachedBy(FirstRole(FIRST, []), [SECOND], 1, context, state) && state.crosses
  {
    hide Advance, Enter;
    var i :| 0 <= i < |context.planning.resources| && context.planning.resources[i] == Worker(0);
    var j :| 0 <= j < |context.planning.resources| && context.planning.resources[j] == Worker(1);
    var origin, head, next := FirstRole(FIRST, []), Choice(0, i), Choice(0, j);
    assert |FIRST.Templates()| == 1 && |SECOND.Templates()| == 1;
    Entered(head, context);
    var entered := Enter(origin, head, context).state;
    Advanced(entered, next, context);
    state := Advance(entered, SECOND, next, context).state;
    assert [next][..0] == [];
    assert Follow(origin, [SECOND], head, [], context) == Reached(entered);
    assert Follow(origin, [SECOND], head, [next], context) == Reached(state);
  }

  lemma ChainIsPlannable(context: FusionContext)
    requires Setup(context)
    ensures Plannable(FirstRole(FIRST, []), [SECOND], context)
  {
    hide Follow;
    var state := CrossingPath(context);
    forall head, path: seq<Choice> | |path| <= 1
      ensures Follow(FirstRole(FIRST, []), [SECOND], head, path, context) != NoLink
    {
      Paths(head, path, context);
    }
  }

  lemma ReachedCostsTwo(context: FusionContext, state: ChainState)
    requires Setup(context) && ReachedBy(FirstRole(FIRST, []), [SECOND], 1, context, state)
    ensures state.totalMs == 2.0 && (state.crosses ==> state.triggers)
  {
    hide Follow;
    var head, path :| |path| == 1 && Follow(FirstRole(FIRST, []), [SECOND], head, path, context) == Reached(state);
    Paths(head, path, context);
  }

  // ----- the pipeline is always worth building -----

  const CHAIN := [FIRST, SECOND]

  function BothTemplates(): seq<TaskTemplate>
  {
    [Template("run"), Template("main")]
  }

  function Pair(): FusedChoice
  {
    FusedChoice(["only", "only"], BothTemplates(), ResourceRequirements(None, 0, None, {}))
  }

  lemma PairIsChoice()
    ensures AllLogical(CHAIN) && FusablePrefix(CHAIN) == 2 && CHAIN[..2] == CHAIN && CHAIN[1..] == [SECOND]
    ensures IsFusedChoice(CHAIN, Pair())
  {
    assert Fusable(Template("run")) && Fusable(Template("main")) by { assert "builtin:" <= "builtin:concat"; }
    assert AllFusable(FIRST) && AllFusable(SECOND);
    assert [SECOND][1..] == [];
    assert FusablePrefix([SECOND]) == 1;
    PairRequirements(Template("run"), Template("main"));
    assert CombineRequirements(Pair().requirements, Pair().requirements) == Some(Pair().requirements) by {
      var none: set<string> := {};
      assert none + none == none;
    }
    assert Combines(CHAIN, [0, 0], Pair());
  }

  lemma FusedCosts(id: TaskId, context: Context)
    requires BothWorkers(context)
    ensures var task := FusedPipelineTask(id, BothTemplates(), [], Pair().requirements);
            Choose(task, context).Success? && Choose(task, context).value.cost.totalMs == 2.0
  {
    hide Choose;
    var task := FusedPipelineTask(id, BothTemplates(), [], Pair().requirements);
    FusedShape(id);
    assert [Template("run"), Template("main")][..1] == [Template("run")];
    forall d | d in context.resources ensures PlacementCost(task, d, context).Some? && PlacementCost(task, d, context).value.totalMs == 2.0 {
      UnitCost(task, d, context, 2.0);
    }
    ChosenCost(task, context, 2.0);
  }

  lemma FusedShape(id: TaskId)
    ensures var task := FusedPipelineTask(id, BothTemplates(), [], Pair().requirements);
            task.inputs == [] && task.cost.computeMs == 2.0 && task.requirements == Pair().requirements
  {
    var later := BothTemplates()[1..];
    assert later == [Template("main")] && later[..0] == [];
    assert Template("run").inputs + [] == [];
    assert ExternalBindings([], []) == ([], []);
    assert LaterStages([], []) == ([], []);
    assert LaterStages(later, []).1 == [];
    assert BothTemplates()[..1] == [Template("run")] && [Template("run")][..0] == [];
    assert TotalCompute([]) == 0.0 && TotalCompute([Template("run")]) == 1.0;
    assert TotalCompute(BothTemplates()) == 2.0;
  }

  lemma ChosenCost(task: TaskSpec, context: Context, ms: real)
    requires context.resources != []
    requires forall d :: d in context.resources ==> PlacementCost(task, d, context).Some? && PlacementCost(task, d, context).value.totalMs == ms
    ensures Choose(task, context).Success? && Choose(task, context).value.cost.totalMs == ms
  {
    hide PlacementCost;
    assert context.resources[0] in context.resources;
    assert PlacementCost(task, context.resources[0], context).Some?;
  }

  /** Fusing both roles costs no more than any separate path and avoids enough transfer: it is a candidate. */
  lemma PairIsCandidate(context: FusionContext, id: TaskId, comparison: Comparison) returns (selection: Selection)
    requires Setup(context)
    requires CrossingsFound(CHAIN, [], context, comparison, 3)
    requires exists full :: Minimal(FirstRole(CHAIN[0], []), CHAIN[1..], context, full) && full.totalMs == comparison.fullMs
    ensures CandidateOf(CHAIN, [], context, id, comparison, 2, Pair(), selection)
  {
    hide Choose, FusedPipelineTask, Follow, FusablePrefix, IsFusedChoice;
    PairIsChoice();
    FusedCosts(id, context.planning);
    var full :| Minimal(FirstRole(CHAIN[0], []), CHAIN[1..], context, full) && full.totalMs == comparison.fullMs;
    ReachedCostsTwo(context, full);
    var crossing := comparison.crossings[2];
    var crossed := CrossingPath(context);
    assert MinimalCrossing(FirstRole(FIRST, []), [SECOND], context, crossing);
    ReachedCostsTwo(context, crossing.value);
    var task := FusedPipelineTask(id, BothTemplates(), [], Pair().requirements);
    var decision := Choose(task, context.planning).value;
    selection := Selection(Pair().names, Pair().tasks, Pair().requirements, task, decision.resource, decision.cost,
                           crossing.value.crossTransferMs, 0.0);
    assert Projects(CHAIN, 2, selection, context, 2.0);
  }

  lemma SomethingIsSelected(context: FusionContext, id: TaskId, comparison: Comparison, best: Option<Selection>)
    requires Setup(context) && AllLogical(CHAIN) && BestSelection(CHAIN, [], context, id, comparison, best)
    ensures best.Some?
  {
    hide CandidateOf, CrossingsFound, Minimal, IsFusedChoice;
    PairIsChoice();
    var selection := PairIsCandidate(context, id, comparison);
    assert Considered(CHAIN, FusablePrefix(CHAIN) + 1, [], 2, Pair());
  }

  // ----- every pass fails -----

  /** The only entry a pass finds is the first role, with the chain of both. */
  lemma OnlyEntry(waiting: set<string>, item: ReadyRole)
    requires WaitingRoles(StuckFabric().jobs[0]) <= waiting && StillReady(StuckFabric().jobs[0], waiting, item)
    ensures item == ReadyRole(FIRST, [], CHAIN)
  {
    var job := StuckFabric().jobs[0];
    TheRoles();
    assert "first" in WaitingRoles(job) && "second" in WaitingRoles(job);
    assert ["first"][..0] == [];
    assert DependencyOutputs(job.roles, ["first"]).None?;
    assert item.role == FIRST;
    assert Consumers([], "first") == [] && Consumers([SECOND], "first") == [SECOND];
    assert Consumers(DEFINITION.roles, "first") == [SECOND];
    assert NextInChain(DEFINITION, waiting, FIRST) == Some(SECOND);
    assert NextInChain(DEFINITION, waiting, SECOND).None?;
    assert item.chain[0] == FIRST && |item.chain| > 1 && item.chain[1] == SECOND;
    if |item.chain| > 2 { LongChain(waiting, item.chain); }
  }

  lemma LongChain(waiting: set<string>, chain: seq<RoleSpec>)
    requires IsFusionChain(DEFINITION, waiting, chain) && |chain| > 2
    ensures NextInChain(DEFINITION, waiting, chain[1]).Some?
  {
    var next := 2;
    assert NextInChain(DEFINITION, waiting, chain[next - 1]) == Some(chain[next]);
  }

  lemma DecisionIsRefused(planner: Planner, item: ReadyRole, choice: RoleChoice)
    requires DefaultPlanner(planner) && item == ReadyRole(FIRST, [], CHAIN)
    requires RoleDecided(StuckFabric(), item, planner, choice) && ChoiceAllowed(StuckFabric(), 0, "first", choice)
    ensures RefusedChoice(choice)
  {
    hide PlanningView, BestSelection, ChoiceAllowed, SingleChosen, Plannable;
    var context :| PlanningView(StuckFabric(), planner, context) && WellChosen(item, context, planner, choice);
    var fusion := FusionContext(context, planner.minimumSavedMs, planner.intermediate);
    BothAreFree(planner, context);
    PairIsChoice();
    ChainIsPlannable(fusion);
    assert FusionConsidered(item, fusion);
    forall id ensures !FusionDeclined(item, fusion, id) { NeverDeclined(fusion, item, id); }
    SecondIsFused(choice);
  }

  lemma NeverDeclined(fusion: FusionContext, item: ReadyRole, id: TaskId)
    requires Setup(fusion) && item == ReadyRole(FIRST, [], CHAIN) && FusionConsidered(item, fusion)
    ensures !FusionDeclined(item, fusion, id)
  {
    hide BestSelection, FusionConsidered;
    PairIsChoice();
    forall comparison ensures !BestSelection(CHAIN, [], fusion, id, comparison, None) {
      if BestSelection(CHAIN, [], fusion, id, comparison, None) { SomethingIsSelected(fusion, id, comparison, None); }
    }
  }

  lemma SecondIsFused(choice: RoleChoice)
    requires choice.Fused? && ChoiceAllowed(StuckFabric(), 0, "first", choice)
    ensures RefusedChoice(choice)
  {
    TheRoles();
    assert PrivateEdge(DEFINITION, choice.chain[0], choice.chain[1]);
    assert choice.chain[1] == "second";
    assert InstanceOf(SECOND, choice.templates[1]);
    assert choice.templates[1] == Template("main");
  }

  lemma StepIsRefused(planner: Planner, action: Action)
    requires DefaultPlanner(planner) && Enabled(StuckFabric(), action) && Decided(StuckFabric(), action, planner)
    ensures action.MaterializeRole? && RefusedChoice(action.choice) && Step(StuckFabric(), action) == StuckFabric()
  {
    hide RoleDecided, LevelDecided, StillReady, RefusedChoice, ChoiceAllowed, MaterializeFails, Materializable;
    var s := StuckFabric();
    match action {
      case MaterializeRole(job, name, choice) =>
        var waiting, item :| WaitingRoles(s.jobs[job]) <= waiting && StillReady(s.jobs[job], waiting, item) && item.role.name == name
                             && RoleDecided(s, item, planner, choice);
        OnlyEntry(waiting, item);
        DecisionIsRefused(planner, item, choice);
        RefusedIff(s, 0, "first", choice);
        RefusedChangesNothing(s, 0, "first", choice);
      case _ =>
    }
  }

  lemma RefusedChangesNothing(s: State, id: JobId, name: string, choice: RoleChoice)
    requires ChoiceAllowed(s, id, name, choice) && RefusedChoice(choice)
    ensures Enabled(s, Action.MaterializeRole(id, name, choice)) && Step(s, Action.MaterializeRole(id, name, choice)) == s
  {
    hide ChoiceAllowed, Materialize, RefusedChoice;
    RefusedIff(s, id, name, choice);
    FailureChangesNothing(s, id, name, choice);
  }

  lemma FailureChangesNothing(s: State, id: JobId, name: string, choice: RoleChoice)
    requires ChoiceAllowed(s, id, name, choice) && MaterializeFails(s, id, name, choice)
    ensures Materialize(s, id, name, choice) == s
  {
    hide AdmissibleTask, FusedPipelineTask, ChainAllowed, DependencyOutputs, ShardsAllowed, SetRoles, FindRole;
  }

  /** Whatever passes are made, the fabric stays as it is and the first role stays without a task. */
  lemma {:induction false} RefusedJobStaysStuck(planner: Planner, trace: seq<Action>, t: State)
    requires DefaultPlanner(planner) && Planned(StuckFabric(), trace, t, planner)
    ensures t == StuckFabric() && (trace != [] ==> !NoneRefused(trace))
    ensures !Unstuck(StuckFabric().jobs[0]) && !PipelinesAdmissible(DEFINITION)
    decreases |trace|
  {
    hide Enabled, Step, Decided, NoneRefused, PipelinesAdmissible;
    FirstIsStuck();
    PipelinesAreNot();
    if trace != [] {
      StepIsRefused(planner, trace[0]);
      RefusedJobStaysStuck(planner, trace[1..], t);
      assert !NoneRefused(trace) by { assert trace[0] in trace; FirstRefused(trace); }
    }
  }

  /** So neither refreshing the roles nor polling for work can succeed on this fabric, for any worker. */
  lemma NoPassSucceeds(planner: Planner, trace: seq<Action>, t: State)
    requires DefaultPlanner(planner) && Planned(StuckFabric(), trace, t, planner)
    ensures 0 in t.jobs && !FullyTried(t.jobs[0], 0, trace)
  {
    hide Planned, Unstuck, PipelinesAdmissible, NoneRefused;
    RefusedJobStaysStuck(planner, trace, t);
  }

  lemma FirstRefused(trace: seq<Action>)
    requires trace != [] && trace[0].MaterializeRole? && RefusedChoice(trace[0].choice)
    ensures !NoneRefused(trace)
  {
    hide RefusedChoice;
  }

  lemma FirstIsStuck()
    ensures !Unstuck(StuckFabric().jobs[0])
  {
    var job := StuckFabric().jobs[0];
    assert FindRole(DEFINITION.roles, "first") == Some(FIRST);
    assert "first" in job.roles && DependencyOutputs(job.roles, []).Some?;
  }

  lemma PipelinesAreNot()
    ensures !PipelinesAdmissible(DEFINITION)
  {
    PairIsChoice();
    hide RunsAll;
    MainIsNotRun();
    TheRoles();
    assert PrivateEdge(DEFINITION, "first", "second");
    assert FIRST.Templates()[0] == Template("run") && SECOND.Templates()[0] == Template("main");
    assert MayFuse(DEFINITION, FIRST, SECOND, Template("run"), Template("main"));
  }

  lemma MainIsNotRun()
    ensures !RunsAll([Template("run"), Template("main")])
  {
    assert [Template("run"), Template("main")][1].entrypoint != "run";
  }
}
