/**
 * What the planner decides for the fabric at one instant: the choice for a ready role and the placement
 * of a reduction level, both against the resources then free. A pass is a trace of such decisions.
 */
module PlannerDecisions {
  import opened Wrappers
  import opened Core
  import opened RoleGraph
  import opened Scheduler
  import opened Sharding
  import opened ShardCount
  import opened ReductionPlanning
  import opened Admission
  import opened ChainPlanner
  import opened FusionSelection
  import opened ReadySelection
  import opened FabricModel
  import opened LeaseSafety
  import opened FabricReady

  // ----- the planner's view -----

  /** The fabric's settings and the clock reading under which a pass plans. */
  datatype Planner = Planner(riskMultiplier: real, minimumSavedMs: real, intermediate: ObjectId, now: u64)

  /** `free` lists the active members without an unexpired execution, in any order. */
  ghost predicate FreeListing(s: State, now: u64, free: seq<ResourceDescriptor>)
  {
    forall d :: d in free <==>
      IsActive(s, d.id, now) && ResourceFree(s, d.id, now) && s.resources[d.id].descriptor == d
  }

  ghost predicate PlanningView(s: State, planner: Planner, context: Context)
  {
    && context.objects == s.objects && context.topology == s.links && context.riskMultiplier == planner.riskMultiplier
    && FreeListing(s, planner.now, context.resources)
  }

  // ----- the choice for a ready role -----

  /** One implementation on one resource: the cheapest pair, or nothing because no pair is feasible. */
  ghost predicate SingleChosen(item: ReadyRole, context: Context, id: TaskId, choice: RoleChoice)
  {
    match choice
    case Infeasible => forall i: nat, r: nat, cost :: !Runs(item.role, item.inputs, context, id, i, r, cost)
    case Direct(task, template) =>
      exists selected ::
        && IsRoleSelection(item.role, item.inputs, context, task, selected)
        && template == item.role.Templates()[selected.implementation]
        && forall i: nat, r: nat, cost :: Runs(item.role, item.inputs, context, task, i, r, cost) ==>
             selected.cost.totalMs <= cost.totalMs
    case _ => false
  }

  ghost predicate FanOutChosen(item: ReadyRole, context: Context, choice: RoleChoice)
  {
    && item.role.Logical? && item.role.implementations != []
    && match choice
       case Infeasible => CannotFanOut(item.role, item.inputs, context)
       case Shards(specs) =>
         exists first, chosen :: ShardsChosen(item.role, item.inputs, 0.0, map[], context, first, chosen) && specs == TasksOf(chosen)
       case _ => false
  }

  ghost predicate FusionConsidered(item: ReadyRole, fusion: FusionContext)
  {
    && AllLogical(item.chain) && item.chain != [] && FusablePrefix(item.chain) >= 2
    && Plannable(FirstRole(item.chain[0], item.inputs), item.chain[1..], fusion)
  }

  /** The best selection for the chain is the one submitted. */
  ghost predicate FusionChosen(item: ReadyRole, fusion: FusionContext, choice: RoleChoice)
  {
    && choice.Fused? && FusionConsidered(item, fusion)
    && exists comparison, selection ::
         && BestSelection(item.chain, item.inputs, fusion, choice.task, comparison, Some(selection))
         && selection.tasks == choice.templates && selection.requirements == choice.requirements
         && |selection.tasks| <= |item.chain| && choice.chain == NamesOf(item.chain[..|selection.tasks|])
  }

  ghost predicate FusionDeclined(item: ReadyRole, fusion: FusionContext, id: TaskId)
  {
    FusionConsidered(item, fusion) ==>
      exists comparison :: BestSelection(item.chain, item.inputs, fusion, id, comparison, None)
  }

  ghost predicate WellChosen(item: ReadyRole, context: Context, planner: Planner, choice: RoleChoice)
  {
    var fusion := FusionContext(context, planner.minimumSavedMs, planner.intermediate);
    if item.role.Cooperative? then choice.Direct? && choice.template == item.role.task
    else if item.role.FansOut() then FanOutChosen(item, context, choice)
    else if choice.Fused? then FusionChosen(item, fusion, choice)
    else exists id :: FusionDeclined(item, fusion, id) && SingleChosen(item, context, id, choice)
  }

  ghost predicate RoleDecided(s: State, item: ReadyRole, planner: Planner, choice: RoleChoice)
  {
    exists context :: PlanningView(s, planner, context) && WellChosen(item, context, planner, choice)
  }

  lemma PlanningObjects(s: State, planner: Planner, context: Context)
    requires PlanningView(s, planner, context)
    ensures context.objects == s.objects
  {
  }

  lemma CooperativeDecided(s: State, item: ReadyRole, planner: Planner, context: Context, choice: RoleChoice)
    requires PlanningView(s, planner, context) && item.role.Cooperative?
    requires choice.Direct? && choice.template == item.role.task
    ensures RoleDecided(s, item, planner, choice)
  {
    hide PlanningView;
    assert WellChosen(item, context, planner, choice);
  }

  lemma FanOutDecided(s: State, item: ReadyRole, planner: Planner, context: Context, choice: RoleChoice)
    requires PlanningView(s, planner, context) && item.role.FansOut() && FanOutChosen(item, context, choice)
    ensures RoleDecided(s, item, planner, choice)
  {
    hide PlanningView, FanOutChosen;
    assert WellChosen(item, context, planner, choice);
  }

  lemma FusionIsDecided(s: State, item: ReadyRole, planner: Planner, context: Context, comparison: Comparison, selection: Selection,
                        choice: RoleChoice)
    requires PlanningView(s, planner, context) && item.role.Logical? && !item.role.FansOut() && choice.Fused?
    requires var fusion := FusionContext(context, planner.minimumSavedMs, planner.intermediate);
             && FusionConsidered(item, fusion)
             && BestSelection(item.chain, item.inputs, fusion, choice.task, comparison, Some(selection))
    requires selection.tasks == choice.templates && selection.requirements == choice.requirements
    requires |selection.tasks| <= |item.chain| && choice.chain == NamesOf(item.chain[..|selection.tasks|])
    ensures RoleDecided(s, item, planner, choice)
  {
    hide PlanningView, FusionConsidered, BestSelection;
    assert FusionChosen(item, FusionContext(context, planner.minimumSavedMs, planner.intermediate), choice);
    assert WellChosen(item, context, planner, choice);
  }

  lemma SingleDecided(s: State, item: ReadyRole, planner: Planner, context: Context, id: TaskId, comparison: Comparison, choice: RoleChoice)
    requires PlanningView(s, planner, context) && item.role.Logical? && !item.role.FansOut() && !choice.Fused?
    requires var fusion := FusionContext(context, planner.minimumSavedMs, planner.intermediate);
             FusionConsidered(item, fusion) ==> BestSelection(item.chain, item.inputs, fusion, id, comparison, None)
    requires SingleChosen(item, context, id, choice)
    ensures RoleDecided(s, item, planner, choice)
  {
    hide PlanningView, FusionConsidered, BestSelection, SingleChosen;
    assert FusionDeclined(item, FusionContext(context, planner.minimumSavedMs, planner.intermediate), id);
    assert WellChosen(item, context, planner, choice);
  }

  lemma NothingChosen(item: ReadyRole, context: Context, id: TaskId)
    requires forall i: nat, r: nat, cost :: !Runs(item.role, item.inputs, context, id, i, r, cost)
    ensures SingleChosen(item, context, id, RoleChoice.Infeasible)
  {
  }

  lemma CheapestChosen(item: ReadyRole, context: Context, id: TaskId, selected: RoleSelection)
    requires IsRoleSelection(item.role, item.inputs, context, id, selected)
    requires forall i: nat, r: nat, cost :: Runs(item.role, item.inputs, context, id, i, r, cost) ==> selected.cost.totalMs <= cost.totalMs
    ensures SingleChosen(item, context, id, Direct(id, item.role.Templates()[selected.implementation]))
  {
    hide Runs, IsRoleSelection;
  }

  // ----- the placement of a level -----

  /** The level was placed from now on idle resources, or given up because a reducer runs nowhere. */
  ghost predicate LevelDecided(s: State, reduction: RoleReductionSpec, inputs: seq<ObjectId>, planner: Planner,
                               items: Option<seq<LevelItem>>)
  {
    exists context :: PlanningView(s, planner, context) && LevelChosen(reduction, inputs, 0.0, map[], context, items)
  }

  // ----- passes -----

  ghost predicate Decided(s: State, action: Action, planner: Planner)
  {
    match action
    case MaterializeRole(job, name, choice) =>
      job in s.jobs && exists waiting, item ::
        && WaitingRoles(s.jobs[job]) <= waiting && StillReady(s.jobs[job], waiting, item) && item.role.name == name
        && RoleDecided(s, item, planner, choice)
    case PlaceReduction(job, name, items) =>
      && job in s.jobs && LevelUnplaced(s.jobs[job], name)
      && LevelDecided(s, ReductionOf(s.jobs[job], name).value, s.jobs[job].reductions[name].inputs, planner, items)
    case _ => false
  }

  /** Steps that carry out planner decisions, one after the other, lead from `s` to `t`. */
  ghost predicate Planned(s: State, trace: seq<Action>, t: State, planner: Planner)
    decreases |trace|
  {
    if trace == [] then s == t
    else Enabled(s, trace[0]) && Decided(s, trace[0], planner) && Planned(Step(s, trace[0]), trace[1..], t, planner)
  }

  lemma {:induction false} PlannedReaches(s: State, trace: seq<Action>, t: State, planner: Planner)
    requires Planned(s, trace, t, planner)
    ensures Reaches(s, trace, t)
    ensures forall k :: 0 <= k < |trace| ==> trace[k].MaterializeRole? || trace[k].PlaceReduction?
    decreases |trace|
  {
    hide Enabled, Step, RoleDecided, LevelDecided, StillReady, LevelUnplaced;
    if trace != [] {
      PlannedReaches(Step(s, trace[0]), trace[1..], t, planner);
      forall k | 1 <= k < |trace| ensures trace[k].MaterializeRole? || trace[k].PlaceReduction? {
        assert trace[k] == trace[1..][k - 1];
      }
    }
  }

  lemma {:induction false} PlannedThen(s: State, trace: seq<Action>, t: State, action: Action, planner: Planner)
    requires Planned(s, trace, t, planner) && Enabled(t, action) && Decided(t, action, planner)
    ensures Planned(s, trace + [action], Step(t, action), planner)
    decreases |trace|
  {
    hide Enabled, Step, Decided;
    if trace == [] {
      assert [action][1..] == [];
      assert Planned(Step(t, action), [], Step(t, action), planner);
    } else {
      assert (trace + [action])[1..] == trace[1..] + [action];
      PlannedThen(Step(s, trace[0]), trace[1..], t, action, planner);
    }
  }

  lemma {:induction false} PlannedAll(s: State, trace: seq<Action>, t: State, more: seq<Action>, u: State, planner: Planner)
    requires Planned(s, trace, t, planner) && Planned(t, more, u, planner)
    ensures Planned(s, trace + more, u, planner)
    decreases |trace|
  {
    hide Enabled, Step, Decided;
    if trace == [] {
      assert trace + more == more;
    } else {
      assert (trace + more)[1..] == trace[1..] + more;
      PlannedAll(Step(s, trace[0]), trace[1..], t, more, u, planner);
    }
  }
}
