/** When task validation refuses a pipeline of the planner, and which jobs can never meet such a refusal. */
module Refusals {
  import opened Wrappers
  import opened Core
  import opened RoleGraph
  import opened FusionRewrite
  import opened Scheduler
  import opened ShardCount
  import opened Admission
  import opened ChainPlanner
  import opened FusionSelection
  import opened ReadySelection
  import opened FabricModel
  import opened FabricReady
  import opened PlannerDecisions

  // ----- jobs whose pipelines are all admitted -----

  predicate RunsAll(templates: seq<TaskTemplate>)
  {
    forall i :: 0 <= i < |templates| ==> templates[i].entrypoint == "run"
  }

  /** The planner may put these implementations of two neighbouring roles into one pipeline. */
  ghost predicate MayFuse(definition: JobDefinition, producer: RoleSpec, consumer: RoleSpec, first: TaskTemplate, second: TaskTemplate)
  {
    && producer in definition.roles && consumer in definition.roles
    && PrivateEdge(definition, producer.name, consumer.name)
    && producer.Chainable() && consumer.Chainable() && AllFusable(producer) && AllFusable(consumer)
    && first in producer.Templates() && second in consumer.Templates()
    && CombineRequirements(first.requirements, second.requirements).Some?
  }

  /** What a submitter can check: wherever two neighbours may be fused, both sides name the entrypoint `run`. */
  ghost predicate PipelinesAdmissible(definition: JobDefinition)
  {
    forall producer, consumer, first, second :: MayFuse(definition, producer, consumer, first, second) ==> RunsAll([first, second])
  }

  /** A pipeline the planner may consider: a fusable prefix of some fusion chain with requirements that agree. */
  ghost predicate Pipeline(definition: JobDefinition, waiting: set<string>, chain: seq<RoleSpec>, prefix: nat, choice: FusedChoice)
  {
    && IsFusionChain(definition, waiting, chain) && chain[0] in definition.roles && AllLogical(chain)
    && 2 <= prefix <= FusablePrefix(chain) && IsFusedChoice(chain[..prefix], choice)
  }

  /** The condition is exact: it holds if and only if every pipeline of the job that may be considered passes validation. */
  lemma PipelinesAdmissibleIff(definition: JobDefinition)
    requires ValidGraph(definition.roles, definition.outputs)
    ensures PipelinesAdmissible(definition) <==>
            forall waiting, chain, prefix, choice :: Pipeline(definition, waiting, chain, prefix, choice) ==> RunsAll(choice.tasks)
  {
    hide MayFuse, Pipeline, RunsAll;
    if PipelinesAdmissible(definition) {
      forall waiting, chain, prefix, choice | Pipeline(definition, waiting, chain, prefix, choice) ensures RunsAll(choice.tasks) {
        PipelineRuns(definition, waiting, chain, prefix, choice);
      }
    } else {
      var p, c, a, b :| MayFuse(definition, p, c, a, b) && !RunsAll([a, b]);
      var choice := FusedPair(definition, p, c, a, b);
    }
  }

  /** The requirements of neighbouring stages can be combined if those of the whole chain can. */
  lemma {:induction false} NeighboursCombine(templates: seq<TaskTemplate>, i: nat)
    requires i + 1 < |templates| && ChainRequirements(templates).Some?
    ensures CombineRequirements(templates[i].requirements, templates[i + 1].requirements).Some?
  {
    var n := |templates| - 1;
    if i + 1 < n {
      NeighboursCombine(templates[..n], i);
    } else {
      var sofar := ChainRequirements(templates[..n]).value;
      LastIsAbsorbed(templates[..n]);
      CombinesWithLess(sofar, templates[..n][n - 1].requirements, templates[n].requirements);
    }
  }

  /** `part` asks for nothing `whole` does not settle. */
  predicate Settles(whole: ResourceRequirements, part: ResourceRequirements)
  {
    && (part.architecture.Some? ==> whole.architecture == part.architecture)
    && (part.accelerator.Some? ==> whole.accelerator.Some? && whole.accelerator.value.kind == part.accelerator.value.kind)
  }

  lemma LastIsAbsorbed(templates: seq<TaskTemplate>)
    requires templates != [] && ChainRequirements(templates).Some?
    ensures Settles(ChainRequirements(templates).value, templates[|templates| - 1].requirements)
  {
  }

  lemma CombinesWithLess(whole: ResourceRequirements, part: ResourceRequirements, other: ResourceRequirements)
    requires Settles(whole, part) && CombineRequirements(whole, other).Some?
    ensures CombineRequirements(part, other).Some?
  {
  }

  lemma PipelineRuns(definition: JobDefinition, waiting: set<string>, chain: seq<RoleSpec>, prefix: nat, choice: FusedChoice)
    requires ValidGraph(definition.roles, definition.outputs) && PipelinesAdmissible(definition)
    requires Pipeline(definition, waiting, chain, prefix, choice)
    ensures RunsAll(choice.tasks)
  {
    hide MayFuse, ChainRequirements, Fusable, AllFusable;
    ChoiceIsFusable(chain, prefix, choice);
    forall i | 0 <= i < |choice.tasks| ensures choice.tasks[i].entrypoint == "run" {
      var k := if i == 0 then 0 else i - 1;
      NeighboursMayFuse(definition, waiting, chain, prefix, choice, k);
      assert RunsAll([choice.tasks[k], choice.tasks[k + 1]]);
      assert [choice.tasks[k], choice.tasks[k + 1]][i - k] == choice.tasks[i];
    }
  }

  lemma NeighboursMayFuse(definition: JobDefinition, waiting: set<string>, chain: seq<RoleSpec>, prefix: nat, choice: FusedChoice, k: nat)
    requires ValidGraph(definition.roles, definition.outputs)
    requires Pipeline(definition, waiting, chain, prefix, choice) && k + 1 < |choice.tasks| == prefix <= |chain|
    ensures MayFuse(definition, chain[k], chain[k + 1], choice.tasks[k], choice.tasks[k + 1])
  {
    hide Fusable, AllFusable, ChainRequirements, CombineRequirements, PrivateEdge, Acyclic, NextInChain, IsFusedChoice;
    ChoiceIsFusable(chain, prefix, choice);
    ChainEdgesArePrivate(definition, waiting, chain);
    NeighboursCombine(choice.tasks, k);
    assert FindRole(definition.roles, chain[k].name) == Some(chain[k]);
    assert FindRole(definition.roles, chain[k + 1].name) == Some(chain[k + 1]);
    assert PrivateEdge(definition, chain[k].name, chain[k + 1].name);
  }

  /** Two neighbours that may be fused are a fusion chain of their own once only the second still waits. */
  lemma FusedPair(definition: JobDefinition, p: RoleSpec, c: RoleSpec, a: TaskTemplate, b: TaskTemplate) returns (choice: FusedChoice)
    requires ValidGraph(definition.roles, definition.outputs) && MayFuse(definition, p, c, a, b)
    ensures Pipeline(definition, {c.name}, [p, c], 2, choice) && choice.tasks == [a, b]
  {
    hide Fusable, CombineRequirements, Acyclic;
    var chain := [p, c];
    OneConsumer(definition, p, c);
    assert chain[1..] == [c] && [c][1..] == [];
    assert FusablePrefix([c]) == 1 && FusablePrefix(chain) == 2;
    assert chain[..2] == chain;
    var i :| 0 <= i < |p.implementations| && p.implementations[i].task == a;
    var j :| 0 <= j < |c.implementations| && c.implementations[j].task == b;
    choice := FusedChoice([p.implementations[i].name, c.implementations[j].name], [a, b],
                          CombineRequirements(a.requirements, b.requirements).value);
    PairRequirements(a, b);
    assert Combines(chain, [i, j], choice);
  }

  lemma PairRequirements(a: TaskTemplate, b: TaskTemplate)
    ensures ChainRequirements([a, b]) == CombineRequirements(a.requirements, b.requirements)
  {
    assert [a, b][..1] == [a];
    assert ChainRequirements([a]) == Some(a.requirements);
  }

  lemma OneConsumer(definition: JobDefinition, p: RoleSpec, c: RoleSpec)
    requires ValidGraph(definition.roles, definition.outputs) && p in definition.roles && c in definition.roles
    requires PrivateEdge(definition, p.name, c.name) && c.Chainable()
    ensures NextInChain(definition, {c.name}, p) == Some(c)
  {
    hide Acyclic;
    RoleIsUnique(definition.roles, c);
    forall r | r in definition.roles && p.name in r.dependsOn ensures r == c {
      RoleIsUnique(definition.roles, r);
      assert HasRole(definition.roles, r.name) && Role(definition.roles, r.name) == r;
    }
    ConsumersOnce(definition.roles, p.name, c);
  }

  lemma {:induction false} ConsumersOnce(roles: seq<RoleSpec>, name: string, c: RoleSpec)
    requires UniqueNames(roles) && c in roles && name in c.dependsOn
    requires forall r :: r in roles && name in r.dependsOn ==> r == c
    ensures Consumers(roles, name) == [c]
  {
    if roles[0] == c {
      forall i | 1 <= i < |roles| ensures roles[i] != c {
        assert roles[0].name != roles[i].name;
      }
      NoConsumers(roles[1..], name);
    } else {
      ConsumersOnce(roles[1..], name, c);
    }
  }

  lemma {:induction false} NoConsumers(roles: seq<RoleSpec>, name: string)
    requires forall i :: 0 <= i < |roles| ==> name !in roles[i].dependsOn
    ensures Consumers(roles, name) == []
  {
    if roles != [] { NoConsumers(roles[1..], name); }
  }

  // ----- refused choices -----

  /** A pipeline with a stage that names another entrypoint. */
  predicate RefusedChoice(choice: RoleChoice)
  {
    choice.Fused? && !RunsAll(choice.templates)
  }

  lemma RefusedIff(s: State, id: JobId, name: string, choice: RoleChoice)
    requires ChoiceAllowed(s, id, name, choice)
    ensures MaterializeFails(s, id, name, choice) <==> RefusedChoice(choice)
  {
    hide InstanceOf, PrivateEdge, DependencyOutputs, ShardsAllowed, AdmissibleTask, FusedPipelineTask;
    if choice.Fused? {
      var job := s.jobs[id];
      var dependencies := DependencyOutputs(job.roles, Role(job.definition.roles, name).dependsOn);
      if dependencies.Some? {
        FusedTaskIsAdmissibleIff(choice.task, choice.templates, dependencies.value, choice.requirements);
      }
    }
  }

  /** No decision of the pass was refused. */
  ghost predicate NoneRefused(trace: seq<Action>)
  {
    forall action :: action in trace && action.MaterializeRole? ==> !RefusedChoice(action.choice)
  }

  /** For a job that meets the condition the planner never decides on a pipeline that is refused. */
  lemma DecidedIsAdmitted(s: State, id: JobId, waiting: set<string>, item: ReadyRole, planner: Planner, choice: RoleChoice)
    requires id in s.jobs && ValidGraph(s.jobs[id].definition.roles, s.jobs[id].definition.outputs)
    requires StillReady(s.jobs[id], waiting, item) && RoleDecided(s, item, planner, choice)
    requires PipelinesAdmissible(s.jobs[id].definition)
    ensures !RefusedChoice(choice)
  {
    hide PlanningView, PipelinesAdmissible, StillReady, CannotFanOut, ShardsChosen;
    if choice.Fused? {
      var context :| PlanningView(s, planner, context) && WellChosen(item, context, planner, choice);
      ItemChain(s.jobs[id], waiting, item);
      ChosenIsPipeline(s.jobs[id].definition, waiting, item, FusionContext(context, planner.minimumSavedMs, planner.intermediate), choice);
    }
  }

  lemma ItemChain(job: JobRecord, waiting: set<string>, item: ReadyRole)
    requires StillReady(job, waiting, item)
    ensures item.role in job.definition.roles
    ensures item.role.Logical? ==> IsFusionChain(job.definition, waiting, item.chain) && item.chain[0] == item.role
  {
    hide Materializable, DependencyOutputs, IsFusionChain;
  }

  lemma ChosenIsPipeline(definition: JobDefinition, waiting: set<string>, item: ReadyRole, fusion: FusionContext, choice: RoleChoice)
    requires ValidGraph(definition.roles, definition.outputs) && PipelinesAdmissible(definition)
    requires IsFusionChain(definition, waiting, item.chain) && item.chain[0] in definition.roles
    requires FusionChosen(item, fusion, choice)
    ensures RunsAll(choice.templates)
  {
    hide PipelinesAdmissible, IsFusionChain, BestSelection, IsFusedChoice, CandidateOf, FusablePrefix, Plannable;
    var comparison, selection :| BestSelection(item.chain, item.inputs, fusion, choice.task, comparison, Some(selection))
                                 && selection.tasks == choice.templates;
    var prefix, fused := SelectionIsCandidate(item.chain, item.inputs, fusion, choice.task, comparison, selection);
    CandidateIsPlaced(item.chain, item.inputs, fusion, choice.task, comparison, prefix, fused, selection);
    PipelineRuns(definition, waiting, item.chain, prefix, fused);
    TasksOfPlaced(item.inputs, fusion, choice.task, fused, selection);
  }

  lemma TasksOfPlaced(dependencies: seq<ObjectId>, context: FusionContext, id: TaskId, choice: FusedChoice, selection: Selection)
    requires FusionSelection.Placed(dependencies, context, id, choice, selection)
    ensures selection.tasks == choice.tasks
  {
  }
}
