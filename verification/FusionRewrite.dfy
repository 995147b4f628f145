/** Fusion as a compiler pass that preserves meaning, failure included. */
module FusionRewrite {
  import opened Wrappers
  import opened Core
  import opened Execution

  // ----- input de-duplication -----

  function IndexOf(ids: seq<ObjectId>, id: ObjectId): (r: Option<nat>)
    ensures r.Some? ==> r.value < |ids| && ids[r.value] == id
    ensures r.None? ==> id !in ids
  {
    if ids == [] then None
    else if ids[|ids| - 1] == id then Some(|ids| - 1)
    else IndexOf(ids[..|ids| - 1], id)
  }

  predicate Distinct(ids: seq<ObjectId>)
  {
    forall i, j :: 0 <= i < j < |ids| ==> ids[i] != ids[j]
  }

  /** The bindings name exactly `ids`, in order, as positions of `external`. */
  predicate Binds(bindings: seq<PipelineInput>, ids: seq<ObjectId>, external: seq<ObjectId>)
  {
    |bindings| == |ids| &&
    forall i :: 0 <= i < |ids| ==>
      bindings[i].External? && bindings[i].index < |external| && external[bindings[i].index] == ids[i]
  }

  /** Binds `ids` in order, appending to `external` only the objects not there yet. */
  function ExternalBindings(ids: seq<ObjectId>, external: seq<ObjectId>)
    : (r: (seq<PipelineInput>, seq<ObjectId>))
    ensures external <= r.1
    ensures Binds(r.0, ids, r.1)
    ensures Distinct(external) ==> Distinct(r.1)
    ensures forall id :: id in r.1 <==> id in external || id in ids
  {
    if ids == [] then ([], external)
    else
      var n := |ids| - 1;
      var (bound, sofar) := ExternalBindings(ids[..n], external);
      match IndexOf(sofar, ids[n])
      case Some(index) => (bound + [External(index)], sofar)
      case None => (bound + [External(|sofar|)], sofar + [ids[n]])
  }

  // ----- the rewrite -----

  function Stage(template: TaskTemplate, inputs: seq<PipelineInput>): TaskPipelineStage
  {
    TaskPipelineStage(template.artifact, template.entrypoint, template.arguments, inputs)
  }

  /** Stages after the first: their static inputs, then the previous stage's output. */
  function LaterStages(templates: seq<TaskTemplate>, external: seq<ObjectId>)
    : (r: (seq<TaskPipelineStage>, seq<ObjectId>))
    ensures |r.0| == |templates|
    ensures external <= r.1
  {
    if templates == [] then ([], external)
    else
      var n := |templates| - 1;
      var (stages, sofar) := LaterStages(templates[..n], external);
      var (bound, external') := ExternalBindings(templates[n].inputs, sofar);
      (stages + [Stage(templates[n], bound + [PreviousOutput])], external')
  }

  function TotalCompute(templates: seq<TaskTemplate>): real
  {
    if templates == [] then 0.0
    else TotalCompute(templates[..|templates| - 1]) + templates[|templates| - 1].cost.computeMs
  }

  function FusedPipelineTask(id: TaskId, templates: seq<TaskTemplate>, dependencies: seq<ObjectId>,
                             requirements: ResourceRequirements): TaskSpec
    requires |templates| > 0
  {
    var (firstInputs, external) := ExternalBindings(templates[0].inputs + dependencies, []);
    var (later, external') := LaterStages(templates[1..], external);
    TaskSpec(id, "plurifold:pipeline", "run", [], external', requirements, Pure,
             CostHint(TotalCompute(templates), templates[|templates| - 1].cost.outputBytes),
             None, Some([Stage(templates[0], firstInputs)] + later))
  }

  method BuildBindings(ids: seq<ObjectId>, externalInputs: seq<ObjectId>, externalIndexes: map<ObjectId, nat>)
    returns (bindings: seq<PipelineInput>, inputs: seq<ObjectId>, indexes: map<ObjectId, nat>)
    requires Indexes(externalInputs, externalIndexes)
    ensures (bindings, inputs) == ExternalBindings(ids, externalInputs)
    ensures Indexes(inputs, indexes)
  {
    bindings, inputs, indexes := [], externalInputs, externalIndexes;
    for k := 0 to |ids|
      invariant (bindings, inputs) == ExternalBindings(ids[..k], externalInputs)
      invariant Indexes(inputs, indexes)
    {
      assert ids[..k + 1][..k] == ids[..k];
      IndexesAgree(inputs, indexes, ids[k]);
      if ids[k] in indexes {
        bindings := bindings + [External(indexes[ids[k]])];
      } else {
        indexes := indexes[ids[k] := |inputs|];
        bindings := bindings + [External(|inputs|)];
        inputs := inputs + [ids[k]];
      }
    }
    assert ids[..|ids|] == ids;
  }

  /** The hash map the source keeps beside the external inputs is their inverse. */
  ghost predicate Indexes(ids: seq<ObjectId>, indexes: map<ObjectId, nat>)
  {
    && Distinct(ids)
    && (forall id :: id in ids <==> id in indexes)
    && (forall id :: id in indexes ==> indexes[id] < |ids| && ids[indexes[id]] == id)
  }

  lemma IndexesAgree(ids: seq<ObjectId>, indexes: map<ObjectId, nat>, id: ObjectId)
    requires Indexes(ids, indexes)
    ensures IndexOf(ids, id) == if id in indexes then Some(indexes[id]) else None
    ensures id !in indexes ==> Indexes(ids + [id], indexes[id := |ids|])
  {
    if id in indexes {
      assert ids[indexes[id]] == id && id in ids;
    } else {
      assert id !in ids;
    }
  }

  method BuildLaterStages(templates: seq<TaskTemplate>, externalInputs: seq<ObjectId>,
                          externalIndexes: map<ObjectId, nat>)
    returns (stages: seq<TaskPipelineStage>, inputs: seq<ObjectId>)
    requires Indexes(externalInputs, externalIndexes)
    ensures (stages, inputs) == LaterStages(templates, externalInputs)
  {
    var indexes := externalIndexes;
    stages, inputs := [], externalInputs;
    for k := 0 to |templates|
      invariant (stages, inputs) == LaterStages(templates[..k], externalInputs)
      invariant Indexes(inputs, indexes)
    {
      assert templates[..k + 1][..k] == templates[..k];
      var bound;
      bound, inputs, indexes := BuildBindings(templates[k].inputs, inputs, indexes);
      stages := stages + [Stage(templates[k], bound + [PreviousOutput])];
    }
    assert templates[..|templates|] == templates;
  }

  method BuildFusedPipelineTask(id: TaskId, templates: seq<TaskTemplate>, dependencies: seq<ObjectId>,
                                requirements: ResourceRequirements) returns (task: TaskSpec)
    requires |templates| > 0
    ensures task == FusedPipelineTask(id, templates, dependencies, requirements)
  {
    var firstInputs, inputs, indexes := BuildBindings(templates[0].inputs + dependencies, [], map[]);
    var later, external := BuildLaterStages(templates[1..], inputs, indexes);
    task := TaskSpec(id, "plurifold:pipeline", "run", [], external, requirements, Pure,
                     CostHint(TotalCompute(templates), templates[|templates| - 1].cost.outputBytes),
                     None, Some([Stage(templates[0], firstInputs)] + later));
  }

  // ----- the rewrite preserves meaning -----

  /** The templates run one after another, each fed the single output of the one before. */
  function RunChain(exec: Executor, contents: Contents, templates: seq<TaskTemplate>, dependencies: seq<Bytes>)
    : Result<Bytes, string>
    requires |templates| > 0
    requires forall i :: 0 <= i < |templates| ==> Available(contents, templates[i].inputs)
  {
    match RunTemplate(exec, contents, templates[0], dependencies, None)
    case Failure(e) => Failure(e)
    case Success(bytes) =>
      if |templates| == 1 then Success(bytes)
      else RunChain(exec, contents, templates[1..], [bytes])
  }

  lemma {:induction false} BoundExternals(bindings: seq<PipelineInput>, ids: seq<ObjectId>, bound: seq<ObjectId>,
                                          external: seq<ObjectId>, contents: Contents, previous: Option<Bytes>)
    requires Binds(bindings, ids, bound) && bound <= external
    requires Available(contents, external)
    ensures Available(contents, ids)
    ensures BindInputs(bindings, Lookup(contents, external), previous) == Success(Lookup(contents, ids))
  {
    forall i | 0 <= i < |ids| ensures ids[i] in contents {
      assert external[bindings[i].index] == ids[i];
    }
    if ids != [] {
      var n := |ids| - 1;
      assert Binds(bindings[..n], ids[..n], bound);
      BoundExternals(bindings[..n], ids[..n], bound, external, contents, previous);
      assert Lookup(contents, ids) == Lookup(contents, ids[..n]) + [contents[ids[n]]];
    }
  }

  /** One later stage of the pipeline is one template fed the previous output. */
  lemma LaterStageRunsTemplate(exec: Executor, contents: Contents, template: TaskTemplate,
                               sofar: seq<ObjectId>, external: seq<ObjectId>, previous: Bytes)
    requires ExternalBindings(template.inputs, sofar).1 <= external && Available(contents, external)
    ensures Available(contents, template.inputs)
    ensures var stage := Stage(template, ExternalBindings(template.inputs, sofar).0 + [PreviousOutput]);
            RunStage(exec, stage, Lookup(contents, external), Some(previous), None)
            == RunTemplate(exec, contents, template, [previous], None)
  {
    var (bound, external') := ExternalBindings(template.inputs, sofar);
    BoundExternals(bound, template.inputs, external', external, contents, Some(previous));
    assert (bound + [PreviousOutput])[..|bound|] == bound;
    var raw := Lookup(contents, template.inputs) + [previous];
    assert raw[0..] == raw;
  }

  /** Later stages split off from the front: stage `k` is independent of the stages after it. */
  lemma {:induction false} LaterStagesPrefix(templates: seq<TaskTemplate>, k: nat, external: seq<ObjectId>)
    requires k <= |templates|
    ensures LaterStages(templates[..k], external).0 == LaterStages(templates, external).0[..k]
    ensures LaterStages(templates[..k], external).1 <= LaterStages(templates, external).1
    decreases |templates|
  {
    if k == |templates| {
      assert templates[..k] == templates;
    } else {
      var n := |templates| - 1;
      assert templates[..n][..k] == templates[..k];
      LaterStagesPrefix(templates[..n], k, external);
    }
  }

  lemma {:induction false} LaterStagesRunChain(exec: Executor, contents: Contents, templates: seq<TaskTemplate>,
                                               k: nat, first: seq<ObjectId>, external: seq<ObjectId>, previous: Bytes)
    requires k < |templates|
    requires LaterStages(templates, first).1 <= external && Available(contents, external)
    ensures forall i :: k <= i < |templates| ==> Available(contents, templates[i].inputs)
    ensures RunStages(exec, LaterStages(templates, first).0[k..], Lookup(contents, external), Some(previous), None)
            == RunChain(exec, contents, templates[k..], [previous])
    decreases |templates| - k
  {
    var stages := LaterStages(templates, first).0;
    LaterStageAt(exec, contents, templates, k, first, external, previous);
    assert stages[k..][1..] == stages[k + 1..];
    assert templates[k..][1..] == templates[k + 1..];
    if k + 1 < |templates| {
      var outcome := RunTemplate(exec, contents, templates[k], [previous], None);
      var next := if outcome.Success? then outcome.value else previous;
      LaterStagesRunChain(exec, contents, templates, k + 1, first, external, next);
    }
  }

  lemma LaterStageAt(exec: Executor, contents: Contents, templates: seq<TaskTemplate>, k: nat,
                     first: seq<ObjectId>, external: seq<ObjectId>, previous: Bytes)
    requires k < |templates|
    requires LaterStages(templates, first).1 <= external && Available(contents, external)
    ensures Available(contents, templates[k].inputs)
    ensures RunStage(exec, LaterStages(templates, first).0[k], Lookup(contents, external), Some(previous), None)
            == RunTemplate(exec, contents, templates[k], [previous], None)
  {
    LaterStageShape(templates, k, first);
    LaterStageRunsTemplate(exec, contents, templates[k], LaterStages(templates[..k], first).1, external, previous);
  }

  /** Stage `k` binds its own static inputs after those of the stages before it. */
  lemma LaterStageShape(templates: seq<TaskTemplate>, k: nat, first: seq<ObjectId>)
    requires k < |templates|
    ensures var bound := ExternalBindings(templates[k].inputs, LaterStages(templates[..k], first).1);
            && LaterStages(templates, first).0[k] == Stage(templates[k], bound.0 + [PreviousOutput])
            && bound.1 <= LaterStages(templates, first).1
  {
    LaterStagesPrefix(templates, k + 1, first);
    var upto := templates[..k + 1];
    assert upto[..k] == templates[..k] && upto[k] == templates[k];
    assert LaterStages(templates, first).0[k] == LaterStages(upto, first).0[k];
  }

  lemma AvailableParts(contents: Contents, a: seq<ObjectId>, b: seq<ObjectId>)
    requires Available(contents, a + b)
    ensures Available(contents, a) && Available(contents, b)
  {
    forall i | 0 <= i < |a| ensures a[i] in contents { assert (a + b)[i] == a[i]; }
    forall i | 0 <= i < |b| ensures b[i] in contents { assert (a + b)[|a| + i] == b[i]; }
  }

  /** The first stage binds its static and dependency inputs and is the first template itself. */
  lemma FirstStageRunsTemplate(exec: Executor, contents: Contents, template: TaskTemplate, dependencies: seq<ObjectId>,
                               external: seq<ObjectId>)
    requires ExternalBindings(template.inputs + dependencies, []).1 <= external && Available(contents, external)
    ensures Available(contents, template.inputs) && Available(contents, dependencies)
    ensures RunStage(exec, Stage(template, ExternalBindings(template.inputs + dependencies, []).0), Lookup(contents, external), None, None)
            == RunTemplate(exec, contents, template, Lookup(contents, dependencies), None)
  {
    var ids := template.inputs + dependencies;
    var (bound, external') := ExternalBindings(ids, []);
    BoundExternals(bound, ids, external', external, contents, None);
    AvailableParts(contents, template.inputs, dependencies);
    LookupConcat(contents, template.inputs, dependencies);
    var raw := Lookup(contents, ids);
    assert raw[0..] == raw;
  }

  /** The stages after the first run as the rest of the chain, whatever the first one produced. */
  lemma OtherStagesRunChain(exec: Executor, contents: Contents, templates: seq<TaskTemplate>, first: seq<ObjectId>,
                            external: seq<ObjectId>, previous: Bytes)
    requires |templates| >= 2 && LaterStages(templates[1..], first).1 <= external && Available(contents, external)
    ensures forall i :: 1 <= i < |templates| ==> Available(contents, templates[i].inputs)
    ensures RunStages(exec, LaterStages(templates[1..], first).0, Lookup(contents, external), Some(previous), None)
            == RunChain(exec, contents, templates[1..], [previous])
  {
    hide RunStages, RunChain, LaterStages;
    var later := LaterStages(templates[1..], first).0;
    assert later[0..] == later && templates[1..][0..] == templates[1..];
    LaterStagesRunChain(exec, contents, templates[1..], 0, first, external, previous);
    forall i | 1 <= i < |templates| ensures Available(contents, templates[i].inputs) {
      assert templates[i] == templates[1..][i - 1];
    }
  }

  /** An unsharded pipeline task runs its stages on its raw inputs. */
  lemma PipelineRunsStages(exec: Executor, task: TaskSpec, stages: seq<TaskPipelineStage>, inputs: seq<Bytes>)
    requires task.pipeline == Some(stages) && task.shard.None? && |stages| >= 2
    ensures var first := RunStage(exec, stages[0], inputs, None, None);
            RunTask(exec, task, inputs)
            == if first.Failure? then first else RunStages(exec, stages[1..], inputs, Some(first.value), None)
  {
    hide RunStage;
    assert inputs[0..] == inputs;
  }

  /**
   * Running the fused pipeline gives exactly the bytes, or the failure, of running the templates
   * separately, whatever static inputs the rewrite merged.
   */
  lemma FusionPreservesMeaning(exec: Executor, contents: Contents, id: TaskId, templates: seq<TaskTemplate>,
                               dependencies: seq<ObjectId>, requirements: ResourceRequirements)
    requires |templates| >= 2
    requires Available(contents, FusedPipelineTask(id, templates, dependencies, requirements).inputs)
    ensures Available(contents, dependencies)
    ensures forall i :: 0 <= i < |templates| ==> Available(contents, templates[i].inputs)
    ensures var task := FusedPipelineTask(id, templates, dependencies, requirements);
            RunTask(exec, task, Lookup(contents, task.inputs))
            == RunChain(exec, contents, templates, Lookup(contents, dependencies))
  {
    hide ExternalBindings, LaterStages, RunTask, RunStage, RunStages, RunTemplate, TotalCompute;
    var task := FusedPipelineTask(id, templates, dependencies, requirements);
    var first := ExternalBindings(templates[0].inputs + dependencies, []);
    var later := LaterStages(templates[1..], first.1);
    var stages := [Stage(templates[0], first.0)] + later.0;
    assert stages[1..] == later.0;
    FirstStageRunsTemplate(exec, contents, templates[0], dependencies, later.1);
    var outcome := RunTemplate(exec, contents, templates[0], Lookup(contents, dependencies), None);
    OtherStagesRunChain(exec, contents, templates, first.1, later.1, if outcome.Success? then outcome.value else []);
    PipelineRunsStages(exec, task, stages, Lookup(contents, later.1));
  }

  /** The fused task reads each object once and needs nothing the separate tasks would not read. */
  lemma FusedInputsExact(id: TaskId, templates: seq<TaskTemplate>, dependencies: seq<ObjectId>,
                         requirements: ResourceRequirements)
    requires |templates| > 0
    ensures var task := FusedPipelineTask(id, templates, dependencies, requirements);
            && Distinct(task.inputs)
            && forall o :: o in task.inputs <==>
                 o in dependencies || exists i :: 0 <= i < |templates| && o in templates[i].inputs
  {
    var (firstInputs, external) := ExternalBindings(templates[0].inputs + dependencies, []);
    LaterInputsExact(templates[1..], external);
    var task := FusedPipelineTask(id, templates, dependencies, requirements);
    forall o ensures o in task.inputs <==>
      o in dependencies || exists i :: 0 <= i < |templates| && o in templates[i].inputs
    {
      if i :| 0 <= i < |templates[1..]| && o in templates[1..][i].inputs {
        assert o in templates[i + 1].inputs;
      }
      if i :| 0 <= i < |templates| && o in templates[i].inputs {
        if i > 0 { assert o in templates[1..][i - 1].inputs; }
      }
    }
  }

  lemma {:induction false} LaterInputsExact(templates: seq<TaskTemplate>, external: seq<ObjectId>)
    requires Distinct(external)
    ensures Distinct(LaterStages(templates, external).1)
    ensures forall o :: o in LaterStages(templates, external).1 <==>
              o in external || exists i :: 0 <= i < |templates| && o in templates[i].inputs
  {
    if templates != [] {
      var n := |templates| - 1;
      LaterInputsExact(templates[..n], external);
      forall o ensures o in LaterStages(templates, external).1 <==>
        o in external || exists i :: 0 <= i < |templates| && o in templates[i].inputs
      {
        if i :| 0 <= i < |templates[..n]| && o in templates[..n][i].inputs {
          assert o in templates[i].inputs;
        }
        if i :| 0 <= i < |templates| && o in templates[i].inputs {
          if i < n { assert o in templates[..n][i].inputs; }
        }
      }
    }
  }
}
