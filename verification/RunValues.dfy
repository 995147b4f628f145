/** What single tasks, fused tasks, shards and reduction levels contribute to the meaning of their role. */
module RunValues {
  import opened Wrappers
  import opened Core
  import opened Sequences
  import opened Execution
  import opened FusionRewrite
  import opened RoleGraph
  import opened Partition
  import opened Sharding
  import opened ReductionTree
  import opened ReductionPlanning
  import opened Admission
  import opened FabricModel
  import opened FabricInvariant
  import opened FabricSteps
  import opened FabricCommit
  import opened FabricRuns
  import opened Progress
  import opened Denotation
  import opened Worlds
  import opened RunMeaning

  // ----- what a role about to run receives -----

  /** A role that is not completed reads only known outputs: hidden ones have completed consumers. */
  lemma DependencyIsKnown(env: Env, contents: Contents, job: JobRecord, name: string, d: string, outputs: seq<ObjectId>)
    requires RearrangeableJob(env, job.definition) && JobMeans(env, contents, job)
    requires HasRole(job.definition.roles, name) && name in job.roles && !job.roles[name].Done?
    requires HasRole(job.definition.roles, d) && d in Role(job.definition.roles, name).dependsOn
    requires d in job.roles && job.roles[d] == Done(outputs)
    ensures Known(env, contents, job.definition, d, outputs)
  {
    hide ValidJob, Rearrangeable, Known;
    assert RoleMeans(env, contents, job, d);
  }

  lemma {:induction false} DependenciesKnown(env: Env, contents: Contents, job: JobRecord, name: string, k: nat)
    requires RearrangeableJob(env, job.definition) && JobMeans(env, contents, job)
    requires HasRole(job.definition.roles, name) && name in job.roles && !job.roles[name].Done?
    requires k <= |Role(job.definition.roles, name).dependsOn|
    requires DependencyOutputs(job.roles, Role(job.definition.roles, name).dependsOn[..k]).Some?
    ensures var inputs := DependencyOutputs(job.roles, Role(job.definition.roles, name).dependsOn[..k]).value;
            && Available(contents, inputs)
            && InputMeaning(env, job.definition, name, k) == Some(Lookup(contents, inputs))
  {
    hide ValidJob, Rearrangeable, JobMeans, Meaning;
    if k > 0 {
      var dependencies := Role(job.definition.roles, name).dependsOn;
      var d := dependencies[k - 1];
      assert dependencies[..k][..k - 1] == dependencies[..k - 1];
      DependenciesKnown(env, contents, job, name, k - 1);
      GraphIsAcyclic(job.definition);
      DependencyRanksLower(job.definition.roles, name, d);
      var outputs := job.roles[d].outputs;
      DependencyIsKnown(env, contents, job, name, d, outputs);
      LookupConcat(contents, DependencyOutputs(job.roles, dependencies[..k - 1]).value, outputs);
    }
  }

  lemma GraphIsAcyclic(definition: JobDefinition)
    requires ValidJob(definition)
    ensures Acyclic(definition.roles)
  {
  }

  /** The inputs the role's tasks receive hold what its dependencies mean. */
  ghost predicate Receives(env: Env, contents: Contents, job: JobRecord, name: string, inputs: seq<ObjectId>)
    requires ValidJob(job.definition) && HasRole(job.definition.roles, name)
  {
    && Available(contents, inputs)
    && InputMeaning(env, job.definition, name, |Role(job.definition.roles, name).dependsOn|) == Some(Lookup(contents, inputs))
  }

  lemma UnfinishedReceives(env: Env, contents: Contents, job: JobRecord, name: string)
    requires RearrangeableJob(env, job.definition) && JobMeans(env, contents, job)
    requires HasRole(job.definition.roles, name) && name in job.roles && !job.roles[name].Done?
    requires DependencyOutputs(job.roles, Role(job.definition.roles, name).dependsOn).Some?
    ensures Receives(env, contents, job, name,
                     DependencyOutputs(job.roles, Role(job.definition.roles, name).dependsOn).value)
  {
    hide ValidJob, Rearrangeable, JobMeans, Meaning;
    var dependencies := Role(job.definition.roles, name).dependsOn;
    assert dependencies[..|dependencies|] == dependencies;
    DependenciesKnown(env, contents, job, name, |dependencies|);
  }

  // ----- one task's output -----

  /** A task instantiated from a template computes what the template denotes. */
  lemma InstanceOutcome(env: Env, w: World, template: TaskTemplate, t: TaskId, inputs: seq<ObjectId>, shard: Option<TaskShard>,
                        spec: TaskSpec)
    requires StaticsAgree(env, w) && Available(env.statics, template.inputs) && Available(w.contents, inputs)
    requires spec.artifact == template.artifact && spec.entrypoint == template.entrypoint && spec.arguments == template.arguments
    requires spec.inputs == template.inputs + inputs && spec.shard == shard && spec.pipeline.None?
    requires TaskOutcome(env, w.contents, spec).Some?
    ensures TaskOutcome(env, w.contents, spec) == Evaluate(env, template, Lookup(w.contents, inputs), shard)
  {
    forall i | 0 <= i < |template.inputs| ensures template.inputs[i] in w.contents {
      assert spec.inputs[i] == template.inputs[i];
    }
    LookupConcat(w.contents, template.inputs, inputs);
    assert Lookup(w.contents, template.inputs) == Lookup(env.statics, template.inputs);
  }

  // ----- roles run by a single task -----

  lemma RoleIsRearrangeable(env: Env, definition: JobDefinition, name: string)
    requires RearrangeableJob(env, definition) && HasRole(definition.roles, name)
    ensures Rearrangeable(env, Role(definition.roles, name))
  {
  }

  lemma TemplateEvaluates(env: Env, role: RoleSpec, template: TaskTemplate, values: seq<Bytes>, shard: Option<TaskShard>)
    requires Rearrangeable(env, role) && InstanceOf(role, template)
    ensures Available(env.statics, template.inputs)
    ensures Evaluate(env, template, values, shard) == Evaluate(env, role.Templates()[0], values, shard)
  {
    hide Evaluate, CountInsensitive;
    var i :| 0 <= i < |role.Templates()| && role.Templates()[i] == template;
    assert SameOutcome(env, role.Templates()[i], role.Templates()[0], values, shard);
  }

  /** A role that does not fan out means the one value its template computes. */
  lemma PlainMeaning(env: Env, definition: JobDefinition, name: string, values: seq<Bytes>, bytes: Bytes)
    requires ValidJob(definition) && HasRole(definition.roles, name)
    requires var role := Role(definition.roles, name);
             && !role.FansOut() && |role.Templates()| > 0
             && InputMeaning(env, definition, name, |role.dependsOn|) == Some(values)
             && Evaluate(env, role.Templates()[0], values, None) == Some(bytes)
    ensures Meaning(env, definition, name) == Some([bytes])
  {
    hide ValidJob, Evaluate;
  }

  lemma SingleOutput(env: Env, w: World, job: JobRecord, name: string, t: TaskId, inputs: seq<ObjectId>, spec: TaskSpec)
    requires RearrangeableJob(env, job.definition) && HasRole(job.definition.roles, name) && StaticsAgree(env, w)
    requires !Role(job.definition.roles, name).FansOut()
    requires Receives(env, w.contents, job, name, inputs)
    requires InstanceTask(Role(job.definition.roles, name), inputs, t, spec) && TaskOutcome(env, w.contents, spec).Some?
    ensures Meaning(env, job.definition, name) == Some([TaskOutcome(env, w.contents, spec).value])
  {
    hide ValidJob, TaskOutcome, Evaluate, Meaning, InputMeaning, StaticsAgree;
    var role := Role(job.definition.roles, name);
    RoleIsRearrangeable(env, job.definition, name);
    var template :| InstanceOf(role, template) && spec == template.Instantiate(t, inputs);
    var values := Lookup(w.contents, inputs);
    TemplateEvaluates(env, role, template, values, None);
    InstanceOutcome(env, w, template, t, inputs, None, spec);
    PlainMeaning(env, job.definition, name, values, TaskOutcome(env, w.contents, spec).value);
  }

  // ----- chains run by a fused task -----

  ghost predicate ChainOf(definition: JobDefinition, names: seq<string>, templates: seq<TaskTemplate>)
  {
    && |templates| == |names| > 0
    && (forall i :: 0 <= i < |names| ==>
          && HasRole(definition.roles, names[i]) && InstanceOf(Role(definition.roles, names[i]), templates[i])
          && !Role(definition.roles, names[i]).FansOut())
    && forall i :: 0 <= i < |names| - 1 ==> Role(definition.roles, names[i + 1]).dependsOn == [names[i]]
  }

  /** Running the templates one after another computes the meaning of the last role of the chain. */
  lemma {:induction false} ChainMeaning(env: Env, w: World, definition: JobDefinition, names: seq<string>,
                                        templates: seq<TaskTemplate>, k: nat, values: seq<Bytes>, bytes: Bytes)
    requires RearrangeableJob(env, definition) && ChainOf(definition, names, templates) && k < |names|
    requires StaticsAgree(env, w)
    requires forall i :: 0 <= i < |templates| ==> Available(w.contents, templates[i].inputs)
    requires InputMeaning(env, definition, names[k], |Role(definition.roles, names[k]).dependsOn|) == Some(values)
    requires Outcome(RunChain(env.exec, w.contents, templates[k..], values)) == Some(bytes)
    ensures Meaning(env, definition, names[|names| - 1]) == Some([bytes])
    decreases |names| - k
  {
    hide ValidJob, Meaning, InputMeaning, RunTemplate, Rearrangeable;
    var role, template := Role(definition.roles, names[k]), templates[k];
    RoleIsRearrangeable(env, definition, names[k]);
    TemplateEvaluates(env, role, template, values, None);
    SameTemplateRun(env, w, template, values);
    var first := RunTemplate(env.exec, w.contents, template, values, None);
    TemplatesExist(env, role);
    PlainMeaning(env, definition, names[k], values, first.value);
    if k < |names| - 1 {
      assert templates[k..][1..] == templates[k + 1..];
      NextInputs(env, definition, names[k], names[k + 1], [first.value]);
      ChainMeaning(env, w, definition, names, templates, k + 1, [first.value], bytes);
    }
  }

  lemma TemplatesExist(env: Env, role: RoleSpec)
    requires Rearrangeable(env, role)
    ensures |role.Templates()| > 0
  {
  }

  lemma SameTemplateRun(env: Env, w: World, template: TaskTemplate, values: seq<Bytes>)
    requires StaticsAgree(env, w)
    requires Available(env.statics, template.inputs) && Available(w.contents, template.inputs)
    ensures Outcome(RunTemplate(env.exec, w.contents, template, values, None)) == Evaluate(env, template, values, None)
  {
    assert Lookup(w.contents, template.inputs) == Lookup(env.statics, template.inputs);
  }

  lemma NextInputs(env: Env, definition: JobDefinition, name: string, next: string, values: seq<Bytes>)
    requires ValidJob(definition) && HasRole(definition.roles, name) && HasRole(definition.roles, next)
    requires Role(definition.roles, next).dependsOn == [name] && Meaning(env, definition, name) == Some(values)
    ensures InputMeaning(env, definition, next, 1) == Some(values)
  {
    hide ValidJob, Meaning;
    assert InputMeaning(env, definition, next, 0) == Some([]);
    assert [] + values == values;
  }

  lemma FusedOutput(env: Env, w: World, job: JobRecord, names: seq<string>, t: TaskId, inputs: seq<ObjectId>, spec: TaskSpec)
    requires RearrangeableJob(env, job.definition) && StaticsAgree(env, w) && |names| >= 2
    requires forall i :: 0 <= i < |names| ==>
               HasRole(job.definition.roles, names[i]) && !Role(job.definition.roles, names[i]).FansOut()
    requires forall i :: 0 <= i < |names| - 1 ==> Role(job.definition.roles, names[i + 1]).dependsOn == [names[i]]
    requires Receives(env, w.contents, job, names[0], inputs)
    requires FusedTask(job.definition, names, inputs, t, spec) && TaskOutcome(env, w.contents, spec).Some?
    ensures Meaning(env, job.definition, names[|names| - 1]) == Some([TaskOutcome(env, w.contents, spec).value])
  {
    hide ValidJob, Meaning, InputMeaning, RunTask, RunChain, FusedPipelineTask, Rearrangeable, StaticsAgree;
    var templates, requirements :|
      && |templates| == |names| > 0
      && (forall i :: 0 <= i < |names| ==>
            HasRole(job.definition.roles, names[i]) && InstanceOf(Role(job.definition.roles, names[i]), templates[i]))
      && spec == FusedPipelineTask(t, templates, inputs, requirements);
    FusionPreservesMeaning(env.exec, w.contents, t, templates, inputs, requirements);
    assert templates[0..] == templates;
    ChainMeaning(env, w, job.definition, names, templates, 0, Lookup(w.contents, inputs),
                 TaskOutcome(env, w.contents, spec).value);
  }

  // ----- shards -----

  ghost predicate SizesAgree(env: Env, objects: Objects)
  {
    forall o :: o in objects && o in env.statics ==> objects[o].sizeBytes == |env.statics[o]|
  }

  /** Under whichever implementation a shard was placed, its context is the canonical one. */
  lemma ShardContextAgrees(env: Env, role: RoleSpec, template: TaskTemplate, inputs: seq<ObjectId>, objects: Objects,
                           spec: TaskSpec, index: nat, count: nat)
    requires role.Logical? && ValidRole(role) && Rearrangeable(env, role) && InstanceOf(role, template)
    requires SizesAgree(env, objects) && index < count < 0x1_0000_0000
    requires InstantiateShardTask(spec.id, template, inputs, index, count,
                                  if role.shards.Auto? then Some(role.shards.policy) else None, objects) == Some(spec)
    ensures ShardContext(env, role, index, count) == spec.shard && spec.shard.Some?
    ensures spec.artifact == template.artifact && spec.entrypoint == template.entrypoint && spec.arguments == template.arguments
    ensures spec.inputs == template.inputs + inputs && spec.pipeline.None?
  {
    hide PartitionOfSize, ScaledOutputBytes, OneFunction, CountInsensitive;
    var i :| 0 <= i < |role.Templates()| && role.Templates()[i] == template;
    if role.shards.Auto? {
      var input := role.shards.policy.partition.input;
      assert role.implementations[i].task == template;
      assert template.inputs[input] == role.implementations[0].task.inputs[input];
    }
  }

  lemma ShardOutput(env: Env, w: World, role: RoleSpec, inputs: seq<ObjectId>, objects: Objects, spec: TaskSpec,
                    index: nat, count: nat)
    requires role.Logical? && ValidRole(role) && Rearrangeable(env, role) && SizesAgree(env, objects)
    requires StaticsAgree(env, w) && Available(w.contents, inputs)
    requires ShardInstance(role, inputs, objects, spec, index, count) && TaskOutcome(env, w.contents, spec).Some?
    ensures index < count && |role.Templates()| > 0
    ensures ShardValue(env, role, Lookup(w.contents, inputs), index, count) == TaskOutcome(env, w.contents, spec)
  {
    hide StaticsAgree, ValidRole, Rearrangeable, InstantiateShardTask, TaskOutcome, Evaluate, ShardContext, SizesAgree;
    var template :| InstanceOf(role, template)
      && InstantiateShardTask(spec.id, template, inputs, index, count,
                              if role.shards.Auto? then Some(role.shards.policy) else None, objects) == Some(spec);
    ShardContextAgrees(env, role, template, inputs, objects, spec, index, count);
    var values := Lookup(w.contents, inputs);
    TemplatesExist(env, role);
    TemplateEvaluates(env, role, template, values, spec.shard);
    InstanceOutcome(env, w, template, spec.id, inputs, spec.shard, spec);
  }

  ghost predicate CompletedShard(env: Env, w: World, role: RoleSpec, inputs: seq<ObjectId>, objects: Objects, t: TaskId,
                                 index: nat, count: nat)
    requires role.Logical?
  {
    && t in w.fabric.tasks && w.fabric.tasks[t].status.Completed? && ComputedTask(env, w, t)
    && ShardInstance(role, inputs, objects, w.fabric.tasks[t].spec, index, count)
  }

  /** The outputs of completed shards, in task order, are the shard values in index order. */
  lemma {:induction false} ShardOutputs(env: Env, w: World, role: RoleSpec, inputs: seq<ObjectId>, objects: Objects,
                                        ids: seq<TaskId>, k: nat)
    requires role.Logical? && ValidRole(role) && Rearrangeable(env, role) && SizesAgree(env, objects)
    requires StaticsAgree(env, w) && Available(w.contents, inputs) && k <= |ids| && |role.Templates()| > 0
    requires forall i :: 0 <= i < |ids| ==> CompletedShard(env, w, role, inputs, objects, ids[i], i, |ids|)
    ensures var outputs := CompletedOutputs(w.fabric.tasks, ids[..k]);
            && |outputs| == k && Available(w.contents, outputs)
            && ShardValues(env, role, Lookup(w.contents, inputs), |ids|, k) == Some(Lookup(w.contents, outputs))
  {
    hide StaticsAgree, ValidRole, Rearrangeable, ShardInstance, TaskOutcome, ShardValue, SizesAgree;
    if k > 0 {
      ShardOutputs(env, w, role, inputs, objects, ids, k - 1);
      assert ids[..k][..k - 1] == ids[..k - 1];
      var t := ids[k - 1];
      assert CompletedShard(env, w, role, inputs, objects, t, k - 1, |ids|);
      ShardOutput(env, w, role, inputs, objects, w.fabric.tasks[t].spec, k - 1, |ids|);
      var outputs := w.fabric.tasks[t].status.outputs;
      LookupConcat(w.contents, CompletedOutputs(w.fabric.tasks, ids[..k - 1]), outputs);
      assert Lookup(w.contents, outputs) == [w.contents[outputs[0]]];
    }
  }

  /** The number of shards a run happened to use does not show in the result. */
  lemma ShardedMeaning(env: Env, definition: JobDefinition, name: string, values: seq<Bytes>, count: nat)
    requires RearrangeableJob(env, definition) && HasRole(definition.roles, name)
    requires var role := Role(definition.roles, name);
             && role.FansOut() && |role.Templates()| > 0 && 1 <= count
             && (role.shards.Fixed? ==> count == role.shards.count)
             && (role.shards.Auto? ==> count <= role.shards.policy.maxShards)
             && InputMeaning(env, definition, name, |role.dependsOn|) == Some(values)
    ensures Meaning(env, definition, name) == ShardedValue(env, Role(definition.roles, name), values, count)
  {
    hide ValidJob, ShardedValue, OneFunction;
    var role := Role(definition.roles, name);
    RoleIsRearrangeable(env, definition, name);
    if role.shards.Auto? {
      assert SameSharding(env, role, values, count);
    }
  }

  // ----- reduction levels -----

  function GroupValues(tasks: Tasks, contents: Contents, items: seq<ReductionItem>): seq<seq<Bytes>>
    requires forall i :: 0 <= i < |items| ==> Available(contents, ItemInputs(tasks, items[i]))
  {
    seq(|items|, i requires 0 <= i < |items| => Lookup(contents, ItemInputs(tasks, items[i])))
  }

  lemma {:induction false} LookupFlatten(contents: Contents, groups: seq<seq<ObjectId>>, values: seq<seq<Bytes>>)
    requires |groups| == |values|
    requires forall i :: 0 <= i < |groups| ==> Available(contents, groups[i]) && values[i] == Lookup(contents, groups[i])
    ensures Available(contents, Flatten(groups)) && Lookup(contents, Flatten(groups)) == Flatten(values)
  {
    if groups != [] {
      var n := |groups| - 1;
      LookupFlatten(contents, groups[..n], values[..n]);
      LookupConcat(contents, Flatten(groups[..n]), groups[n]);
    }
  }

  lemma GroupIsAvailable(contents: Contents, groups: seq<seq<ObjectId>>, i: nat)
    requires i < |groups| && Available(contents, Flatten(groups))
    ensures Available(contents, groups[i])
  {
    hide Flatten;
    FlattenAround(groups, i);
    var start := |Flatten(groups[..i])|;
    forall k | 0 <= k < |groups[i]| ensures groups[i][k] in contents {
      assert Flatten(groups)[start + k] == groups[i][k];
    }
  }

  /** A completed item of a level: a carried object, or a reducer with its one output. */
  ghost predicate CompletedItem(env: Env, w: World, reduction: RoleReductionSpec, item: ReductionItem)
  {
    item.TaskItem? ==>
      && item.task in w.fabric.tasks && w.fabric.tasks[item.task].status.Completed? && ComputedTask(env, w, item.task)
      && |w.fabric.tasks[item.task].spec.inputs| >= 2
      && w.fabric.tasks[item.task].spec == reduction.task.Instantiate(item.task, w.fabric.tasks[item.task].spec.inputs)
  }

  lemma ItemOutput(env: Env, w: World, reduction: RoleReductionSpec, item: ReductionItem) returns (value: Bytes)
    requires CompletedItem(env, w, reduction, item) && reduction.task.inputs == [] && StaticsAgree(env, w)
    requires Available(w.contents, ItemInputs(w.fabric.tasks, item))
    ensures var outputs := LevelOutputs(w.fabric.tasks, [item]);
            && Available(w.contents, outputs) && Lookup(w.contents, outputs) == [value]
    ensures ReduceGroup(ReducerOf(env, reduction), Lookup(w.contents, ItemInputs(w.fabric.tasks, item))) == Some(value)
  {
    hide TaskOutcome, Evaluate, StaticsAgree;
    var tasks := w.fabric.tasks;
    assert [item][..0] == [];
    match item {
      case CarryItem(id) =>
        assert ItemInputs(tasks, item)[0] == id;
        value := w.contents[id];
      case TaskItem(t) =>
        value := w.contents[tasks[t].status.outputs[0]];
        assert [] + tasks[t].spec.inputs == tasks[t].spec.inputs;
        InstanceOutcome(env, w, reduction.task, t, tasks[t].spec.inputs, None, tasks[t].spec);
    }
  }

  lemma LevelOutputsPush(tasks: Tasks, items: seq<ReductionItem>, k: nat)
    requires k < |items|
    ensures LevelOutputs(tasks, items[..k + 1]) == LevelOutputs(tasks, items[..k]) + LevelOutputs(tasks, [items[k]])
  {
    assert items[..k + 1][..k] == items[..k];
    assert [items[k]][..0] == [];
  }

  /** A finished level is the level reduction of its groups. */
  lemma {:induction false} LevelValues(env: Env, w: World, reduction: RoleReductionSpec, items: seq<ReductionItem>, k: nat)
    requires k <= |items| && reduction.task.inputs == [] && StaticsAgree(env, w)
    requires forall i :: 0 <= i < |items| ==> Available(w.contents, ItemInputs(w.fabric.tasks, items[i]))
    requires forall i :: 0 <= i < |items| ==> CompletedItem(env, w, reduction, items[i])
    ensures var next := LevelOutputs(w.fabric.tasks, items[..k]);
            && Available(w.contents, next)
            && ReduceLevel(ReducerOf(env, reduction), GroupValues(w.fabric.tasks, w.contents, items)[..k])
               == Some(Lookup(w.contents, next))
  {
    hide CompletedItem, StaticsAgree, ReducerOf, ReduceGroup, LevelOutputs, ItemInputs;
    if k > 0 {
      LevelValues(env, w, reduction, items, k - 1);
      var value := ItemOutput(env, w, reduction, items[k - 1]);
      LevelOutputsPush(w.fabric.tasks, items, k - 1);
      var groups := GroupValues(w.fabric.tasks, w.contents, items);
      assert groups[..k][..k - 1] == groups[..k - 1];
      LookupConcat(w.contents, LevelOutputs(w.fabric.tasks, items[..k - 1]), LevelOutputs(w.fabric.tasks, [items[k - 1]]));
    } else {
      NoOutputs(w.fabric.tasks);
      assert items[..0] == [];
    }
  }

  lemma NoOutputs(tasks: Tasks)
    ensures LevelOutputs(tasks, []) == []
  {
  }

  /** Finishing a level leaves the flat reduction of the remaining inputs unchanged. */
  lemma LevelKeepsReduction(env: Env, w: World, reduction: RoleReductionSpec, items: seq<ReductionItem>, inputs: seq<ObjectId>)
    requires reduction.task.inputs == [] && OrderedAssociative(ReducerOf(env, reduction)) && StaticsAgree(env, w)
    requires Flatten(LevelInputs(w.fabric.tasks, items)) == inputs && Available(w.contents, inputs)
    requires forall i :: 0 <= i < |items| ==> CompletedItem(env, w, reduction, items[i])
    ensures var next := LevelOutputs(w.fabric.tasks, items);
            && Available(w.contents, next)
            && Flat(ReducerOf(env, reduction), Lookup(w.contents, next)) == Flat(ReducerOf(env, reduction), Lookup(w.contents, inputs))
  {
    hide CompletedItem, StaticsAgree, ReducerOf, OrderedAssociative, LevelOutputs, Flat, ItemInputs, Flatten, Lookup, Available, GroupValues;
    var groups := LevelInputs(w.fabric.tasks, items);
    forall i | 0 <= i < |items| ensures Available(w.contents, ItemInputs(w.fabric.tasks, items[i])) {
      GroupIsAvailable(w.contents, groups, i);
    }
    var values := GroupValues(w.fabric.tasks, w.contents, items);
    EachGroup(w.fabric.tasks, w.contents, items);
    LevelValues(env, w, reduction, items, |items|);
    assert items[..|items|] == items && values[..|values|] == values;
    LookupFlatten(w.contents, groups, values);
    NoEmptyGroup(env, w, reduction, items, values);
    LevelPreservesFlat(ReducerOf(env, reduction), values);
  }

  lemma EachGroup(tasks: Tasks, contents: Contents, items: seq<ReductionItem>)
    requires forall i :: 0 <= i < |items| ==> Available(contents, ItemInputs(tasks, items[i]))
    ensures var values := GroupValues(tasks, contents, items);
            && |values| == |items|
            && forall i :: 0 <= i < |items| ==>
                 values[i] == Lookup(contents, ItemInputs(tasks, items[i])) && |values[i]| == |ItemInputs(tasks, items[i])|
  {
    hide ItemInputs, Available;
  }

  lemma NoEmptyGroup(env: Env, w: World, reduction: RoleReductionSpec, items: seq<ReductionItem>, values: seq<seq<Bytes>>)
    requires |values| == |items| && forall i :: 0 <= i < |items| ==> CompletedItem(env, w, reduction, items[i])
    requires forall i :: 0 <= i < |items| ==> |values[i]| == |ItemInputs(w.fabric.tasks, items[i])|
    ensures forall i :: 0 <= i < |values| ==> values[i] != []
  {
    hide CompletedItem, ItemInputs;
    forall i | 0 <= i < |values| ensures values[i] != [] { ItemReadsSomething(env, w, reduction, items[i]); }
  }

  lemma ItemReadsSomething(env: Env, w: World, reduction: RoleReductionSpec, item: ReductionItem)
    requires CompletedItem(env, w, reduction, item)
    ensures ItemInputs(w.fabric.tasks, item) != []
  {
    hide ComputedTask;
  }
}
