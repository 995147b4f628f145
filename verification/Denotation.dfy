/** What a job means: unfused, shards in index order, reduced flat. */
module Denotation {
  import opened Wrappers
  import opened Core
  import opened Sequences
  import opened Execution
  import opened RoleGraph
  import opened Partition
  import opened ReductionTree
  import opened Admission

  /** Deterministic execution, and the bytes behind the objects that job definitions name. */
  datatype Env = Env(exec: Executor, statics: Contents)

  function Outcome(result: Result<Bytes, string>): Option<Bytes>
  {
    match result
    case Success(bytes) => Some(bytes)
    case Failure(_) => None
  }

  function Evaluate(env: Env, template: TaskTemplate, values: seq<Bytes>, shard: Option<TaskShard>): Option<Bytes>
  {
    if Available(env.statics, template.inputs)
    then Outcome(RunTemplate(env.exec, env.statics, template, values, shard)) else None
  }

  // ----- sharded roles -----

  /** The count whose meaning stands for the role: the fixed one, or a single shard. */
  function CanonicalCount(role: RoleSpec): nat
    requires role.Logical?
  {
    if role.shards.Fixed? then role.shards.count else 1
  }

  function PartitionedBytes(env: Env, role: RoleSpec): Option<nat>
    requires role.Logical? && role.shards.Auto?
  {
    var input := role.shards.policy.partition.input;
    if role.implementations != [] && input < |role.implementations[0].task.inputs|
       && role.implementations[0].task.inputs[input] in env.statics
    then Some(|env.statics[role.implementations[0].task.inputs[input]]|) else None
  }

  function ShardContext(env: Env, role: RoleSpec, index: nat, count: nat): Option<TaskShard>
    requires role.Logical? && index < count
  {
    if count >= 0x1_0000_0000 then None
    else if role.shards.Fixed? then Some(TaskShard(index, count, None))
    else
      var size := PartitionedBytes(env, role);
      if size.None? || size.value > U64_MAX then None
      else
        match PartitionOfSize(role.shards.policy.partition, size.value, index, count)
        case None => None
        case Some(part) => Some(TaskShard(index, count, Some(part)))
  }

  function ShardValue(env: Env, role: RoleSpec, values: seq<Bytes>, index: nat, count: nat): Option<Bytes>
    requires role.Logical? && index < count && |role.Templates()| > 0
  {
    match ShardContext(env, role, index, count)
    case None => None
    case Some(shard) => Evaluate(env, role.Templates()[0], values, Some(shard))
  }

  /** The values of the first `k` shards, in index order. */
  function ShardValues(env: Env, role: RoleSpec, values: seq<Bytes>, count: nat, k: nat): (r: Option<seq<Bytes>>)
    requires role.Logical? && k <= count && |role.Templates()| > 0
    ensures r.Some? ==> |r.value| == k
  {
    if k == 0 then Some([])
    else
      match (ShardValues(env, role, values, count, k - 1), ShardValue(env, role, values, k - 1, count))
      case (Some(sofar), Some(bytes)) => Some(sofar + [bytes])
      case _ => None
  }

  function ReducerOf(env: Env, reduction: RoleReductionSpec): Reducer
  {
    (values: seq<Bytes>) => Evaluate(env, reduction.task, values, None)
  }

  /** The role run as `count` shards and, if it declares a reducer, reduced in one go. */
  function ShardedValue(env: Env, role: RoleSpec, values: seq<Bytes>, count: nat): Option<seq<Bytes>>
    requires role.Logical? && |role.Templates()| > 0
  {
    match ShardValues(env, role, values, count, count)
    case None => None
    case Some(shards) =>
      if role.reduction.Some? then Flat(ReducerOf(env, role.reduction.value), shards) else Some(shards)
  }

  function RoleValue(env: Env, role: RoleSpec, values: seq<Bytes>): Option<seq<Bytes>>
    requires |role.Templates()| > 0
  {
    if role.FansOut() then ShardedValue(env, role, values, CanonicalCount(role))
    else
      match Evaluate(env, role.Templates()[0], values, None)
      case None => None
      case Some(bytes) => Some([bytes])
  }

  // ----- the dependency graph -----

  /** The outputs of one role, or none where something on the way to it fails. */
  ghost function Meaning(env: Env, definition: JobDefinition, name: string): Option<seq<Bytes>>
    requires ValidJob(definition) && HasRole(definition.roles, name)
    decreases Rank(definition.roles, name), 1, 0
  {
    var role := Role(definition.roles, name);
    match InputMeaning(env, definition, name, |role.dependsOn|)
    case None => None
    case Some(values) => if |role.Templates()| > 0 then RoleValue(env, role, values) else None
  }

  /** The outputs of the first `k` dependencies, in their listed order. */
  ghost function InputMeaning(env: Env, definition: JobDefinition, name: string, k: nat): Option<seq<Bytes>>
    requires ValidJob(definition) && HasRole(definition.roles, name) && k <= |Role(definition.roles, name).dependsOn|
    decreases Rank(definition.roles, name), 0, k
  {
    if k == 0 then Some([])
    else
      var dependency := Role(definition.roles, name).dependsOn[k - 1];
      DependencyRanksLower(definition.roles, name, dependency);
      match (InputMeaning(env, definition, name, k - 1), Meaning(env, definition, dependency))
      case (Some(sofar), Some(outputs)) => Some(sofar + outputs)
      case _ => None
  }

  /** The job's result: the outputs of its output roles, in order. */
  ghost function JobMeaning(env: Env, definition: JobDefinition, k: nat): Option<seq<Bytes>>
    requires ValidJob(definition) && k <= |definition.outputs|
  {
    if k == 0 then Some([])
    else
      match (JobMeaning(env, definition, k - 1), Meaning(env, definition, definition.outputs[k - 1]))
      case (Some(sofar), Some(outputs)) => Some(sofar + outputs)
      case _ => None
  }

  // ----- the jobs the runtime may rearrange -----

  /** Two implementations compute the same partial function. */
  predicate SameOutcome(env: Env, a: TaskTemplate, b: TaskTemplate, values: seq<Bytes>, shard: Option<TaskShard>)
  {
    Evaluate(env, a, values, shard) == Evaluate(env, b, values, shard)
  }

  ghost predicate OneFunction(env: Env, role: RoleSpec)
  {
    forall i, values, shard :: 0 <= i < |role.Templates()| ==>
      SameOutcome(env, role.Templates()[i], role.Templates()[0], values, shard)
  }

  predicate SameSharding(env: Env, role: RoleSpec, values: seq<Bytes>, count: nat)
    requires role.Logical? && |role.Templates()| > 0
  {
    ShardedValue(env, role, values, count) == ShardedValue(env, role, values, 1)
  }

  /** The result of an automatically sharded role does not depend on the number of shards. */
  ghost predicate CountInsensitive(env: Env, role: RoleSpec)
  {
    role.Logical? && role.shards.Auto? && |role.Templates()| > 0 ==>
      forall values, count :: 1 <= count <= role.shards.policy.maxShards ==> SameSharding(env, role, values, count)
  }

  /** What the programming model asks of a role so that the runtime may fuse, shard and regroup it. */
  ghost predicate Rearrangeable(env: Env, role: RoleSpec)
  {
    && |role.Templates()| > 0
    && (forall i :: 0 <= i < |role.Templates()| ==> Available(env.statics, role.Templates()[i].inputs))
    && OneFunction(env, role)
    && CountInsensitive(env, role)
    && (role.Logical? && role.reduction.Some? ==> OrderedAssociative(ReducerOf(env, role.reduction.value)))
  }

  ghost predicate RearrangeableJob(env: Env, definition: JobDefinition)
  {
    ValidJob(definition) &&
    forall name :: HasRole(definition.roles, name) ==> Rearrangeable(env, Role(definition.roles, name))
  }
}
