/** Automatic sharding of a copied input means the same for every shard count. */
module BuiltinShards {
  import opened Wrappers
  import opened Core
  import opened Sequences
  import opened Execution
  import opened Partition
  import opened ReductionTree
  import opened Builtins
  import opened Admission
  import opened Denotation

  /** The executor runs these two built-ins as the agent does. */
  ghost predicate RunsBuiltins(exec: Executor)
  {
    forall arguments, inputs, shard ::
      && Outcome(exec(Operation("builtin:identity", "run", arguments), inputs, shard)) == Identity(inputs)
      && Outcome(exec(Operation("builtin:concat", "run", arguments), inputs, shard)) == Concat(inputs)
  }

  /** One identity implementation over one partitioned object, reassembled by concatenation. */
  ghost predicate CopiesItsInput(env: Env, role: RoleSpec)
  {
    && role.Logical? && role.shards.Auto? && |role.implementations| == 1 && ValidRole(role)
    && var template, partition := role.implementations[0].task, role.shards.policy.partition;
    && template.artifact == "builtin:identity" && template.entrypoint == "run" && partition.input == 0
    && Available(env.statics, template.inputs)
    && |env.statics[template.inputs[0]]| <= U64_MAX
    && (partition.RecordsSpec? ==> ValidRecordOffsets(partition.offsets, |env.statics[template.inputs[0]]|)
                                   && |partition.offsets| <= U64_MAX)
    && role.reduction.Some? && role.reduction.value.task.artifact == "builtin:concat"
    && role.reduction.value.task.entrypoint == "run"
  }

  /** The bytes to be copied. */
  ghost function Original(env: Env, role: RoleSpec): (bytes: Bytes)
    requires CopiesItsInput(env, role)
    ensures |bytes| <= U64_MAX
  {
    env.statics[role.implementations[0].task.inputs[0]]
  }

  function PartAt(partition: ShardPartitionSpec, size: u64, index: nat, count: nat): TaskShardPartition
    requires index < count < 0x1_0000_0000 && PartitionOfSize(partition, size, index, count).Some?
  {
    PartitionOfSize(partition, size, index, count).value
  }

  lemma PartsExist(env: Env, role: RoleSpec, index: nat, count: nat)
    requires CopiesItsInput(env, role) && index < count <= role.shards.policy.maxShards
    ensures PartitionOfSize(role.shards.policy.partition, |Original(env, role)|, index, count).Some?
    ensures PartAt(role.shards.policy.partition, |Original(env, role)|, index, count).input == 0
  {
  }

  /** Only the partitioned input is cut; every other input is passed on whole. */
  lemma {:induction false} OtherInputsWhole(raw: seq<Bytes>, shard: TaskShard, from: nat)
    requires 1 <= from <= |raw| && shard.partition.Some? && shard.partition.value.input == 0
    ensures SliceInputs(raw, Some(shard), from) == Success(raw[from..])
    decreases |raw| - from
  {
    if from == |raw| {
      assert raw[from..] == [];
    } else {
      OtherInputsWhole(raw, shard, from + 1);
      assert raw[from..] == [raw[from]] + raw[from + 1..];
    }
  }

  lemma CopiedSlice(env: Env, template: TaskTemplate, values: seq<Bytes>, shard: TaskShard)
    requires RunsBuiltins(env.exec) && template.artifact == "builtin:identity" && template.entrypoint == "run"
    requires Available(env.statics, template.inputs) && template.inputs != []
    requires shard.partition.Some? && shard.partition.value.input == 0
    requires var part := shard.partition.value; part.offset + part.length <= |env.statics[template.inputs[0]]|
    ensures var part, original := shard.partition.value, env.statics[template.inputs[0]];
            Evaluate(env, template, values, Some(shard)) == Some(original[part.offset..part.offset + part.length])
  {
    var raw := Lookup(env.statics, template.inputs) + values;
    var part := shard.partition.value;
    assert raw[0] == env.statics[template.inputs[0]];
    OtherInputsWhole(raw, shard, 1);
    var inputs := [raw[0][part.offset..part.offset + part.length]] + raw[1..];
    assert SliceInputs(raw, Some(shard), 0) == Success(inputs);
    assert Outcome(env.exec(Operation("builtin:identity", "run", template.arguments), inputs, Some(shard))) == Identity(inputs);
  }

  /** The partitions of the role's input into `count` shards. */
  ghost function Parts(env: Env, role: RoleSpec, count: nat): (parts: seq<TaskShardPartition>)
    requires CopiesItsInput(env, role) && 1 <= count <= role.shards.policy.maxShards
    ensures |parts| == count && PartitionsOf(parts, role.shards.policy.partition, |Original(env, role)|)
    ensures TilesBytes(parts, |Original(env, role)|)
    ensures forall i :: 0 <= i < |parts| ==> parts[i].offset + parts[i].length <= |Original(env, role)|
  {
    var parts := seq(count, i requires 0 <= i < count =>
      PartsExist(env, role, i, count);
      PartAt(role.shards.policy.partition, |Original(env, role)|, i, count));
    AllPartsExist(env, role, count);
    PartitionsTile(parts, role.shards.policy.partition, |Original(env, role)|);
    SlicesRebuildObject(Original(env, role), parts);
    parts
  }

  lemma AllPartsExist(env: Env, role: RoleSpec, count: nat)
    requires CopiesItsInput(env, role) && 1 <= count <= role.shards.policy.maxShards
    ensures forall i :: 0 <= i < count ==> PartitionOfSize(role.shards.policy.partition, |Original(env, role)|, i, count).Some?
  {
    forall i | 0 <= i < count ensures PartitionOfSize(role.shards.policy.partition, |Original(env, role)|, i, count).Some? {
      PartsExist(env, role, i, count);
    }
  }

  lemma ShardCopiesSlice(env: Env, role: RoleSpec, values: seq<Bytes>, index: nat, count: nat)
    requires RunsBuiltins(env.exec) && CopiesItsInput(env, role) && index < count <= role.shards.policy.maxShards
    ensures |role.Templates()| > 0
    ensures ShardValue(env, role, values, index, count) == Some(Cuts(Original(env, role), Parts(env, role, count))[index])
  {
    hide RunsBuiltins, Evaluate, PartitionOfSize;
    PartsExist(env, role, index, count);
    var part := Parts(env, role, count)[index];
    assert Some(part) == PartitionOfSize(role.shards.policy.partition, |Original(env, role)|, index, count);
    CopiedSlice(env, role.implementations[0].task, values, TaskShard(index, count, Some(part)));
  }

  lemma {:induction false} ShardsCopySlices(env: Env, role: RoleSpec, values: seq<Bytes>, count: nat, k: nat)
    requires RunsBuiltins(env.exec) && CopiesItsInput(env, role) && 1 <= count <= role.shards.policy.maxShards && k <= count
    ensures |role.Templates()| > 0
    ensures ShardValues(env, role, values, count, k) == Some(Cuts(Original(env, role), Parts(env, role, count))[..k])
  {
    hide RunsBuiltins, ShardValue, Parts, Original;
    if k > 0 {
      ShardsCopySlices(env, role, values, count, k - 1);
      ShardCopiesSlice(env, role, values, k - 1, count);
      var cuts := Cuts(Original(env, role), Parts(env, role, count));
      assert cuts[..k] == cuts[..k - 1] + [cuts[k - 1]];
    }
  }

  /** Whatever the number of shards, the role's value is its whole input. */
  lemma ShardedCopyIsWhole(env: Env, role: RoleSpec, values: seq<Bytes>, count: nat)
    requires RunsBuiltins(env.exec) && CopiesItsInput(env, role) && 1 <= count <= role.shards.policy.maxShards
    ensures |role.Templates()| > 0
    ensures ShardedValue(env, role, values, count) == Some([Original(env, role)])
  {
    hide RunsBuiltins, Parts, Original, ShardValues;
    var original, parts := Original(env, role), Parts(env, role, count);
    var cuts := Cuts(original, parts);
    ShardsCopySlices(env, role, values, count, count);
    assert cuts[..count] == cuts;
    SlicesRebuildObject(original, parts);
    if count == 1 {
      assert cuts == [cuts[0]] && cuts[..0] == [];
      assert Flatten(cuts) == Flatten(cuts[..0]) + cuts[0] == cuts[0];
    } else {
      ConcatReducer(env, role, cuts);
    }
  }

  lemma ConcatReducer(env: Env, role: RoleSpec, values: seq<Bytes>)
    requires RunsBuiltins(env.exec) && CopiesItsInput(env, role)
    ensures ReducerOf(env, role.reduction.value)(values) == Concat(values)
  {
    var reduction := role.reduction.value.task;
    assert Lookup(env.statics, reduction.inputs) + values == values;
    assert values[0..] == values;
    assert Outcome(env.exec(Operation("builtin:concat", "run", reduction.arguments), values, None)) == Concat(values);
  }

  /** Such a role meets every condition under which the runtime may shard it as it likes. */
  lemma ShardedCopyIsRearrangeable(env: Env, role: RoleSpec)
    requires RunsBuiltins(env.exec) && CopiesItsInput(env, role)
    ensures Rearrangeable(env, role)
  {
    hide RunsBuiltins, Original, ShardedValue, Evaluate;
    assert |role.Templates()| == 1;
    forall values, count | 1 <= count <= role.shards.policy.maxShards ensures SameSharding(env, role, values, count) {
      ShardedCopyIsWhole(env, role, values, count);
      ShardedCopyIsWhole(env, role, values, 1);
    }
    ConcatIsOrderedAssociative();
    forall a: seq<Bytes>, b: seq<Bytes>, c: seq<Bytes> | |b| >= 2 && |a| + |c| >= 1
      ensures Regroups(ReducerOf(env, role.reduction.value), a, b, c)
    {
      ConcatReducer(env, role, b);
      ConcatReducer(env, role, a + b + c);
      ConcatReducer(env, role, a + [Concat(b).value] + c);
      assert Regroups(Concat, a, b, c);
    }
  }
}
