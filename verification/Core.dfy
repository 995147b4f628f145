/** The data types of `plurifold-core` and the pure functions over them. */
module Core {
  import opened Wrappers

  type u32 = n: int | 0 <= n < 0x1_0000_0000
  type u64 = n: int | 0 <= n < 0x1_0000_0000_0000_0000

  const U64_MAX: u64 := 0xFFFF_FFFF_FFFF_FFFF

  function SaturatingAdd(a: u64, b: u64): (r: u64)
  {
    if a + b <= U64_MAX then a + b else U64_MAX
  }

  newtype byte = n: int | 0 <= n < 256
  type Bytes = seq<byte>

  /** UUIDs. Fresh ones are modelled as "different from every id used before". */
  type TaskId = nat
  type JobId = nat
  type ObjectId = nat
  type ResourceId = nat
  type ExecutionId = nat

  // ----- resources -----

  datatype Architecture = X86_64 | Aarch64 | RiscV64 | OtherArchitecture(name: string)

  datatype AcceleratorKind =
    | NvidiaGpu | AmdGpu | AscendNpu | Tpu | Fpga | OtherAccelerator(name: string)

  datatype Accelerator = Accelerator(kind: AcceleratorKind, count: u32, memoryBytesPerDevice: u64)

  datatype AcceleratorRequirement =
    AcceleratorRequirement(kind: AcceleratorKind, minCount: u32, minMemoryBytesPerDevice: u64)

  datatype ResourceRequirements = ResourceRequirements(
    architecture: Option<Architecture>,
    minMemoryBytes: u64,
    accelerator: Option<AcceleratorRequirement>,
    requiredFeatures: set<string>)

  datatype ResourceDescriptor = ResourceDescriptor(
    id: ResourceId,
    epoch: nat,
    architecture: Architecture,
    cpuCores: u32,
    memoryBytes: u64,
    accelerators: seq<Accelerator>,
    features: set<string>,
    performanceScore: real,
    queueDelayMs: real,
    startupDelayMs: real,
    failureProbability: real)
  {
    predicate Offers(required: AcceleratorRequirement)
    {
      exists i :: 0 <= i < |accelerators| && accelerators[i].kind == required.kind
                  && accelerators[i].count >= required.minCount
                  && accelerators[i].memoryBytesPerDevice >= required.minMemoryBytesPerDevice
    }

    predicate Supports(requirements: ResourceRequirements)
    {
      && performanceScore > 0.0
      && memoryBytes >= requirements.minMemoryBytes
      && (requirements.architecture.Some? ==> architecture == requirements.architecture.value)
      && requirements.requiredFeatures <= features
      && (requirements.accelerator.Some? ==> Offers(requirements.accelerator.value))
    }
  }

  // ----- tasks -----

  datatype EffectSemantics = Pure | Idempotent(key: string) | Exclusive
  {
    predicate AutomaticallyRetryable()
    {
      Pure? || Idempotent?
    }
  }

  datatype CostHint = CostHint(computeMs: real, outputBytes: u64)

  datatype TaskShardPartition =
    | ByteRange(input: nat, offset: u64, length: u64, totalBytes: u64)
    | Records(input: nat, recordStart: u64, recordCount: u64, totalRecords: u64,
              offset: u64, length: u64, totalBytes: u64)
  {
    function InputByteRange(inputIndex: nat): Option<(u64, u64)>
    {
      if input == inputIndex then Some((offset, length)) else None
    }

    /** The unit (bytes or records) in which this partition measures work. */
    function UnitStart(): u64 { if ByteRange? then offset else recordStart }
    function UnitCount(): u64 { if ByteRange? then length else recordCount }
    function UnitTotal(): u64 { if ByteRange? then totalBytes else totalRecords }

    function WorkFraction(): real
    {
      if UnitTotal() == 0 then 1.0 else UnitCount() as real / UnitTotal() as real
    }
  }

  datatype TaskShard = TaskShard(index: u32, count: u32, partition: Option<TaskShardPartition>)
  {
    function InputByteRange(inputIndex: nat): Option<(u64, u64)>
    {
      if partition.Some? then partition.value.InputByteRange(inputIndex) else None
    }
  }

  datatype PipelineInput = External(index: nat) | PreviousOutput

  datatype TaskPipelineStage = TaskPipelineStage(
    artifact: string, entrypoint: string, arguments: seq<string>, inputs: seq<PipelineInput>)

  datatype TaskSpec = TaskSpec(
    id: TaskId,
    artifact: string,
    entrypoint: string,
    arguments: seq<string>,
    inputs: seq<ObjectId>,
    requirements: ResourceRequirements,
    effects: EffectSemantics,
    cost: CostHint,
    shard: Option<TaskShard>,
    pipeline: Option<seq<TaskPipelineStage>>)
  {
    function InputByteRange(inputIndex: nat): Option<(u64, u64)>
    {
      if shard.Some? then shard.value.InputByteRange(inputIndex) else None
    }
  }

  datatype TaskTemplate = TaskTemplate(
    artifact: string,
    entrypoint: string,
    arguments: seq<string>,
    inputs: seq<ObjectId>,
    requirements: ResourceRequirements,
    effects: EffectSemantics,
    cost: CostHint)
  {
    /** `id` stands for the fresh UUID the source draws. */
    function Instantiate(id: TaskId, dependencyInputs: seq<ObjectId>): TaskSpec
    {
      TaskSpec(id, artifact, entrypoint, arguments, inputs + dependencyInputs,
               requirements, effects, cost, None, None)
    }
  }

  // ----- roles and jobs -----

  datatype RoleImplementation = RoleImplementation(name: string, task: TaskTemplate)

  datatype ShardPartitionSpec = ByteRangeSpec(input: nat) | RecordsSpec(input: nat, offsets: seq<u64>)

  datatype AutoShardPolicy = AutoShardPolicy(
    maxShards: u32, partition: ShardPartitionSpec, perShardOverheadMs: real, minGainRatio: real)

  datatype ShardPolicy = Fixed(count: u32) | Auto(policy: AutoShardPolicy)
  {
    predicate MayFanOut()
    {
      Fixed? ==> count > 1
    }
  }

  datatype RoleReductionSpec = RoleReductionSpec(
    name: string, task: TaskTemplate, maxFanIn: u32, localityRttMs: real)

  /** A cooperative role has one task template; a logical role has alternatives and may fan out. */
  datatype RoleSpec =
    | Cooperative(name: string, dependsOn: seq<string>, task: TaskTemplate)
    | Logical(name: string, dependsOn: seq<string>, implementations: seq<RoleImplementation>,
              shards: ShardPolicy, reduction: Option<RoleReductionSpec>)
  {
    /** The task templates this role may be executed by. */
    function Templates(): seq<TaskTemplate>
    {
      if Cooperative? then [task]
      else seq(|implementations|, i requires 0 <= i < |implementations| => implementations[i].task)
    }

    predicate FansOut()
    {
      Logical? && shards.MayFanOut()
    }

    /** A role the fusion rewrite may put into a chain. */
    predicate Chainable()
    {
      Logical? && shards == Fixed(1)
    }
  }

  datatype JobDefinition = JobDefinition(roles: seq<RoleSpec>, outputs: seq<string>)

  // ----- objects and topology -----

  datatype ObjectMetadata = ObjectMetadata(
    id: ObjectId,
    sizeBytes: u64,
    digest: Option<string>,
    encoding: Option<string>,
    locations: seq<ResourceId>,
    producer: Option<TaskId>)

  type Objects = map<ObjectId, ObjectMetadata>

  /** Everything but the replica locations. */
  predicate SameObjectIdentity(left: ObjectMetadata, right: ObjectMetadata)
  {
    left.(locations := []) == right.(locations := [])
  }

  datatype LinkProfile = LinkProfile(from: ResourceId, to: ResourceId, rttMs: real, bandwidthMbps: real)
  {
    function TransferTimeMs(bytes: u64): Option<real>
    {
      if bandwidthMbps <= 0.0 || rttMs < 0.0 then None
      else Some(rttMs + bytes as real / (bandwidthMbps * 125.0))
    }
  }

  type Topology = seq<LinkProfile>

  /** The first link joining `a` and `b` in either direction. */
  function Link(topology: Topology, a: ResourceId, b: ResourceId): Option<LinkProfile>
  {
    if topology == [] then None
    else
      var link := topology[0];
      if (link.from == a && link.to == b) || (link.from == b && link.to == a) then Some(link)
      else Link(topology[1..], a, b)
  }

  function TransferTimeMs(topology: Topology, a: ResourceId, b: ResourceId, bytes: u64): (r: Option<real>)
    ensures r.Some? ==> r.value >= 0.0
  {
    if a == b then Some(0.0)
    else
      var link := Link(topology, a, b);
      if link.None? then None else link.value.TransferTimeMs(bytes)
  }

  // ----- leases -----

  datatype ExecutionLease = ExecutionLease(
    task: TaskId, execution: ExecutionId, resource: ResourceId, epoch: nat, expiresAt: u64)
}
