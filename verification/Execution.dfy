/** What an agent computes for a task: input slicing, one operation, and staged pipelines. */
module Execution {
  import opened Wrappers
  import opened Core

  datatype Operation = Operation(artifact: string, entrypoint: string, arguments: seq<string>)

  /** A foreign program: any deterministic function of the operation, its input bytes and its shard. */
  type Executor = (Operation, seq<Bytes>, Option<TaskShard>) -> Result<Bytes, string>

  type Contents = map<ObjectId, Bytes>

  predicate Available(contents: Contents, ids: seq<ObjectId>)
  {
    forall i :: 0 <= i < |ids| ==> ids[i] in contents
  }

  function Lookup(contents: Contents, ids: seq<ObjectId>): (r: seq<Bytes>)
    requires Available(contents, ids)
    ensures |r| == |ids|
  {
    seq(|ids|, i requires 0 <= i < |ids| => contents[ids[i]])
  }

  lemma LookupConcat(contents: Contents, a: seq<ObjectId>, b: seq<ObjectId>)
    requires Available(contents, a) && Available(contents, b)
    ensures Available(contents, a + b)
    ensures Lookup(contents, a + b) == Lookup(contents, a) + Lookup(contents, b)
  {
  }

  // ----- input slicing -----

  function Slice(bytes: Bytes, range: Option<(u64, u64)>): Result<Bytes, string>
  {
    match range
    case None => Success(bytes)
    case Some((offset, length)) =>
      if offset + length > |bytes| then Failure("input byte range exceeds object size")
      else Success(bytes[offset..offset + length])
  }

  /** Slices every input from position `from` on; the first bad range fails the task. */
  function SliceInputs(raw: seq<Bytes>, shard: Option<TaskShard>, from: nat): (r: Result<seq<Bytes>, string>)
    requires from <= |raw|
    ensures r.Success? ==> |r.value| == |raw| - from
    ensures shard.None? ==> r == Success(raw[from..])
    decreases |raw| - from
  {
    if from == |raw| then
      assert raw[from..] == [];
      Success([])
    else
      assert raw[from..] == [raw[from]] + raw[from + 1..];
      var range := if shard.Some? then shard.value.InputByteRange(from) else None;
      match Slice(raw[from], range)
      case Failure(e) => Failure(e)
      case Success(bytes) =>
        match SliceInputs(raw, shard, from + 1)
        case Failure(e) => Failure(e)
        case Success(rest) => Success([bytes] + rest)
  }

  // ----- one operation -----

  function RunOperation(exec: Executor, operation: Operation, raw: seq<Bytes>, shard: Option<TaskShard>)
    : Result<Bytes, string>
  {
    match SliceInputs(raw, shard, 0)
    case Failure(e) => Failure(e)
    case Success(inputs) => exec(operation, inputs, shard)
  }

  function OperationOf(template: TaskTemplate): Operation
  {
    Operation(template.artifact, template.entrypoint, template.arguments)
  }

  /** A template run on static inputs found in `contents` followed by `dependencies`. */
  function RunTemplate(exec: Executor, contents: Contents, template: TaskTemplate,
                       dependencies: seq<Bytes>, shard: Option<TaskShard>): Result<Bytes, string>
    requires Available(contents, template.inputs)
  {
    RunOperation(exec, OperationOf(template), Lookup(contents, template.inputs) + dependencies, shard)
  }

  // ----- pipelines -----

  function BindInput(binding: PipelineInput, inputs: seq<Bytes>, previous: Option<Bytes>): Result<Bytes, string>
  {
    match binding
    case External(index) =>
      if index < |inputs| then Success(inputs[index]) else Failure("pipeline input index is out of range")
    case PreviousOutput =>
      if previous.Some? then Success(previous.value)
      else Failure("pipeline stage references a missing previous output")
  }

  function BindInputs(bindings: seq<PipelineInput>, inputs: seq<Bytes>, previous: Option<Bytes>)
    : (r: Result<seq<Bytes>, string>)
    ensures r.Success? ==> |r.value| == |bindings|
  {
    if bindings == [] then Success([])
    else
      var n := |bindings| - 1;
      match BindInputs(bindings[..n], inputs, previous)
      case Failure(e) => Failure(e)
      case Success(bound) =>
        match BindInput(bindings[n], inputs, previous)
        case Failure(e) => Failure(e)
        case Success(bytes) => Success(bound + [bytes])
  }

  function RunStage(exec: Executor, stage: TaskPipelineStage, inputs: seq<Bytes>,
                    previous: Option<Bytes>, shard: Option<TaskShard>): Result<Bytes, string>
  {
    match BindInputs(stage.inputs, inputs, previous)
    case Failure(e) => Failure(e)
    case Success(bound) => exec(Operation(stage.artifact, stage.entrypoint, stage.arguments), bound, shard)
  }

  function RunStages(exec: Executor, stages: seq<TaskPipelineStage>, inputs: seq<Bytes>,
                     previous: Option<Bytes>, shard: Option<TaskShard>): Result<Bytes, string>
  {
    if stages == [] then
      if previous.Some? then Success(previous.value) else Failure("task pipeline produced no output")
    else
      match RunStage(exec, stages[0], inputs, previous, shard)
      case Failure(e) => Failure(e)
      case Success(bytes) => RunStages(exec, stages[1..], inputs, Some(bytes), shard)
  }

  function RunPipeline(exec: Executor, stages: seq<TaskPipelineStage>, inputs: seq<Bytes>,
                       shard: Option<TaskShard>): Result<Bytes, string>
  {
    if |stages| < 2 then Failure("task pipeline requires at least two stages")
    else RunStages(exec, stages, inputs, None, shard)
  }

  /** Everything the agent does between receiving input objects and publishing one output. */
  function RunTask(exec: Executor, task: TaskSpec, raw: seq<Bytes>): Result<Bytes, string>
  {
    match task.pipeline
    case None => RunOperation(exec, Operation(task.artifact, task.entrypoint, task.arguments), raw, task.shard)
    case Some(stages) =>
      match SliceInputs(raw, task.shard, 0)
      case Failure(e) => Failure(e)
      case Success(inputs) => RunPipeline(exec, stages, inputs, task.shard)
  }

  method ExecutePipeline(exec: Executor, stages: seq<TaskPipelineStage>, inputs: seq<Bytes>,
                         shard: Option<TaskShard>) returns (result: Result<Bytes, string>)
    ensures result == RunPipeline(exec, stages, inputs, shard)
  {
    if |stages| < 2 {
      return Failure("task pipeline requires at least two stages");
    }
    var previous: Option<Bytes> := None;
    for stageIndex := 0 to |stages|
      invariant RunStages(exec, stages, inputs, None, shard)
                == RunStages(exec, stages[stageIndex..], inputs, previous, shard)
      invariant stageIndex > 0 ==> previous.Some?
    {
      var stage := stages[stageIndex];
      var stageInputs: seq<Bytes> := [];
      assert stages[stageIndex..][1..] == stages[stageIndex + 1..];
      for b := 0 to |stage.inputs|
        invariant BindInputs(stage.inputs[..b], inputs, previous) == Success(stageInputs)
      {
        assert stage.inputs[..b + 1][..b] == stage.inputs[..b];
        match BindInput(stage.inputs[b], inputs, previous) {
          case Failure(e) =>
            BindingFailurePropagates(stage.inputs, b + 1, inputs, previous);
            return Failure(e);
          case Success(bytes) =>
            stageInputs := stageInputs + [bytes];
        }
      }
      assert stage.inputs[..|stage.inputs|] == stage.inputs;
      match exec(Operation(stage.artifact, stage.entrypoint, stage.arguments), stageInputs, shard) {
        case Failure(e) => return Failure(e);
        case Success(bytes) => previous := Some(bytes);
      }
    }
    return Success(previous.value);
  }

  lemma {:induction false} BindingFailurePropagates(bindings: seq<PipelineInput>, n: nat,
                                                    inputs: seq<Bytes>, previous: Option<Bytes>)
    requires n <= |bindings| && BindInputs(bindings[..n], inputs, previous).Failure?
    ensures BindInputs(bindings, inputs, previous) == BindInputs(bindings[..n], inputs, previous)
    decreases |bindings| - n
  {
    if n == |bindings| {
      assert bindings[..n] == bindings;
    } else {
      assert bindings[..n + 1][..n] == bindings[..n];
      BindingFailurePropagates(bindings, n + 1, inputs, previous);
    }
  }
}
