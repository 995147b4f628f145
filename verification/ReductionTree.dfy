/** Grouping one reduction level, and why a tree of any shape computes the flat reduction. */
module ReductionTree {
  import opened Wrappers
  import opened Core
  import opened Sequences

  // ----- grouping one level -----

  /** Two objects share a replica location or a link of at most `localityRttMs`. */
  predicate InputsAreLocal(left: ObjectId, right: ObjectId, localityRttMs: real, objects: Objects, topology: Topology)
  {
    left in objects && right in objects &&
    exists i, j :: 0 <= i < |objects[left].locations| && 0 <= j < |objects[right].locations|
      && LocationsAreLocal(objects[left].locations[i], objects[right].locations[j], localityRttMs, topology)
  }

  predicate LocationsAreLocal(a: ResourceId, b: ResourceId, localityRttMs: real, topology: Topology)
  {
    a == b || (var link := Link(topology, a, b); link.Some? && link.value.rttMs <= localityRttMs)
  }

  predicate Extends(group: seq<ObjectId>, input: ObjectId, localityRttMs: real, objects: Objects, topology: Topology)
  {
    forall k :: 0 <= k < |group| ==> InputsAreLocal(group[k], input, localityRttMs, objects, topology)
  }

  predicate PairwiseLocal(group: seq<ObjectId>, localityRttMs: real, objects: Objects, topology: Topology)
  {
    forall k :: 0 <= k < |group| ==> Extends(group[..k], group[k], localityRttMs, objects, topology)
  }

  /** Groups keep the input order, are non-empty and hold at most `maxFanIn` inputs. */
  predicate Grouping(groups: seq<seq<ObjectId>>, inputs: seq<ObjectId>, maxFanIn: nat)
  {
    Flatten(groups) == inputs && forall i :: 0 <= i < |groups| ==> 1 <= |groups[i]| <= maxFanIn
  }

  predicate AnyGroupReduces(groups: seq<seq<ObjectId>>)
  {
    exists i :: 0 <= i < |groups| && |groups[i]| > 1
  }

  /** Each group is local and stopped only because it was full or the next input was not local to it. */
  predicate GreedyLocal(groups: seq<seq<ObjectId>>, maxFanIn: nat, localityRttMs: real,
                        objects: Objects, topology: Topology)
  {
    && (forall i :: 0 <= i < |groups| ==> groups[i] != [] && PairwiseLocal(groups[i], localityRttMs, objects, topology))
    && (forall i :: 0 <= i < |groups| - 1 ==>
          |groups[i]| >= maxFanIn || !Extends(groups[i], groups[i + 1][0], localityRttMs, objects, topology))
  }

  /** Every chunk but the last is full. */
  predicate Chunks(groups: seq<seq<ObjectId>>, maxFanIn: nat)
  {
    forall i :: 0 <= i < |groups| - 1 ==> |groups[i]| == maxFanIn
  }

  /** Closed groups plus the open one cover `prefix`; the open one may still grow. */
  ghost predicate LocalScan(groups: seq<seq<ObjectId>>, current: seq<ObjectId>, prefix: seq<ObjectId>,
                            maxFanIn: nat, localityRttMs: real, objects: Objects, topology: Topology)
  {
    if current == [] then groups == [] && prefix == []
    else
      && Grouping(groups + [current], prefix, maxFanIn)
      && GreedyLocal(groups + [current], maxFanIn, localityRttMs, objects, topology)
  }

  method LocalGroups(inputs: seq<ObjectId>, maxFanIn: nat, localityRttMs: real, objects: Objects, topology: Topology)
    returns (groups: seq<seq<ObjectId>>)
    requires maxFanIn >= 1
    ensures Grouping(groups, inputs, maxFanIn)
    ensures GreedyLocal(groups, maxFanIn, localityRttMs, objects, topology)
  {
    groups := [];
    var current: seq<ObjectId> := [];
    for k := 0 to |inputs|
      invariant LocalScan(groups, current, inputs[..k], maxFanIn, localityRttMs, objects, topology)
    {
      var input := inputs[k];
      assert inputs[..k + 1] == inputs[..k] + [input];
      var extend := current != [] && |current| < maxFanIn
                    && Extends(current, input, localityRttMs, objects, topology);
      if current != [] && !extend {
        CloseGroup(groups, current, inputs[..k], input, maxFanIn, localityRttMs, objects, topology);
        groups := groups + [current];
        current := [];
      } else {
        GrowGroup(groups, current, inputs[..k], input, maxFanIn, localityRttMs, objects, topology);
      }
      current := current + [input];
    }
    assert inputs[..|inputs|] == inputs;
    if current != [] {
      groups := groups + [current];
    }
  }

  lemma CloseGroup(groups: seq<seq<ObjectId>>, current: seq<ObjectId>, prefix: seq<ObjectId>, input: ObjectId,
                   maxFanIn: nat, localityRttMs: real, objects: Objects, topology: Topology)
    requires maxFanIn >= 1
    requires current != [] && LocalScan(groups, current, prefix, maxFanIn, localityRttMs, objects, topology)
    requires |current| >= maxFanIn || !Extends(current, input, localityRttMs, objects, topology)
    ensures LocalScan(groups + [current], [] + [input], prefix + [input], maxFanIn, localityRttMs, objects, topology)
  {
    var before := groups + [current];
    var after := before + [[] + [input]];
    FlattenPush(before, [] + [input]);
    forall i | 0 <= i < |after| - 1
      ensures |after[i]| >= maxFanIn || !Extends(after[i], after[i + 1][0], localityRttMs, objects, topology)
    {
      if i < |groups| { assert after[i] == before[i] && after[i + 1] == before[i + 1]; }
    }
  }

  lemma GrowGroup(groups: seq<seq<ObjectId>>, current: seq<ObjectId>, prefix: seq<ObjectId>, input: ObjectId,
                  maxFanIn: nat, localityRttMs: real, objects: Objects, topology: Topology)
    requires LocalScan(groups, current, prefix, maxFanIn, localityRttMs, objects, topology)
    requires |current| < maxFanIn && Extends(current, input, localityRttMs, objects, topology)
    ensures LocalScan(groups, current + [input], prefix + [input], maxFanIn, localityRttMs, objects, topology)
  {
    var grown := current + [input];
    var after := groups + [grown];
    assert Grouping(after, prefix + [input], maxFanIn) by {
      FlattenPush(groups, grown);
      if current != [] { FlattenPush(groups, current); }
      assert Flatten(groups) + grown == Flatten(groups) + current + [input];
      forall i | 0 <= i < |after| ensures 1 <= |after[i]| <= maxFanIn {
        if i < |groups| { assert after[i] == (groups + [current])[i]; }
      }
    }
    GrownPairwise(groups, current, prefix, input, maxFanIn, localityRttMs, objects, topology);
    forall i | 0 <= i < |after|
      ensures after[i] != [] && PairwiseLocal(after[i], localityRttMs, objects, topology)
    {
      if i < |groups| { assert after[i] == (groups + [current])[i]; }
    }
    forall i | 0 <= i < |after| - 1
      ensures |after[i]| >= maxFanIn || !Extends(after[i], after[i + 1][0], localityRttMs, objects, topology)
    {
      var before := groups + [current];
      assert after[i] == before[i] && after[i + 1][0] == before[i + 1][0];
    }
  }

  lemma GrownPairwise(groups: seq<seq<ObjectId>>, current: seq<ObjectId>, prefix: seq<ObjectId>, input: ObjectId,
                      maxFanIn: nat, localityRttMs: real, objects: Objects, topology: Topology)
    requires LocalScan(groups, current, prefix, maxFanIn, localityRttMs, objects, topology)
    requires Extends(current, input, localityRttMs, objects, topology)
    ensures PairwiseLocal(current + [input], localityRttMs, objects, topology)
  {
    var grown := current + [input];
    forall k | 0 <= k < |grown| ensures Extends(grown[..k], grown[k], localityRttMs, objects, topology) {
      if k < |current| {
        assert PairwiseLocal((groups + [current])[|groups|], localityRttMs, objects, topology);
        assert grown[..k] == current[..k];
      } else {
        assert grown[..k] == current;
      }
    }
  }

  /** Full chunks so far, unless nothing is left; with two inputs and a fan-in of two the first has two. */
  ghost predicate ChunkScan(groups: seq<seq<ObjectId>>, rest: seq<ObjectId>, inputs: seq<ObjectId>, maxFanIn: nat)
  {
    && Flatten(groups) + rest == inputs
    && (forall i :: 0 <= i < |groups| ==> 1 <= |groups[i]| <= maxFanIn)
    && (rest != [] ==> forall i :: 0 <= i < |groups| ==> |groups[i]| == maxFanIn)
    && Chunks(groups, maxFanIn)
    && (groups == [] ==> rest == inputs)
    && (|inputs| >= 2 && maxFanIn >= 2 && groups != [] ==> |groups[0]| > 1)
  }

  lemma ChunkCovers(groups: seq<seq<ObjectId>>, rest: seq<ObjectId>, size: nat)
    requires size <= |rest|
    ensures Flatten(groups + [rest[..size]]) + rest[size..] == Flatten(groups) + rest
  {
    hide Flatten;
    FlattenPush(groups, rest[..size]);
    assert rest == rest[..size] + rest[size..];
  }

  lemma OneMoreChunk(groups: seq<seq<ObjectId>>, chunk: seq<ObjectId>, maxFanIn: nat)
    requires 1 <= |chunk| <= maxFanIn && forall i :: 0 <= i < |groups| ==> |groups[i]| == maxFanIn
    ensures var pushed := groups + [chunk];
            && Chunks(pushed, maxFanIn) && pushed[0] == (if groups == [] then chunk else groups[0])
            && (forall i :: 0 <= i < |pushed| ==> 1 <= |pushed[i]| <= maxFanIn)
            && (|chunk| == maxFanIn ==> forall i :: 0 <= i < |pushed| ==> |pushed[i]| == maxFanIn)
  {
  }

  lemma ChunkPushed(groups: seq<seq<ObjectId>>, rest: seq<ObjectId>, inputs: seq<ObjectId>, maxFanIn: nat, size: nat)
    requires ChunkScan(groups, rest, inputs, maxFanIn) && rest != [] && maxFanIn >= 1
    requires size == if |rest| < maxFanIn then |rest| else maxFanIn
    ensures ChunkScan(groups + [rest[..size]], rest[size..], inputs, maxFanIn)
  {
    hide Flatten, Chunks;
    ChunkCovers(groups, rest, size);
    OneMoreChunk(groups, rest[..size], maxFanIn);
  }

  method ChunkInputs(inputs: seq<ObjectId>, maxFanIn: nat) returns (groups: seq<seq<ObjectId>>)
    requires maxFanIn >= 1
    ensures Grouping(groups, inputs, maxFanIn) && Chunks(groups, maxFanIn)
    ensures |inputs| >= 2 && maxFanIn >= 2 ==> |groups[0]| > 1
  {
    groups := [];
    var rest := inputs;
    while rest != []
      invariant ChunkScan(groups, rest, inputs, maxFanIn)
      decreases |rest|
    {
      var size := if |rest| < maxFanIn then |rest| else maxFanIn;
      ChunkPushed(groups, rest, inputs, maxFanIn, size);
      groups := groups + [rest[..size]];
      rest := rest[size..];
    }
  }

  /**
   * Local contiguous groups when some group has two members, otherwise chunks of `maxFanIn`.
   * Either way the inputs are kept in order, and from two inputs on the level shrinks.
   */
  method ReductionGroups(inputs: seq<ObjectId>, maxFanIn: nat, localityRttMs: real,
                         objects: Objects, topology: Topology)
    returns (groups: seq<seq<ObjectId>>)
    requires maxFanIn >= 1
    ensures Grouping(groups, inputs, maxFanIn)
    ensures || (GreedyLocal(groups, maxFanIn, localityRttMs, objects, topology) && AnyGroupReduces(groups))
            || Chunks(groups, maxFanIn)
    ensures |inputs| >= 2 && maxFanIn >= 2 ==> AnyGroupReduces(groups) && |groups| < |inputs|
  {
    groups := LocalGroups(inputs, maxFanIn, localityRttMs, objects, topology);
    if !AnyGroupReduces(groups) {
      groups := ChunkInputs(inputs, maxFanIn);
    }
    FlattenShrinks(groups);
  }

  // ----- tree equals flat -----

  type Reducer = seq<Bytes> -> Option<Bytes>

  /** Zero or one value is its own reduction; more are reduced in order in one go. */
  function Flat(reduce: Reducer, values: seq<Bytes>): Option<seq<Bytes>>
  {
    if |values| <= 1 then Some(values)
    else
      match reduce(values)
      case None => None
      case Some(value) => Some([value])
  }

  function ReduceGroup(reduce: Reducer, group: seq<Bytes>): Option<Bytes>
  {
    if |group| == 1 then Some(group[0]) else reduce(group)
  }

  /** One level: singletons are carried, larger groups reduced; any failing group fails the level. */
  function ReduceLevel(reduce: Reducer, groups: seq<seq<Bytes>>): (r: Option<seq<Bytes>>)
    ensures r.Some? ==> |r.value| == |groups|
    ensures r.Some? <==> forall i :: 0 <= i < |groups| ==> ReduceGroup(reduce, groups[i]).Some?
    ensures r.Some? ==> forall i :: 0 <= i < |groups| ==> ReduceGroup(reduce, groups[i]) == Some(r.value[i])
  {
    if groups == [] then Some([])
    else
      var n := |groups| - 1;
      match (ReduceLevel(reduce, groups[..n]), ReduceGroup(reduce, groups[n]))
      case (Some(values), Some(value)) => Some(values + [value])
      case _ => None
  }

  /** Reducing an inner run of adjacent values first does not change the result. */
  predicate Regroups(reduce: Reducer, a: seq<Bytes>, b: seq<Bytes>, c: seq<Bytes>)
  {
    reduce(b).Some? ==> reduce(a + [reduce(b).value] + c) == reduce(a + b + c)
  }

  ghost predicate OrderedAssociative(reduce: Reducer)
  {
    forall a, b, c :: |b| >= 2 && |a| + |c| >= 1 ==> Regroups(reduce, a, b, c)
  }

  /** An inner run that cannot be reduced makes every list around it irreducible. */
  predicate FailurePropagates(reduce: Reducer, a: seq<Bytes>, b: seq<Bytes>, c: seq<Bytes>)
  {
    reduce(b).None? ==> reduce(a + b + c).None?
  }

  ghost predicate FailureStrict(reduce: Reducer)
  {
    forall a, b, c :: |b| >= 2 && |a| + |c| >= 1 ==> FailurePropagates(reduce, a, b, c)
  }

  lemma RegroupInner(reduce: Reducer, a: seq<Bytes>, b: seq<Bytes>, c: seq<Bytes>)
    requires OrderedAssociative(reduce)
    requires |b| >= 2 && |a| + |c| >= 1 && reduce(b).Some?
    ensures Flat(reduce, a + [reduce(b).value] + c) == Flat(reduce, a + b + c)
  {
    assert Regroups(reduce, a, b, c);
  }

  lemma RegroupOne(reduce: Reducer, done: seq<Bytes>, group: seq<Bytes>, rest: seq<Bytes>, value: Bytes)
    requires OrderedAssociative(reduce)
    requires group != [] && ReduceGroup(reduce, group) == Some(value)
    ensures Flat(reduce, done + [value] + rest) == Flat(reduce, done + group + rest)
  {
    if |group| == 1 {
      assert group == [value];
    } else if |done| + |rest| >= 1 {
      RegroupInner(reduce, done, group, rest);
    } else {
      assert done + group + rest == group;
      assert done + [value] + rest == [value];
    }
  }

  /** The first `k` groups reduced, the others still spread out. */
  function Mixed(values: seq<Bytes>, groups: seq<seq<Bytes>>, k: nat): seq<Bytes>
    requires k <= |groups| && |values| == |groups|
  {
    values[..k] + Flatten(groups[k..])
  }

  lemma MixedStep(values: seq<Bytes>, groups: seq<seq<Bytes>>, k: nat)
    requires k < |groups| && |values| == |groups|
    ensures Mixed(values, groups, k) == values[..k] + groups[k] + Flatten(groups[k + 1..])
    ensures Mixed(values, groups, k + 1) == values[..k] + [values[k]] + Flatten(groups[k + 1..])
  {
    assert groups[k..] == [groups[k]] + groups[k + 1..];
    FlattenCons(groups[k], groups[k + 1..]);
  }

  lemma {:induction false} LevelPreservesSuffix(reduce: Reducer, groups: seq<seq<Bytes>>, values: seq<Bytes>, k: nat)
    requires OrderedAssociative(reduce)
    requires forall i :: 0 <= i < |groups| ==> groups[i] != []
    requires ReduceLevel(reduce, groups) == Some(values) && k <= |groups|
    ensures Flat(reduce, Mixed(values, groups, k)) == Flat(reduce, Flatten(groups))
    decreases k
  {
    if k == 0 {
      assert groups[0..] == groups && values[..0] + Flatten(groups) == Flatten(groups);
    } else {
      LevelPreservesSuffix(reduce, groups, values, k - 1);
      MixedStep(values, groups, k - 1);
      RegroupOne(reduce, values[..k - 1], groups[k - 1], Flatten(groups[k..]), values[k - 1]);
    }
  }

  /** A level that succeeds leaves the flat ordered reduction unchanged, whatever its grouping. */
  lemma LevelPreservesFlat(reduce: Reducer, groups: seq<seq<Bytes>>)
    requires OrderedAssociative(reduce)
    requires forall i :: 0 <= i < |groups| ==> groups[i] != []
    requires ReduceLevel(reduce, groups).Some?
    ensures Flat(reduce, ReduceLevel(reduce, groups).value) == Flat(reduce, Flatten(groups))
  {
    var values := ReduceLevel(reduce, groups).value;
    LevelPreservesSuffix(reduce, groups, values, |groups|);
    assert Mixed(values, groups, |groups|) == values;
  }

  /** A level that fails, under a strict reducer, fails only where the flat reduction fails too. */
  lemma LevelFailureIsFlatFailure(reduce: Reducer, groups: seq<seq<Bytes>>)
    requires FailureStrict(reduce)
    requires forall i :: 0 <= i < |groups| ==> groups[i] != []
    requires ReduceLevel(reduce, groups).None?
    ensures Flat(reduce, Flatten(groups)).None?
  {
    var i :| 0 <= i < |groups| && ReduceGroup(reduce, groups[i]).None?;
    var a, c := Flatten(groups[..i]), Flatten(groups[i + 1..]);
    FlattenAround(groups, i);
    if |a| + |c| >= 1 {
      assert FailurePropagates(reduce, a, groups[i], c);
    } else {
      assert Flatten(groups) == groups[i];
    }
  }

  /** A tree given by the group sizes of each level, from the leaves up. */
  function Split(values: seq<Bytes>, sizes: seq<nat>): (r: seq<seq<Bytes>>)
    requires Sum(sizes) == |values|
    ensures |r| == |sizes| && Flatten(r) == values
    ensures forall i :: 0 <= i < |sizes| ==> |r[i]| == sizes[i]
    decreases |sizes|
  {
    if sizes == [] then []
    else
      var n := |sizes| - 1;
      var cut := |values| - sizes[n];
      var front := Split(values[..cut], sizes[..n]);
      FlattenPush(front, values[cut..]);
      front + [values[cut..]]
  }

  function Sum(sizes: seq<nat>): nat
  {
    if sizes == [] then 0 else Sum(sizes[..|sizes| - 1]) + sizes[|sizes| - 1]
  }

  predicate ShapeFits(count: nat, levels: seq<seq<nat>>)
    decreases |levels|
  {
    levels == [] ||
    (Sum(levels[0]) == count && (forall i :: 0 <= i < |levels[0]| ==> levels[0][i] >= 1)
     && ShapeFits(|levels[0]|, levels[1..]))
  }

  function ReduceTree(reduce: Reducer, values: seq<Bytes>, levels: seq<seq<nat>>): Option<seq<Bytes>>
    requires ShapeFits(|values|, levels)
    decreases |levels|
  {
    if levels == [] then Some(values)
    else
      match ReduceLevel(reduce, Split(values, levels[0]))
      case None => None
      case Some(next) => ReduceTree(reduce, next, levels[1..])
  }

  /** A tree of any shape that ends in one value computes the flat reduction, and fails when it fails. */
  lemma {:induction false} TreeEqualsFlat(reduce: Reducer, values: seq<Bytes>, levels: seq<seq<nat>>)
    requires OrderedAssociative(reduce) && ShapeFits(|values|, levels)
    ensures ReduceTree(reduce, values, levels).Some? ==>
              Flat(reduce, ReduceTree(reduce, values, levels).value) == Flat(reduce, values)
    ensures ReduceTree(reduce, values, levels).Some? && |ReduceTree(reduce, values, levels).value| <= 1 ==>
              ReduceTree(reduce, values, levels) == Flat(reduce, values)
    ensures FailureStrict(reduce) && ReduceTree(reduce, values, levels).None? ==> Flat(reduce, values).None?
    decreases |levels|
  {
    if levels != [] {
      var groups := Split(values, levels[0]);
      match ReduceLevel(reduce, groups) {
        case None =>
          if FailureStrict(reduce) { LevelFailureIsFlatFailure(reduce, groups); }
        case Some(next) =>
          LevelPreservesFlat(reduce, groups);
          TreeEqualsFlat(reduce, next, levels[1..]);
      }
    }
  }
}
