/** How an auto-sharded input is cut into byte or record ranges, and what the cuts conserve. */
module Partition {
  import opened Wrappers
  import opened Core
  import opened Sequences

  // ----- floor-division bounds -----

  /** Where shard `index` of `count` starts; `index == count` gives the end of the last shard. */
  function Cut(total: u64, index: nat, count: nat): (r: nat)
    requires 0 < count && index <= count
    ensures r <= total
  {
    MulBelow(total, index, count);
    total * index / count
  }

  lemma MulBelow(total: nat, index: nat, count: nat)
    requires 0 < count && index <= count
    ensures 0 <= total * index / count <= total
  {
    assert total * index <= total * count by { MulMonotone(index, count, total); }
    DivMonotone(total * index, total * count, count);
    DivExact(total, count);
  }

  lemma MulMonotone(a: nat, b: nat, c: nat)
    requires a <= b
    ensures c * a <= c * b
  {
    assert c * b == c * a + c * (b - a);
  }

  lemma DivExact(a: nat, c: nat)
    requires 0 < c
    ensures a * c / c == a
  {
    assert (a + 1) * c == a * c + c;
    DivUnique(a * c, c, a);
  }

  lemma AtLeastOneMultiple(x: int, c: int)
    requires x >= 1 && c > 0
    ensures x * c >= c
  {
    assert x * c == (x - 1) * c + c;
  }

  lemma DivUnique(a: int, c: int, q: int)
    requires 0 < c && q * c <= a < (q + 1) * c
    ensures a / c == q
  {
    var d := a / c;
    assert d * c <= a < d * c + c;
    assert (q + 1) * c == q * c + c;
    assert (d - q) * c == d * c - q * c && (q - d) * c == q * c - d * c;
    if d > q { AtLeastOneMultiple(d - q, c); }
    if q > d { AtLeastOneMultiple(q - d, c); }
  }

  lemma DivMonotone(a: nat, b: nat, c: nat)
    requires a <= b && 0 < c
    ensures a / c <= b / c
  {
    var p, q := a / c, b / c;
    assert p * c <= a && b < q * c + c;
    assert (p - q) * c == p * c - q * c;
    if p > q { AtLeastOneMultiple(p - q, c); }
  }

  lemma CutMonotone(total: u64, i: nat, j: nat, count: nat)
    requires 0 < count && i <= j <= count
    ensures Cut(total, i, count) <= Cut(total, j, count)
  {
    MulMonotone(i, j, total);
    DivMonotone(total * i, total * j, count);
  }

  lemma CutEnds(total: u64, count: nat)
    requires 0 < count
    ensures Cut(total, 0, count) == 0 && Cut(total, count, count) == total
  {
    DivExact(total, count);
  }

  /** Every shard holds the average rounded down, or one unit more. */
  lemma ShardSizesBalanced(total: u64, index: nat, count: nat)
    requires 0 < count && index < count
    ensures total / count <= Cut(total, index + 1, count) - Cut(total, index, count) <= total / count + 1
  {
    assert total * (index + 1) == total * index + total;
    FloorOfSum(total * index, total, count);
  }

  lemma FloorOfSum(a: nat, b: nat, c: nat)
    requires 0 < c
    ensures a / c + b / c <= (a + b) / c <= a / c + b / c + 1
  {
    var p, q := a / c, b / c;
    var r := DivRemainder(a, c);
    var s := DivRemainder(b, c);
    Distribute(p, q, c);
    Distribute(p + q, 1, c);
    Distribute(p + q + 1, 1, c);
    if r + s < c { DivUnique(a + b, c, p + q); } else { DivUnique(a + b, c, p + q + 1); }
  }

  lemma Distribute(x: int, y: int, c: int)
    ensures (x + y) * c == x * c + y * c
  {
  }

  lemma DivRemainder(a: nat, c: nat) returns (r: nat)
    requires 0 < c
    ensures r < c && a == (a / c) * c + r
  {
    r := a % c;
  }

  /** With no more shards than units, no shard is empty. */
  lemma ShardsNotEmpty(total: u64, index: nat, count: nat)
    requires 0 < count <= total && index < count
    ensures Cut(total, index, count) < Cut(total, index + 1, count)
  {
    ShardSizesBalanced(total, index, count);
    DivMonotone(count, total, count);
    DivUnique(count, count, 1);
  }

  function PartitionBounds(total: u64, index: u32, count: u32): (r: (u64, u64))
    requires index < count
    ensures r.0 + r.1 <= total
  {
    var start := Cut(total, index, count);
    var end := Cut(total, index + 1, count);
    CutMonotone(total, index, index + 1, count);
    (start, end - start)
  }

  // ----- concrete partitions -----

  /** Record starts plus the object length: at least one record, none of them empty. */
  predicate ValidRecordOffsets(offsets: seq<u64>, totalBytes: u64)
  {
    && |offsets| >= 2 && offsets[0] == 0 && offsets[|offsets| - 1] == totalBytes
    && forall i :: 0 <= i < |offsets| - 1 ==> offsets[i] < offsets[i + 1]
  }

  lemma {:induction false} OffsetsIncrease(offsets: seq<u64>, i: nat, j: nat)
    requires forall k :: 0 <= k < |offsets| - 1 ==> offsets[k] < offsets[k + 1]
    requires i <= j < |offsets|
    ensures offsets[i] <= offsets[j]
    decreases j
  {
    if i < j { OffsetsIncrease(offsets, i, j - 1); }
  }

  function PartitionObject(template: TaskTemplate, input: nat, objects: Objects): Option<u64>
  {
    if input < |template.inputs| && template.inputs[input] in objects
    then Some(objects[template.inputs[input]].sizeBytes) else None
  }

  /** The partition of shard `index`, given the size of the partitioned object. */
  function PartitionOfSize(partition: ShardPartitionSpec, totalBytes: u64, index: u32, count: u32)
    : Option<TaskShardPartition>
    requires index < count
  {
    match partition
    case ByteRangeSpec(input) =>
      var (offset, length) := PartitionBounds(totalBytes, index, count);
      Some(ByteRange(input, offset, length, totalBytes))
    case RecordsSpec(input, offsets) =>
      if !ValidRecordOffsets(offsets, totalBytes) || |offsets| - 1 > U64_MAX then None
      else
        var totalRecords: u64 := |offsets| - 1;
        var (recordStart, recordCount) := PartitionBounds(totalRecords, index, count);
        var offset, end := offsets[recordStart], offsets[recordStart + recordCount];
        OffsetsIncrease(offsets, recordStart, recordStart + recordCount);
        Some(Records(input, recordStart, recordCount, totalRecords, offset, end - offset, totalBytes))
  }

  function ConcretePartition(template: TaskTemplate, partition: ShardPartitionSpec, index: u32, count: u32,
                             objects: Objects): Option<TaskShardPartition>
    requires index < count
  {
    match PartitionObject(template, partition.input, objects)
    case None => None
    case Some(totalBytes) => PartitionOfSize(partition, totalBytes, index, count)
  }

  /** The number of units (bytes or records) that shards may share. */
  function PartitionUnits(template: TaskTemplate, partition: ShardPartitionSpec, objects: Objects): Option<u64>
  {
    match PartitionObject(template, partition.input, objects)
    case None => None
    case Some(totalBytes) =>
      match partition
      case ByteRangeSpec(_) => Some(totalBytes)
      case RecordsSpec(_, offsets) =>
        if ValidRecordOffsets(offsets, totalBytes) && |offsets| - 1 <= U64_MAX then Some(|offsets| - 1) else None
  }

  // ----- tiling -----

  /** All partitions of one object into `count` shards. */
  ghost predicate PartitionsOf(parts: seq<TaskShardPartition>, partition: ShardPartitionSpec, totalBytes: u64)
  {
    0 < |parts| < 0x1_0000_0000 &&
    forall i :: 0 <= i < |parts| ==> Some(parts[i]) == PartitionOfSize(partition, totalBytes, i, |parts|)
  }

  /** Contiguous from the first unit to the last. */
  ghost predicate TilesUnits(parts: seq<TaskShardPartition>, total: u64)
  {
    && |parts| > 0
    && parts[0].UnitStart() == 0
    && (forall i :: 0 <= i < |parts| ==> parts[i].UnitTotal() == total)
    && (forall i :: 0 <= i < |parts| - 1 ==> parts[i].UnitStart() + parts[i].UnitCount() == parts[i + 1].UnitStart())
    && parts[|parts| - 1].UnitStart() + parts[|parts| - 1].UnitCount() == total
  }

  ghost predicate TilesBytes(parts: seq<TaskShardPartition>, totalBytes: u64)
  {
    && |parts| > 0
    && parts[0].offset == 0
    && (forall i :: 0 <= i < |parts| - 1 ==> parts[i].offset + parts[i].length == parts[i + 1].offset)
    && parts[|parts| - 1].offset + parts[|parts| - 1].length == totalBytes
  }

  function UnitsOf(partition: ShardPartitionSpec, totalBytes: u64): nat
  {
    if partition.ByteRangeSpec? then totalBytes
    else if partition.offsets == [] then 0 else |partition.offsets| - 1
  }

  lemma PartitionBoundsMeet(total: u64, index: u32, count: u32)
    requires index + 1 < count
    ensures PartitionBounds(total, index, count).0 + PartitionBounds(total, index, count).1
            == PartitionBounds(total, index + 1, count).0
  {
  }

  /**
   * The shards of an object cover it exactly: contiguous in work units and in bytes, of balanced
   * size, and none empty when there are at least as many units as shards.
   */
  lemma PartitionsTile(parts: seq<TaskShardPartition>, partition: ShardPartitionSpec, totalBytes: u64)
    requires PartitionsOf(parts, partition, totalBytes)
    ensures UnitsOf(partition, totalBytes) <= U64_MAX
    ensures TilesUnits(parts, UnitsOf(partition, totalBytes)) && TilesBytes(parts, totalBytes)
    ensures forall i :: 0 <= i < |parts| ==>
              var average := UnitsOf(partition, totalBytes) / |parts|;
              average <= parts[i].UnitCount() <= average + 1
    ensures UnitsOf(partition, totalBytes) >= |parts| ==> forall i :: 0 <= i < |parts| ==> parts[i].UnitCount() > 0
  {
    var count := |parts|;
    assert Some(parts[0]) == PartitionOfSize(partition, totalBytes, 0, count);
    var total: u64 := UnitsOf(partition, totalBytes);
    forall i | 0 <= i < count
      ensures parts[i].UnitTotal() == total
      ensures (parts[i].UnitStart(), parts[i].UnitCount()) == PartitionBounds(total, i, count)
      ensures total / count <= parts[i].UnitCount() <= total / count + 1
      ensures total >= count ==> parts[i].UnitCount() > 0
    {
      assert Some(parts[i]) == PartitionOfSize(partition, totalBytes, i, count);
      ShardSizesBalanced(total, i, count);
      if total >= count { ShardsNotEmpty(total, i, count); }
    }
    CutEnds(total, count);
    forall i | 0 <= i < count - 1
      ensures parts[i].UnitStart() + parts[i].UnitCount() == parts[i + 1].UnitStart()
    {
      PartitionBoundsMeet(total, i, count);
    }
    PartitionsTileBytes(parts, partition, totalBytes);
  }

  /** The byte range of each shard, whichever unit the shards are counted in. */
  lemma PartitionBytes(parts: seq<TaskShardPartition>, partition: ShardPartitionSpec, totalBytes: u64, i: nat)
    requires PartitionsOf(parts, partition, totalBytes) && i < |parts|
    ensures partition.ByteRangeSpec? ==> parts[i].UnitStart() == parts[i].offset && parts[i].UnitCount() == parts[i].length
    ensures partition.RecordsSpec? ==>
              && ValidRecordOffsets(partition.offsets, totalBytes)
              && parts[i].UnitStart() + parts[i].UnitCount() < |partition.offsets|
              && parts[i].offset == partition.offsets[parts[i].UnitStart()]
              && parts[i].offset + parts[i].length == partition.offsets[parts[i].UnitStart() + parts[i].UnitCount()]
  {
    assert Some(parts[i]) == PartitionOfSize(partition, totalBytes, i, |parts|);
  }

  lemma PartitionsTileBytes(parts: seq<TaskShardPartition>, partition: ShardPartitionSpec, totalBytes: u64)
    requires PartitionsOf(parts, partition, totalBytes)
    requires UnitsOf(partition, totalBytes) <= U64_MAX
    requires TilesUnits(parts, UnitsOf(partition, totalBytes))
    ensures TilesBytes(parts, totalBytes)
  {
    hide PartitionOfSize;
    PartitionBytes(parts, partition, totalBytes, 0);
    PartitionBytes(parts, partition, totalBytes, |parts| - 1);
    forall i | 0 <= i < |parts| - 1 ensures parts[i].offset + parts[i].length == parts[i + 1].offset {
      PartitionBytes(parts, partition, totalBytes, i);
      PartitionBytes(parts, partition, totalBytes, i + 1);
    }
  }

  /** Record shards are cut only at record boundaries. */
  lemma RecordShardsCutAtRecords(parts: seq<TaskShardPartition>, partition: ShardPartitionSpec, totalBytes: u64, i: nat)
    requires PartitionsOf(parts, partition, totalBytes) && partition.RecordsSpec? && i < |parts|
    ensures parts[i].offset in partition.offsets && parts[i].offset + parts[i].length in partition.offsets
  {
    assert Some(parts[i]) == PartitionOfSize(partition, totalBytes, i, |parts|);
  }

  // ----- conservation -----

  function Cuts(bytes: Bytes, parts: seq<TaskShardPartition>): (r: seq<Bytes>)
    requires forall i :: 0 <= i < |parts| ==> parts[i].offset + parts[i].length <= |bytes|
    ensures |r| == |parts|
  {
    seq(|parts|, i requires 0 <= i < |parts| => bytes[parts[i].offset..parts[i].offset + parts[i].length])
  }

  lemma {:induction false} TilesStayInside(parts: seq<TaskShardPartition>, totalBytes: u64, i: nat)
    requires TilesBytes(parts, totalBytes) && i < |parts|
    ensures parts[i].offset + parts[i].length <= totalBytes
    decreases |parts| - i
  {
    if i < |parts| - 1 { TilesStayInside(parts, totalBytes, i + 1); }
  }

  /** Concatenating the shard slices in shard order rebuilds the object. */
  lemma SlicesRebuildObject(bytes: Bytes, parts: seq<TaskShardPartition>)
    requires |bytes| <= U64_MAX && TilesBytes(parts, |bytes|)
    ensures forall i :: 0 <= i < |parts| ==> parts[i].offset + parts[i].length <= |bytes|
    ensures Flatten(Cuts(bytes, parts)) == bytes
  {
    forall i | 0 <= i < |parts| ensures parts[i].offset + parts[i].length <= |bytes| {
      TilesStayInside(parts, |bytes|, i);
    }
    SlicesRebuildPrefix(bytes, parts, |parts|);
    assert Cuts(bytes, parts)[..|parts|] == Cuts(bytes, parts);
  }

  lemma {:induction false} SlicesRebuildPrefix(bytes: Bytes, parts: seq<TaskShardPartition>, k: nat)
    requires |bytes| <= U64_MAX && TilesBytes(parts, |bytes|) && 1 <= k <= |parts|
    requires forall i :: 0 <= i < |parts| ==> parts[i].offset + parts[i].length <= |bytes|
    ensures Flatten(Cuts(bytes, parts)[..k]) == bytes[..parts[k - 1].offset + parts[k - 1].length]
    decreases k
  {
    var cuts := Cuts(bytes, parts);
    assert cuts[..k] == cuts[..k - 1] + [cuts[k - 1]];
    FlattenPush(cuts[..k - 1], cuts[k - 1]);
    if k > 1 {
      SlicesRebuildPrefix(bytes, parts, k - 1);
    } else {
      assert cuts[..0] == [];
    }
  }

  /** The share of a template's declared output a shard is charged with. */
  function ScaledOutputBytes(part: TaskShardPartition, totalOutputBytes: u64): u64
    requires part.UnitStart() + part.UnitCount() <= part.UnitTotal()
  {
    if part.UnitTotal() == 0 then totalOutputBytes
    else
      var end := part.UnitStart() + part.UnitCount();
      CutMonotone(totalOutputBytes, part.UnitStart(), end, part.UnitTotal());
      Cut(totalOutputBytes, end, part.UnitTotal()) - Cut(totalOutputBytes, part.UnitStart(), part.UnitTotal())
  }

  lemma {:induction false} UnitTilesStayInside(parts: seq<TaskShardPartition>, total: u64, i: nat)
    requires TilesUnits(parts, total) && i < |parts|
    ensures parts[i].UnitStart() + parts[i].UnitCount() <= total
    decreases |parts| - i
  {
    if i < |parts| - 1 { UnitTilesStayInside(parts, total, i + 1); }
  }

  function TotalScaledOutput(parts: seq<TaskShardPartition>, totalOutputBytes: u64): nat
    requires forall i :: 0 <= i < |parts| ==> parts[i].UnitStart() + parts[i].UnitCount() <= parts[i].UnitTotal()
  {
    if parts == [] then 0
    else TotalScaledOutput(parts[..|parts| - 1], totalOutputBytes)
         + ScaledOutputBytes(parts[|parts| - 1], totalOutputBytes)
  }

  /** Scaled output sizes add up to the declared output exactly, despite the rounding. */
  lemma OutputBytesConserved(parts: seq<TaskShardPartition>, total: u64, totalOutputBytes: u64)
    requires TilesUnits(parts, total) && (total == 0 ==> |parts| == 1)
    ensures forall i :: 0 <= i < |parts| ==> parts[i].UnitStart() + parts[i].UnitCount() <= parts[i].UnitTotal()
    ensures TotalScaledOutput(parts, totalOutputBytes) == totalOutputBytes
  {
    forall i | 0 <= i < |parts| ensures parts[i].UnitStart() + parts[i].UnitCount() <= parts[i].UnitTotal() {
      UnitTilesStayInside(parts, total, i);
    }
    if total == 0 {
      assert parts[..0] == [];
    } else {
      OutputPrefix(parts, total, totalOutputBytes, |parts|);
      assert parts[..|parts|] == parts;
      CutEnds(totalOutputBytes, total);
    }
  }

  lemma {:induction false} OutputPrefix(parts: seq<TaskShardPartition>, total: u64, totalOutputBytes: u64, k: nat)
    requires TilesUnits(parts, total) && total > 0 && 1 <= k <= |parts|
    requires forall i :: 0 <= i < |parts| ==> parts[i].UnitStart() + parts[i].UnitCount() <= parts[i].UnitTotal()
    ensures TotalScaledOutput(parts[..k], totalOutputBytes)
            == Cut(totalOutputBytes, parts[k - 1].UnitStart() + parts[k - 1].UnitCount(), total)
    decreases k
  {
    assert parts[..k][..k - 1] == parts[..k - 1];
    if k > 1 {
      OutputPrefix(parts, total, totalOutputBytes, k - 1);
    } else {
      assert parts[..0] == [];
      CutEnds(totalOutputBytes, total);
    }
  }

  function TotalCompute(parts: seq<TaskShardPartition>, computeMs: real, overheadMs: real): real
  {
    if parts == [] then 0.0
    else TotalCompute(parts[..|parts| - 1], computeMs, overheadMs)
         + (computeMs * parts[|parts| - 1].WorkFraction() + overheadMs)
  }

  /** Sharding redistributes the declared compute and adds exactly one overhead per shard. */
  lemma ComputeConserved(parts: seq<TaskShardPartition>, total: u64, computeMs: real, overheadMs: real)
    requires TilesUnits(parts, total) && (total == 0 ==> |parts| == 1)
    ensures TotalCompute(parts, computeMs, overheadMs) == computeMs + |parts| as real * overheadMs
  {
    if total == 0 {
      assert parts[..0] == [];
      assert parts[0].WorkFraction() == 1.0;
    } else {
      ComputeWhole(parts, total, computeMs, overheadMs);
    }
  }

  lemma ComputeWhole(parts: seq<TaskShardPartition>, total: u64, computeMs: real, overheadMs: real)
    requires TilesUnits(parts, total) && total > 0
    ensures TotalCompute(parts, computeMs, overheadMs) == computeMs + |parts| as real * overheadMs
  {
    hide TotalCompute;
    ComputePrefix(parts, total, computeMs, overheadMs, |parts|);
    assert parts[..|parts|] == parts;
    assert parts[|parts| - 1].UnitStart() + parts[|parts| - 1].UnitCount() == total;
    WholeFraction(computeMs, total);
  }

  lemma WholeFraction(computeMs: real, total: nat)
    requires total > 0
    ensures computeMs * (total as real / total as real) == computeMs
  {
    assert total as real / total as real == 1.0;
  }

  lemma {:induction false} ComputePrefix(parts: seq<TaskShardPartition>, total: u64, computeMs: real, overheadMs: real, k: nat)
    requires TilesUnits(parts, total) && total > 0 && 1 <= k <= |parts|
    ensures TotalCompute(parts[..k], computeMs, overheadMs)
            == computeMs * ((parts[k - 1].UnitStart() + parts[k - 1].UnitCount()) as real / total as real)
               + k as real * overheadMs
    decreases k
  {
    assert parts[..k][..k - 1] == parts[..k - 1];
    var start, units := parts[k - 1].UnitStart(), parts[k - 1].UnitCount();
    FractionsAdd(computeMs, start, units, total);
    if k > 1 {
      ComputePrefix(parts, total, computeMs, overheadMs, k - 1);
      assert k as real * overheadMs == (k - 1) as real * overheadMs + overheadMs;
    } else {
      assert parts[..0] == [];
    }
  }

  lemma FractionsAdd(computeMs: real, a: nat, b: nat, total: nat)
    requires total > 0
    ensures computeMs * ((a + b) as real / total as real)
            == computeMs * (a as real / total as real) + computeMs * (b as real / total as real)
  {
    var t := total as real;
    assert (a + b) as real / t == a as real / t + b as real / t;
  }
}
