/** The built-in reducers `builtin:sum-u64`, `builtin:concat` and `builtin:identity`. */
module Builtins {
  import opened Wrappers
  import opened Core
  import opened Sequences
  import opened ReductionTree

  // ----- little-endian u64 -----

  function ToLittleEndian(value: nat, width: nat): (r: Bytes)
    ensures |r| == width
  {
    if width == 0 then [] else [(value % 256) as byte] + ToLittleEndian(value / 256, width - 1)
  }

  function FromLittleEndian(bytes: Bytes): nat
  {
    if bytes == [] then 0 else bytes[0] as nat + 256 * FromLittleEndian(bytes[1..])
  }

  function Power256(width: nat): nat
  {
    if width == 0 then 1 else 256 * Power256(width - 1)
  }

  lemma {:induction false} LittleEndianRoundTrip(value: nat, width: nat)
    requires value < Power256(width)
    ensures FromLittleEndian(ToLittleEndian(value, width)) == value
  {
    if width > 0 {
      LittleEndianRoundTrip(value / 256, width - 1);
      assert ToLittleEndian(value, width)[1..] == ToLittleEndian(value / 256, width - 1);
    }
  }

  lemma U64Width()
    ensures Power256(8) == 0x1_0000_0000_0000_0000
  {
    assert Power256(4) == 0x1_0000_0000;
  }

  // ----- builtin:sum-u64 -----

  predicate AllU64(inputs: seq<Bytes>)
  {
    forall i :: 0 <= i < |inputs| ==> |inputs[i]| == 8
  }

  function Total(inputs: seq<Bytes>): nat
  {
    if inputs == [] then 0 else Total(inputs[..|inputs| - 1]) + FromLittleEndian(inputs[|inputs| - 1])
  }

  /** The sum of well-formed inputs when it fits 64 bits, encoded; otherwise the operation fails. */
  function SumU64(inputs: seq<Bytes>): Option<Bytes>
  {
    if AllU64(inputs) && Total(inputs) <= U64_MAX then Some(ToLittleEndian(Total(inputs), 8)) else None
  }

  method ExecuteSumU64(inputs: seq<Bytes>) returns (result: Option<Bytes>)
    ensures result == SumU64(inputs)
  {
    var sum: u64 := 0;
    for k := 0 to |inputs|
      invariant AllU64(inputs[..k]) && Total(inputs[..k]) == sum
    {
      assert inputs[..k + 1][..k] == inputs[..k];
      TotalGrows(inputs, k + 1);
      if |inputs[k]| != 8 {
        return None;
      }
      var value := FromLittleEndian(inputs[k]);
      if sum + value > U64_MAX {
        return None;
      }
      sum := sum + value;
    }
    assert inputs[..|inputs|] == inputs;
    return Some(ToLittleEndian(sum, 8));
  }

  lemma {:induction false} TotalGrows(inputs: seq<Bytes>, k: nat)
    requires k <= |inputs|
    ensures Total(inputs[..k]) <= Total(inputs)
    decreases |inputs|
  {
    if k == |inputs| {
      assert inputs[..k] == inputs;
    } else {
      var n := |inputs| - 1;
      assert inputs[..n][..k] == inputs[..k];
      TotalGrows(inputs[..n], k);
    }
  }

  lemma {:induction false} TotalAppend(a: seq<Bytes>, b: seq<Bytes>)
    ensures Total(a + b) == Total(a) + Total(b)
  {
    if b == [] {
      assert a + b == a;
    } else {
      var n := |b| - 1;
      assert (a + b)[..|a| + n] == a + b[..n];
      TotalAppend(a, b[..n]);
    }
  }

  lemma AllU64Append(a: seq<Bytes>, b: seq<Bytes>)
    ensures AllU64(a + b) <==> AllU64(a) && AllU64(b)
  {
    if AllU64(a + b) {
      forall i | 0 <= i < |a| ensures |a[i]| == 8 { assert (a + b)[i] == a[i]; }
      forall i | 0 <= i < |b| ensures |b[i]| == 8 { assert (a + b)[|a| + i] == b[i]; }
    }
  }

  lemma TotalAround(a: seq<Bytes>, b: seq<Bytes>, c: seq<Bytes>)
    ensures Total(a + b + c) == Total(a) + Total(b) + Total(c)
    ensures AllU64(a + b + c) <==> AllU64(a) && AllU64(b) && AllU64(c)
  {
    TotalAppend(a + b, c);
    TotalAppend(a, b);
    AllU64Append(a + b, c);
    AllU64Append(a, b);
  }

  /** `sum-u64` may be regrouped freely, and a tree of sums overflows exactly when the flat sum does. */
  lemma SumU64IsOrderedAssociative()
    ensures OrderedAssociative(SumU64) && FailureStrict(SumU64)
  {
    forall a: seq<Bytes>, b: seq<Bytes>, c: seq<Bytes> | |b| >= 2 && |a| + |c| >= 1
      ensures Regroups(SumU64, a, b, c) && FailurePropagates(SumU64, a, b, c)
    {
      SumU64Regroups(a, b, c);
    }
  }

  lemma SumU64Regroups(a: seq<Bytes>, b: seq<Bytes>, c: seq<Bytes>)
    ensures Regroups(SumU64, a, b, c) && FailurePropagates(SumU64, a, b, c)
  {
    TotalAround(a, b, c);
    if SumU64(b).Some? {
      var partial := ToLittleEndian(Total(b), 8);
      U64Width();
      LittleEndianRoundTrip(Total(b), 8);
      TotalAround(a, [partial], c);
      assert Total([partial]) == Total(b) by { assert [partial][..0] == []; }
    }
  }

  /** The tree and the flat sum agree on every input and shape, overflow and malformed inputs included. */
  lemma SumTreeEqualsFlatSum(values: seq<Bytes>, levels: seq<seq<nat>>)
    requires ShapeFits(|values|, levels)
    requires ReduceTree(SumU64, values, levels).Some? ==> |ReduceTree(SumU64, values, levels).value| <= 1
    ensures ReduceTree(SumU64, values, levels) == Flat(SumU64, values)
  {
    SumU64IsOrderedAssociative();
    TreeEqualsFlat(SumU64, values, levels);
  }

  // ----- builtin:concat and builtin:identity -----

  function Concat(inputs: seq<Bytes>): Option<Bytes>
  {
    Some(Flatten(inputs))
  }

  function Identity(inputs: seq<Bytes>): Option<Bytes>
  {
    if inputs == [] then None else Some(inputs[0])
  }

  lemma ConcatIsOrderedAssociative()
    ensures OrderedAssociative(Concat) && FailureStrict(Concat)
  {
    forall a: seq<Bytes>, b: seq<Bytes>, c: seq<Bytes> | |b| >= 2 && |a| + |c| >= 1
      ensures Regroups(Concat, a, b, c)
    {
      FlattenAppend(a + b, c);
      FlattenAppend(a, b);
      FlattenAppend(a + [Flatten(b)], c);
      FlattenPush(a, Flatten(b));
    }
  }

  lemma IdentityIsOrderedAssociative()
    ensures OrderedAssociative(Identity) && FailureStrict(Identity)
  {
    forall a: seq<Bytes>, b: seq<Bytes>, c: seq<Bytes> | |b| >= 2 && |a| + |c| >= 1
      ensures Regroups(Identity, a, b, c)
    {
      if a != [] {
        assert (a + b + c)[0] == a[0];
      } else {
        assert (a + b + c)[0] == b[0];
      }
    }
  }
}
