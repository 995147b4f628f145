/** Concatenation of groups, shared by partitions, reductions and dependency lists. */
module Sequences {

  function Flatten<T>(groups: seq<seq<T>>): seq<T>
  {
    if groups == [] then [] else Flatten(groups[..|groups| - 1]) + groups[|groups| - 1]
  }

  lemma {:induction false} FlattenAppend<T>(a: seq<seq<T>>, b: seq<seq<T>>)
    ensures Flatten(a + b) == Flatten(a) + Flatten(b)
  {
    if b == [] {
      assert a + b == a;
    } else {
      var n := |b| - 1;
      assert (a + b)[..|a| + n] == a + b[..n];
      FlattenAppend(a, b[..n]);
    }
  }

  lemma ConcatAssociative<T>(a: seq<T>, b: seq<T>, c: seq<T>)
    ensures a + (b + c) == a + b + c
  {
  }

  lemma SplitAt<T>(items: seq<T>, i: nat)
    requires i < |items|
    ensures items[..i] + ([items[i]] + items[i + 1..]) == items
  {
  }

  lemma FlattenAround<T>(groups: seq<seq<T>>, i: nat)
    requires i < |groups|
    ensures Flatten(groups) == Flatten(groups[..i]) + groups[i] + Flatten(groups[i + 1..])
  {
    var front, back := groups[..i], groups[i + 1..];
    SplitAt(groups, i);
    FlattenAppend(front, [groups[i]] + back);
    FlattenCons(groups[i], back);
    ConcatAssociative(Flatten(front), groups[i], Flatten(back));
  }

  lemma FlattenPush<T>(groups: seq<seq<T>>, last: seq<T>)
    ensures Flatten(groups + [last]) == Flatten(groups) + last
  {
    assert (groups + [last])[..|groups|] == groups;
  }

  lemma FlattenCons<T>(first: seq<T>, groups: seq<seq<T>>)
    ensures Flatten([first] + groups) == first + Flatten(groups)
  {
    FlattenAppend([first], groups);
    assert [first] == [] + [first];
    FlattenPush<T>([], first);
  }

  /** Non-empty groups are at most as many as the elements, and strictly fewer when one has two. */
  lemma {:induction false} FlattenShrinks<T>(groups: seq<seq<T>>)
    requires forall i :: 0 <= i < |groups| ==> groups[i] != []
    ensures |groups| <= |Flatten(groups)|
    ensures (exists i :: 0 <= i < |groups| && |groups[i]| > 1) ==> |groups| < |Flatten(groups)|
  {
    if groups != [] {
      var n := |groups| - 1;
      FlattenShrinks(groups[..n]);
      if i :| 0 <= i < |groups| && |groups[i]| > 1 {
        if i < n { assert |groups[..n][i]| > 1; }
      }
    }
  }
}
