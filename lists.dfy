/** Order-preserving list operations that the components apply to arrays:
    `Array.prototype.filter` with an element predicate, and the
    `filter((_, i) => i !== index)` idiom that deletes one index, and
    `map` with a function that may throw. */
module Lists {
  import opened Optional

  /** `xs.filter(keep)`: the elements satisfying `keep`, in their original order. */
  function Filter<T(!new)>(xs: seq<T>, keep: T -> bool): (r: seq<T>)
    ensures |r| <= |xs|
    ensures forall i :: 0 <= i < |r| ==> keep(r[i])
  {
    if xs == [] then []
    else (if keep(xs[0]) then [xs[0]] else []) + Filter(xs[1..], keep)
  }

  /** An element is in the filtered list exactly when it is in the list and satisfies `keep`. */
  lemma {:induction false} FilterMembers<T(!new)>(xs: seq<T>, keep: T -> bool)
    ensures forall x :: x in Filter(xs, keep) <==> x in xs && keep(x)
  {
    if xs != [] {
      FilterMembers(xs[1..], keep);
      assert xs == [xs[0]] + xs[1..];
    }
  }

  /** The filtered list is empty exactly when no element satisfies `keep`. */
  lemma FilterEmpty<T(!new)>(xs: seq<T>, keep: T -> bool)
    ensures Filter(xs, keep) == [] <==> forall i :: 0 <= i < |xs| ==> !keep(xs[i])
  {
    FilterMembers(xs, keep);
    var r := Filter(xs, keep);
    if r != [] {
      assert r[0] in r;
      var i :| 0 <= i < |xs| && xs[i] == r[0];
      assert keep(xs[i]);
    } else {
      forall i | 0 <= i < |xs|
        ensures !keep(xs[i])
      {
        assert xs[i] in xs;
      }
    }
  }

  /** `xs.filter(p).length`: how many elements satisfy `p`. */
  function Count<T>(xs: seq<T>, p: T -> bool): (n: nat)
    ensures n <= |xs|
  {
    if xs == [] then 0 else (if p(xs[0]) then 1 else 0) + Count(xs[1..], p)
  }

  /** No element counts exactly when none satisfies `p`. */
  lemma {:induction false} CountZero<T>(xs: seq<T>, p: T -> bool)
    ensures Count(xs, p) == 0 <==> forall i :: 0 <= i < |xs| ==> !p(xs[i])
  {
    if xs != [] {
      CountZero(xs[1..], p);
      assert forall i :: 1 <= i < |xs| ==> xs[i] == xs[1..][i - 1];
    }
  }

  /** Counting over a concatenation adds the counts of the parts. */
  lemma {:induction false} CountAppend<T>(xs: seq<T>, ys: seq<T>, p: T -> bool)
    ensures Count(xs + ys, p) == Count(xs, p) + Count(ys, p)
  {
    if xs == [] {
      assert xs + ys == ys;
    } else {
      assert (xs + ys)[1..] == xs[1..] + ys;
      CountAppend(xs[1..], ys, p);
    }
  }

  /** The positions of `xs` whose element satisfies `keep`, in increasing order. */
  ghost function KeptIndices<T(!new)>(xs: seq<T>, keep: T -> bool): seq<nat>
  {
    if xs == [] then []
    else (if keep(xs[0]) then [0] else []) + Shift(KeptIndices(xs[1..], keep))
  }

  ghost function Shift(ix: seq<nat>): (r: seq<nat>)
    ensures |r| == |ix| && forall k :: 0 <= k < |ix| ==> r[k] == ix[k] + 1
  {
    seq(|ix|, k requires 0 <= k < |ix| => ix[k] + 1)
  }

  ghost predicate StrictlyIncreasing(ix: seq<nat>)
  {
    forall a, b :: 0 <= a < b < |ix| ==> ix[a] < ix[b]
  }

  /** The filter keeps exactly the satisfying positions, in increasing order:
      element k of the result is the element at the k-th kept position. */
  lemma FilterKeepsOrder<T(!new)>(xs: seq<T>, keep: T -> bool)
    ensures var ix := KeptIndices(xs, keep);
      && |Filter(xs, keep)| == |ix|
      && StrictlyIncreasing(ix)
      && (forall k :: 0 <= k < |ix| ==> ix[k] < |xs| && Filter(xs, keep)[k] == xs[ix[k]])
      && (forall j :: 0 <= j < |xs| && keep(xs[j]) ==> j in ix)
  {
    KeptIndicesPick(xs, keep);
    KeptIndicesIncreasing(xs, keep);
    KeptIndicesComplete(xs, keep);
  }

  lemma KeptIndicesPick<T(!new)>(xs: seq<T>, keep: T -> bool)
    ensures var ix := KeptIndices(xs, keep);
      && |Filter(xs, keep)| == |ix|
      && (forall k :: 0 <= k < |ix| ==> ix[k] < |xs| && Filter(xs, keep)[k] == xs[ix[k]])
  {
    KeptIndicesLength(xs, keep);
    forall k | 0 <= k < |KeptIndices(xs, keep)|
      ensures KeptIndices(xs, keep)[k] < |xs| && Filter(xs, keep)[k] == xs[KeptIndices(xs, keep)[k]]
    {
      KeptIndexPick(xs, keep, k);
    }
  }

  lemma {:induction false} KeptIndicesLength<T(!new)>(xs: seq<T>, keep: T -> bool)
    ensures |Filter(xs, keep)| == |KeptIndices(xs, keep)|
  {
    if xs != [] {
      KeptIndicesLength(xs[1..], keep);
    }
  }

  /** The k-th kept position holds the k-th element of the filtered list. */
  lemma {:induction false} KeptIndexPick<T(!new)>(xs: seq<T>, keep: T -> bool, k: nat)
    requires k < |KeptIndices(xs, keep)|
    ensures KeptIndices(xs, keep)[k] < |xs|
    ensures |Filter(xs, keep)| == |KeptIndices(xs, keep)|
    ensures Filter(xs, keep)[k] == xs[KeptIndices(xs, keep)[k]]
  {
    KeptIndicesLength(xs, keep);
    var tail := KeptIndices(xs[1..], keep);
    var rest := Filter(xs[1..], keep);
    assert KeptIndices(xs, keep) == (if keep(xs[0]) then [0] else []) + Shift(tail);
    assert Filter(xs, keep) == (if keep(xs[0]) then [xs[0]] else []) + rest;
    if keep(xs[0]) && k == 0 {
      assert KeptIndices(xs, keep)[0] == 0;
      assert Filter(xs, keep)[0] == xs[0];
    } else {
      var t := if keep(xs[0]) then k - 1 else k;
      assert KeptIndices(xs, keep)[k] == tail[t] + 1;
      assert Filter(xs, keep)[k] == rest[t];
      KeptIndexPick(xs[1..], keep, t);
      assert rest[t] == xs[1..][tail[t]];
    }
  }

  lemma {:induction false} KeptIndicesIncreasing<T(!new)>(xs: seq<T>, keep: T -> bool)
    ensures StrictlyIncreasing(KeptIndices(xs, keep))
  {
    if xs != [] {
      KeptIndicesIncreasing(xs[1..], keep);
      var tail := Shift(KeptIndices(xs[1..], keep));
      assert forall k :: 0 <= k < |tail| ==> tail[k] >= 1;
    }
  }

  lemma {:induction false} KeptIndicesComplete<T(!new)>(xs: seq<T>, keep: T -> bool)
    ensures forall j :: 0 <= j < |xs| && keep(xs[j]) ==> j in KeptIndices(xs, keep)
  {
    if xs != [] {
      KeptIndicesComplete(xs[1..], keep);
      var tail := KeptIndices(xs[1..], keep);
      var ix := KeptIndices(xs, keep);
      forall j | 0 <= j < |xs| && keep(xs[j]) ensures j in ix {
        if j > 0 {
          assert xs[1..][j - 1] == xs[j];
          var k :| 0 <= k < |tail| && tail[k] == j - 1;
          assert Shift(tail)[k] == j;
        }
      }
    }
  }

  /** Filtering a concatenation filters each part. */
  lemma {:induction false} FilterAppend<T(!new)>(a: seq<T>, b: seq<T>, keep: T -> bool)
    ensures Filter(a + b, keep) == Filter(a, keep) + Filter(b, keep)
  {
    if a == [] {
      assert a + b == b;
    } else {
      assert (a + b)[1..] == a[1..] + b;
      FilterAppend(a[1..], b, keep);
    }
  }

  /** A filter that rejects nothing returns the list unchanged. */
  lemma {:induction false} FilterAll<T(!new)>(xs: seq<T>, keep: T -> bool)
    requires forall j :: 0 <= j < |xs| ==> keep(xs[j])
    ensures Filter(xs, keep) == xs
  {
    if xs != [] {
      FilterAll(xs[1..], keep);
    }
  }

  /** `xs.filter((_, i) => i !== index)`, walking the positions from `from`. */
  function FilterOutIndex<T>(xs: seq<T>, index: nat, from: nat): seq<T>
  {
    if xs == [] then []
    else (if from == index then [] else [xs[0]]) + FilterOutIndex(xs[1..], index, from + 1)
  }

  /** The list with position `index` deleted; a position past the end deletes nothing. */
  function RemoveIndex<T>(xs: seq<T>, index: nat): (r: seq<T>)
    ensures index < |xs| ==> r == xs[..index] + xs[index + 1..]
    ensures index >= |xs| ==> r == xs
  {
    RemoveIndexSlices(xs, index, 0);
    FilterOutIndex(xs, index, 0)
  }

  lemma {:induction false} RemoveIndexSlices<T>(xs: seq<T>, index: nat, from: nat)
    ensures from <= index < from + |xs| ==>
      FilterOutIndex(xs, index, from) == xs[..index - from] + xs[index - from + 1..]
    ensures (index < from || index >= from + |xs|) ==> FilterOutIndex(xs, index, from) == xs
  {
    if xs != [] {
      RemoveIndexSlices(xs[1..], index, from + 1);
      if from < index < from + |xs| {
        assert xs[..index - from] == [xs[0]] + xs[1..][..index - from - 1];
        assert xs[index - from + 1..] == xs[1..][index - from..];
      }
    }
  }

  /** `xs.map(f)` where `f` may throw (`None`): every element mapped, in
      order, or `None` as soon as one of them throws. */
  function TryMap<A, B>(xs: seq<A>, f: A -> Option<B>): (r: Option<seq<B>>)
    ensures r.Some? <==> forall i :: 0 <= i < |xs| ==> f(xs[i]).Some?
    ensures r.Some? ==>
      (|r.value| == |xs| && forall i :: 0 <= i < |xs| ==> r.value[i] == f(xs[i]).value)
  {
    if xs == [] then Some([])
    else
      var first := f(xs[0]);
      var rest := TryMap(xs[1..], f);
      if first.None? || rest.None? then None
      else Some([first.value] + rest.value)
  }

  /** Regrouping a concatenation of three lists. */
  lemma AppendAssociative<T>(a: seq<T>, b: seq<T>, c: seq<T>)
    ensures a + b + c == a + (b + c)
  {
  }
}
