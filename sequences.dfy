/** Sequence facts the model relies on: mapping a function over a sequence, removing
    one element, the sortedness that `slices.Sort` establishes, and the map a loop
    of `m[key(x)] = x` assignments builds. */
module Sequences {

  /** Applies `f` to every element, keeping positions. */
  function Map<A, B>(f: A -> B, xs: seq<A>): (r: seq<B>)
    ensures |r| == |xs|
    ensures forall i :: 0 <= i < |xs| ==> r[i] == f(xs[i])
  {
    seq(|xs|, i requires 0 <= i < |xs| => f(xs[i]))
  }

  /** Removing position `k` takes exactly one copy of `s[k]` out of the multiset. */
  lemma RemoveAt<T>(s: seq<T>, k: nat)
    requires k < |s|
    ensures multiset(s) == multiset(s[..k] + s[k + 1..]) + multiset{s[k]}
  {
    assert s == s[..k] + [s[k]] + s[k + 1..];
  }

  /** The position of an element the multiset says is there. */
  lemma IndexOf<T>(s: seq<T>, x: T) returns (k: nat)
    requires x in multiset(s)
    ensures k < |s| && s[k] == x
  {
    assert x in s;
    k :| k < |s| && s[k] == x;
  }

  lemma MapAppend<A, B>(f: A -> B, xs: seq<A>, ys: seq<A>)
    ensures Map(f, xs + ys) == Map(f, xs) + Map(f, ys)
  {
  }

  /** Mapping preserves permutations: equal multisets map to equal multisets. */
  lemma {:induction false} MapPermutation<A, B>(f: A -> B, xs: seq<A>, ys: seq<A>)
    requires multiset(xs) == multiset(ys)
    ensures multiset(Map(f, xs)) == multiset(Map(f, ys))
    decreases |xs|
  {
    if xs == [] {
      assert |ys| == |multiset(ys)| == 0;
    } else {
      var front, x := xs[..|xs| - 1], xs[|xs| - 1];
      assert xs == front + [x];
      assert x in multiset(ys);
      var k := IndexOf(ys, x);
      var before, after := ys[..k], ys[k + 1..];
      assert ys == before + [x] + after;
      assert multiset(front) == multiset(before + after) by {
        assert multiset(xs) == multiset(front) + multiset{x};
        assert multiset(ys) == multiset(before + after) + multiset{x};
        assert multiset(front) == multiset(xs) - multiset{x};
        assert multiset(before + after) == multiset(ys) - multiset{x};
      }
      MapPermutation(f, front, before + after);
      MapAppend(f, front, [x]);
      MapAppend(f, before + [x], after);
      MapAppend(f, before, [x]);
      MapAppend(f, before, after);
    }
  }

  ghost predicate Sorted(s: seq<int>) {
    forall i, j :: 0 <= i < j < |s| ==> s[i] <= s[j]
  }

  /** Inserts `x` before the first larger element of a sorted sequence. */
  function Insert(x: int, s: seq<int>): (r: seq<int>)
    requires Sorted(s)
    ensures Sorted(r)
    ensures multiset(r) == multiset(s) + multiset{x}
  {
    if s == [] then [x]
    else if x <= s[0] then
      assert s == [s[0]] + s[1..];
      [x] + s
    else
      var t := Insert(x, s[1..]);
      assert s == [s[0]] + s[1..];
      InsertedAbove(x, s, t);
      [s[0]] + t
  }

  /** Every element of `Insert(x, s[1..])` is at least `s[0]` when `x` is. */
  lemma InsertedAbove(x: int, s: seq<int>, t: seq<int>)
    requires Sorted(s) && |s| > 0 && s[0] < x
    requires multiset(t) == multiset(s[1..]) + multiset{x}
    ensures forall i :: 0 <= i < |t| ==> s[0] <= t[i]
  {
    forall i | 0 <= i < |t|
      ensures s[0] <= t[i]
    {
      assert t[i] in multiset(t);
      if t[i] != x {
        assert t[i] in multiset(s[1..]);
        var k := IndexOf(s[1..], t[i]);
        assert s[1..][k] == s[k + 1];
      }
    }
  }

  /** A reference sort: the sorted arrangement of a sequence's elements. */
  function SortSeq(xs: seq<int>): (r: seq<int>)
    ensures Sorted(r)
    ensures multiset(r) == multiset(xs)
  {
    if xs == [] then []
    else
      assert xs == [xs[0]] + xs[1..];
      Insert(xs[0], SortSeq(xs[1..]))
  }

  /** The first element of a sorted sequence is its least element. */
  lemma SortedHeadLeast(s: seq<int>, x: int)
    requires Sorted(s) && x in multiset(s)
    ensures s[0] <= x
  {
    var k := IndexOf(s, x);
  }

  lemma SortedTail(s: seq<int>)
    requires Sorted(s) && |s| > 0
    ensures Sorted(s[1..])
  {
    assert forall i :: 0 <= i < |s| - 1 ==> s[1..][i] == s[i + 1];
  }

  lemma TailMultiset<T>(s: seq<T>)
    requires |s| > 0
    ensures multiset(s[1..]) == multiset(s) - multiset{s[0]}
  {
    assert s == [s[0]] + s[1..];
    assert multiset(s) == multiset{s[0]} + multiset(s[1..]);
  }

  /** There is one sorted arrangement of a multiset, so any two sorts of the same
      elements agree, whatever algorithm produced them. */
  lemma {:induction false} SortedUnique(a: seq<int>, b: seq<int>)
    requires Sorted(a) && Sorted(b)
    requires multiset(a) == multiset(b)
    ensures a == b
    decreases |a|
  {
    if a == [] {
      assert |b| == |multiset(b)| == 0;
    } else {
      assert |b| > 0 by {
        assert |b| == |multiset(b)| == |multiset(a)| == |a|;
      }
      assert a[0] == b[0] by {
        assert a[0] in multiset(a) && b[0] in multiset(b);
        SortedHeadLeast(a, b[0]);
        SortedHeadLeast(b, a[0]);
      }
      assert multiset(a[1..]) == multiset(b[1..]) by {
        TailMultiset(a);
        TailMultiset(b);
      }
      SortedTail(a);
      SortedTail(b);
      SortedUnique(a[1..], b[1..]);
      assert a == [a[0]] + a[1..] == [b[0]] + b[1..] == b;
    }
  }

  /** The map that `for _, x := range xs { m[key(x)] = x }` builds from an empty map. */
  function LastByKey<T, K(!new)>(xs: seq<T>, key: T -> K): map<K, T> {
    if xs == [] then map[]
    else LastByKey(xs[..|xs| - 1], key)[key(xs[|xs| - 1]) := xs[|xs| - 1]]
  }

  /** Its keys are the keys that occur in `xs`, and each key maps to the LAST element
      of `xs` that has it. */
  lemma {:induction false} LastByKeyEntries<T, K(!new)>(xs: seq<T>, key: T -> K)
    ensures forall k :: k in LastByKey(xs, key) <==> exists i :: 0 <= i < |xs| && key(xs[i]) == k
    ensures forall k :: k in LastByKey(xs, key) ==>
              exists i :: 0 <= i < |xs| && xs[i] == LastByKey(xs, key)[k] && key(xs[i]) == k &&
                          forall j :: i < j < |xs| ==> key(xs[j]) != k
    decreases |xs|
  {
    if xs != [] {
      var front := xs[..|xs| - 1];
      LastByKeyEntries(front, key);
      assert forall i :: 0 <= i < |front| ==> front[i] == xs[i];
      forall k | k in LastByKey(xs, key)
        ensures exists i :: 0 <= i < |xs| && xs[i] == LastByKey(xs, key)[k] && key(xs[i]) == k &&
                            forall j :: i < j < |xs| ==> key(xs[j]) != k
      {
        if k == key(xs[|xs| - 1]) {
          assert xs[|xs| - 1] == LastByKey(xs, key)[k];
        } else {
          var i :| 0 <= i < |front| && front[i] == LastByKey(front, key)[k] && key(front[i]) == k &&
                   forall j :: i < j < |front| ==> key(front[j]) != k;
          assert xs[i] == LastByKey(xs, key)[k];
        }
      }
    }
  }
}
