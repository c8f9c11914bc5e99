/** Integer arithmetic the core performs in Go: sums of durations, Go's truncating
    division, and an idealised square root. */
module Numbers {
  import Sequences

  /** Sum of a sequence, accumulated from the front as a `for … range` loop does
      (the last element is the last one added). */
  function Sum(xs: seq<int>): int {
    if xs == [] then 0 else Sum(xs[..|xs| - 1]) + xs[|xs| - 1]
  }

  /** Go's `/` on integers truncates toward zero, unlike Dafny's Euclidean `/`. */
  function TruncDiv(a: int, n: int): (r: int)
    requires n > 0
    ensures a >= 0 ==> r * n <= a < (r + 1) * n
    ensures a < 0 ==> (r - 1) * n < a <= r * n
    ensures a >= 0 ==> r == a / n
  {
    if a >= 0 then a / n else -((-a) / n)
  }

  /** Floor of the square root: the integer Go obtains from
      `time.Duration(math.Sqrt(float64(n)))` when no floating-point rounding intervenes. */
  function IntSqrt(n: nat): (r: nat)
    ensures r * r <= n < (r + 1) * (r + 1)
    decreases n
  {
    if n < 4 then (if n == 0 then 0 else 1)
    else
      var q := IntSqrt(n / 4);
      var h := 2 * q;
      SqrtStep(n, q);
      if (h + 1) * (h + 1) <= n then h + 1 else h
  }

  lemma SqrtStep(n: nat, q: nat)
    requires q * q <= n / 4 < (q + 1) * (q + 1)
    ensures (2 * q) * (2 * q) <= n < (2 * q + 2) * (2 * q + 2)
  {
    assert (2 * q) * (2 * q) == 4 * (q * q);
    assert n / 4 + 1 <= (q + 1) * (q + 1);
    assert (2 * q + 2) * (2 * q + 2) == 4 * ((q + 1) * (q + 1));
  }

  /** Dividing both sides of `a * n <= b * n` by a positive `n`. */
  lemma MulLeCancel(a: int, b: int, n: int)
    requires n > 0 && a * n <= b * n
    ensures a <= b
  {
    assert a * n - b * n == (a - b) * n;
  }

  /** Dividing both sides of `a * n < b * n` by a positive `n`. */
  lemma MulLtCancel(a: int, b: int, n: int)
    requires n > 0 && a * n < b * n
    ensures a < b
  {
    assert a * n - b * n == (a - b) * n;
  }

  /** The truncated quotient of a value lying between `n * lo` and `n * hi` lies
      between `lo` and `hi`. */
  lemma TruncDivBetween(a: int, n: int, lo: int, hi: int)
    requires n > 0 && n * lo <= a <= n * hi
    ensures lo <= TruncDiv(a, n) <= hi
  {
    var r := TruncDiv(a, n);
    if a >= 0 {
      MulLtCancel(lo, r + 1, n);
      MulLeCancel(r, hi, n);
    } else {
      MulLeCancel(lo, r, n);
      MulLtCancel(r - 1, hi, n);
    }
  }

  lemma {:induction false} SumAppend(xs: seq<int>, ys: seq<int>)
    ensures Sum(xs + ys) == Sum(xs) + Sum(ys)
    decreases |ys|
  {
    if ys == [] {
      assert xs + ys == xs;
    } else {
      var front := ys[..|ys| - 1];
      assert (xs + ys)[..|xs + ys| - 1] == xs + front;
      SumAppend(xs, front);
    }
  }

  /** The sum does not depend on the order of the terms. */
  lemma {:induction false} SumPermutation(xs: seq<int>, ys: seq<int>)
    requires multiset(xs) == multiset(ys)
    ensures Sum(xs) == Sum(ys)
    decreases |xs|
  {
    if xs == [] {
      assert |ys| == |multiset(ys)| == 0;
    } else {
      var front, x := xs[..|xs| - 1], xs[|xs| - 1];
      assert xs == front + [x];
      assert x in multiset(ys);
      var k := Sequences.IndexOf(ys, x);
      var before, after := ys[..k], ys[k + 1..];
      assert ys == before + [x] + after;
      assert multiset(front) == multiset(before + after) by {
        assert multiset(xs) == multiset(front) + multiset{x};
        assert multiset(ys) == multiset(before + after) + multiset{x};
        assert multiset(front) == multiset(xs) - multiset{x};
        assert multiset(before + after) == multiset(ys) - multiset{x};
      }
      SumPermutation(front, before + after);
      SumAppend(before + [x], after);
      SumAppend(before, [x]);
      SumAppend(before, after);
      assert [x][..0] == [];
    }
  }

  /** A sum of `n` terms, each at least `lo`, is at least `n * lo`. */
  lemma {:induction false} SumLowerBound(xs: seq<int>, lo: int)
    requires forall i :: 0 <= i < |xs| ==> lo <= xs[i]
    ensures |xs| * lo <= Sum(xs)
    decreases |xs|
  {
    if xs != [] {
      SumLowerBound(xs[..|xs| - 1], lo);
    }
  }

  /** A sum of `n` terms, each at most `hi`, is at most `n * hi`. */
  lemma {:induction false} SumUpperBound(xs: seq<int>, hi: int)
    requires forall i :: 0 <= i < |xs| ==> xs[i] <= hi
    ensures Sum(xs) <= |xs| * hi
    decreases |xs|
  {
    if xs != [] {
      SumUpperBound(xs[..|xs| - 1], hi);
    }
  }
}
