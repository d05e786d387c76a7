/** Finite sums and maxima of real-valued functions, and how loops may reorder them. */
module RealSums {

  ghost function Sum(lo: int, hi: int, f: int -> real): real
    decreases hi - lo
  {
    if hi <= lo then 0.0 else Sum(lo, hi - 1, f) + f(hi - 1)
  }

  /** The largest value of f over lo..hi, found from the left. */
  ghost function Max(lo: int, hi: int, f: int -> real): real
    decreases hi - lo
  {
    if hi <= lo + 1 then f(lo) else
    var m := Max(lo, hi - 1, f);
    if m >= f(hi - 1) then m else f(hi - 1)
  }

  lemma {:induction false} MaxIs(lo: int, hi: int, f: int -> real)
    requires lo < hi
    ensures forall i :: lo <= i < hi ==> f(i) <= Max(lo, hi, f)
    ensures exists i :: lo <= i < hi && f(i) == Max(lo, hi, f)
    decreases hi - lo
  {
    if hi == lo + 1 {
      assert f(lo) == Max(lo, hi, f);
    } else {
      MaxIs(lo, hi - 1, f);
      assert f(hi - 1) <= Max(lo, hi, f);
    }
  }

  lemma {:induction false} MaxExt(lo: int, hi: int, f: int -> real, g: int -> real)
    requires lo < hi && forall i :: lo <= i < hi ==> f(i) == g(i)
    ensures Max(lo, hi, f) == Max(lo, hi, g)
    decreases hi - lo
  {
    if hi > lo + 1 { MaxExt(lo, hi - 1, f, g); }
  }

  /** The value that bounds f and is attained is the maximum. */
  lemma MaxUnique(lo: int, hi: int, f: int -> real, m: real, i: int)
    requires lo <= i < hi && f(i) == m && forall j :: lo <= j < hi ==> f(j) <= m
    ensures Max(lo, hi, f) == m
  {
    MaxIs(lo, hi, f);
  }

  lemma {:induction false} SumExt(lo: int, hi: int, f: int -> real, g: int -> real)
    requires forall i :: lo <= i < hi ==> f(i) == g(i)
    ensures Sum(lo, hi, f) == Sum(lo, hi, g)
    decreases hi - lo
  {
    if lo < hi { SumExt(lo, hi - 1, f, g); }
  }

  lemma {:induction false} SumAdd(lo: int, hi: int, f: int -> real, g: int -> real, h: int -> real)
    requires forall i :: lo <= i < hi ==> h(i) == f(i) + g(i)
    ensures Sum(lo, hi, h) == Sum(lo, hi, f) + Sum(lo, hi, g)
    decreases hi - lo
  {
    if lo < hi { SumAdd(lo, hi - 1, f, g, h); }
  }

  lemma {:induction false} SumScale(lo: int, hi: int, f: int -> real, c: real, g: int -> real)
    requires forall i :: lo <= i < hi ==> g(i) == c * f(i)
    ensures Sum(lo, hi, g) == c * Sum(lo, hi, f)
    decreases hi - lo
  {
    if lo < hi {
      SumScale(lo, hi - 1, f, c, g);
      Distribute(c, Sum(lo, hi - 1, f), f(hi - 1));
    }
  }

  lemma Distribute(c: real, a: real, b: real)
    ensures c * (a + b) == c * a + c * b
  {
  }

  lemma {:induction false} SumSplit(lo: int, mid: int, hi: int, f: int -> real)
    requires lo <= mid <= hi
    ensures Sum(lo, hi, f) == Sum(lo, mid, f) + Sum(mid, hi, f)
    decreases hi - mid
  {
    if mid < hi { SumSplit(lo, mid, hi - 1, f); }
  }

  lemma {:induction false} SumShift(lo: int, hi: int, k: int, f: int -> real, g: int -> real)
    requires forall i :: lo <= i < hi ==> g(i) == f(i + k)
    ensures Sum(lo, hi, g) == Sum(lo + k, hi + k, f)
    decreases hi - lo
  {
    if lo < hi { SumShift(lo, hi - 1, k, f, g); }
  }

  lemma {:induction false} SumZero(lo: int, hi: int, f: int -> real)
    requires forall i :: lo <= i < hi ==> f(i) == 0.0
    ensures Sum(lo, hi, f) == 0.0
    decreases hi - lo
  {
    if lo < hi { SumZero(lo, hi - 1, f); }
  }

  /** A scaled and shifted sum, padded with zeros. */
  lemma SumPadded(size: int, capacity: int, start: int, c: real, f: int -> real, g: int -> real)
    requires 0 <= size <= capacity
    requires forall i :: 0 <= i < size ==> f(i) == c * g(start + i)
    requires forall i :: size <= i < capacity ==> f(i) == 0.0
    ensures Sum(0, capacity, f) == c * Sum(start, start + size, g)
  {
    var shifted := i => g(start + i);
    SumSplit(0, size, capacity, f);
    SumZero(size, capacity, f);
    SumScale(0, size, shifted, c, f);
    SumShift(0, size, start, g, shifted);
  }

  /** A sum of non-negative terms is at least each of them. */
  lemma {:induction false} SumCovers(lo: int, hi: int, f: int -> real, i: int)
    requires forall j :: lo <= j < hi ==> f(j) >= 0.0
    requires lo <= i < hi
    ensures Sum(lo, hi, f) >= f(i)
    decreases hi - lo
  {
    if i < hi - 1 {
      SumCovers(lo, hi - 1, f, i);
    } else {
      SumNonNegative(lo, hi - 1, f);
    }
  }

  lemma {:induction false} SumNonNegative(lo: int, hi: int, f: int -> real)
    requires forall j :: lo <= j < hi ==> f(j) >= 0.0
    ensures Sum(lo, hi, f) >= 0.0
    decreases hi - lo
  {
    if lo < hi { SumNonNegative(lo, hi - 1, f); }
  }

  /** The row sums of a table, and its column sums. */
  ghost function RowSums(b: int, F: (int, int) -> real): int -> real {
    i => Sum(0, b, j => F(i, j))
  }

  ghost function ColumnSums(a: int, F: (int, int) -> real): int -> real {
    j => Sum(0, a, i => F(i, j))
  }

  /** A double sum may be taken in either order. */
  lemma {:induction false} SumSwap(a: int, b: int, F: (int, int) -> real)
    requires a >= 0
    ensures Sum(0, a, RowSums(b, F)) == Sum(0, b, ColumnSums(a, F))
    decreases a
  {
    if a == 0 {
      SumZero(0, b, ColumnSums(0, F));
    } else {
      SumSwap(a - 1, b, F);
      var last := j => F(a - 1, j);
      assert RowSums(b, F)(a - 1) == Sum(0, b, last) by { SumExt(0, b, j => F(a - 1, j), last); }
      forall j | 0 <= j < b ensures ColumnSums(a, F)(j) == ColumnSums(a - 1, F)(j) + last(j) {
        var col := i => F(i, j);
        SumExt(0, a, i => F(i, j), col);
        SumExt(0, a - 1, i => F(i, j), col);
      }
      SumAdd(0, b, ColumnSums(a - 1, F), last, ColumnSums(a, F));
    }
  }

  /** The c-th run of x terms. */
  ghost function Run(x: int, f: int -> real): (int, int) -> real {
    (c, i) => f(c * x + i)
  }

  /** A sum over n runs of x terms, run by run. */
  lemma {:induction false} SumChunks(n: int, x: int, f: int -> real)
    requires n >= 0 && x >= 0
    ensures Sum(0, n * x, f) == Sum(0, n, RowSums(x, Run(x, f)))
    decreases n
  {
    if n > 0 {
      SumChunks(n - 1, x, f);
      assert n * x == (n - 1) * x + x;
      assert (n - 1) * x >= 0 by { NonNegative(n - 1, x); }
      SumSplit(0, (n - 1) * x, n * x, f);
      SumShift(0, x, (n - 1) * x, f, i => Run(x, f)(n - 1, i));
      assert RowSums(x, Run(x, f))(n - 1) == Sum(0, x, i => Run(x, f)(n - 1, i)) by {
        SumExt(0, x, j => Run(x, f)(n - 1, j), i => Run(x, f)(n - 1, i));
      }
    }
  }

  /** Every x-th term, from the i-th on: what one vector lane accumulates. */
  ghost function Lane(x: int, f: int -> real, i: int): int -> real {
    c => f(c * x + i)
  }

  ghost function LaneTotals(n: int, x: int, f: int -> real): int -> real {
    i => Sum(0, n, Lane(x, f, i))
  }

  /** Accumulating in x lanes and adding the lanes up is the plain sum. */
  lemma LaneSums(n: int, x: int, f: int -> real)
    requires n >= 0 && x >= 0
    ensures Sum(0, x, LaneTotals(n, x, f)) == Sum(0, n * x, f)
  {
    SumChunks(n, x, f);
    SumSwap(n, x, Run(x, f));
    forall i | 0 <= i < x ensures ColumnSums(n, Run(x, f))(i) == LaneTotals(n, x, f)(i) {
      SumExt(0, n, c => Run(x, f)(c, i), Lane(x, f, i));
    }
    SumExt(0, x, ColumnSums(n, Run(x, f)), LaneTotals(n, x, f));
  }

  lemma NonNegative(a: int, b: int)
    requires a >= 0 && b >= 0
    ensures a * b >= 0
  {
  }

  /** The p-th part of 0..n in parts of size at most w. */
  ghost function PartEnd(n: int, w: int, p: int): int {
    if (p + 1) * w < n then (p + 1) * w else n
  }

  ghost function PartSums(n: int, w: int, f: int -> real): int -> real {
    p => Sum(p * w, PartEnd(n, w, p), f)
  }

  /** A sum over 0..n, part by part. */
  lemma {:induction false} SumParts(n: int, w: int, parts: int, f: int -> real)
    requires w > 0 && 0 <= parts && 0 <= n && (parts > 0 ==> (parts - 1) * w <= n)
    ensures Sum(0, parts, PartSums(n, w, f)) == Sum(0, if parts * w < n then parts * w else n, f)
    decreases parts
  {
    if parts > 0 {
      NonNegative(parts - 1, w);
      assert parts * w == (parts - 1) * w + w;
      if parts > 1 { assert (parts - 2) * w == (parts - 1) * w - w; }
      SumParts(n, w, parts - 1, f);
      SumSplit(0, (parts - 1) * w, PartEnd(n, w, parts - 1), f);
    }
  }
}
