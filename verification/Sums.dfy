/** Finite sums over the reals, and the ways the kernels cut them up: into tiles, into strided
    lanes, into groups of a scaled factor. */
module Sums {
  import opened Basics

  /** `f(0) + ... + f(n - 1)` */
  function Sum(f: nat -> real, n: nat): real {
    if n == 0 then 0.0 else Sum(f, n - 1) + f(n - 1)
  }

  lemma NoTerms(f: nat -> real)
    ensures Sum(f, 0) == 0.0
  {
  }

  lemma OneTerm(f: nat -> real, n: nat)
    ensures Sum(f, n + 1) == Sum(f, n) + f(n)
  {
  }

  lemma {:induction false} SumEq(f: nat -> real, g: nat -> real, n: nat)
    requires forall i: nat :: i < n ==> f(i) == g(i)
    ensures Sum(f, n) == Sum(g, n)
  {
    if n > 0 { SumEq(f, g, n - 1); }
  }

  lemma {:induction false} SumZero(f: nat -> real, n: nat)
    requires forall i: nat :: i < n ==> f(i) == 0.0
    ensures Sum(f, n) == 0.0
  {
    if n > 0 { SumZero(f, n - 1); }
  }

  lemma {:induction false} SumScale(c: real, f: nat -> real, g: nat -> real, n: nat)
    requires forall i: nat :: i < n ==> g(i) == c * f(i)
    ensures Sum(g, n) == c * Sum(f, n)
  {
    if n > 0 { SumScale(c, f, g, n - 1); }
  }

  lemma {:induction false} SumAdd(f: nat -> real, g: nat -> real, h: nat -> real, n: nat)
    requires forall i: nat :: i < n ==> h(i) == f(i) + g(i)
    ensures Sum(h, n) == Sum(f, n) + Sum(g, n)
  {
    if n > 0 { SumAdd(f, g, h, n - 1); }
  }

  lemma {:induction false} SumPositive(f: nat -> real, n: nat)
    requires n > 0 && forall i: nat :: i < n ==> f(i) > 0.0
    ensures Sum(f, n) > 0.0
  {
    if n > 1 { SumPositive(f, n - 1); }
  }

  lemma {:induction false} SumNonnegative(f: nat -> real, n: nat)
    requires forall i: nat :: i < n ==> f(i) >= 0.0
    ensures Sum(f, n) >= 0.0
    ensures forall i: nat :: i < n ==> f(i) <= Sum(f, n)
  {
    if n > 0 { SumNonnegative(f, n - 1); }
  }

  lemma MulPositive(a: real, b: real)
    requires a > 0.0 && b > 0.0
    ensures a * b > 0.0
  {
  }

  /** A sum cut in two. */
  lemma {:induction false} SumCut(f: nat -> real, g: nat -> real, a: nat, b: nat)
    requires forall i: nat :: i < b ==> g(i) == f(a + i)
    ensures Sum(f, a + b) == Sum(f, a) + Sum(g, b)
  {
    if b > 0 { SumCut(f, g, a, b - 1); }
  }

  /** A masked tail contributes nothing. */
  lemma {:induction false} SumTail(f: nat -> real, n: nat, m: nat)
    requires n <= m && forall i: nat :: n <= i < m ==> f(i) == 0.0
    ensures Sum(f, m) == Sum(f, n)
  {
    if n < m { SumTail(f, n, m - 1); }
  }

  /** Tile `j` of width `t`, masked beyond `n`. */
  function TileTerm(f: nat -> real, n: nat, t: nat, j: nat): nat -> real {
    (i: nat) => if j * t + i < n then f(j * t + i) else 0.0
  }

  function TileSums(f: nat -> real, n: nat, t: nat): nat -> real {
    (j: nat) => Sum(TileTerm(f, n, t, j), t)
  }

  function Masked(f: nat -> real, n: nat): nat -> real {
    (i: nat) => if i < n then f(i) else 0.0
  }

  /** Tiles that cover `0..n` add up to the whole sum, whatever their width and number. */
  lemma TilesAddUp(f: nat -> real, n: nat, t: nat, tiles: nat)
    requires tiles * t >= n
    ensures Sum(TileSums(f, n, t), tiles) == Sum(f, n)
  {
    TilesSoFar(f, n, t, tiles);
    SumTail(Masked(f, n), n, tiles * t);
    SumEq(Masked(f, n), f, n);
  }

  lemma {:induction false} TilesSoFar(f: nat -> real, n: nat, t: nat, tiles: nat)
    ensures Sum(TileSums(f, n, t), tiles) == Sum(Masked(f, n), tiles * t)
  {
    if tiles > 0 {
      TilesSoFar(f, n, t, tiles - 1);
      assert tiles * t == (tiles - 1) * t + t;
      SumCut(Masked(f, n), TileTerm(f, n, t, tiles - 1), (tiles - 1) * t, t);
    }
  }

  // ----- strided lanes -----

  /** What lane `l` of `w` lanes adds up: every `w`-th term from `l` on. */
  function LaneTerm(f: nat -> real, n: nat, w: nat, l: nat): nat -> real {
    (j: nat) => if j * w + l < n then f(j * w + l) else 0.0
  }

  function LaneSum(f: nat -> real, n: nat, w: nat): nat -> real {
    (l: nat) => Sum(LaneTerm(f, n, w, l), n)
  }

  ghost function RowSums(g: (nat, nat) -> real, w: nat): nat -> real {
    (j: nat) => Sum((l: nat) => g(j, l), w)
  }

  ghost function ColumnSums(g: (nat, nat) -> real, n: nat): nat -> real {
    (l: nat) => Sum((j: nat) => g(j, l), n)
  }

  /** Finite sums can be taken in either order. */
  lemma {:induction false} SumSwap(g: (nat, nat) -> real, n: nat, w: nat)
    ensures Sum(RowSums(g, w), n) == Sum(ColumnSums(g, n), w)
  {
    if n == 0 {
      SumZero(ColumnSums(g, 0), w);
    } else {
      SumSwap(g, n - 1, w);
      SumAdd(ColumnSums(g, n - 1), (l: nat) => g(n - 1, l), ColumnSums(g, n), w);
    }
  }

  /** The lanes together add up every term once. */
  lemma LanesAddUp(f: nat -> real, n: nat, w: nat)
    requires w > 0
    ensures Sum(LaneSum(f, n, w), w) == Sum(f, n)
  {
    var g := (j: nat, l: nat) => LaneTerm(f, n, w, l)(j);
    SumSwap(g, n, w);
    forall l: nat | l < w
      ensures ColumnSums(g, n)(l) == LaneSum(f, n, w)(l)
    {
      SumEq((j: nat) => g(j, l), LaneTerm(f, n, w, l), n);
    }
    SumEq(ColumnSums(g, n), LaneSum(f, n, w), w);
    forall j: nat | j < n
      ensures RowSums(g, w)(j) == TileSums(f, n, w)(j)
    {
      SumEq((l: nat) => g(j, l), TileTerm(f, n, w, j), w);
    }
    SumEq(RowSums(g, w), TileSums(f, n, w), n);
    MulMonotone(1, w, n);
    assert w * n == n * w;
    TilesAddUp(f, n, w, n);
  }

  // ----- halving -----

  /** Every `stride`-th term from `l` on. */
  function Stride(f: nat -> real, stride: nat, l: nat): nat -> real {
    (j: nat) => f(l + j * stride)
  }

  /** A residue class is the union of the two classes of twice the stride. */
  lemma {:induction false} ClassSplits(f: nat -> real, stride: nat, l: nat, count: nat)
    ensures Sum(Stride(f, stride, l), 2 * count) ==
      Sum(Stride(f, 2 * stride, l), count) + Sum(Stride(f, 2 * stride, l + stride), count)
  {
    hide Sum;
    var whole, even, odd := Stride(f, stride, l), Stride(f, 2 * stride, l), Stride(f, 2 * stride, l + stride);
    if count == 0 {
      NoTerms(whole);
      NoTerms(even);
      NoTerms(odd);
    } else {
      var j := count - 1;
      ClassSplits(f, stride, l, j);
      OneTerm(whole, 2 * j);
      OneTerm(whole, 2 * j + 1);
      OneTerm(even, j);
      OneTerm(odd, j);
      StrideTwice(f, stride, l, j);
    }
  }

  lemma StrideTwice(f: nat -> real, stride: nat, l: nat, j: nat)
    ensures Stride(f, stride, l)(2 * j) == Stride(f, 2 * stride, l)(j)
    ensures Stride(f, stride, l)(2 * j + 1) == Stride(f, 2 * stride, l + stride)(j)
  {
    assert l + (2 * j) * stride == l + j * (2 * stride);
    assert l + (2 * j + 1) * stride == l + stride + j * (2 * stride);
  }
}
