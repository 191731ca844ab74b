/** Split-KV attention with a log-sum-exp merge: learning/10_cuda_decode/split_kv.py over a
    contiguous cache with a valid prefix, serving/paged_attention.py through block tables. */
module SplitAttention {
  import opened Basics
  import opened Sums
  import opened Softmax

  // ----- one split -----

  /** The masked scores of tile `j`. */
  function TileScores(s: nat -> real, n: nat, tile: nat, j: nat): nat -> Num {
    (i: nat) => if j * tile + i < n then Fin(s(j * tile + i)) else NegInf
  }

  /** The masked values of tile `j`: masked loads give 0. */
  function TileValues(v: nat -> real, n: nat, tile: nat, j: nat): nat -> Num {
    (i: nat) => if j * tile + i < n then Fin(v(j * tile + i)) else Fin(0.0)
  }

  function SafeMax(s: nat -> real, n: nat, tile: nat, j: nat): Num {
    if j * tile < n then MaxNum(TileScores(s, n, tile, j), tile) else Fin(0.0)
  }

  function Probabilities(m: ExpLog, s: nat -> real, n: nat, tile: nat, j: nat): nat -> Num {
    (i: nat) => Exp(m, Sub(TileScores(s, n, tile, j)(i), SafeMax(s, n, tile, j)))
  }

  function Products(f: nat -> Num, g: nat -> Num): nat -> Num {
    (i: nat) => Mul(f(i), g(i))
  }

  /** What program `j` stores as its partial output. */
  function PartialOut(m: ExpLog, s: nat -> real, v: nat -> real, n: nat, tile: nat, j: nat): Num {
    if j * tile < n then
      Div(SumNum(Products(Probabilities(m, s, n, tile, j), TileValues(v, n, tile, j)), tile),
          SumNum(Probabilities(m, s, n, tile, j), tile))
    else Fin(0.0)
  }

  /** What program `j` stores as its log-sum-exp. */
  function PartialLse(m: ExpLog, s: nat -> real, n: nat, tile: nat, j: nat): Num {
    if j * tile < n then
      Add(SafeMax(s, n, tile, j), Log(m, SumNum(Probabilities(m, s, n, tile, j), tile)))
    else NegInf
  }

  // ----- merge -----

  /** Loads of the merge: splits beyond the last one read as `other`. */
  function Padded(f: seq<Num>, other: Num): nat -> Num {
    (j: nat) => if j < |f| then f[j] else other
  }

  function MergeWeights(m: ExpLog, lse: nat -> Num, width: nat): nat -> Num {
    (j: nat) => Exp(m, Sub(lse(j), MaxNum(lse, width)))
  }

  function MergeLanes(m: ExpLog, partial: nat -> Num, lse: nat -> Num, width: nat): Num {
    Div(SumNum(Products(MergeWeights(m, lse, width), partial), width), SumNum(MergeWeights(m, lse, width), width))
  }

  /** What the merge program stores, from `width` lanes. */
  function Merge(m: ExpLog, partial: seq<Num>, lse: seq<Num>, width: nat): Num {
    MergeLanes(m, Padded(partial, Fin(0.0)), Padded(lse, NegInf), width)
  }

  // ----- one split computes its share -----

  /** The weights of tile `j`. */
  ghost function Share(m: ExpLog, s: nat -> real, n: nat, tile: nat, j: nat): real {
    TileSums(Exps(m, s), n, tile)(j)
  }

  ghost function WeightedShare(m: ExpLog, s: nat -> real, v: nat -> real, n: nat, tile: nat, j: nat): real {
    TileSums(Weighted(m, s, v), n, tile)(j)
  }

  /** No active split ever subtracts minus infinity: its maximum is the score of one of its keys. */
  lemma ActiveMax(s: nat -> real, n: nat, tile: nat, j: nat)
    requires tile > 0
    ensures SafeMax(s, n, tile, j).Fin?
    ensures j * tile < n ==> IsMax(TileScores(s, n, tile, j), tile, SafeMax(s, n, tile, j))
  {
    if j * tile < n {
      MaxNumIsMax(TileScores(s, n, tile, j), tile);
      assert TileScores(s, n, tile, j)(0) == Fin(s(j * tile));
    }
  }

  lemma ProbabilityAt(m: ExpLog, s: nat -> real, n: nat, tile: nat, j: nat, i: nat)
    requires Laws(m) && tile > 0
    ensures SafeMax(s, n, tile, j).Fin?
    ensures Probabilities(m, s, n, tile, j)(i) ==
      Fin(m.exp(-SafeMax(s, n, tile, j).value) * TileTerm(Exps(m, s), n, tile, j)(i))
  {
    hide Laws;
    hide SafeMax;
    ActiveMax(s, n, tile, j);
    var t, x := j * tile + i, SafeMax(s, n, tile, j).value;
    if t < n {
      ExpShift(m, s(t), x);
      assert TileTerm(Exps(m, s), n, tile, j)(i) == m.exp(s(t));
      assert TileScores(s, n, tile, j)(i) == Fin(s(t));
      assert Probabilities(m, s, n, tile, j)(i) == Fin(m.exp(s(t) - x));
    } else {
      assert TileTerm(Exps(m, s), n, tile, j)(i) == 0.0;
      assert TileScores(s, n, tile, j)(i) == NegInf;
      assert Probabilities(m, s, n, tile, j)(i) == Fin(0.0);
    }
  }

  lemma DenominatorIs(m: ExpLog, s: nat -> real, n: nat, tile: nat, j: nat)
    requires Laws(m) && tile > 0
    ensures SafeMax(s, n, tile, j).Fin?
    ensures SumNum(Probabilities(m, s, n, tile, j), tile) ==
      Fin(m.exp(-SafeMax(s, n, tile, j).value) * Share(m, s, n, tile, j))
  {
    hide Laws;
    hide SafeMax;
    hide TileTerm;
    hide Probabilities;
    ActiveMax(s, n, tile, j);
    forall i: nat | i < tile { ProbabilityAt(m, s, n, tile, j, i); }
    SumNumScaled(m.exp(-SafeMax(s, n, tile, j).value), Probabilities(m, s, n, tile, j), TileTerm(Exps(m, s), n, tile, j), tile);
  }

  lemma ProductAt(m: ExpLog, s: nat -> real, v: nat -> real, n: nat, tile: nat, j: nat, i: nat)
    requires Laws(m) && tile > 0
    ensures SafeMax(s, n, tile, j).Fin?
    ensures Products(Probabilities(m, s, n, tile, j), TileValues(v, n, tile, j))(i) ==
      Fin(m.exp(-SafeMax(s, n, tile, j).value) * TileTerm(Weighted(m, s, v), n, tile, j)(i))
  {
    hide Laws;
    hide SafeMax;
    hide Probabilities;
    ProbabilityAt(m, s, n, tile, j, i);
    var t, x := j * tile + i, SafeMax(s, n, tile, j).value;
    if t < n {
      Reassociate(m.exp(-x), m.exp(s(t)), v(t));
      assert TileTerm(Exps(m, s), n, tile, j)(i) == m.exp(s(t));
      assert TileTerm(Weighted(m, s, v), n, tile, j)(i) == m.exp(s(t)) * v(t);
    }
  }

  lemma NumeratorIs(m: ExpLog, s: nat -> real, v: nat -> real, n: nat, tile: nat, j: nat)
    requires Laws(m) && tile > 0
    ensures SafeMax(s, n, tile, j).Fin?
    ensures SumNum(Products(Probabilities(m, s, n, tile, j), TileValues(v, n, tile, j)), tile) ==
      Fin(m.exp(-SafeMax(s, n, tile, j).value) * WeightedShare(m, s, v, n, tile, j))
  {
    hide Laws;
    hide SafeMax;
    hide TileTerm;
    hide Products;
    ActiveMax(s, n, tile, j);
    var f := Products(Probabilities(m, s, n, tile, j), TileValues(v, n, tile, j));
    forall i: nat | i < tile { ProductAt(m, s, v, n, tile, j, i); }
    SumNumScaled(m.exp(-SafeMax(s, n, tile, j).value), f, TileTerm(Weighted(m, s, v), n, tile, j), tile);
  }

  lemma Reassociate(a: real, b: real, c: real)
    ensures (a * b) * c == a * (b * c)
  {
  }

  lemma SharePositive(m: ExpLog, s: nat -> real, n: nat, tile: nat, j: nat)
    requires Laws(m) && tile > 0
    ensures j * tile < n ==> Share(m, s, n, tile, j) > 0.0
    ensures j * tile >= n ==> Share(m, s, n, tile, j) == 0.0
  {
    hide Laws;
    var f := TileTerm(Exps(m, s), n, tile, j);
    if j * tile < n {
      forall i: nat | i < tile
        ensures f(i) >= 0.0
      {
        if j * tile + i < n { ExpPositive(m, s(j * tile + i)); }
      }
      SumNonnegative(f, tile);
      ExpPositive(m, s(j * tile));
      assert f(0) == m.exp(s(j * tile + 0));
    } else {
      SumZero(f, tile);
    }
  }

  lemma WeightedShareEmpty(m: ExpLog, s: nat -> real, v: nat -> real, n: nat, tile: nat, j: nat)
    requires j * tile >= n
    ensures WeightedShare(m, s, v, n, tile, j) == 0.0
  {
    SumZero(TileTerm(Weighted(m, s, v), n, tile, j), tile);
  }

  /** The partial output of a split is softmax attention over its own keys, and its stored
      log-sum-exp is the logarithm of its share of the weights. An inactive split stores zero and
      minus infinity. */
  lemma PartialIsShare(m: ExpLog, s: nat -> real, v: nat -> real, n: nat, tile: nat, j: nat)
    requires Laws(m) && tile > 0
    ensures j * tile < n ==>
      && Share(m, s, n, tile, j) > 0.0
      && PartialOut(m, s, v, n, tile, j) == Fin(WeightedShare(m, s, v, n, tile, j) / Share(m, s, n, tile, j))
      && PartialLse(m, s, n, tile, j) == Fin(m.log(Share(m, s, n, tile, j)))
    ensures j * tile >= n ==> PartialOut(m, s, v, n, tile, j) == Fin(0.0) && PartialLse(m, s, n, tile, j) == NegInf
  {
    hide Laws;
    hide SafeMax;
    hide Share;
    hide WeightedShare;
    hide Probabilities;
    hide Products;
    if j * tile < n {
      SharePositive(m, s, n, tile, j);
      DenominatorIs(m, s, n, tile, j);
      NumeratorIs(m, s, v, n, tile, j);
      var x, z := SafeMax(s, n, tile, j).value, Share(m, s, n, tile, j);
      ExpPositive(m, -x);
      Cancel(m.exp(-x), WeightedShare(m, s, v, n, tile, j), z);
      LogShift(m, x, z);
      var d := SumNum(Probabilities(m, s, n, tile, j), tile);
      assert d.value == m.exp(-x) * z;
      assert Log(m, d) == Fin(m.log(d.value));
    }
  }

  lemma LogShift(m: ExpLog, x: real, z: real)
    requires Laws(m) && z > 0.0
    ensures m.exp(-x) * z > 0.0
    ensures x + m.log(m.exp(-x) * z) == m.log(z)
  {
    hide Laws;
    var e, c := m.exp(-x), m.exp(-x) * z;
    ExpPositive(m, -x);
    MulPositive(e, z);
    ExpInverse(m, x);
    ExpSum(m, x, m.log(c));
    ExpOfLog(m, c);
    Reassociate(m.exp(x), e, z);
    assert m.exp(x + m.log(c)) == z;
    LogOfExp(m, x + m.log(c));
  }

  // ----- the merge puts the shares together -----

  /** The workspaces after all splits of one head and one dimension have run. */
  ghost predicate Partials(m: ExpLog, s: nat -> real, v: nat -> real, n: nat, tile: nat, partial: seq<Num>, lse: seq<Num>) {
    && |partial| == |lse| && |lse| * tile >= n
    && forall j: nat :: j < |lse| ==>
         partial[j] == PartialOut(m, s, v, n, tile, j) && lse[j] == PartialLse(m, s, n, tile, j)
  }

  /** Every lane is an active split with its log-sum-exp, or minus infinity. */
  lemma LaneLse(m: ExpLog, s: nat -> real, v: nat -> real, n: nat, tile: nat, partial: seq<Num>, lse: seq<Num>, j: nat)
    requires Laws(m) && tile > 0 && Partials(m, s, v, n, tile, partial, lse)
    ensures j * tile < n ==> j < |lse| && Share(m, s, n, tile, j) > 0.0 && Padded(lse, NegInf)(j) == Fin(m.log(Share(m, s, n, tile, j)))
    ensures j * tile >= n ==> Padded(lse, NegInf)(j) == NegInf && Share(m, s, n, tile, j) == 0.0
  {
    hide Laws;
    hide PartialOut;
    hide PartialLse;
    hide Share;
    if j >= |lse| { MulMonotone(|lse|, j, tile); }
    PartialIsShare(m, s, v, n, tile, j);
    SharePositive(m, s, n, tile, j);
  }

  lemma LaneOut(m: ExpLog, s: nat -> real, v: nat -> real, n: nat, tile: nat, partial: seq<Num>, lse: seq<Num>, j: nat)
    requires Laws(m) && tile > 0 && Partials(m, s, v, n, tile, partial, lse)
    ensures j * tile < n ==> (
      && Share(m, s, n, tile, j) > 0.0
      && Padded(partial, Fin(0.0))(j) == Fin(WeightedShare(m, s, v, n, tile, j) / Share(m, s, n, tile, j)))
    ensures j * tile >= n ==> Padded(partial, Fin(0.0))(j) == Fin(0.0) && WeightedShare(m, s, v, n, tile, j) == 0.0
  {
    hide Laws;
    hide PartialOut;
    hide PartialLse;
    hide Share;
    hide WeightedShare;
    if j >= |lse| { MulMonotone(|lse|, j, tile); }
    PartialIsShare(m, s, v, n, tile, j);
    if j * tile >= n { WeightedShareEmpty(m, s, v, n, tile, j); }
  }

  /** With at least one position, the greatest log-sum-exp is a number: the merge never
      subtracts minus infinity. */
  lemma MergeMax(m: ExpLog, s: nat -> real, v: nat -> real, n: nat, tile: nat, partial: seq<Num>, lse: seq<Num>, width: nat)
    requires Laws(m) && tile > 0 && n > 0 && width >= |lse| && Partials(m, s, v, n, tile, partial, lse)
    ensures MaxNum(Padded(lse, NegInf), width).Fin?
  {
    hide Laws;
    hide Partials;
    hide Share;
    hide Padded;
    forall j: nat | j < width
      ensures !Padded(lse, NegInf)(j).Undefined?
    {
      LaneLse(m, s, v, n, tile, partial, lse, j);
    }
    LaneLse(m, s, v, n, tile, partial, lse, 0);
    MaxNumIsMax(Padded(lse, NegInf), width);
  }

  lemma WeightAt(m: ExpLog, s: nat -> real, v: nat -> real, n: nat, tile: nat, partial: seq<Num>, lse: seq<Num>, width: nat, j: nat)
    requires Laws(m) && tile > 0 && Partials(m, s, v, n, tile, partial, lse)
    requires MaxNum(Padded(lse, NegInf), width).Fin?
    ensures var x := MaxNum(Padded(lse, NegInf), width).value;
      MergeWeights(m, Padded(lse, NegInf), width)(j) == Fin(m.exp(-x) * Share(m, s, n, tile, j))
  {
    hide Laws;
    hide Partials;
    hide Share;
    hide Padded;
    LaneLse(m, s, v, n, tile, partial, lse, j);
    var x, z := MaxNum(Padded(lse, NegInf), width).value, Share(m, s, n, tile, j);
    if j * tile < n {
      ExpShift(m, m.log(z), x);
      ExpOfLog(m, z);
    }
  }

  lemma MergeProductAt(m: ExpLog, s: nat -> real, v: nat -> real, n: nat, tile: nat, partial: seq<Num>, lse: seq<Num>, width: nat, j: nat)
    requires Laws(m) && tile > 0 && Partials(m, s, v, n, tile, partial, lse)
    requires MaxNum(Padded(lse, NegInf), width).Fin?
    ensures var x := MaxNum(Padded(lse, NegInf), width).value;
      Products(MergeWeights(m, Padded(lse, NegInf), width), Padded(partial, Fin(0.0)))(j) ==
        Fin(m.exp(-x) * WeightedShare(m, s, v, n, tile, j))
  {
    hide Laws;
    hide Partials;
    hide Share;
    hide WeightedShare;
    hide Padded;
    hide MergeWeights;
    WeightAt(m, s, v, n, tile, partial, lse, width, j);
    LaneOut(m, s, v, n, tile, partial, lse, j);
    if j * tile < n {
      var x := MaxNum(Padded(lse, NegInf), width).value;
      Regroup(m.exp(-x), Share(m, s, n, tile, j), WeightedShare(m, s, v, n, tile, j));
    }
  }

  lemma Regroup(c: real, z: real, a: real)
    requires z != 0.0
    ensures (c * z) * (a / z) == c * a
  {
    var q := a / z;
    assert a == z * q;
    Reassociate(c, z, q);
  }

  /** The merged output is softmax attention over exactly the first `n` positions, for every
      tile, number of splits and merge width. With `n == 0` both are undefined. */
  lemma MergeIsAttention(m: ExpLog, s: nat -> real, v: nat -> real, n: nat, tile: nat, partial: seq<Num>, lse: seq<Num>, width: nat)
    requires Laws(m) && tile > 0 && width >= |lse| && Partials(m, s, v, n, tile, partial, lse)
    ensures Merge(m, partial, lse, width) == Attention(m, s, v, n)
    ensures Merge(m, partial, lse, width).Fin? <==> n > 0
  {
    if n == 0 {
      MergeNothing(m, s, v, tile, partial, lse, width);
    } else {
      MergeShares(m, s, v, n, tile, partial, lse, width);
    }
  }

  lemma MergeSums(m: ExpLog, s: nat -> real, v: nat -> real, n: nat, tile: nat, partial: seq<Num>, lse: seq<Num>, width: nat)
    requires Laws(m) && tile > 0 && n > 0 && width >= |lse| && Partials(m, s, v, n, tile, partial, lse)
    ensures MaxNum(Padded(lse, NegInf), width).Fin?
    ensures var c := m.exp(-MaxNum(Padded(lse, NegInf), width).value);
      var weights := MergeWeights(m, Padded(lse, NegInf), width);
      && SumNum(weights, width) == Fin(c * Sum(TileSums(Exps(m, s), n, tile), width))
      && SumNum(Products(weights, Padded(partial, Fin(0.0))), width) == Fin(c * Sum(TileSums(Weighted(m, s, v), n, tile), width))
  {
    hide Laws;
    hide Partials;
    hide Padded;
    hide MergeWeights;
    hide Products;
    hide MaxNum;
    hide TileSums;
    hide Sum;
    hide SumNum;
    MergeMax(m, s, v, n, tile, partial, lse, width);
    var c := m.exp(-MaxNum(Padded(lse, NegInf), width).value);
    var weights := MergeWeights(m, Padded(lse, NegInf), width);
    forall j: nat | j < width
      ensures weights(j) == Fin(c * TileSums(Exps(m, s), n, tile)(j))
      ensures Products(weights, Padded(partial, Fin(0.0)))(j) == Fin(c * TileSums(Weighted(m, s, v), n, tile)(j))
    {
      WeightAt(m, s, v, n, tile, partial, lse, width, j);
      MergeProductAt(m, s, v, n, tile, partial, lse, width, j);
    }
    SumNumScaled(c, weights, TileSums(Exps(m, s), n, tile), width);
    SumNumScaled(c, Products(weights, Padded(partial, Fin(0.0))), TileSums(Weighted(m, s, v), n, tile), width);
  }

  lemma MergeShares(m: ExpLog, s: nat -> real, v: nat -> real, n: nat, tile: nat, partial: seq<Num>, lse: seq<Num>, width: nat)
    requires Laws(m) && tile > 0 && n > 0 && width >= |lse| && Partials(m, s, v, n, tile, partial, lse)
    ensures Merge(m, partial, lse, width) == Attention(m, s, v, n) && Attention(m, s, v, n).Fin?
  {
    hide Laws;
    hide Partials;
    hide Padded;
    hide MergeWeights;
    hide Products;
    hide MaxNum;
    hide Sum;
    hide TileSums;
    hide Div;
    MergeSums(m, s, v, n, tile, partial, lse, width);
    LanesCover(m, s, v, n, tile, partial, lse, width);
    PartitionPositive(m, s, n);
    var x := MaxNum(Padded(lse, NegInf), width).value;
    ExpPositive(m, -x);
    var a, z := Sum(Weighted(m, s, v), n), Sum(Exps(m, s), n);
    var weights := MergeWeights(m, Padded(lse, NegInf), width);
    DivScaled(m.exp(-x), a, z, SumNum(Products(weights, Padded(partial, Fin(0.0))), width), SumNum(weights, width));
  }

  lemma LanesCover(m: ExpLog, s: nat -> real, v: nat -> real, n: nat, tile: nat, partial: seq<Num>, lse: seq<Num>, width: nat)
    requires width >= |lse| && Partials(m, s, v, n, tile, partial, lse)
    ensures Sum(TileSums(Exps(m, s), n, tile), width) == Sum(Exps(m, s), n)
    ensures Sum(TileSums(Weighted(m, s, v), n, tile), width) == Sum(Weighted(m, s, v), n)
  {
    MulMonotone(|lse|, width, tile);
    TilesAddUp(Exps(m, s), n, tile, width);
    TilesAddUp(Weighted(m, s, v), n, tile, width);
  }

  /** With no position at all, every split is inactive and the merge is -inf - -inf. */
  lemma MergeNothing(m: ExpLog, s: nat -> real, v: nat -> real, tile: nat, partial: seq<Num>, lse: seq<Num>, width: nat)
    requires Partials(m, s, v, 0, tile, partial, lse)
    ensures Merge(m, partial, lse, width) == Undefined
  {
    hide PartialOut;
    hide PartialLse;
    var lanes := Padded(lse, NegInf);
    forall j: nat | j < width
      ensures lanes(j) == NegInf
    {
      InactiveLse(m, s, tile, j);
    }
    AllNegInf(lanes, width);
    NoWeights(m, lanes, Padded(partial, Fin(0.0)), width);
  }

  lemma InactiveLse(m: ExpLog, s: nat -> real, tile: nat, j: nat)
    ensures PartialLse(m, s, 0, tile, j) == NegInf
  {
  }

  lemma NoWeights(m: ExpLog, lse: nat -> Num, partial: nat -> Num, width: nat)
    requires MaxNum(lse, width) == NegInf
    ensures MergeLanes(m, partial, lse, width) == Undefined
  {
    if width > 0 {
      assert MergeWeights(m, lse, width)(0) == Undefined;
      SumNumUndefined(MergeWeights(m, lse, width), width, 0);
    }
  }

  lemma {:induction false} AllNegInf(f: nat -> Num, n: nat)
    requires forall i: nat :: i < n ==> f(i) == NegInf
    ensures MaxNum(f, n) == NegInf
  {
    if n > 0 { AllNegInf(f, n - 1); }
  }
}
