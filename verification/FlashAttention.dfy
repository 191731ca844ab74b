/** learning/07_flash_attention/attention.py: the online softmax over key tiles against the
    materialized masked softmax and its log-sum-exp. */
module FlashAttention {
  import opened Basics
  import opened Sums
  import opened Softmax
  import opened SplitAttention
  import opened SplitKernels
  import opened PagedGather
  import Reference

  /** Everything that masks the keys of one query row. */
  datatype Mask = Mask(row: nat, sequenceQ: nat, queryLength: nat, sequenceK: nat, keyLength: nat, causal: bool)
  {
    predicate ValidQuery() {
      row < sequenceQ && row < queryLength
    }

    predicate ValidKey(t: nat) {
      t < sequenceK && t < keyLength
    }

    /** `score_mask` */
    predicate Allows(t: nat) {
      ValidQuery() && ValidKey(t) && (causal ==> t <= row)
    }

    /** How many keys a valid row attends to: they are a prefix. */
    function Count(): nat {
      var n := if sequenceK < keyLength then sequenceK else keyLength;
      if causal && row + 1 < n then row + 1 else n
    }
  }

  lemma AllowsPrefix(k: Mask, t: nat)
    requires k.ValidQuery()
    ensures k.Allows(t) <==> t < k.Count()
  {
  }

  // ----- the reference -----

  function MaskedScores(k: Mask, s: nat -> real): nat -> Num {
    (t: nat) => if k.Allows(t) then Fin(s(t)) else NegInf
  }

  function ExpScores(m: ExpLog, k: Mask, s: nat -> real): nat -> Num {
    (t: nat) => Exp(m, MaskedScores(k, s)(t))
  }

  /** `torch.softmax(scores)[t] * v[t]` */
  function ReferenceTerms(m: ExpLog, k: Mask, s: nat -> real, v: nat -> real): nat -> Num {
    (t: nat) => Mul(Div(ExpScores(m, k, s)(t), SumNum(ExpScores(m, k, s), k.sequenceK)), Fin(v(t)))
  }

  /** `pytorch_attention`: one output entry, rows beyond the query length filled with zero. */
  function ReferenceOutput(m: ExpLog, k: Mask, s: nat -> real, v: nat -> real): Num {
    if k.row >= k.queryLength then Fin(0.0) else SumNum(ReferenceTerms(m, k, s, v), k.sequenceK)
  }

  /** `torch.logsumexp` */
  function ReferenceLse(m: ExpLog, k: Mask, s: nat -> real): Num {
    Log(m, SumNum(ExpScores(m, k, s), k.sequenceK))
  }

  lemma ReferenceWeights(m: ExpLog, k: Mask, s: nat -> real)
    requires k.ValidQuery()
    ensures SumNum(ExpScores(m, k, s), k.sequenceK) == Fin(Sum(Exps(m, s), k.Count()))
  {
    var g := Masked(Exps(m, s), k.Count());
    forall t: nat | t < k.sequenceK
      ensures ExpScores(m, k, s)(t) == Fin(g(t))
    {
      AllowsPrefix(k, t);
      assert MaskedScores(k, s)(t) == if t < k.Count() then Fin(s(t)) else NegInf;
    }
    SumNumFin(ExpScores(m, k, s), g, k.sequenceK);
    SumTail(g, k.Count(), k.sequenceK);
    SumEq(g, Exps(m, s), k.Count());
  }

  lemma ReferenceTermAt(m: ExpLog, k: Mask, s: nat -> real, v: nat -> real, t: nat)
    requires k.ValidQuery() && Sum(Exps(m, s), k.Count()) > 0.0
    ensures ReferenceTerms(m, k, s, v)(t) ==
      Fin(1.0 / Sum(Exps(m, s), k.Count()) * Masked(Weighted(m, s, v), k.Count())(t))
  {
    hide Sum;
    hide SumNum;
    ReferenceWeights(m, k, s);
    AllowsPrefix(k, t);
    assert MaskedScores(k, s)(t) == if t < k.Count() then Fin(s(t)) else NegInf;
    var z := Sum(Exps(m, s), k.Count());
    if t < k.Count() {
      Fraction(m.exp(s(t)), z, v(t));
    } else {
      Fraction(0.0, z, v(t));
    }
  }

  lemma Fraction(e: real, z: real, v: real)
    requires z > 0.0
    ensures Mul(Div(Fin(e), Fin(z)), Fin(v)) == Fin(1.0 / z * (e * v))
  {
    var q := 1.0 / z;
    assert q * z == 1.0;
    assert e / z == q * e by { Quotient(e, z, q); }
    Reassociate(q, e, v);
  }

  lemma Quotient(e: real, z: real, q: real)
    requires z > 0.0 && q * z == 1.0
    ensures e / z == q * e
  {
    Reassociate(e, q, z);
    assert (q * e) * z == e;
  }

  /** The reference of a valid row is softmax attention over its allowed keys. */
  lemma ReferenceIsAttention(m: ExpLog, k: Mask, s: nat -> real, v: nat -> real)
    requires Laws(m) && k.ValidQuery() && k.Count() > 0
    ensures Sum(Exps(m, s), k.Count()) > 0.0
    ensures ReferenceOutput(m, k, s, v) == Attention(m, s, v, k.Count())
    ensures ReferenceLse(m, k, s) == Fin(m.log(Sum(Exps(m, s), k.Count())))
  {
    hide Laws;
    hide ReferenceTerms;
    hide Sum;
    PartitionPositive(m, s, k.Count());
    ReferenceWeights(m, k, s);
    var n, z := k.Count(), Sum(Exps(m, s), k.Count());
    var g := Masked(Weighted(m, s, v), n);
    forall t: nat | t < k.sequenceK
      ensures ReferenceTerms(m, k, s, v)(t) == Fin(1.0 / z * g(t))
    {
      ReferenceTermAt(m, k, s, v, t);
    }
    SumNumScaled(1.0 / z, ReferenceTerms(m, k, s, v), g, k.sequenceK);
    SumTail(g, n, k.sequenceK);
    SumEq(g, Weighted(m, s, v), n);
    Quotient(Sum(Weighted(m, s, v), n), z, 1.0 / z);
  }

  // ----- one tile of the online loop -----

  function TileOf(f: nat -> Num, tile: nat, j: nat): nat -> Num {
    (i: nat) => f(j * tile + i)
  }

  /** Values of a tile: masked loads give 0, keys beyond the causal limit are loaded. */
  function LoadedValues(k: Mask, v: nat -> real, tile: nat, j: nat): nat -> Num {
    (i: nat) => if k.ValidKey(j * tile + i) then Fin(v(j * tile + i)) else Fin(0.0)
  }

  function NewMax(k: Mask, runningMax: Num, scores: nat -> Num, tile: nat): Num {
    if k.ValidQuery() then Max(runningMax, MaxNum(scores, tile)) else Fin(0.0)
  }

  function Shifted(m: ExpLog, scores: nat -> Num, max: Num): nat -> Num {
    (i: nat) => Exp(m, Sub(scores(i), max))
  }

  /** A running value stands for `total`, scaled by the running maximum. */
  ghost predicate Scaled(m: ExpLog, max: Num, value: Num, total: real) {
    if max.Fin? then value == Fin(m.exp(-max.value) * total)
    else max == NegInf && value == Fin(0.0) && total == 0.0
  }

  /** The correction rescales a running value to the new maximum. */
  lemma Rescaled(m: ExpLog, max: Num, value: Num, total: real, newMax: Num)
    requires Laws(m) && Scaled(m, max, value, total) && newMax.Fin?
    ensures Mul(value, Exp(m, Sub(max, newMax))) == Fin(m.exp(-newMax.value) * total)
  {
    hide Laws;
    if max.Fin? {
      var x, y := max.value, newMax.value;
      ExpSum(m, -x, x - y);
      assert -x + (x - y) == -y;
      assert m.exp(-x + (x - y)) == m.exp(-y);
      MulScaled(m.exp(-x), total, m.exp(x - y), m.exp(-y), value);
    }
  }

  lemma MulScaled(a: real, t: real, b: real, c: real, value: Num)
    requires a * b == c && value == Fin(a * t)
    ensures Mul(value, Fin(b)) == Fin(c * t)
  {
    Swap(a, t, b, c);
  }

  lemma Swap(a: real, t: real, b: real, c: real)
    requires a * b == c
    ensures (a * t) * b == c * t
  {
    Reassociate(a, t, b);
    assert t * b == b * t;
    Reassociate(a, b, t);
  }

  lemma ShiftedAt(m: ExpLog, k: Mask, s: nat -> real, tile: nat, j: nat, newMax: Num, i: nat)
    requires Laws(m) && k.ValidQuery() && newMax.Fin?
    ensures Shifted(m, TileOf(MaskedScores(k, s), tile, j), newMax)(i) ==
      Fin(m.exp(-newMax.value) * TileTerm(Exps(m, s), k.Count(), tile, j)(i))
  {
    hide Laws;
    var t := j * tile + i;
    AllowsPrefix(k, t);
    assert TileOf(MaskedScores(k, s), tile, j)(i) == if t < k.Count() then Fin(s(t)) else NegInf;
    if t < k.Count() {
      ExpShift(m, s(t), newMax.value);
      assert TileTerm(Exps(m, s), k.Count(), tile, j)(i) == m.exp(s(t));
    } else {
      assert TileTerm(Exps(m, s), k.Count(), tile, j)(i) == 0.0;
    }
  }

  lemma WeightedAt(m: ExpLog, k: Mask, s: nat -> real, v: nat -> real, tile: nat, j: nat, newMax: Num, i: nat)
    requires Laws(m) && k.ValidQuery() && newMax.Fin?
    ensures Products(Shifted(m, TileOf(MaskedScores(k, s), tile, j), newMax), LoadedValues(k, v, tile, j))(i) ==
      Fin(m.exp(-newMax.value) * TileTerm(Weighted(m, s, v), k.Count(), tile, j)(i))
  {
    hide Laws;
    hide Shifted;
    var t, c := j * tile + i, m.exp(-newMax.value);
    ShiftedAt(m, k, s, tile, j, newMax, i);
    AllowsPrefix(k, t);
    if t < k.Count() {
      Reassociate(c, m.exp(s(t)), v(t));
      assert TileTerm(Exps(m, s), k.Count(), tile, j)(i) == m.exp(s(t));
      assert TileTerm(Weighted(m, s, v), k.Count(), tile, j)(i) == m.exp(s(t)) * v(t);
      assert LoadedValues(k, v, tile, j)(i) == Fin(v(t));
    } else {
      assert TileTerm(Exps(m, s), k.Count(), tile, j)(i) == 0.0;
      assert TileTerm(Weighted(m, s, v), k.Count(), tile, j)(i) == 0.0;
    }
  }

  lemma TileSumIs(m: ExpLog, k: Mask, s: nat -> real, tile: nat, j: nat, newMax: Num)
    requires Laws(m) && k.ValidQuery() && newMax.Fin?
    ensures SumNum(Shifted(m, TileOf(MaskedScores(k, s), tile, j), newMax), tile) ==
      Fin(m.exp(-newMax.value) * TileSums(Exps(m, s), k.Count(), tile)(j))
  {
    hide Laws;
    hide Shifted;
    hide TileTerm;
    var f := Shifted(m, TileOf(MaskedScores(k, s), tile, j), newMax);
    forall i: nat | i < tile { ShiftedAt(m, k, s, tile, j, newMax, i); }
    SumNumScaled(m.exp(-newMax.value), f, TileTerm(Exps(m, s), k.Count(), tile, j), tile);
  }

  lemma TileDotIs(m: ExpLog, k: Mask, s: nat -> real, v: nat -> real, tile: nat, j: nat, newMax: Num)
    requires Laws(m) && k.ValidQuery() && newMax.Fin?
    ensures SumNum(Products(Shifted(m, TileOf(MaskedScores(k, s), tile, j), newMax), LoadedValues(k, v, tile, j)), tile) ==
      Fin(m.exp(-newMax.value) * TileSums(Weighted(m, s, v), k.Count(), tile)(j))
  {
    hide Laws;
    hide Products;
    hide TileTerm;
    var f := Products(Shifted(m, TileOf(MaskedScores(k, s), tile, j), newMax), LoadedValues(k, v, tile, j));
    forall i: nat | i < tile { WeightedAt(m, k, s, v, tile, j, newMax, i); }
    SumNumScaled(m.exp(-newMax.value), f, TileTerm(Weighted(m, s, v), k.Count(), tile, j), tile);
  }

  /** `accumulator * correction + tile`: the running value takes in one more tile. */
  lemma TakeTile(m: ExpLog, max: Num, value: Num, tiles: nat -> real, j: nat, newMax: Num, tileSum: Num)
    requires Laws(m) && Scaled(m, max, value, Sum(tiles, j)) && newMax.Fin?
    requires tileSum == Fin(m.exp(-newMax.value) * tiles(j))
    ensures Scaled(m, newMax, Add(Mul(value, Exp(m, Sub(max, newMax))), tileSum), Sum(tiles, j + 1))
  {
    hide Laws;
    hide Scaled;
    hide Add;
    hide Mul;
    hide Sub;
    hide Exp;
    Rescaled(m, max, value, Sum(tiles, j), newMax);
    AddScaled(m, newMax, Mul(value, Exp(m, Sub(max, newMax))), Sum(tiles, j), tileSum, tiles(j));
  }

  lemma AddScaled(m: ExpLog, max: Num, x: Num, a: real, y: Num, b: real)
    requires max.Fin? && x == Fin(m.exp(-max.value) * a) && y == Fin(m.exp(-max.value) * b)
    ensures Scaled(m, max, Add(x, y), a + b)
  {
    var c := m.exp(-max.value);
    assert c * (a + b) == c * a + c * b;
  }

  /** The running maximum is the greatest score seen; once the first tile is in, it is a number. */
  ghost predicate SeenMax(k: Mask, s: nat -> real, seen: nat, max: Num) {
    && IsMax(MaskedScores(k, s), seen, max)
    && (if seen == 0 then max == NegInf else max.Fin?)
  }

  lemma MaxTakesTile(k: Mask, s: nat -> real, tile: nat, j: nat, max: Num)
    requires k.ValidQuery() && k.Count() > 0 && tile > 0 && SeenMax(k, s, j * tile, max)
    ensures SeenMax(k, s, (j + 1) * tile, NewMax(k, max, TileOf(MaskedScores(k, s), tile, j), tile))
  {
    var f, scores := MaskedScores(k, s), TileOf(MaskedScores(k, s), tile, j);
    var seen, newMax := j * tile, NewMax(k, max, scores, tile);
    assert (j + 1) * tile == seen + tile;
    MaxNumIsMax(scores, tile);
    if j == 0 {
      AllowsPrefix(k, 0);
      assert scores(0) == Fin(s(0));
    }
    MaxOfBoth(f, seen, tile, scores, max, MaxNum(scores, tile));
  }

  lemma MaxOfBoth(f: nat -> Num, a: nat, b: nat, g: nat -> Num, x: Num, y: Num)
    requires IsMax(f, a, x) && IsMax(g, b, y) && forall i: nat :: i < b ==> g(i) == f(a + i)
    ensures IsMax(f, a + b, Max(x, y))
  {
    var z := Max(x, y);
    forall i: nat | i < a + b
      ensures f(i).NegInf? || (f(i).Fin? && z.Fin? && f(i).value <= z.value)
    {
      if i >= a { assert g(i - a) == f(i); }
    }
    if z != NegInf {
      if z == y && y != NegInf {
        var i: nat :| i < b && g(i) == y;
        assert f(a + i) == z;
      }
    }
  }

  // ----- the loop of one query row -----

  /** The loop invariant of a valid row: after `j` tiles the running maximum, sum and accumulator
      describe exactly the keys seen so far. */
  ghost predicate Online(m: ExpLog, k: Mask, s: nat -> real, values: seq<nat -> real>, tile: nat, j: nat,
                         max: Num, sum: Num, accumulator: seq<Num>)
  {
    && |accumulator| == |values| && SeenMax(k, s, j * tile, max)
    && Scaled(m, max, sum, Sum(TileSums(Exps(m, s), k.Count(), tile), j))
    && forall d :: 0 <= d < |values| ==>
         Scaled(m, max, accumulator[d], Sum(TileSums(Weighted(m, s, values[d]), k.Count(), tile), j))
  }

  method TileStep(m: ExpLog, k: Mask, s: nat -> real, values: seq<nat -> real>, tile: nat, j: nat,
                  runningMax: Num, runningSum: Num, accumulator: seq<Num>)
    returns (newMax: Num, newSum: Num, newAccumulator: seq<Num>)
    requires Laws(m) && tile > 0 && |accumulator| == |values|
    ensures |newAccumulator| == |values|
    ensures k.ValidQuery() && k.Count() > 0 && Online(m, k, s, values, tile, j, runningMax, runningSum, accumulator) ==>
      newMax.Fin? && Online(m, k, s, values, tile, j + 1, newMax, newSum, newAccumulator)
    ensures k.ValidQuery() && k.Count() == 0 && runningMax == NegInf ==> newMax == NegInf && newSum == Undefined
  {
    hide Laws;
    hide Scaled;
    hide SeenMax;
    hide Sum;
    hide TileSums;
    hide NewMax;
    hide Add;
    hide Mul;
    hide Sub;
    hide Exp;
    var scores := TileOf(MaskedScores(k, s), tile, j);
    newMax := NewMax(k, runningMax, scores, tile);
    var correction := Exp(m, Sub(runningMax, newMax));
    var probabilities := Shifted(m, scores, newMax);
    newSum := Add(Mul(runningSum, correction), SumNum(probabilities, tile));
    newAccumulator := seq(|values|, d requires 0 <= d < |values| =>
      Add(Mul(accumulator[d], correction), SumNum(Products(probabilities, LoadedValues(k, values[d], tile, j)), tile)));
    if k.ValidQuery() && k.Count() == 0 && runningMax == NegInf {
      NoKeyStep(m, k, s, tile, j, runningSum);
    }
    if k.ValidQuery() && k.Count() > 0 && Online(m, k, s, values, tile, j, runningMax, runningSum, accumulator) {
      MaxTakesTile(k, s, tile, j, runningMax);
      SeenIsFin(k, s, tile, j, newMax);
      TileSumIs(m, k, s, tile, j, newMax);
      TakeTile(m, runningMax, runningSum, TileSums(Exps(m, s), k.Count(), tile), j, newMax, SumNum(probabilities, tile));
      forall d | 0 <= d < |values|
        ensures Scaled(m, newMax, newAccumulator[d], Sum(TileSums(Weighted(m, s, values[d]), k.Count(), tile), j + 1))
      {
        TileDotIs(m, k, s, values[d], tile, j, newMax);
        TakeTile(m, runningMax, accumulator[d], TileSums(Weighted(m, s, values[d]), k.Count(), tile), j, newMax,
                 SumNum(Products(probabilities, LoadedValues(k, values[d], tile, j)), tile));
      }
    }
  }

  /** A valid row without any key does evaluate -inf - -inf. */
  lemma NoKeyStep(m: ExpLog, k: Mask, s: nat -> real, tile: nat, j: nat, runningSum: Num)
    requires k.ValidQuery() && k.Count() == 0
    ensures NewMax(k, NegInf, TileOf(MaskedScores(k, s), tile, j), tile) == NegInf
    ensures forall x :: Add(Mul(runningSum, Exp(m, Sub(NegInf, NegInf))), x) == Undefined
  {
    var scores := TileOf(MaskedScores(k, s), tile, j);
    forall i: nat | i < tile
      ensures scores(i) == NegInf
    {
      AllowsPrefix(k, j * tile + i);
    }
    AllNegInf(scores, tile);
  }

  lemma SeenIsFin(k: Mask, s: nat -> real, tile: nat, j: nat, max: Num)
    requires tile > 0 && SeenMax(k, s, (j + 1) * tile, max)
    ensures max.Fin?
  {
    assert (j + 1) * tile == j * tile + tile;
  }

  /** The kernel's loop for one query row. */
  method AttendRow(m: ExpLog, k: Mask, s: nat -> real, values: seq<nat -> real>, tile: nat)
    returns (output: seq<Num>, lse: Num)
    requires Laws(m) && tile > 0
    ensures |output| == |values|
    ensures k.ValidQuery() && k.Count() > 0 ==>
      && lse == ReferenceLse(m, k, s)
      && forall d :: 0 <= d < |values| ==> output[d] == ReferenceOutput(m, k, s, values[d])
    ensures k.ValidQuery() && k.Count() == 0 ==>
      && lse == (if k.sequenceK == 0 then NegInf else Undefined)
      && forall d :: 0 <= d < |values| ==> output[d] == Undefined
  {
    hide Laws;
    hide Online;
    hide ReferenceLse;
    hide ReferenceOutput;
    var runningMax, runningSum := NegInf, Fin(0.0);
    var accumulator := seq(|values|, _ => Fin(0.0));
    var tiles := CeilDiv(k.sequenceK, tile);
    StartsOnline(m, k, s, values, tile);
    for j := 0 to tiles
      invariant |accumulator| == |values|
      invariant k.ValidQuery() && k.Count() > 0 ==> Online(m, k, s, values, tile, j, runningMax, runningSum, accumulator)
      invariant k.ValidQuery() && k.Count() == 0 ==> runningMax == NegInf && runningSum == if j == 0 then Fin(0.0) else Undefined
    {
      runningMax, runningSum, accumulator := TileStep(m, k, s, values, tile, j, runningMax, runningSum, accumulator);
    }
    output := seq(|values|, d requires 0 <= d < |values| => Div(accumulator[d], runningSum));
    lse := Add(runningMax, Log(m, runningSum));
    if k.ValidQuery() && k.Count() > 0 {
      EndsAsReference(m, k, s, values, tile, tiles, runningMax, runningSum, accumulator);
    }
  }

  lemma StartsOnline(m: ExpLog, k: Mask, s: nat -> real, values: seq<nat -> real>, tile: nat)
    ensures Online(m, k, s, values, tile, 0, NegInf, Fin(0.0), seq(|values|, _ => Fin(0.0)))
  {
    assert 0 * tile == 0;
  }

  /** After the last tile the normalised accumulator is the materialized softmax, and the maximum
      plus the logarithm of the sum is its log-sum-exp. */
  lemma EndsAsReference(m: ExpLog, k: Mask, s: nat -> real, values: seq<nat -> real>, tile: nat, tiles: nat,
                        max: Num, sum: Num, accumulator: seq<Num>)
    requires Laws(m) && k.ValidQuery() && k.Count() > 0 && tile > 0 && tiles == CeilDiv(k.sequenceK, tile)
    requires Online(m, k, s, values, tile, tiles, max, sum, accumulator)
    ensures Add(max, Log(m, sum)) == ReferenceLse(m, k, s)
    ensures forall d :: 0 <= d < |values| ==> Div(accumulator[d], sum) == ReferenceOutput(m, k, s, values[d])
  {
    hide Laws;
    hide ReferenceLse;
    hide ReferenceOutput;
    hide Sum;
    hide TileSums;
    hide Attention;
    var n, f := k.Count(), Exps(m, s);
    CeilDivBounds(k.sequenceK, tile);
    TilesAddUp(f, n, tile, tiles);
    PartitionPositive(m, s, n);
    SeenIsFin(k, s, tile, tiles - 1, max);
    EndLse(m, k, s, max, sum);
    forall d | 0 <= d < |values|
      ensures Div(accumulator[d], sum) == ReferenceOutput(m, k, s, values[d])
    {
      TilesAddUp(Weighted(m, s, values[d]), n, tile, tiles);
      EndOutput(m, k, s, values[d], max, sum, accumulator[d]);
    }
  }

  lemma EndLse(m: ExpLog, k: Mask, s: nat -> real, max: Num, sum: Num)
    requires Laws(m) && k.ValidQuery() && k.Count() > 0 && max.Fin?
    requires Scaled(m, max, sum, Sum(Exps(m, s), k.Count())) && Sum(Exps(m, s), k.Count()) > 0.0
    ensures Add(max, Log(m, sum)) == ReferenceLse(m, k, s)
  {
    hide Laws;
    hide ReferenceLse;
    hide Sum;
    hide Log;
    ReferenceIsAttention(m, k, s, s);
    LogScaled(m, max.value, Sum(Exps(m, s), k.Count()), sum);
  }

  lemma LogScaled(m: ExpLog, x: real, z: real, sum: Num)
    requires Laws(m) && z > 0.0 && sum == Fin(m.exp(-x) * z)
    ensures Add(Fin(x), Log(m, sum)) == Fin(m.log(z))
  {
    hide Laws;
    LogShift(m, x, z);
    var total := sum.value;
    assert total == m.exp(-x) * z;
    assert x + m.log(total) == m.log(z);
  }

  lemma EndOutput(m: ExpLog, k: Mask, s: nat -> real, v: nat -> real, max: Num, sum: Num, accumulated: Num)
    requires Laws(m) && k.ValidQuery() && k.Count() > 0 && max.Fin?
    requires Scaled(m, max, sum, Sum(Exps(m, s), k.Count())) && Sum(Exps(m, s), k.Count()) > 0.0
    requires Scaled(m, max, accumulated, Sum(Weighted(m, s, v), k.Count()))
    ensures Div(accumulated, sum) == ReferenceOutput(m, k, s, v)
  {
    hide Laws;
    hide ReferenceOutput;
    hide Sum;
    ReferenceIsAttention(m, k, s, v);
    ExpPositive(m, -max.value);
    DivScaled(m.exp(-max.value), Sum(Weighted(m, s, v), k.Count()), Sum(Exps(m, s), k.Count()), accumulated, sum);
  }

  // ----- the launch -----

  /** The score and value columns of one query row. */
  function RowScores(q: seq<Row>, keys: seq<Row>, scale: real, i: nat): nat -> real
    requires i < |q|
  {
    Scores(q[i], Rows(keys), scale)
  }

  function Columns(values: seq<Row>, dims: nat): (c: seq<nat -> real>)
    ensures |c| == dims && forall d :: 0 <= d < dims ==> c[d] == Column(Rows(values), d)
  {
    seq(dims, d requires 0 <= d => Column(Rows(values), d))
  }

  /** Row `i` of the buffers is the reference row. */
  ghost predicate RowDone(m: ExpLog, k: Mask, s: nat -> real, values: seq<nat -> real>, row: seq<Num>, lse: Num) {
    && |row| == |values| && lse == ReferenceLse(m, k, s)
    && forall d :: 0 <= d < |values| ==> row[d] == ReferenceOutput(m, k, s, values[d])
  }

  /** Query rows beyond the query length: the buffers keep their initial zeros and -inf, which is
      the reference. */
  lemma InvalidRow(m: ExpLog, k: Mask, s: nat -> real, values: seq<nat -> real>)
    requires k.row >= k.queryLength
    ensures RowDone(m, k, s, values, seq(|values|, _ => Fin(0.0)), NegInf)
  {
    NoWeight(m, k, s);
  }

  lemma NoWeight(m: ExpLog, k: Mask, s: nat -> real)
    requires k.row >= k.queryLength || k.Count() == 0
    ensures ReferenceLse(m, k, s) == NegInf
  {
    var zero := (t: nat) => 0.0;
    forall t: nat | t < k.sequenceK
      ensures ExpScores(m, k, s)(t) == Fin(zero(t))
    {
      if k.ValidQuery() { AllowsPrefix(k, t); }
      assert !k.Allows(t);
      assert MaskedScores(k, s)(t) == NegInf;
    }
    SumNumFin(ExpScores(m, k, s), zero, k.sequenceK);
    SumZero(zero, k.sequenceK);
  }

  /** Without a key the reference has no weight at all: its log-sum-exp is minus infinity, and its
      output is 0 / 0 for masked keys and an empty sum for no keys. */
  lemma ReferenceNoKey(m: ExpLog, k: Mask, s: nat -> real, v: nat -> real)
    requires k.ValidQuery() && k.Count() == 0
    ensures ReferenceLse(m, k, s) == NegInf
    ensures ReferenceOutput(m, k, s, v) == if k.sequenceK == 0 then Fin(0.0) else Undefined
  {
    NoWeight(m, k, s);
    if k.sequenceK > 0 {
      ReferenceWeights(m, k, s);
      assert Sum(Exps(m, s), 0) == 0.0;
      assert Div(ExpScores(m, k, s)(0), SumNum(ExpScores(m, k, s), k.sequenceK)) == Undefined;
      assert ReferenceTerms(m, k, s, v)(0) == Undefined;
      SumNumUndefined(ReferenceTerms(m, k, s, v), k.sequenceK, 0);
    }
  }

  /** Whether the kernel's row must be the reference row: it has a key, or is beyond the queries. */
  predicate Meets(k: Mask, dims: nat) {
    k.row >= k.queryLength || (k.sequenceK > 0 && k.keyLength > 0) || (k.sequenceK == 0 && dims == 0)
  }

  /** What the programs of one batch entry and head work on. */
  datatype Plane = Plane(scale: real, q: seq<Row>, keys: seq<Row>, values: seq<Row>, dims: nat, queryLength: nat, keyLength: nat,
                         causal: bool)
  {
    function MaskAt(i: nat): Mask {
      Mask(i, |q|, queryLength, |keys|, keyLength, causal)
    }

    function ScoresAt(i: nat): nat -> real
      requires i < |q|
    {
      RowScores(q, keys, scale, i)
    }
  }

  /** The programs of one batch entry and head, causal or not, for every block size. They write the
      rows of their own plane, which begins at `base`, and no others. */
  method AttendPlane(m: ExpLog, p: Plane, blockM: nat, blockN: nat, base: nat, output: array<seq<Num>>, lse: array<Num>)
    requires Laws(m) && blockM > 0 && blockN > 0 && |p.keys| == |p.values|
    requires base + |p.q| <= output.Length == lse.Length
    requires Untouched(p.dims, 0, output[base..base + |p.q|], lse[base..base + |p.q|])
    modifies output, lse
    ensures RowsDone(m, p, |p.q|, output[base..base + |p.q|], lse[base..base + |p.q|])
    ensures output[..base] == old(output[..base]) && lse[..base] == old(lse[..base])
    ensures output[base + |p.q|..] == old(output[base + |p.q|..]) && lse[base + |p.q|..] == old(lse[base + |p.q|..])
  {
    hide Laws;
    hide RowOutcome;
    hide Untouched;
    hide RowsDone;
    var columns, n := Columns(p.values, p.dims), |p.q|;
    var blocks := CeilDiv(n, blockM);
    CeilDivBounds(n, blockM);
    NoRowDone(m, p, output[base..base + n], lse[base..base + n]);
    for block := 0 to blocks
      invariant RowsDone(m, p, block * blockM, output[base..base + n], lse[base..base + n])
      invariant Untouched(p.dims, block * blockM, output[base..base + n], lse[base..base + n])
      invariant output[..base] == old(output[..base]) && lse[..base] == old(lse[..base])
      invariant output[base + n..] == old(output[base + n..]) && lse[base + n..] == old(lse[base + n..])
    {
      var start := block * blockM;
      for lane := 0 to blockM
        invariant RowsDone(m, p, start + lane, output[base..base + n], lse[base..base + n])
        invariant Untouched(p.dims, start + lane, output[base..base + n], lse[base..base + n])
        invariant output[..base] == old(output[..base]) && lse[..base] == old(lse[..base])
        invariant output[base + n..] == old(output[base + n..]) && lse[base + n..] == old(lse[base + n..])
      {
        var i := start + lane;
        ghost var out, sums := output[base..base + n], lse[base..base + n];
        if i < n {
          var k := p.MaskAt(i);
          var row, logsum := AttendRow(m, k, p.ScoresAt(i), columns, blockN);
          StoredRow(m, k, p.ScoresAt(i), columns, row, logsum);
          StillInitial(p.dims, i, out, sums);
          LaneStored(m, p, i, out, sums, if k.ValidQuery() then row else out[i], if k.ValidQuery() then logsum else sums[i]);
          if k.ValidQuery() {
            output[base + i], lse[base + i] := row, logsum;
          }
          assert output[base..base + n] == out[i := if k.ValidQuery() then row else out[i]];
          assert lse[base..base + n] == sums[i := if k.ValidQuery() then logsum else sums[i]];
        } else {
          LaneMasked(m, p, i, out, sums);
        }
      }
      assert (block + 1) * blockM == start + blockM;
    }
    EveryRowDone(m, p, blocks * blockM, output[base..base + n], lse[base..base + n]);
  }

  lemma NoRowDone(m: ExpLog, p: Plane, output: seq<seq<Num>>, lse: seq<Num>)
    requires |output| == |lse| == |p.q|
    ensures RowsDone(m, p, 0, output, lse)
  {
  }

  lemma EveryRowDone(m: ExpLog, p: Plane, done: nat, output: seq<seq<Num>>, lse: seq<Num>)
    requires RowsDone(m, p, done, output, lse) && done >= |p.q|
    ensures RowsDone(m, p, |p.q|, output, lse)
  {
    hide RowOutcome;
  }

  // ----- the wrapper -----

  /** A tensor of shape `[batch, heads, rows, dim]`, plane by plane. */
  datatype Tensor = Tensor(batch: nat, heads: nat, rows: nat, dim: nat, planes: seq<seq<Row>>)
  {
    predicate Valid() {
      |planes| == batch * heads && forall b :: 0 <= b < |planes| ==> |planes[b]| == rows && Reference.Wide(planes[b], dim)
    }
  }

  /** The arguments of one launch. */
  datatype Launch = Launch(scale: real, q: Tensor, k: Tensor, v: Tensor, queryLengths: seq<nat>, keyLengths: seq<nat>, causal: bool)
  {
    predicate Valid() {
      && q.Valid() && k.Valid() && v.Valid() && |queryLengths| == |keyLengths| == q.batch
      && |k.planes| == |v.planes| == |q.planes| && k.rows == v.rows
    }

    /** Program `batch_head` reads the lengths of its own batch entry. */
    function PlaneAt(bh: nat): Plane
      requires Valid() && bh < |q.planes|
    {
      QuotientBelow(bh, q.batch, HeadCount(bh));
      Plane(scale, q.planes[bh], k.planes[bh], v.planes[bh], q.dim, queryLengths[bh / q.heads], keyLengths[bh / q.heads], causal)
    }

    function HeadCount(bh: nat): (h: nat)
      requires Valid() && bh < |q.planes|
      ensures h == q.heads && h > 0
    {
      ZeroProduct(q.batch, q.heads);
      q.heads
    }

    /** Where a plane begins in the buffers. */
    function Base(bh: nat): nat {
      bh * q.rows
    }
  }

  /** The plane of a batch entry and head carries that entry's lengths. */
  lemma PlaneOfHead(c: Launch, b: nat, h: nat)
    requires c.Valid() && b < c.q.batch && h < c.q.heads
    ensures b * c.q.heads + h < |c.q.planes|
    ensures c.PlaneAt(b * c.q.heads + h).queryLength == c.queryLengths[b]
    ensures c.PlaneAt(b * c.q.heads + h).keyLength == c.keyLengths[b]
  {
    RowBelow(b, c.q.batch, c.q.heads);
    DivIs(b * c.q.heads + h, c.q.heads, b, h);
  }

  lemma BaseBelow(c: Launch, r: nat, bh: nat)
    requires r < bh
    ensures c.Base(r) + c.q.rows <= c.Base(bh)
  {
    RowBelow(r, bh, c.q.rows);
  }

  /** Row `i` of plane `bh` is the reference if and only if it has a key or lies beyond the query
      length, and what it is otherwise. */
  ghost predicate PlaneRow(m: ExpLog, c: Launch, bh: nat, i: nat, output: seq<seq<Num>>, lse: seq<Num>)
    requires c.Valid() && bh < |c.q.planes| && i < c.q.rows && c.Base(bh) + c.q.rows <= |output| == |lse|
  {
    var p, x := c.PlaneAt(bh), c.Base(bh) + i;
    && RowOutcome(m, p.MaskAt(i), p.ScoresAt(i), Columns(p.values, p.dims), output[x], lse[x])
    && (RowDone(m, p.MaskAt(i), p.ScoresAt(i), Columns(p.values, p.dims), output[x], lse[x]) <==> Meets(p.MaskAt(i), p.dims))
  }

  ghost predicate PlaneDone(m: ExpLog, c: Launch, bh: nat, output: seq<seq<Num>>, lse: seq<Num>)
    requires c.Valid() && bh < |c.q.planes|
  {
    && c.Base(bh) + c.q.rows <= |output| == |lse|
    && forall i: nat :: i < c.q.rows ==> PlaneRow(m, c, bh, i, output, lse)
  }

  lemma PlaneIsDone(m: ExpLog, c: Launch, bh: nat, output: seq<seq<Num>>, lse: seq<Num>)
    requires c.Valid() && bh < |c.q.planes| && c.Base(bh) + c.q.rows <= |output| == |lse|
    requires RowsDone(m, c.PlaneAt(bh), c.q.rows, output[c.Base(bh)..c.Base(bh) + c.q.rows], lse[c.Base(bh)..c.Base(bh) + c.q.rows])
    ensures PlaneDone(m, c, bh, output, lse)
  {
    hide RowOutcome;
    hide RowDone;
    hide Meets;
    hide Launch.Base;
    var p, base := c.PlaneAt(bh), c.Base(bh);
    forall i: nat | i < c.q.rows
      ensures PlaneRow(m, c, bh, i, output, lse)
    {
      assert output[base..base + c.q.rows][i] == output[base + i] && lse[base..base + c.q.rows][i] == lse[base + i];
      OutcomeOf(m, p.MaskAt(i), p.ScoresAt(i), Columns(p.values, p.dims), output[base + i], lse[base + i]);
    }
  }

  /** A plane below the one that is written stays done. */
  lemma PlaneKept(m: ExpLog, c: Launch, bh: nat, n: nat, output: seq<seq<Num>>, lse: seq<Num>, output': seq<seq<Num>>, lse': seq<Num>)
    requires c.Valid() && bh < |c.q.planes| && PlaneDone(m, c, bh, output, lse)
    requires c.Base(bh) + c.q.rows <= n <= |output| == |output'| == |lse'|
    requires output'[..n] == output[..n] && lse'[..n] == lse[..n]
    ensures PlaneDone(m, c, bh, output', lse')
  {
    hide RowOutcome;
    hide RowDone;
    hide Meets;
    hide Launch.Base;
    forall i: nat | i < c.q.rows
      ensures PlaneRow(m, c, bh, i, output', lse')
    {
      var x := c.Base(bh) + i;
      assert PlaneRow(m, c, bh, i, output, lse);
      assert output'[..n][x] == output[..n][x] && lse'[..n][x] == lse[..n][x];
    }
  }

  /** The planes below `done` are done, and those from there on hold their initial values. */
  ghost predicate Planes(m: ExpLog, c: Launch, done: nat, output: seq<seq<Num>>, lse: seq<Num>)
    requires c.Valid()
  {
    && done <= |c.q.planes| && |output| == |lse| == c.Base(|c.q.planes|)
    && (forall bh :: 0 <= bh < done ==> PlaneDone(m, c, bh, output, lse))
    && (forall x :: 0 <= x < |output| && c.Base(done) <= x ==> Initial(c.q.dim, output[x], lse[x]))
  }

  predicate Initial(dims: nat, row: seq<Num>, lse: Num) {
    row == seq(dims, _ => Fin(0.0)) && lse == NegInf
  }

  /** One more plane is written, and nothing else. */
  lemma PlanesNext(m: ExpLog, c: Launch, bh: nat, output: seq<seq<Num>>, lse: seq<Num>, output': seq<seq<Num>>, lse': seq<Num>)
    requires c.Valid() && bh < |c.q.planes| && Planes(m, c, bh, output, lse) && PlaneDone(m, c, bh, output', lse')
    requires |output'| == |output| == |lse'| == |lse| && c.Base(bh) <= c.Base(bh + 1) <= |output|
    requires output'[..c.Base(bh)] == output[..c.Base(bh)] && lse'[..c.Base(bh)] == lse[..c.Base(bh)]
    requires output'[c.Base(bh + 1)..] == output[c.Base(bh + 1)..] && lse'[c.Base(bh + 1)..] == lse[c.Base(bh + 1)..]
    ensures Planes(m, c, bh + 1, output', lse')
  {
    hide PlaneDone;
    hide Initial;
    hide Launch.Base;
    var n := c.Base(bh + 1);
    forall b | 0 <= b < bh
      ensures PlaneDone(m, c, b, output', lse')
    {
      BaseBelow(c, b, bh);
      PlaneSize(m, c, b, output, lse);
      PlaneKept(m, c, b, c.Base(bh), output, lse, output', lse');
    }
    forall x: nat | n <= x < |output'|
      ensures Initial(c.q.dim, output'[x], lse'[x])
    {
      SameTail(n, x, output, output');
      SameTail(n, x, lse, lse');
      assert Initial(c.q.dim, output[x], lse[x]);
    }
  }

  lemma SameTail<T>(n: nat, x: nat, a: seq<T>, b: seq<T>)
    requires n <= x < |a| == |b| && b[n..] == a[n..]
    ensures b[x] == a[x]
  {
    assert b[n..][x - n] == a[n..][x - n];
  }

  lemma PlaneSize(m: ExpLog, c: Launch, bh: nat, output: seq<seq<Num>>, lse: seq<Num>)
    requires c.Valid() && bh < |c.q.planes| && PlaneDone(m, c, bh, output, lse)
    ensures c.Base(bh) + c.q.rows <= |output| == |lse|
  {
  }

  lemma PlaneInitial(m: ExpLog, c: Launch, bh: nat, output: seq<seq<Num>>, lse: seq<Num>)
    requires c.Valid() && Planes(m, c, bh, output, lse) && c.Base(bh) + c.q.rows <= |output|
    ensures Untouched(c.q.dim, 0, output[c.Base(bh)..c.Base(bh) + c.q.rows], lse[c.Base(bh)..c.Base(bh) + c.q.rows])
  {
    hide PlaneDone;
    hide Launch.Base;
    assert forall x :: 0 <= x < |output| && c.Base(bh) <= x ==> Initial(c.q.dim, output[x], lse[x]);
  }

  predicate Accepted(q: Tensor, k: Tensor, v: Tensor) {
    && (k.batch, k.heads, k.rows, k.dim) == (v.batch, v.heads, v.rows, v.dim)
    && (q.batch, q.heads) == (k.batch, k.heads) && q.dim == k.dim && q.dim <= 256
  }

  /** Lengths that are not given are the whole sequence. */
  function LengthsOr(given: Option<seq<nat>>, batch: nat, rows: nat): (r: seq<nat>)
    ensures given.None? ==> |r| == batch
  {
    if given.Some? then given.value else seq(batch, _ => rows)
  }

  /** How many of the leading keys row `i` may attend to. */
  function KeyCount(i: nat, rows: nat, keyLength: nat, causal: bool): nat {
    var n := if keyLength < rows then keyLength else rows;
    if causal && i + 1 < n then i + 1 else n
  }

  /** A query row beyond its length stays zero, with a log-sum-exp of minus infinity; any other row
      is softmax attention over the first `n` keys and values, with the logarithm of its
      denominator, and undefined without a key. */
  ghost predicate RowAttends(m: ExpLog, scale: real, q: Row, keys: seq<Row>, values: seq<Row>, n: nat, valid: bool,
                             out: seq<Num>, lse: Num)
  {
    && |out| == |q| && n <= |keys| == |values| && Reference.Wide(keys, |q|) && Reference.Wide(values, |q|)
    && if !valid then lse == NegInf && forall d :: 0 <= d < |q| ==> out[d] == Fin(0.0)
       else if n == 0 then lse == (if |keys| == 0 then NegInf else Undefined) && forall d :: 0 <= d < |q| ==> out[d] == Undefined
       else
         var mass := Reference.Mass(m.exp, scale, q, keys, n);
         && mass > 0.0 && lse == Fin(m.log(mass))
         && forall d :: 0 <= d < |q| ==> out[d] == Fin(Reference.Moment(m.exp, scale, q, keys, values, d, n) / mass)
  }

  /** Row `i` of head `h` of entry `b`, in terms of the tensors of the call. */
  ghost predicate HeadRowAttends(m: ExpLog, scale: real, q: Tensor, k: Tensor, v: Tensor, queryLengths: Option<seq<nat>>,
                                 keyLengths: Option<seq<nat>>, causal: bool, b: nat, h: nat, i: nat, output: seq<seq<Num>>, lse: seq<Num>)
  {
    var plane := HeadNumber(q, b, h);
    var row := RowNumber(q, plane, i);
    && plane < |q.planes| == |k.planes| == |v.planes| && i < |q.planes[plane]| && row < |output| == |lse|
    && (queryLengths.Some? ==> b < |queryLengths.value|) && (keyLengths.Some? ==> b < |keyLengths.value|)
    && RowAttends(m, scale, q.planes[plane][i], k.planes[plane], v.planes[plane],
                  KeyCount(i, k.rows, if keyLengths.Some? then keyLengths.value[b] else k.rows, causal),
                  i < if queryLengths.Some? then queryLengths.value[b] else q.rows, output[row], lse[row])
  }

  function HeadNumber(q: Tensor, b: nat, h: nat): nat {
    NatTimes(b, q.heads);
    b * q.heads + h
  }

  function RowNumber(q: Tensor, plane: nat, i: nat): nat {
    NatTimes(plane, q.rows);
    plane * q.rows + i
  }

  lemma PlaneAttends(m: ExpLog, c: Launch, queryLengths: Option<seq<nat>>, keyLengths: Option<seq<nat>>, b: nat, h: nat, i: nat,
                     output: seq<seq<Num>>, lse: seq<Num>)
    requires Laws(m) && c.Valid() && b < c.q.batch && h < c.q.heads && i < c.q.rows && c.q.dim > 0 && c.k.dim == c.v.dim == c.q.dim
    requires c.queryLengths == LengthsOr(queryLengths, c.q.batch, c.q.rows) && c.keyLengths == LengthsOr(keyLengths, c.q.batch, c.k.rows)
    requires forall bh :: 0 <= bh < |c.q.planes| ==> PlaneDone(m, c, bh, output, lse)
    ensures HeadRowAttends(m, c.scale, c.q, c.k, c.v, queryLengths, keyLengths, c.causal, b, h, i, output, lse)
  {
    hide Laws;
    hide PlaneDone;
    hide RowAttends;
    hide RowOutcome;
    hide Launch.Base;
    hide Launch.PlaneAt;
    hide Launch.Valid;
    hide Tensor.Valid;
    hide HeadNumber;
    hide RowNumber;
    hide Reference.Wide;
    var x := HeadNumber(c.q, b, h);
    HeadPlane(c, b, h);
    PlaneRowOf(m, c, x, i, output, lse);
    RowPlace(c, x, i);
    RowInTerms(m, c.PlaneAt(x), i, output[c.Base(x) + i], lse[c.Base(x) + i]);
  }

  lemma RowPlace(c: Launch, x: nat, i: nat)
    ensures RowNumber(c.q, x, i) == c.Base(x) + i
  {
  }

  lemma HeadPlane(c: Launch, b: nat, h: nat)
    requires c.Valid() && b < c.q.batch && h < c.q.heads && c.k.dim == c.v.dim == c.q.dim
    ensures var x := HeadNumber(c.q, b, h);
      && x < |c.q.planes| == |c.k.planes| == |c.v.planes| && |c.q.planes[x]| == c.q.rows
      && |c.queryLengths| == |c.keyLengths| == c.q.batch
      && c.PlaneAt(x) == Plane(c.scale, c.q.planes[x], c.k.planes[x], c.v.planes[x], c.q.dim, c.queryLengths[b], c.keyLengths[b], c.causal)
      && |c.k.planes[x]| == |c.v.planes[x]| == c.k.rows
      && Reference.Wide(c.q.planes[x], c.q.dim) && Reference.Wide(c.k.planes[x], c.q.dim) && Reference.Wide(c.v.planes[x], c.q.dim)
  {
    hide Reference.Wide;
    PlaneOfHead(c, b, h);
  }

  lemma PlaneRowOf(m: ExpLog, c: Launch, bh: nat, i: nat, output: seq<seq<Num>>, lse: seq<Num>)
    requires c.Valid() && bh < |c.q.planes| && i < c.q.rows && PlaneDone(m, c, bh, output, lse)
    ensures c.Base(bh) + c.q.rows <= |output| == |lse|
    ensures var p := c.PlaneAt(bh);
      RowOutcome(m, p.MaskAt(i), p.ScoresAt(i), Columns(p.values, p.dims), output[c.Base(bh) + i], lse[c.Base(bh) + i])
  {
    hide RowOutcome;
    hide RowDone;
    hide Meets;
    hide Launch.Base;
    assert PlaneRow(m, c, bh, i, output, lse);
  }

  /** The outcome of a row, as plain sums. */
  lemma RowInTerms(m: ExpLog, p: Plane, i: nat, out: seq<Num>, lse: Num)
    requires Laws(m) && i < |p.q| && Reference.Wide(p.q, p.dims) && p.dims > 0 && |p.values| == |p.keys|
    requires Reference.Wide(p.keys, p.dims) && Reference.Wide(p.values, p.dims)
    requires RowOutcome(m, p.MaskAt(i), p.ScoresAt(i), Columns(p.values, p.dims), out, lse)
    ensures RowAttends(m, p.scale, p.q[i], p.keys, p.values, KeyCount(i, |p.keys|, p.keyLength, p.causal), i < p.queryLength, out, lse)
  {
    hide Laws;
    hide ReferenceLse;
    hide ReferenceOutput;
    hide Attention;
    hide Exps;
    hide Weighted;
    hide Sum;
    var k, s, n := p.MaskAt(i), p.ScoresAt(i), KeyCount(i, |p.keys|, p.keyLength, p.causal);
    assert k.Count() == n;
    if i < p.queryLength && n > 0 {
      ReferenceIsAttention(m, k, s, Column(Rows(p.values), 0));
      AttentionIs(m, p.scale, p.q[i], p.keys, p.values, 0, n);
      MassIs(m, p.scale, p.q[i], p.keys, n);
      forall d: nat | d < p.dims
        ensures out[d] == Fin(Reference.Moment(m.exp, p.scale, p.q[i], p.keys, p.values, d, n) / Reference.Mass(m.exp, p.scale, p.q[i], p.keys, n))
      {
        ReferenceIsAttention(m, k, s, Column(Rows(p.values), d));
        AttentionIs(m, p.scale, p.q[i], p.keys, p.values, d, n);
      }
    }
  }

  /** `triton_attention`: tensors that do not fit together are refused; otherwise every plane of the
      output and of the log-sum-exp is done, with the lengths of its own batch entry. */
  method AttentionForward(m: ExpLog, scale: real, q: Tensor, k: Tensor, v: Tensor, queryLengths: Option<seq<nat>>,
                          keyLengths: Option<seq<nat>>, causal: bool, blockM: nat, blockN: nat)
    returns (r: Outcome<(array<seq<Num>>, array<Num>)>)
    requires Laws(m) && blockM > 0 && blockN > 0 && q.Valid() && k.Valid() && v.Valid()
    requires (queryLengths.Some? ==> |queryLengths.value| == q.batch) && (keyLengths.Some? ==> |keyLengths.value| == q.batch)
    ensures r.Returns? <==> Accepted(q, k, v) && q.dim > 0
    ensures r.Raises? ==> r.error == if Accepted(q, k, v) then ZeroDivisionError else ValueError
    ensures r.Returns? ==>
      var c := Launch(scale, q, k, v, LengthsOr(queryLengths, q.batch, q.rows), LengthsOr(keyLengths, q.batch, k.rows), causal);
      && c.Valid() && fresh(r.value.0) && fresh(r.value.1)
      && r.value.0.Length == r.value.1.Length == c.Base(|q.planes|)
      && (forall bh :: 0 <= bh < |q.planes| ==> PlaneDone(m, c, bh, r.value.0[..], r.value.1[..]))
      && forall b: nat, h: nat, i: nat :: b < q.batch && h < q.heads && i < q.rows ==>
           HeadRowAttends(m, scale, q, k, v, queryLengths, keyLengths, causal, b, h, i, r.value.0[..], r.value.1[..])
  {
    hide Laws;
    hide Planes;
    hide PlaneDone;
    hide HeadRowAttends;
    hide Launch.Base;
    if !Accepted(q, k, v) { return Raises(ValueError); }
    if q.dim == 0 { return Raises(ZeroDivisionError); }
    var c := Launch(scale, q, k, v, LengthsOr(queryLengths, q.batch, q.rows), LengthsOr(keyLengths, q.batch, k.rows), causal);
    var output := new seq<Num>[c.Base(|q.planes|)](_ => seq(q.dim, _ => Fin(0.0)));
    var lse := new Num[c.Base(|q.planes|)](_ => NegInf);
    NoPlane(m, c, output[..], lse[..]);
    for bh := 0 to |q.planes|
      invariant Planes(m, c, bh, output[..], lse[..])
    {
      WritePlane(m, c, bh, blockM, blockN, output, lse);
    }
    AllPlanes(m, c, output[..], lse[..]);
    forall b: nat, h: nat, i: nat | b < q.batch && h < q.heads && i < q.rows
      ensures HeadRowAttends(m, scale, q, k, v, queryLengths, keyLengths, causal, b, h, i, output[..], lse[..])
    {
      PlaneAttends(m, c, queryLengths, keyLengths, b, h, i, output[..], lse[..]);
    }
    r := Returns((output, lse));
  }

  /** The programs of plane `bh`. */
  method WritePlane(m: ExpLog, c: Launch, bh: nat, blockM: nat, blockN: nat, output: array<seq<Num>>, lse: array<Num>)
    requires Laws(m) && blockM > 0 && blockN > 0 && c.Valid() && bh < |c.q.planes|
    requires output.Length == lse.Length == c.Base(|c.q.planes|) && Planes(m, c, bh, output[..], lse[..])
    modifies output, lse
    ensures Planes(m, c, bh + 1, output[..], lse[..])
  {
    hide Laws;
    hide Planes;
    hide PlaneDone;
    hide RowsDone;
    hide Untouched;
    hide Launch.Base;
    ghost var out, sums := output[..], lse[..];
    var base, n := c.Base(bh), c.Base(bh + 1);
    BaseNext(c, bh);
    BaseUpTo(c, bh + 1, |c.q.planes|);
    PlaneInitial(m, c, bh, out, sums);
    assert out[base..base + c.q.rows] == output[base..base + c.q.rows] && sums[base..base + c.q.rows] == lse[base..base + c.q.rows];
    AttendPlane(m, c.PlaneAt(bh), blockM, blockN, base, output, lse);
    ghost var out', sums' := output[..], lse[..];
    assert out'[base..base + c.q.rows] == output[base..base + c.q.rows] && sums'[base..base + c.q.rows] == lse[base..base + c.q.rows];
    PlaneIsDone(m, c, bh, out', sums');
    assert out'[..base] == output[..base] && sums'[..base] == lse[..base] && out[..base] == old(output[..base]) && sums[..base] == old(lse[..base]);
    assert out'[n..] == output[n..] && sums'[n..] == lse[n..] && out[n..] == old(output[n..]) && sums[n..] == old(lse[n..]);
    PlanesNext(m, c, bh, out, sums, out', sums');
  }

  lemma NoPlane(m: ExpLog, c: Launch, output: seq<seq<Num>>, lse: seq<Num>)
    requires c.Valid() && |output| == |lse| == c.Base(|c.q.planes|)
    requires forall x :: 0 <= x < |output| ==> Initial(c.q.dim, output[x], lse[x])
    ensures Planes(m, c, 0, output, lse)
  {
  }

  lemma AllPlanes(m: ExpLog, c: Launch, output: seq<seq<Num>>, lse: seq<Num>)
    requires c.Valid() && Planes(m, c, |c.q.planes|, output, lse)
    ensures forall bh :: 0 <= bh < |c.q.planes| ==> PlaneDone(m, c, bh, output, lse)
  {
    hide PlaneDone;
  }

  lemma BaseNext(c: Launch, bh: nat)
    ensures c.Base(bh) + c.q.rows == c.Base(bh + 1)
  {
    assert (bh + 1) * c.q.rows == bh * c.q.rows + c.q.rows;
  }

  lemma BaseUpTo(c: Launch, bh: nat, n: nat)
    requires bh <= n
    ensures c.Base(bh) <= c.Base(n)
  {
    MulMonotone(bh, n, c.q.rows);
  }

  lemma OutcomeOf(m: ExpLog, k: Mask, s: nat -> real, values: seq<nat -> real>, row: seq<Num>, lse: Num)
    requires RowOutcome(m, k, s, values, row, lse) && k.row < k.sequenceQ
    ensures RowDone(m, k, s, values, row, lse) <==> Meets(k, |values|)
  {
    hide ReferenceLse;
    hide ReferenceOutput;
    if k.row >= k.queryLength {
      InvalidRow(m, k, s, values);
      assert row == seq(|values|, _ => Fin(0.0));
    } else if k.Count() == 0 {
      ReferenceNoKey(m, k, s, s);
      if |values| > 0 { ReferenceNoKey(m, k, s, values[0]); }
    }
  }

  /** What rows below `done` hold. */
  ghost predicate RowsDone(m: ExpLog, p: Plane, done: nat, output: seq<seq<Num>>, lse: seq<Num>) {
    && |output| == |lse| == |p.q|
    && forall i: nat :: i < done && i < |p.q| ==>
         RowOutcome(m, p.MaskAt(i), p.ScoresAt(i), Columns(p.values, p.dims), output[i], lse[i])
  }

  /** Rows beyond the queries keep their zeros and minus infinity; rows with a key are the
      reference; rows without one are 0 / 0, with a log-sum-exp of -inf or of -inf - -inf. */
  ghost predicate RowOutcome(m: ExpLog, k: Mask, s: nat -> real, values: seq<nat -> real>, row: seq<Num>, lse: Num) {
    && |row| == |values|
    && (k.row >= k.queryLength ==> lse == NegInf && forall d :: 0 <= d < |row| ==> row[d] == Fin(0.0))
    && (k.row < k.queryLength && k.sequenceK > 0 && k.keyLength > 0 ==> RowDone(m, k, s, values, row, lse))
    && (k.row < k.queryLength && (k.sequenceK == 0 || k.keyLength == 0) ==>
          lse == (if k.sequenceK == 0 then NegInf else Undefined) && forall d :: 0 <= d < |row| ==> row[d] == Undefined)
  }

  ghost predicate Untouched(dims: nat, done: nat, output: seq<seq<Num>>, lse: seq<Num>) {
    |output| == |lse| && forall i: nat :: done <= i < |lse| ==> output[i] == seq(dims, _ => Fin(0.0)) && lse[i] == NegInf
  }

  lemma StillInitial(dims: nat, i: nat, output: seq<seq<Num>>, lse: seq<Num>)
    requires Untouched(dims, i, output, lse) && i < |lse|
    ensures i < |output| && output[i] == seq(dims, _ => Fin(0.0)) && lse[i] == NegInf
  {
  }

  lemma LaneStored(m: ExpLog, p: Plane, i: nat, output: seq<seq<Num>>, lse: seq<Num>, row: seq<Num>, logsum: Num)
    requires RowsDone(m, p, i, output, lse) && Untouched(p.dims, i, output, lse) && i < |p.q| == |output| == |lse|
    requires RowOutcome(m, p.MaskAt(i), p.ScoresAt(i), Columns(p.values, p.dims), row, logsum)
    ensures RowsDone(m, p, i + 1, output[i := row], lse[i := logsum])
    ensures Untouched(p.dims, i + 1, output[i := row], lse[i := logsum])
  {
    hide RowOutcome;
  }

  lemma LaneMasked(m: ExpLog, p: Plane, i: nat, output: seq<seq<Num>>, lse: seq<Num>)
    requires RowsDone(m, p, i, output, lse) && Untouched(p.dims, i, output, lse) && i >= |p.q|
    ensures RowsDone(m, p, i + 1, output, lse) && Untouched(p.dims, i + 1, output, lse)
  {
    hide RowOutcome;
  }

  lemma StoredRow(m: ExpLog, k: Mask, s: nat -> real, values: seq<nat -> real>, row: seq<Num>, lse: Num)
    requires |row| == |values| && k.row < k.sequenceQ
    requires k.ValidQuery() && k.Count() > 0 ==> RowDone(m, k, s, values, row, lse)
    requires k.ValidQuery() && k.Count() == 0 ==>
      lse == (if k.sequenceK == 0 then NegInf else Undefined) && forall d :: 0 <= d < |row| ==> row[d] == Undefined
    ensures RowOutcome(m, k, s, values, if k.ValidQuery() then row else seq(|values|, _ => Fin(0.0)), if k.ValidQuery() then lse else NegInf)
  {
  }
}
