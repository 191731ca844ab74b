/** Exact softmax arithmetic for the attention kernels: reals, minus infinity, and `Undefined`
    for everything that is no number any more, such as -inf - -inf or 0 / 0. */
module Softmax {
  import opened Sums

  datatype Num = NegInf | Fin(value: real) | Undefined

  /** The exponential and the logarithm, known by their laws only. */
  datatype ExpLog = ExpLog(exp: real -> real, log: real -> real)

  ghost predicate Laws(m: ExpLog) {
    && (forall x :: m.exp(x) > 0.0)
    && (forall x, y :: m.exp(x + y) == m.exp(x) * m.exp(y))
    && (forall y :: y > 0.0 ==> m.exp(m.log(y)) == y)
    && (forall x :: m.log(m.exp(x)) == x)
  }

  lemma ExpPositive(m: ExpLog, x: real)
    requires Laws(m)
    ensures m.exp(x) > 0.0
  {
  }

  lemma ExpSum(m: ExpLog, x: real, y: real)
    requires Laws(m)
    ensures m.exp(x + y) == m.exp(x) * m.exp(y)
  {
  }

  lemma ExpOfLog(m: ExpLog, y: real)
    requires Laws(m) && y > 0.0
    ensures m.exp(m.log(y)) == y
  {
  }

  lemma LogOfExp(m: ExpLog, x: real)
    requires Laws(m)
    ensures m.log(m.exp(x)) == x
  {
  }

  function Add(a: Num, b: Num): Num {
    if a.Undefined? || b.Undefined? then Undefined
    else if a.NegInf? || b.NegInf? then NegInf
    else Fin(a.value + b.value)
  }

  function Sub(a: Num, b: Num): Num {
    if !b.Fin? then Undefined
    else if a.Fin? then Fin(a.value - b.value)
    else a
  }

  function Mul(a: Num, b: Num): Num {
    if a.Fin? && b.Fin? then Fin(a.value * b.value) else Undefined
  }

  function Div(a: Num, b: Num): Num {
    if a.Fin? && b.Fin? && b.value != 0.0 then Fin(a.value / b.value) else Undefined
  }

  function Max(a: Num, b: Num): Num {
    if a.Undefined? || b.Undefined? then Undefined
    else if a.NegInf? then b
    else if b.NegInf? then a
    else if a.value >= b.value then a
    else b
  }

  function Exp(m: ExpLog, a: Num): Num {
    match a
    case NegInf => Fin(0.0)
    case Fin(x) => Fin(m.exp(x))
    case Undefined => Undefined
  }

  function Log(m: ExpLog, a: Num): Num {
    if a.Fin? && a.value > 0.0 then Fin(m.log(a.value))
    else if a == Fin(0.0) then NegInf
    else Undefined
  }

  /** `tl.sum` */
  function SumNum(f: nat -> Num, n: nat): Num {
    if n == 0 then Fin(0.0) else Add(SumNum(f, n - 1), f(n - 1))
  }

  /** `tl.max` */
  function MaxNum(f: nat -> Num, n: nat): Num {
    if n == 0 then NegInf else Max(MaxNum(f, n - 1), f(n - 1))
  }

  lemma {:induction false} SumNumFin(f: nat -> Num, g: nat -> real, n: nat)
    requires forall i: nat :: i < n ==> f(i) == Fin(g(i))
    ensures SumNum(f, n) == Fin(Sum(g, n))
  {
    if n > 0 { SumNumFin(f, g, n - 1); }
  }

  /** Sums of terms that share a factor. */
  lemma {:induction false} SumNumScaled(c: real, f: nat -> Num, g: nat -> real, n: nat)
    requires forall i: nat :: i < n ==> f(i) == Fin(c * g(i))
    ensures SumNum(f, n) == Fin(c * Sum(g, n))
  {
    if n > 0 {
      SumNumScaled(c, f, g, n - 1);
      assert c * Sum(g, n) == c * Sum(g, n - 1) + c * g(n - 1);
    }
  }

  lemma {:induction false} SumNumUndefined(f: nat -> Num, n: nat, i: nat)
    requires i < n && f(i) == Undefined
    ensures SumNum(f, n) == Undefined
  {
    if i < n - 1 { SumNumUndefined(f, n - 1, i); }
  }

  /** `m` is the greatest of the first `n` terms, minus infinity counting as none. */
  ghost predicate IsMax(f: nat -> Num, n: nat, m: Num) {
    && (m == NegInf || exists i: nat :: i < n && f(i) == m)
    && (forall i: nat :: i < n ==> f(i).NegInf? || (f(i).Fin? && m.Fin? && f(i).value <= m.value))
  }

  lemma {:induction false} MaxNumIsMax(f: nat -> Num, n: nat)
    requires forall i: nat :: i < n ==> !f(i).Undefined?
    ensures !MaxNum(f, n).Undefined? && IsMax(f, n, MaxNum(f, n))
  {
    if n > 0 {
      MaxNumIsMax(f, n - 1);
      var a, b := MaxNum(f, n - 1), MaxNum(f, n);
      assert b == a || b == f(n - 1);
    }
  }

  // ----- the one-shot formula -----

  function Exps(m: ExpLog, s: nat -> real): nat -> real {
    (t: nat) => m.exp(s(t))
  }

  function Weighted(m: ExpLog, s: nat -> real, v: nat -> real): nat -> real {
    (t: nat) => m.exp(s(t)) * v(t)
  }

  lemma PartitionPositive(m: ExpLog, s: nat -> real, n: nat)
    requires Laws(m) && n > 0
    ensures Sum(Exps(m, s), n) > 0.0
  {
    hide Laws;
    forall i: nat | i < n
      ensures Exps(m, s)(i) > 0.0
    {
      ExpPositive(m, s(i));
    }
    SumPositive(Exps(m, s), n);
  }

  /** Softmax attention over exactly the first `n` positions: the value of each position
      weighted by `exp(score)`, over the sum of the weights. */
  function Attention(m: ExpLog, s: nat -> real, v: nat -> real, n: nat): Num {
    Div(Fin(Sum(Weighted(m, s, v), n)), Fin(Sum(Exps(m, s), n)))
  }

  // ----- arithmetic steps -----

  lemma ExpZero(m: ExpLog, x: real)
    requires Laws(m) && x == 0.0
    ensures m.exp(x) == 1.0
  {
    hide Laws;
    ExpPositive(m, x);
    ExpSum(m, x, x);
    var e, twice := m.exp(x), m.exp(x + x);
    assert twice == e * e;
    assert twice == e;
    OwnSquare(e);
  }

  lemma OwnSquare(e: real)
    requires e > 0.0 && e == e * e
    ensures e == 1.0
  {
    assert e * (1.0 - e) == e - e * e;
    assert e * (e - 1.0) == e * e - e;
    if e < 1.0 {
      MulPositive(e, 1.0 - e);
    } else if e > 1.0 {
      MulPositive(e, e - 1.0);
    }
  }

  lemma ExpShift(m: ExpLog, x: real, shift: real)
    requires Laws(m)
    ensures m.exp(x - shift) == m.exp(-shift) * m.exp(x)
  {
    hide Laws;
    ExpSum(m, -shift, x);
    assert x - shift == (-shift) + x;
  }

  lemma ExpInverse(m: ExpLog, x: real)
    requires Laws(m)
    ensures m.exp(x) * m.exp(-x) == 1.0
  {
    hide Laws;
    ExpZero(m, x + -x);
    ExpSum(m, x, -x);
  }

  lemma Cancel(c: real, a: real, z: real)
    requires c != 0.0 && z != 0.0
    ensures c * z != 0.0 && (c * a) / (c * z) == a / z
  {
    var q := a / z;
    assert a == q * z;
    assert c * a == q * (c * z);
  }

  lemma DivScaled(c: real, a: real, z: real, numerator: Num, denominator: Num)
    requires c > 0.0 && z > 0.0 && numerator == Fin(c * a) && denominator == Fin(c * z)
    ensures Div(numerator, denominator) == Div(Fin(a), Fin(z)) == Fin(a / z)
  {
    MulPositive(c, z);
    Cancel(c, a, z);
  }
}
