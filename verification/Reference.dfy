/** What the kernels must compute, as plain sums over rows and columns. No kernel uses any of it. */
module Reference {
  /** `exp` and `log`, by their laws only; see module Softmax. */
  type Fn = real -> real
  type Vector = seq<real>

  /** The dot product of the first `n` entries. */
  function DotTo(a: Vector, b: Vector, n: nat): real
    requires n <= |a| && n <= |b|
  {
    if n == 0 then 0.0 else DotTo(a, b, n - 1) + a[n - 1] * b[n - 1]
  }

  /** The scaled score of one key. */
  function ScoreOf(scale: real, q: Vector, key: Vector): real
    requires |key| == |q|
  {
    DotTo(q, key, |q|) * scale
  }

  predicate Wide(rows: seq<Vector>, dims: nat) {
    forall t :: 0 <= t < |rows| ==> |rows[t]| == dims
  }

  /** The softmax denominator over the first `n` keys. */
  function Mass(exp: Fn, scale: real, q: Vector, keys: seq<Vector>, n: nat): real
    requires n <= |keys| && Wide(keys, |q|)
  {
    if n == 0 then 0.0 else Mass(exp, scale, q, keys, n - 1) + exp(ScoreOf(scale, q, keys[n - 1]))
  }

  /** The softmax numerator of output column `d`. */
  function Moment(exp: Fn, scale: real, q: Vector, keys: seq<Vector>, values: seq<Vector>, d: nat, n: nat): real
    requires n <= |keys| && n <= |values| && Wide(keys, |q|) && Wide(values, |q|) && d < |q|
  {
    if n == 0 then 0.0
    else Moment(exp, scale, q, keys, values, d, n - 1) + exp(ScoreOf(scale, q, keys[n - 1])) * values[n - 1][d]
  }

  // ----- matrix products -----

  /** `sum over x < n of a[x] * b[x][j]` */
  function ColumnProduct(a: Vector, b: seq<Vector>, j: nat, n: nat): real
    requires n <= |a| && n <= |b| && forall x :: 0 <= x < |b| ==> j < |b[x]|
  {
    if n == 0 then 0.0 else ColumnProduct(a, b, j, n - 1) + a[n - 1] * b[n - 1][j]
  }

  /** `sum over c < n of codes[c] * scales[c / group] * inverse[c] * x[c]`, the product of an INT8 row. */
  function Int8Product(codes: seq<int>, scales: Vector, inverse: Vector, group: nat, x: Vector, n: nat): real
    requires n <= |codes| && n <= |inverse| && n <= |x| && group > 0
    requires forall c: nat :: c < n ==> c / group < |scales|
  {
    if n == 0 then 0.0
    else
      Int8Product(codes, scales, inverse, group, x, n - 1)
      + codes[n - 1] as real * scales[(n - 1) / group] * inverse[n - 1] * x[n - 1]
  }
}
