/** learning/10_cuda_decode/warp_gemv.cu: one warp per output row, lane-strided dot products, the
    shuffle reduction, and grid-stride rows. */
module WarpGemv {
  import opened Basics
  import PagedGather
  import opened Sums
  import opened Bits
  import opened Gemm
  import R = Reference

  const LANES: nat := 32

  // ----- the shuffle reduction -----

  /** Before the step with distance `d`, lanes below `2 * d` hold their residue class modulo
      `2 * d`. */
  ghost predicate Folded(v: seq<real>, f: nat -> real, stride: nat, count: nat) {
    |v| == LANES && stride * count == LANES && forall l: nat :: l < stride && l < |v| ==> v[l] == Sum(Stride(f, stride, l), count)
  }

  lemma StartFolded(v: seq<real>, f: nat -> real)
    requires |v| == LANES && forall l: nat :: l < LANES ==> v[l] == f(l)
    ensures Folded(v, f, 32, 1)
  {
    forall l: nat | l < LANES
      ensures v[l] == Sum(Stride(f, 32, l), 1)
    {
      assert Sum(Stride(f, 32, l), 1) == Sum(Stride(f, 32, l), 0) + Stride(f, 32, l)(0);
    }
  }

  /** One shuffle step: lanes below `d` add their upper neighbour. */
  lemma StepFolded(v: seq<real>, v': seq<real>, f: nat -> real, d: nat, count: nat)
    requires d > 0 && Folded(v, f, 2 * d, count) && |v'| == LANES
    requires forall l: nat :: l < LANES ==> v'[l] == v[l] + (if l + d < LANES then v[l + d] else v[l])
    ensures Folded(v', f, d, 2 * count)
  {
    assert d * (2 * count) == (2 * d) * count;
    ZeroProduct(2 * d, count);
    MulMonotone(1, count, 2 * d);
    forall l: nat | l < d
      ensures v'[l] == Sum(Stride(f, d, l), 2 * count)
    {
      ClassSplits(f, d, l, count);
    }
  }

  /** `warp_sum`: afterwards lane 0 holds the sum of all lanes. */
  method WarpSum(v: array<real>, ghost f: nat -> real)
    requires v.Length == LANES && forall l: nat :: l < LANES ==> v[l] == f(l)
    modifies v
    ensures v[0] == Sum(f, LANES)
  {
    hide Folded;
    StartFolded(v[..], f);
    var d: nat := 16;
    ghost var stride: nat, count: nat := 32, 1;
    while d > 0
      invariant PowerOfTwo(stride) && d == stride / 2 && Folded(v[..], f, stride, count)
      decreases d
    {
      ghost var before := v[..];
      forall l | 0 <= l < LANES {
        v[l] := v[l] + (if l + d < LANES then v[l + d] else v[l]);
      }
      StepFolded(before, v[..], f, d, count);
      stride, count := d, 2 * count;
      d := d / 2;
    }
    AllFolded(v[..], f, count);
  }

  lemma AllFolded(v: seq<real>, f: nat -> real, count: nat)
    requires Folded(v, f, 1, count)
    ensures |v| > 0 && v[0] == Sum(f, LANES)
  {
    forall j: nat | j < LANES
      ensures Stride(f, 1, 0)(j) == f(j)
    {
    }
    SumEq(Stride(f, 1, 0), f, LANES);
  }

  // ----- weights -----

  datatype Weight =
    | Full(data: Matrix)
    | Int8(codes: seq<seq<int>>, scales: Matrix, inverse: seq<real>, groupSize: nat)
  {
    /** The shapes `project` checks. */
    predicate Shape(n: nat, k: nat) {
      match this
      case Full(data) => Shaped(data, n, k)
      case Int8(codes, scales, inverse, groupSize) =>
        && |codes| == n && (forall i :: 0 <= i < n ==> |codes[i]| == k)
        && groupSize > 0 && k % groupSize == 0 && Shaped(scales, n, k / groupSize) && |inverse| == k
    }

    /** What the kernel multiplies for one column. */
    function Term(x: seq<real>, n: nat, k: nat, row: nat, col: nat): real
      requires Shape(n, k) && |x| == k && row < n && col < k
    {
      match this
      case Full(data) => data[row][col] * x[col]
      case Int8(codes, scales, inverse, groupSize) =>
        GroupInRow(k, groupSize, col);
        (codes[row][col] as real * scales[row][col / groupSize]) * (x[col] * inverse[col])
    }

    /** `dequantize_int8`, or the weight itself. */
    function Reference(n: nat, k: nat, row: nat, col: nat): real
      requires Shape(n, k) && row < n && col < k
    {
      match this
      case Full(data) => data[row][col]
      case Int8(codes, scales, inverse, groupSize) =>
        GroupInRow(k, groupSize, col);
        PagedGather.RepeatInterleaveAt(scales[row], groupSize, col);
        codes[row][col] as real * PagedGather.RepeatInterleave(scales[row], groupSize)[col] * inverse[col]
    }
  }

  lemma GroupInRow(k: nat, group: nat, col: nat)
    requires group > 0 && k % group == 0 && col < k
    ensures col / group < k / group && col < k / group * group
  {
    assert k == k / group * group;
    QuotientBelow(col, k / group, group);
  }

  function Terms(w: Weight, x: seq<real>, n: nat, k: nat, row: nat): nat -> real
    requires w.Shape(n, k) && |x| == k && row < n
  {
    (col: nat) => if col < k then w.Term(x, n, k, row, col) else 0.0
  }

  function ReferenceTerms(w: Weight, x: seq<real>, n: nat, k: nat, row: nat): nat -> real
    requires w.Shape(n, k) && |x| == k && row < n
  {
    (col: nat) => if col < k then w.Reference(n, k, row, col) * x[col] else 0.0
  }

  /** The plain product of the dequantized weight with `x`. */
  function Dot(w: Weight, x: seq<real>, n: nat, k: nat, row: nat): real
    requires w.Shape(n, k) && |x| == k && row < n
  {
    Sum(ReferenceTerms(w, x, n, k, row), k)
  }

  /** Scaling the activation instead of the weight changes nothing. */
  lemma TermIsReference(w: Weight, x: seq<real>, n: nat, k: nat, row: nat, col: nat)
    requires w.Shape(n, k) && |x| == k && row < n && col < k
    ensures w.Term(x, n, k, row, col) == w.Reference(n, k, row, col) * x[col]
  {
    match w
    case Full(_) =>
    case Int8(codes, scales, inverse, groupSize) =>
      GroupInRow(k, groupSize, col);
      PagedGather.RepeatInterleaveAt(scales[row], groupSize, col);
      Commute(codes[row][col] as real * scales[row][col / groupSize], x[col], inverse[col]);
  }

  lemma Commute(a: real, b: real, c: real)
    ensures a * (b * c) == (a * c) * b
  {
    assert b * c == c * b;
  }

  // ----- one row -----

  /** The loop of one lane: columns `lane`, `lane + 32`, ... */
  method LaneDot(w: Weight, x: seq<real>, n: nat, k: nat, row: nat, lane: nat) returns (sum: real)
    requires w.Shape(n, k) && |x| == k && row < n && lane < LANES
    ensures sum == LaneSum(Terms(w, x, n, k, row), k, LANES)(lane)
  {
    hide Weight.Shape;
    hide Weight.Term;
    var f := Terms(w, x, n, k, row);
    sum := 0.0;
    var col := lane;
    ghost var j: nat := 0;
    NoTerms(LaneTerm(f, k, LANES, lane));
    while col < k
      invariant col == j * LANES + lane && j <= k
      invariant j > 0 ==> (j - 1) * LANES + lane < k
      invariant sum == Sum(LaneTerm(f, k, LANES, lane), j)
    {
      OneTerm(LaneTerm(f, k, LANES, lane), j);
      sum := sum + w.Term(x, n, k, row, col);
      col := col + LANES;
      j := j + 1;
    }
    SumTail(LaneTerm(f, k, LANES, lane), j, k);
  }

  /** All 32 lanes of a warp, then the shuffle reduction. */
  method RowDot(w: Weight, x: seq<real>, n: nat, k: nat, row: nat) returns (sum: real)
    requires w.Shape(n, k) && |x| == k && row < n
    ensures sum == Dot(w, x, n, k, row)
  {
    hide Weight.Shape;
    hide Sum;
    hide LaneSum;
    ghost var f := Terms(w, x, n, k, row);
    var v := new real[LANES](_ => 0.0);
    for lane := 0 to LANES
      invariant forall l: nat :: l < lane ==> v[l] == LaneSum(f, k, LANES)(l)
    {
      v[lane] := LaneDot(w, x, n, k, row, lane);
    }
    WarpSum(v, LaneSum(f, k, LANES));
    LanesAddUp(f, k, LANES);
    forall col: nat | col < k
      ensures f(col) == ReferenceTerms(w, x, n, k, row)(col)
    {
      TermIsReference(w, x, n, k, row, col);
    }
    SumEq(f, ReferenceTerms(w, x, n, k, row), k);
    sum := v[0];
  }

  // ----- all rows -----

  /** The rows of a projection: plain rows, or gate rows and then as many up rows, joined by the
      SwiGLU activation, of which the exponential is unknown but for its sign. */
  datatype Output = Rows | GateUp(exp: real -> real)
  {
    ghost predicate Valid() {
      GateUp? ==> forall x :: exp(x) > 0.0
    }
  }

  /** `gate / (1 + exp(-gate)) * up` */
  function SwiGlu(exp: real -> real, gate: real, up: real): real
    requires exp(-gate) > 0.0
  {
    gate / (1.0 + exp(-gate)) * up
  }

  function Outputs(o: Output, n: nat): nat {
    if o.Rows? then n else n / 2
  }

  ghost function Expected(o: Output, w: Weight, x: seq<real>, n: nat, k: nat, row: nat): real
    requires o.Valid() && w.Shape(n, k) && |x| == k && row < Outputs(o, n)
  {
    match o
    case Rows => Dot(w, x, n, k, row)
    case GateUp(exp) => SwiGlu(exp, Dot(w, x, n, k, row), Dot(w, x, n, k, row + n / 2))
  }

  /** The product of one dequantized weight row with `x`, as a plain sum. */
  ghost predicate RowProduct(w: Weight, x: seq<real>, k: nat, row: nat, value: real) {
    match w
    case Full(data) => row < |data| && |data[row]| == k == |x| && value == R.DotTo(data[row], x, k)
    case Int8(codes, scales, inverse, groupSize) =>
      && row < |codes| && row < |scales| && |codes[row]| == |inverse| == k == |x| && groupSize > 0
      && (forall c: nat :: c < k ==> c / groupSize < |scales[row]|)
      && value == R.Int8Product(codes[row], scales[row], inverse, groupSize, x, k)
  }

  lemma {:induction false} FullAddsUp(w: Weight, x: seq<real>, n: nat, k: nat, row: nat, c: nat)
    requires w.Shape(n, k) && w.Full? && |x| == k && row < n && c <= k
    ensures Sum(ReferenceTerms(w, x, n, k, row), c) == R.DotTo(w.data[row], x, c)
  {
    if c > 0 { FullAddsUp(w, x, n, k, row, c - 1); }
  }

  lemma GroupsThere(w: Weight, n: nat, k: nat, row: nat)
    requires w.Shape(n, k) && w.Int8? && row < n
    ensures |w.codes[row]| == |w.inverse| == k && w.groupSize > 0
    ensures forall d: nat :: d < k ==> d / w.groupSize < |w.scales[row]|
  {
    forall d: nat | d < k { GroupInRow(k, w.groupSize, d); }
  }

  lemma {:induction false} Int8AddsUp(w: Weight, x: seq<real>, n: nat, k: nat, row: nat, c: nat)
    requires w.Shape(n, k) && w.Int8? && |x| == k && row < n && c <= k
    requires |w.codes[row]| == |w.inverse| == k && w.groupSize > 0 && forall d: nat :: d < k ==> d / w.groupSize < |w.scales[row]|
    ensures Sum(ReferenceTerms(w, x, n, k, row), c) == R.Int8Product(w.codes[row], w.scales[row], w.inverse, w.groupSize, x, c)
  {
    hide Weight.Shape;
    if c > 0 {
      Int8AddsUp(w, x, n, k, row, c - 1);
      Int8Term(w, x, n, k, row, c - 1);
    }
  }

  lemma Int8Term(w: Weight, x: seq<real>, n: nat, k: nat, row: nat, c: nat)
    requires w.Shape(n, k) && w.Int8? && |x| == k && row < n && c < k
    requires |w.codes[row]| == |w.inverse| == k && w.groupSize > 0 && c / w.groupSize < |w.scales[row]|
    ensures ReferenceTerms(w, x, n, k, row)(c) == w.codes[row][c] as real * w.scales[row][c / w.groupSize] * w.inverse[c] * x[c]
  {
    PagedGather.RepeatInterleaveAt(w.scales[row], w.groupSize, GroupedColumn(w, n, k, row, c));
  }

  function GroupedColumn(w: Weight, n: nat, k: nat, row: nat, c: nat): (d: nat)
    requires w.Shape(n, k) && w.Int8? && row < n && c < k
    ensures d == c < |w.scales[row]| * w.groupSize
  {
    GroupInRow(k, w.groupSize, c);
    c
  }

  lemma DotIsProduct(w: Weight, x: seq<real>, n: nat, k: nat, row: nat)
    requires w.Shape(n, k) && |x| == k && row < n
    ensures RowProduct(w, x, k, row, Dot(w, x, n, k, row))
  {
    if w.Full? {
      FullAddsUp(w, x, n, k, row, k);
    } else {
      GroupsThere(w, n, k, row);
      Int8AddsUp(w, x, n, k, row, k);
    }
  }

  /** An output row: the product of its weight row; or that of the gate row, activated, times that
      of the up row in the second half of the weight. */
  ghost predicate OutputIs(o: Output, w: Weight, x: seq<real>, n: nat, k: nat, row: nat, value: real) {
    match o
    case Rows => RowProduct(w, x, k, row, value)
    case GateUp(exp) =>
      exists gate, up :: RowProduct(w, x, k, row, gate) && UpProduct(w, x, n, k, row, up)
                         && 1.0 + exp(-gate) > 0.0 && value == gate / (1.0 + exp(-gate)) * up
  }

  /** The up row lies half the weight behind the gate row. */
  ghost predicate UpProduct(w: Weight, x: seq<real>, n: nat, k: nat, row: nat, up: real) {
    RowProduct(w, x, k, row + n / 2, up)
  }

  lemma ExpectedIs(o: Output, w: Weight, x: seq<real>, n: nat, k: nat, row: nat)
    requires o.Valid() && w.Shape(n, k) && |x| == k && row < Outputs(o, n)
    ensures OutputIs(o, w, x, n, k, row, Expected(o, w, x, n, k, row))
  {
    hide RowProduct;
    hide Dot;
    hide Weight.Shape;
    DotIsProduct(w, x, n, k, row);
    if o.GateUp? {
      DotIsProduct(w, x, n, k, row + n / 2);
      assert UpProduct(w, x, n, k, row, Dot(w, x, n, k, row + n / 2));
    }
  }

  method StoreOutput(o: Output, w: Weight, x: seq<real>, n: nat, k: nat, row: nat, y: array<real>)
    requires o.Valid() && w.Shape(n, k) && |x| == k && row < Outputs(o, n) == y.Length
    modifies y
    ensures y[row] == Expected(o, w, x, n, k, row)
    ensures forall r: nat :: r < y.Length && r != row ==> y[r] == old(y[r])
  {
    hide Weight.Shape;
    hide Dot;
    var gate := RowDot(w, x, n, k, row);
    if o.Rows? {
      y[row] := gate;
    } else {
      var up := RowDot(w, x, n, k, row + n / 2);
      y[row] := SwiGlu(o.exp, gate, up);
    }
  }

  /** `projection` with `warps` warps in the whole grid: every output row is the product of its
      dequantized weight row with `x`, and is stored exactly once, for any grid size. */
  method Projection(o: Output, w: Weight, x: seq<real>, n: nat, k: nat, warps: nat, y: array<real>)
    returns (ghost stored: seq<nat>)
    requires o.Valid() && w.Shape(n, k) && |x| == k && warps > 0 && y.Length == Outputs(o, n)
    modifies y
    ensures forall row: nat :: row < Outputs(o, n) ==> y[row] == Expected(o, w, x, n, k, row)
    ensures forall row: nat :: row < (if o.Rows? then n else n / 2) ==> OutputIs(o, w, x, n, k, row, y[row])
    ensures NoDup(stored) && forall row: nat :: row in stored <==> row < Outputs(o, n)
  {
    hide Weight.Shape;
    hide Expected;
    hide OutputIs;
    hide StoredBelow;
    var outputs := Outputs(o, n);
    stored := [];
    NothingStored(outputs, warps);
    for warp := 0 to warps
      invariant StoredBelow(stored, outputs, warps, warp, warp)
      invariant forall row: nat :: row in stored && row < outputs ==> y[row] == Expected(o, w, x, n, k, row)
    {
      var row := warp;
      DivIs(warp, warps, 0, warp);
      while row < outputs
        invariant row % warps == warp && StoredBelow(stored, outputs, warps, warp, row)
        invariant forall r: nat :: r in stored && r < outputs ==> y[r] == Expected(o, w, x, n, k, r)
      {
        StoreOutput(o, w, x, n, k, row, y);
        StoredOne(stored, outputs, warps, row);
        stored := stored + [row];
        row := row + warps;
      }
      NextWarp(stored, outputs, warps, warp, row);
    }
    AllStored(stored, outputs, warps);
    forall row: nat | row < outputs { ExpectedIs(o, w, x, n, k, row); }
  }

  /** The rows stored so far: all rows of the warps before `warp`, and its own rows below `row`. */
  ghost predicate StoredBelow(stored: seq<nat>, outputs: nat, warps: nat, warp: nat, row: nat)
    requires warps > 0
  {
    && NoDup(stored)
    && forall r: nat :: r in stored <==> r < outputs && (r % warps < warp || (r % warps == warp && r < row))
  }

  lemma NothingStored(outputs: nat, warps: nat)
    requires warps > 0
    ensures StoredBelow([], outputs, warps, 0, 0)
  {
  }

  lemma StoredOne(stored: seq<nat>, outputs: nat, warps: nat, row: nat)
    requires warps > 0 && row < outputs && StoredBelow(stored, outputs, warps, row % warps, row)
    ensures (row + warps) % warps == row % warps
    ensures StoredBelow(stored + [row], outputs, warps, row % warps, row + warps)
  {
    NextRow(row, warps);
    assert row !in stored;
    forall r: nat
      ensures r in stored + [row] <==> r < outputs && (r % warps < row % warps || (r % warps == row % warps && r < row + warps))
    {
      assert r in stored + [row] <==> r in stored || r == row;
    }
  }

  lemma NextWarp(stored: seq<nat>, outputs: nat, warps: nat, warp: nat, row: nat)
    requires warps > 0 && row >= outputs && StoredBelow(stored, outputs, warps, warp, row)
    ensures StoredBelow(stored, outputs, warps, warp + 1, warp + 1)
  {
    forall r: nat
      ensures r in stored <==> r < outputs && (r % warps < warp + 1 || (r % warps == warp + 1 && r < warp + 1))
    {
      if r % warps == warp + 1 && r < warp + 1 && r < outputs { SmallResidue(r, warps); }
    }
  }

  lemma SmallResidue(r: nat, warps: nat)
    requires warps > 0
    ensures r % warps <= r
  {
    assert r == r / warps * warps + r % warps;
  }

  lemma AllStored(stored: seq<nat>, outputs: nat, warps: nat)
    requires warps > 0 && StoredBelow(stored, outputs, warps, warps, warps)
    ensures NoDup(stored) && forall row: nat :: row in stored <==> row < outputs
  {
    forall r: nat
      ensures r % warps < warps
    {
    }
  }

  /** Rows of one warp are `warps` apart. */
  lemma NextRow(row: nat, warps: nat)
    requires warps > 0
    ensures (row + warps) % warps == row % warps
    ensures forall r: nat :: r % warps == row % warps && row < r ==> r >= row + warps
  {
    DivStep(row + warps, warps);
    forall r: nat | r % warps == row % warps && row < r
      ensures r >= row + warps
    {
      assert r == r / warps * warps + r % warps && row == row / warps * warps + row % warps;
      if r / warps <= row / warps {
        MulMonotone(r / warps, row / warps, warps);
      } else {
        MulMonotone(row / warps + 1, r / warps, warps);
        assert (row / warps + 1) * warps == row / warps * warps + warps;
      }
    }
  }

  // ----- calibrated quantization -----

  /** The candidate loop of `quantize_int8` in learning/10_cuda_decode/activation_int8.py: it keeps
      the first candidate with the least error. */
  method PickBest(errors: seq<real>) returns (best: nat)
    requires errors != []
    ensures best < |errors| && forall i :: 0 <= i < |errors| ==> errors[best] <= errors[i]
    ensures forall i :: 0 <= i < best ==> errors[best] < errors[i]
  {
    best := 0;
    for i := 0 to |errors|
      invariant best < |errors| && (i == 0 ==> best == 0) && (i > 0 ==> best < i)
      invariant forall j :: 0 <= j < i ==> errors[best] <= errors[j]
      invariant forall j :: 0 <= j < best ==> errors[best] < errors[j]
    {
      if errors[i] < errors[best] { best := i; }
    }
  }
}
