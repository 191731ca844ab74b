/** learning/09_int4/quantization.py: groupwise symmetric INT4 weights, two codes to a byte, and
    the fused product of learning/09_int4/kernels.py. */
module Int4 {
  import opened Basics
  import opened Bits
  import opened Sums
  import PagedGather
  import Reference

  type Matrix = seq<seq<real>>

  // ----- rounding -----

  /** `torch.round`: to the nearest integer, halves to the even one. */
  function RoundEven(x: real): int {
    var f := x.Floor;
    var rest := x - f as real;
    if rest < 0.5 then f
    else if rest > 0.5 then f + 1
    else if f % 2 == 0 then f
    else f + 1
  }

  /** To the nearest integer, and halves to the even one. */
  lemma RoundNear(x: real)
    ensures -0.5 <= x - RoundEven(x) as real <= 0.5
    ensures x - RoundEven(x) as real == 0.5 || x - RoundEven(x) as real == -0.5 ==> RoundEven(x) % 2 == 0
  {
  }

  lemma RoundInteger(i: int)
    ensures RoundEven(i as real) == i
  {
  }

  function Abs(x: real): real {
    if x < 0.0 then -x else x
  }

  function Clamp(x: int): int {
    if x < -7 then -7 else if x > 7 then 7 else x
  }

  // ----- one group -----

  /** `grouped.abs().amax(-1)` */
  function MaxAbs(group: seq<real>): (m: real)
    ensures m >= 0.0 && forall i :: 0 <= i < |group| ==> Abs(group[i]) <= m
    ensures m == 0.0 || exists i :: 0 <= i < |group| && Abs(group[i]) == m
  {
    if group == [] then 0.0
    else
      var m := MaxAbs(group[1..]);
      assert forall i :: 0 < i < |group| ==> group[i] == group[1..][i - 1];
      if Abs(group[0]) > m then Abs(group[0]) else m
  }

  lemma MaxAbsIs(group: seq<real>, m: real)
    requires m >= 0.0 && forall i :: 0 <= i < |group| ==> Abs(group[i]) <= m
    requires m == 0.0 || exists i :: 0 <= i < |group| && Abs(group[i]) == m
    ensures MaxAbs(group) == m
  {
  }

  function Scale(group: seq<real>): (s: real)
    ensures s > 0.0
  {
    if MaxAbs(group) == 0.0 then 1.0 else MaxAbs(group) / 7.0
  }

  function Code(w: real, scale: real): int
    requires scale > 0.0
  {
    Clamp(RoundEven(w / scale))
  }

  /** Within a group no code is clamped, and the restored weight is at most half a scale away. */
  lemma CodeNear(w: real, scale: real)
    requires scale > 0.0 && Abs(w) <= 7.0 * scale
    ensures -7 <= Code(w, scale) <= 7
    ensures Abs(w - Code(w, scale) as real * scale) <= scale / 2.0
  {
    var x := w / scale;
    assert w == x * scale;
    QuotientBound(w, scale, 7.0);
    RoundNear(x);
    RestoreError(w, x, Code(w, scale) as real, scale);
  }

  lemma RestoreError(w: real, x: real, q: real, scale: real)
    requires w == x * scale && -0.5 <= x - q <= 0.5 && scale > 0.0
    ensures Abs(w - q * scale) <= scale / 2.0
  {
    var d, v := x - q, q * scale;
    Scaled(d, scale);
    Distribute(d, x, q, scale);
    assert d * scale == w - v;
  }

  lemma Distribute(d: real, x: real, y: real, scale: real)
    requires d == x - y
    ensures d * scale == x * scale - y * scale
  {
  }

  lemma QuotientBound(w: real, scale: real, bound: real)
    requires scale > 0.0 && Abs(w) <= bound * scale
    ensures -bound <= w / scale <= bound
  {
    var x := w / scale;
    assert w == x * scale;
    assert (x - bound) * scale == x * scale - bound * scale;
    assert (-bound - x) * scale == -(bound * scale) - x * scale;
    if x > bound {
      MulPositive(x - bound, scale);
    } else if x < -bound {
      MulPositive(-bound - x, scale);
    }
  }

  lemma Scaled(d: real, scale: real)
    requires -0.5 <= d <= 0.5 && scale > 0.0
    ensures -(scale / 2.0) <= d * scale <= scale / 2.0
  {
    if d < 0.5 { MulPositive(0.5 - d, scale); }
    if d > -0.5 { MulPositive(d + 0.5, scale); }
    assert (0.5 - d) * scale == 0.5 * scale - d * scale;
    assert (d + 0.5) * scale == d * scale + 0.5 * scale;
  }

  lemma ScaleCovers(group: seq<real>, i: nat)
    requires i < |group|
    ensures Abs(group[i]) <= 7.0 * Scale(group)
    ensures MaxAbs(group) == 0.0 ==> Scale(group) == 1.0
    ensures MaxAbs(group) != 0.0 ==> 7.0 * Scale(group) == MaxAbs(group)
  {
  }

  /** Every weight of a group gets a code in -7..7 and is restored within half a scale. */
  lemma GroupCodeNear(group: seq<real>, i: nat)
    requires i < |group|
    ensures -7 <= Code(group[i], Scale(group)) <= 7
    ensures Abs(group[i] - Code(group[i], Scale(group)) as real * Scale(group)) <= Scale(group) / 2.0
  {
    hide Scale;
    hide MaxAbs;
    hide Code;
    ScaleBounds(group, i);
    CodeNear(group[i], Scale(group));
  }

  lemma ScaleBounds(group: seq<real>, i: nat)
    requires i < |group|
    ensures Abs(group[i]) <= 7.0 * Scale(group)
  {
    ScaleCovers(group, i);
  }

  /** With `top` the greatest magnitude of its group, the code of `w` is `7 * w / top`, rounded to the
      nearest integer and halves to the even one; in a group of zeros all codes are zero. */
  lemma CodeIsNearest(group: seq<real>, i: nat, top: real)
    requires i < |group| && (forall j :: 0 <= j < |group| ==> -top <= group[j] <= top)
    requires exists j :: 0 <= j < |group| && (group[j] == top || group[j] == -top)
    ensures top == 0.0 ==> Code(group[i], Scale(group)) == 0 && Scale(group) == 1.0
    ensures top > 0.0 ==> 7.0 * Scale(group) == top
    ensures top > 0.0 ==>
      var rest := 7.0 * group[i] / top - Code(group[i], Scale(group)) as real;
      -0.5 <= rest <= 0.5 && (rest == 0.5 || rest == -0.5 ==> Code(group[i], Scale(group)) % 2 == 0)
  {
    hide Code;
    TopIsMax(group, top);
    ScaleCovers(group, i);
    if top > 0.0 {
      QuotientOf(group[i], top, Scale(group));
      CodeUnclamped(group[i], Scale(group));
      RoundNear(group[i] / Scale(group));
    } else {
      CodeOfZero();
    }
  }

  lemma TopIsMax(group: seq<real>, top: real)
    requires forall j :: 0 <= j < |group| ==> -top <= group[j] <= top
    requires exists j :: 0 <= j < |group| && (group[j] == top || group[j] == -top)
    ensures MaxAbs(group) == top
  {
    var j :| 0 <= j < |group| && (group[j] == top || group[j] == -top);
    assert Abs(group[j]) == top;
  }

  lemma QuotientOf(w: real, top: real, scale: real)
    requires top > 0.0 && 7.0 * scale == top
    ensures 7.0 * w / top == w / scale
  {
    var x := w / scale;
    assert w == x * scale;
    assert 7.0 * w == x * top;
  }

  /** Codes are never clamped: the scale is chosen so that none exceeds 7. */
  lemma CodeUnclamped(w: real, scale: real)
    requires scale > 0.0 && Abs(w) <= 7.0 * scale
    ensures Code(w, scale) == RoundEven(w / scale)
  {
    QuotientBound(w, scale, 7.0);
    RoundNear(w / scale);
  }

  lemma CodeOfZero()
    ensures Code(0.0, 1.0) == 0
  {
  }

  /** The group as it is restored. */
  function Restored(group: seq<real>): (r: seq<real>)
    ensures |r| == |group|
  {
    seq(|group|, i requires 0 <= i < |group| => Code(group[i], Scale(group)) as real * Scale(group))
  }

  lemma RestoredAt(group: seq<real>, i: nat)
    requires i < |group|
    ensures Code(Restored(group)[i], Scale(group)) == Code(group[i], Scale(group))
    ensures Abs(Restored(group)[i]) <= 7.0 * Scale(group)
    ensures Abs(group[i]) == 7.0 * Scale(group) ==> Abs(Restored(group)[i]) == 7.0 * Scale(group)
    ensures group[i] == 0.0 ==> Restored(group)[i] == 0.0
  {
    hide Scale;
    hide Code;
    hide Abs;
    ScaleCovers(group, i);
    Requantized(group[i], Scale(group), Restored(group)[i]);
  }

  /** One restored weight gets its own code again. */
  lemma Requantized(w: real, scale: real, restored: real)
    requires scale > 0.0 && Abs(w) <= 7.0 * scale && restored == Code(w, scale) as real * scale
    ensures Code(restored, scale) == Code(w, scale)
    ensures Abs(restored) <= 7.0 * scale
    ensures Abs(w) == 7.0 * scale ==> Abs(restored) == 7.0 * scale
    ensures w == 0.0 ==> restored == 0.0
  {
    hide Code;
    hide Abs;
    CodeNear(w, scale);
    SameCode(Code(w, scale), scale, restored);
    if Abs(w) == 7.0 * scale { ExtremeCode(w, scale, restored); }
    if w == 0.0 { ZeroCode(scale, restored); }
  }

  /** Quantizing a restored group changes neither its scale nor any code. */
  lemma RequantizeGroup(group: seq<real>)
    ensures Scale(Restored(group)) == Scale(group)
    ensures forall i :: 0 <= i < |group| ==> Code(Restored(group)[i], Scale(group)) == Code(group[i], Scale(group))
  {
    hide Scale;
    hide MaxAbs;
    hide Code;
    hide Restored;
    var s, r := Scale(group), Restored(group);
    forall i | 0 <= i < |group|
      ensures Code(r[i], s) == Code(group[i], s) && Abs(r[i]) <= 7.0 * s
    {
      RestoredAt(group, i);
    }
    if MaxAbs(group) == 0.0 {
      forall i | 0 <= i < |group|
        ensures r[i] == 0.0
      {
        NoLarger(group, i);
        RestoredAt(group, i);
      }
      MaxAbsIs(r, 0.0);
    } else {
      var i := Extreme(group);
      ScaleCovers(group, i);
      RestoredAt(group, i);
      MaxAbsIs(r, 7.0 * s);
    }
    SameScale(group, r);
  }

  lemma Extreme(group: seq<real>) returns (i: nat)
    requires MaxAbs(group) != 0.0
    ensures i < |group| && Abs(group[i]) == MaxAbs(group)
  {
    i :| 0 <= i < |group| && Abs(group[i]) == MaxAbs(group);
  }

  lemma SameScale(group: seq<real>, r: seq<real>)
    requires MaxAbs(r) == MaxAbs(group)
    ensures Scale(r) == Scale(group)
  {
  }

  lemma NoLarger(group: seq<real>, i: nat)
    requires i < |group|
    ensures Abs(group[i]) <= MaxAbs(group)
  {
  }

  lemma ZeroCode(scale: real, restored: real)
    requires scale > 0.0 && restored == Code(0.0, scale) as real * scale
    ensures restored == 0.0
  {
    RoundInteger(0);
    assert Code(0.0, scale) == 0;
  }

  lemma SameCode(q: int, scale: real, restored: real)
    requires -7 <= q <= 7 && scale > 0.0 && restored == q as real * scale
    ensures Code(restored, scale) == q
    ensures Abs(restored) <= 7.0 * scale
  {
    Divides(q as real, scale);
    RoundInteger(q);
    var x := q as real;
    if q < 7 { MulPositive(7.0 - x, scale); }
    if q > -7 { MulPositive(7.0 + x, scale); }
    Distribute(7.0 - x, 7.0, x, scale);
    Distribute(7.0 + x, 7.0, -x, scale);
  }

  lemma Divides(x: real, scale: real)
    requires scale > 0.0
    ensures x * scale / scale == x
  {
  }

  lemma ExtremeCode(w: real, scale: real, restored: real)
    requires scale > 0.0 && Abs(w) == 7.0 * scale && restored == Code(w, scale) as real * scale
    ensures Abs(restored) == 7.0 * scale
  {
    if w >= 0.0 {
      Divides(7.0, scale);
      RoundInteger(7);
      assert Code(w, scale) == 7;
    } else {
      Divides(-7.0, scale);
      RoundInteger(-7);
      assert Code(w, scale) == -7;
    }
  }

  // ----- nibbles -----

  /** `q & 15` on a 16-bit two's complement integer. */
  function Nibble(q: int): nat
    requires -32768 <= q < 32768
  {
    BitAnd(if q < 0 then q + 65536 else q, 15)
  }

  /** `torch.where(codes >= 8, codes - 16, codes)` */
  function Signed(nibble: nat): int {
    if nibble >= 8 then nibble - 16 else nibble
  }

  /** Two codes in one byte, the even column in the low nibble. */
  function PackPair(low: int, high: int): nat
    requires -8 <= low <= 7 && -8 <= high <= 7
  {
    BitOr(Nibble(low), 16 * Nibble(high))
  }

  lemma NibbleIs(q: int)
    requires -8 <= q <= 7
    ensures Nibble(q) == if q < 0 then q + 16 else q
  {
    SixteenIsPower();
    if q < 0 {
      MaskIsOffset(q + 65536, 16);
      DivIs(q + 65536, 16, 4095, q + 16);
    } else {
      MaskIsOffset(q, 16);
      DivIs(q, 16, 0, q);
    }
  }

  lemma SixteenIsPower()
    ensures PowerOfTwo(16)
  {
    assert PowerOfTwo(2) && PowerOfTwo(4) && PowerOfTwo(8);
  }

  /** Unpacking a byte gives both codes back. */
  lemma PairRoundTrip(low: int, high: int)
    requires -8 <= low <= 7 && -8 <= high <= 7
    ensures PackPair(low, high) < 256
    ensures Signed(BitAnd(PackPair(low, high), 15)) == low
    ensures Signed(PackPair(low, high) / 16) == high
  {
    NibbleIs(low);
    NibbleIs(high);
    SixteenIsPower();
    OrIsSum(Nibble(low), Nibble(high), 16);
    MaskIsOffset(PackPair(low, high), 16);
    DivIs(PackPair(low, high), 16, Nibble(high), Nibble(low));
  }

  ghost predicate CodesOk(codes: seq<int>) {
    |codes| % 2 == 0 && forall i :: 0 <= i < |codes| ==> -7 <= codes[i] <= 7
  }

  /** `codes[:, 0::2] | codes[:, 1::2] << 4` */
  function PackRow(codes: seq<int>): (data: seq<nat>)
    requires CodesOk(codes)
    ensures |data| == |codes| / 2
  {
    seq(|codes| / 2, j requires 0 <= j < |codes| / 2 => PackPair(codes[2 * j], codes[2 * j + 1]))
  }

  /** Low and high nibbles, stacked and reshaped. */
  function UnpackRow(data: seq<nat>): (codes: seq<int>)
    ensures |codes| == 2 * |data|
  {
    seq(2 * |data|, c requires 0 <= c < 2 * |data| =>
      Signed(if c % 2 == 0 then BitAnd(data[c / 2], 15) else data[c / 2] / 16))
  }

  /** Byte `j` of a row has the code of column `2 * j` in its low four bits and the next one above
      them, both in two's complement. */
  lemma PackedLayout(codes: seq<int>, j: nat)
    requires CodesOk(codes) && 2 * j + 1 < |codes|
    ensures PackRow(codes)[j] == codes[2 * j] % 16 + 16 * (codes[2 * j + 1] % 16)
  {
    hide PackPair;
    PairLayout(codes[2 * j], codes[2 * j + 1]);
  }

  lemma PairLayout(low: int, high: int)
    requires -8 <= low <= 7 && -8 <= high <= 7
    ensures PackPair(low, high) == low % 16 + 16 * (high % 16)
  {
    hide Nibble;
    hide BitOr;
    NibbleIs(low);
    NibbleIs(high);
    SixteenIsPower();
    OrIsSum(Nibble(low), Nibble(high), 16);
  }

  /** Unpacking returns the exact codes in the original order. */
  lemma UnpackPack(codes: seq<int>)
    requires CodesOk(codes)
    ensures UnpackRow(PackRow(codes)) == codes
  {
    hide BitAnd;
    hide PackPair;
    hide Signed;
    var data := PackRow(codes);
    forall c | 0 <= c < |codes|
      ensures UnpackRow(data)[c] == codes[c]
    {
      var j := c / 2;
      assert data[j] == PackPair(codes[2 * j], codes[2 * j + 1]);
      PairRoundTrip(codes[2 * j], codes[2 * j + 1]);
    }
  }

  // ----- rows -----

  /** Columns `g * size .. (g + 1) * size` of a row. */
  function Group(row: seq<real>, size: nat, g: nat): (group: seq<real>)
    requires (g + 1) * size <= |row|
    ensures |group| == size
  {
    assert (g + 1) * size == g * size + size;
    row[g * size..(g + 1) * size]
  }

  ghost predicate Grouped(row: seq<real>, size: nat) {
    size > 0 && size % 2 == 0 && |row| % size == 0
  }

  lemma ColumnGroup(k: nat, size: nat, c: nat)
    requires size > 0 && k % size == 0 && c < k
    ensures c / size < k / size && (c / size + 1) * size <= k
    ensures c == c / size * size + c % size
  {
    assert k == k / size * size;
    QuotientBelow(c, k / size, size);
    MulMonotone(c / size + 1, k / size, size);
  }

  lemma ColumnSplit(k: nat, size: nat, c: nat) returns (g: nat, i: nat)
    requires size > 0 && k % size == 0 && c < k
    ensures (g + 1) * size <= k && i < size && c == g * size + i
  {
    ColumnGroup(k, size, c);
    g, i := c / size, c % size;
  }

  lemma GroupFits(k: nat, size: nat, g: nat)
    requires size > 0 && k % size == 0 && g < k / size
    ensures (g + 1) * size <= k
  {
    assert k == k / size * size;
    MulMonotone(g + 1, k / size, size);
  }

  function RowScales(row: seq<real>, size: nat): (scales: seq<real>)
    requires Grouped(row, size)
    ensures |scales| == |row| / size
  {
    seq(|row| / size, g requires 0 <= g < |row| / size => GroupFits(|row|, size, g); Scale(Group(row, size, g)))
  }

  function RowCodes(row: seq<real>, size: nat): (codes: seq<int>)
    requires Grouped(row, size)
    ensures |codes| == |row|
  {
    seq(|row|, c requires 0 <= c < |row| => ColumnCode(row, size, c))
  }

  function ColumnCode(row: seq<real>, size: nat, c: nat): int
    requires Grouped(row, size) && c < |row|
  {
    Code(row[c], Scale(GroupOfColumn(row, size, c)))
  }

  function GroupOfColumn(row: seq<real>, size: nat, c: nat): seq<real>
    requires Grouped(row, size) && c < |row|
  {
    hide Grouped;
    ColumnFits(row, size, c);
    Group(row, size, c / size)
  }

  lemma ColumnFits(row: seq<real>, size: nat, c: nat)
    requires Grouped(row, size) && c < |row|
    ensures size > 0 && (c / size + 1) * size <= |row|
  {
    ColumnGroup(|row|, size, c);
  }

  lemma EvenColumns(k: nat, size: nat)
    requires size > 0 && size % 2 == 0 && k % size == 0
    ensures k % 2 == 0
  {
    assert k == k / size * size && size == 2 * (size / 2);
    assert k / size * (2 * (size / 2)) == 2 * (k / size * (size / 2));
  }

  lemma ColumnIs(k: nat, size: nat, g: nat, i: nat, c: nat)
    requires size > 0 && (g + 1) * size <= k && i < size && c == g * size + i
    ensures c < k && c / size == g && c % size == i
  {
    assert (g + 1) * size == g * size + size;
    DivIs(c, size, g, i);
  }

  /** The code and the scale of column `c`, which is column `i` of group `g`. */
  lemma RowCodeIs(row: seq<real>, size: nat, g: nat, i: nat, c: nat)
    requires Grouped(row, size) && (g + 1) * size <= |row| && i < size && c == g * size + i && c < |row|
    ensures row[c] == Group(row, size, g)[i]
    ensures RowCodes(row, size)[c] == Code(Group(row, size, g)[i], Scale(Group(row, size, g)))
  {
    hide Code;
    hide Scale;
    ColumnIs(|row|, size, g, i, c);
  }

  lemma RowCodesOk(row: seq<real>, size: nat)
    requires Grouped(row, size)
    ensures CodesOk(RowCodes(row, size))
  {
    hide RowCodes;
    EvenColumns(|row|, size);
    forall c | 0 <= c < |row|
      ensures -7 <= RowCodes(row, size)[c] <= 7
    {
      RowCodeOk(row, size, c);
    }
  }

  lemma RowCodeOk(row: seq<real>, size: nat, c: nat)
    requires Grouped(row, size) && c < |row|
    ensures -7 <= RowCodes(row, size)[c] <= 7
  {
    hide RowCodes;
    hide Code;
    hide Scale;
    var g, i := ColumnSplit(|row|, size, c);
    RowCodeIs(row, size, g, i, c);
    GroupCodeNear(Group(row, size, g), i);
  }

  /** The buffers of one row of `k` columns. */
  ghost predicate RowShape(data: seq<nat>, scales: seq<real>, size: nat, k: nat) {
    size > 0 && k == 2 * |data| && |scales| * size == k
  }

  lemma QuantizedShape(row: seq<real>, size: nat)
    requires Grouped(row, size)
    ensures CodesOk(RowCodes(row, size))
    ensures RowShape(PackRow(RowCodes(row, size)), RowScales(row, size), size, |row|)
  {
    hide RowCodes;
    RowCodesOk(row, size);
  }

  function QuantizeRow(row: seq<real>, size: nat): (r: (seq<nat>, seq<real>))
    requires Grouped(row, size)
    ensures RowShape(r.0, r.1, size, |row|)
  {
    QuantizedShape(row, size);
    (PackRow(RowCodes(row, size)), RowScales(row, size))
  }

  /** `dequantize_int4`, one row. */
  function DequantizeRow(data: seq<nat>, scales: seq<real>, size: nat, k: nat): (row: seq<real>)
    requires RowShape(data, scales, size, k)
    ensures |row| == k
  {
    PagedGather.RepeatSize(scales, size);
    seq(k, c requires 0 <= c < k => UnpackRow(data)[c] as real * PagedGather.RepeatInterleave(scales, size)[c])
  }

  /** `dequantize_int4(quantize_int4(w))`, one row. */
  function Back(row: seq<real>, size: nat): (r: seq<real>)
    requires Grouped(row, size)
    ensures |r| == |row|
  {
    var q := QuantizeRow(row, size);
    DequantizeRow(q.0, q.1, size, |row|)
  }

  lemma RowScaleIs(row: seq<real>, size: nat, g: nat)
    requires Grouped(row, size) && g < |row| / size
    ensures (g + 1) * size <= |row|
    ensures RowScales(row, size)[g] == Scale(Group(row, size, g))
  {
    hide Scale;
    GroupFits(|row|, size, g);
  }

  lemma RowOfScales(row: seq<real>, size: nat, g: nat, i: nat, c: nat)
    requires Grouped(row, size) && (g + 1) * size <= |row| && i < size && c == g * size + i && c < |row|
    ensures g < |RowScales(row, size)| && c < |PagedGather.RepeatInterleave(RowScales(row, size), size)|
    ensures PagedGather.RepeatInterleave(RowScales(row, size), size)[c] == RowScales(row, size)[g]
  {
    hide RowScales;
    ColumnIs(|row|, size, g, i, c);
    ColumnGroup(|row|, size, c);
    PagedGather.RepeatInterleaveAt(RowScales(row, size), size, c);
  }

  /** A weight after a round trip: its code times the scale of its group. */
  lemma RoundTripAt(row: seq<real>, size: nat, g: nat, i: nat, c: nat)
    requires Grouped(row, size) && (g + 1) * size <= |row| && i < size && c == g * size + i && c < |row|
    ensures Back(row, size)[c] == Restored(Group(row, size, g))[i]
  {
    hide Code;
    hide Scale;
    hide UnpackRow;
    hide PackRow;
    hide RowCodes;
    hide RowScales;
    hide Grouped;
    BackIs(row, size, c);
    RowCodeIs(row, size, g, i, c);
    RowOfScales(row, size, g, i, c);
    RowScaleIs(row, size, g);
    RestoredIs(Group(row, size, g), i);
  }

  /** A restored weight is its code times its repeated scale. */
  lemma BackIs(row: seq<real>, size: nat, c: nat)
    requires Grouped(row, size) && c < |row|
    ensures c < |PagedGather.RepeatInterleave(RowScales(row, size), size)|
    ensures Back(row, size)[c] == RowCodes(row, size)[c] as real * PagedGather.RepeatInterleave(RowScales(row, size), size)[c]
  {
    hide UnpackRow;
    hide PackRow;
    hide RowCodes;
    hide RowScales;
    RowCodesOk(row, size);
    UnpackPack(RowCodes(row, size));
    PagedGather.RepeatSize(RowScales(row, size), size);
    QuantizedShape(row, size);
  }

  lemma RestoredIs(group: seq<real>, i: nat)
    requires i < |group|
    ensures Restored(group)[i] == Code(group[i], Scale(group)) as real * Scale(group)
  {
  }

  /** The restored weight is within half a scale of the original, for every weight: column `c` is
      column `i` of group `g`. */
  lemma ErrorBound(row: seq<real>, size: nat, g: nat, i: nat, c: nat)
    requires Grouped(row, size) && (g + 1) * size <= |row| && i < size && c == g * size + i && c < |row|
    ensures g < |RowScales(row, size)|
    ensures Abs(row[c] - Back(row, size)[c]) <= RowScales(row, size)[g] / 2.0
  {
    hide Code;
    hide Scale;
    hide Abs;
    hide Restored;
    hide Back;
    hide RowScales;
    hide RowCodes;
    RowOfScales(row, size, g, i, c);
    RoundTripAt(row, size, g, i, c);
    RowCodeIs(row, size, g, i, c);
    RowScaleIs(row, size, g);
    RestoredNear(Group(row, size, g), i);
    assert Back(row, size)[c] == Restored(Group(row, size, g))[i];
    assert row[c] == Group(row, size, g)[i];
  }

  lemma RestoredNear(group: seq<real>, i: nat)
    requires i < |group|
    ensures Abs(group[i] - Restored(group)[i]) <= Scale(group) / 2.0
  {
    hide Code;
    hide Scale;
    hide Abs;
    GroupCodeNear(group, i);
    RestoredIs(group, i);
  }

  lemma GroupBack(row: seq<real>, size: nat, g: nat)
    requires Grouped(row, size) && (g + 1) * size <= |row|
    ensures Group(Back(row, size), size, g) == Restored(Group(row, size, g))
  {
    hide Restored;
    hide Back;
    forall i | 0 <= i < size
      ensures Group(Back(row, size), size, g)[i] == Restored(Group(row, size, g))[i]
    {
      ColumnIs(|row|, size, g, i, g * size + i);
      RoundTripAt(row, size, g, i, g * size + i);
    }
  }

  lemma ScalesBack(row: seq<real>, size: nat)
    requires Grouped(row, size)
    ensures RowScales(Back(row, size), size) == RowScales(row, size)
  {
    hide Restored;
    hide Back;
    hide Scale;
    forall g | 0 <= g < |row| / size
      ensures RowScales(Back(row, size), size)[g] == RowScales(row, size)[g]
    {
      GroupFits(|row|, size, g);
      GroupBack(row, size, g);
      RequantizeGroup(Group(row, size, g));
    }
  }

  lemma CodesBack(row: seq<real>, size: nat)
    requires Grouped(row, size)
    ensures RowCodes(Back(row, size), size) == RowCodes(row, size)
  {
    hide Back;
    hide RowCodes;
    forall c | 0 <= c < |row|
      ensures RowCodes(Back(row, size), size)[c] == RowCodes(row, size)[c]
    {
      CodeBack(row, size, c);
    }
  }

  lemma CodeBack(row: seq<real>, size: nat, c: nat)
    requires Grouped(row, size) && c < |row|
    ensures RowCodes(Back(row, size), size)[c] == RowCodes(row, size)[c]
  {
    hide Back;
    hide RowCodes;
    var g, i := ColumnSplit(|row|, size, c);
    CodeBackAt(row, size, g, i, c);
  }

  lemma CodeBackAt(row: seq<real>, size: nat, g: nat, i: nat, c: nat)
    requires Grouped(row, size) && (g + 1) * size <= |row| && i < size && c == g * size + i && c < |row|
    ensures RowCodes(Back(row, size), size)[c] == RowCodes(row, size)[c]
  {
    hide Restored;
    hide Back;
    hide Scale;
    hide Code;
    hide RowCodes;
    RowCodeIs(row, size, g, i, c);
    RowCodeIs(Back(row, size), size, g, i, c);
    GroupBack(row, size, g);
    RequantizeGroup(Group(row, size, g));
  }

  /** Quantizing the dequantized row reproduces the same bytes and the same scales. */
  lemma QuantizeIsIdempotent(row: seq<real>, size: nat)
    requires Grouped(row, size)
    ensures QuantizeRow(Back(row, size), size) == QuantizeRow(row, size)
  {
    hide Back;
    hide RowCodes;
    hide RowScales;
    ScalesBack(row, size);
    CodesBack(row, size);
  }

  // ----- matrices -----

  /** A code in two's complement, in four bits. */
  function FourBits(n: nat): int {
    if n < 8 then n else n - 16
  }

  lemma UnpackedAt(data: seq<nat>, c: nat)
    requires c / 2 < |data|
    ensures c < 2 * |data|
    ensures UnpackRow(data)[c] == FourBits(if c % 2 == 0 then data[c / 2] % 16 else data[c / 2] / 16)
  {
    hide BitAnd;
    SixteenIsPower();
    MaskIsOffset(data[c / 2], 16);
  }

  /** `code` is `x` rounded to the nearest integer, halves to the even one. */
  predicate Nearest(code: int, x: real) {
    -0.5 <= x - code as real <= 0.5 && (x - code as real == 0.5 || x - code as real == -0.5 ==> code % 2 == 0)
  }

  /** `top` is the greatest magnitude in group `g` of a row. */
  ghost predicate TopOf(row: seq<real>, size: nat, g: nat, top: real)
    requires (g + 1) * size <= |row|
  {
    && (forall i :: 0 <= i < size ==> -top <= Group(row, size, g)[i] <= top)
    && exists i :: 0 <= i < size && (Group(row, size, g)[i] == top || Group(row, size, g)[i] == -top)
  }

  /** A quantized row, written out: with `top` the greatest magnitude of its group, the scale of a
      column is `top / 7`, and its four bits are the integer nearest to `7 * w / top`; a group of
      zeros has scale one and zero bits. */
  lemma QuantizedAt(row: seq<real>, size: nat, g: nat, i: nat, c: nat, top: real)
    requires Grouped(row, size) && (g + 1) * size <= |row| && i < size && c == g * size + i && c < |row| && TopOf(row, size, g, top)
    ensures var (data, scales) := QuantizeRow(row, size);
      && g < |scales| && c / 2 < |data|
      && var code := FourBits(if c % 2 == 0 then data[c / 2] % 16 else data[c / 2] / 16);
        if top == 0.0 then code == 0 && scales[g] == 1.0
        else top > 0.0 && 7.0 * scales[g] == top && Nearest(code, 7.0 * row[c] / top)
  {
    hide Code;
    hide Scale;
    hide UnpackRow;
    hide PackRow;
    hide RowCodes;
    hide RowScales;
    hide Group;
    hide Grouped;
    hide FourBits;
    var codes := RowCodes(row, size);
    QuantizedPlace(row, size, g, i, c);
    RowScaleIs(row, size, g);
    RowCodeIs(row, size, g, i, c);
    CodeIsNearest(Group(row, size, g), i, top);
    RowCodesOk(row, size);
    UnpackPack(codes);
    UnpackedAt(PackRow(codes), c);
  }

  lemma QuantizedPlace(row: seq<real>, size: nat, g: nat, i: nat, c: nat)
    requires Grouped(row, size) && (g + 1) * size <= |row| && i < size && c == g * size + i && c < |row|
    ensures size > 0 && g < |row| / size && |RowScales(row, size)| == |row| / size
    ensures CodesOk(RowCodes(row, size)) && c / 2 < |PackRow(RowCodes(row, size))|
  {
    hide RowCodes;
    hide CodesOk;
    RowCodesOk(row, size);
    ColumnIs(|row|, size, g, i, c);
    ColumnGroup(|row|, size, c);
    EvenColumns(|row|, size);
  }

  /** `PackedInt4` */
  datatype Packed = Packed(data: seq<seq<nat>>, scales: Matrix, groupSize: nat)

  /** `quantize_int4`: rows are quantized chunk by chunk; the result does not depend on the chunks. */
  method QuantizeInt4(weight: Matrix, n: nat, k: nat, groupSize: nat, chunkRows: int) returns (r: Outcome<Packed>)
    requires |weight| == n && forall i :: 0 <= i < n ==> |weight[i]| == k
    ensures r.Returns? <==> groupSize in {32, 64, 128} && n > 0 && k > 0 && k % groupSize == 0 && chunkRows > 0
    ensures r.Raises? ==> r.error == ValueError
    ensures r.Returns? ==>
      && r.value.groupSize == groupSize && |r.value.data| == |r.value.scales| == n
      && forall i :: 0 <= i < n ==> Grouped(weight[i], groupSize) && (r.value.data[i], r.value.scales[i]) == QuantizeRow(weight[i], groupSize)
  {
    hide QuantizeRow;
    if groupSize !in {32, 64, 128} || n == 0 || k == 0 || k % groupSize != 0 { return Raises(ValueError); }
    if chunkRows <= 0 { return Raises(ValueError); }
    var data, scales := new seq<nat>[n](_ => []), new seq<real>[n](_ => []);
    var start: nat := 0;
    while start < n
      invariant forall i :: 0 <= i < n ==> Grouped(weight[i], groupSize)
      invariant forall i :: 0 <= i < start && i < n ==> (data[i], scales[i]) == QuantizeRow(weight[i], groupSize)
      decreases n - start
    {
      for i := start to if start + chunkRows < n then start + chunkRows else n
        invariant forall j :: 0 <= j < i ==> (data[j], scales[j]) == QuantizeRow(weight[j], groupSize)
      {
        var row := QuantizeRow(weight[i], groupSize);
        data[i], scales[i] := row.0, row.1;
      }
      start := start + chunkRows;
    }
    r := Returns(Packed(data[..], scales[..], groupSize));
  }

  // ----- the fused product -----

  /** The dequantized row times `x`. */
  function DequantTerms(data: seq<nat>, scales: seq<real>, size: nat, k: nat, x: seq<real>): nat -> real
    requires RowShape(data, scales, size, k) && |x| == k
  {
    (c: nat) => if c < k then DequantizeRow(data, scales, size, k)[c] * x[c] else 0.0
  }

  /** What `_project` adds for byte `b`: both nibbles, scaled by their group. */
  function PairTerm(data: seq<nat>, scale: real, x: seq<real>, b: nat): real
    requires b < |data| && |x| == 2 * |data|
  {
    (Signed(BitAnd(data[b], 15)) as real * scale) * x[2 * b] + (Signed(data[b] / 16) as real * scale) * x[2 * b + 1]
  }

  /** Bytes of group `g`. */
  function GroupTerms(data: seq<nat>, scales: seq<real>, size: nat, k: nat, x: seq<real>, g: nat): nat -> real
    requires RowShape(data, scales, size, k) && |x| == k && g < |scales|
  {
    (p: nat) => if g * (size / 2) + p < |data| then PairTerm(data, scales[g], x, g * (size / 2) + p) else 0.0
  }

  lemma PairIndex(data: seq<nat>, scales: seq<real>, size: nat, k: nat, g: nat, p: nat)
    requires RowShape(data, scales, size, k) && g < |scales| && size % 2 == 0 && 2 * p + 1 < size
    ensures g * size + 2 * p == 2 * (g * (size / 2) + p) && g * size + 2 * p + 1 < k
    ensures g * (size / 2) + p < |data|
    ensures (g * size + 2 * p) / size == g && (g * size + 2 * p + 1) / size == g
  {
    HalfGroup(g, size);
    MulMonotone(g + 1, |scales|, size);
    ColumnIs(k, size, g, 2 * p, g * size + 2 * p);
    ColumnIs(k, size, g, 2 * p + 1, g * size + 2 * p + 1);
  }

  lemma UnpackAt(data: seq<nat>, b: nat)
    requires b < |data|
    ensures UnpackRow(data)[2 * b] == Signed(BitAnd(data[b], 15))
    ensures UnpackRow(data)[2 * b + 1] == Signed(data[b] / 16)
  {
    hide Signed;
    hide BitAnd;
    assert (2 * b) / 2 == b && (2 * b + 1) / 2 == b;
  }

  lemma DequantAt(data: seq<nat>, scales: seq<real>, size: nat, k: nat, c: nat, g: nat)
    requires RowShape(data, scales, size, k) && c < k && g < |scales| && c / size == g
    ensures DequantizeRow(data, scales, size, k)[c] == UnpackRow(data)[c] as real * scales[g]
  {
    hide UnpackRow;
    PagedGather.RepeatInterleaveAt(scales, size, c);
  }

  lemma PairIsColumns(data: seq<nat>, scales: seq<real>, size: nat, k: nat, x: seq<real>, g: nat, p: nat)
    requires RowShape(data, scales, size, k) && |x| == k && g < |scales| && size % 2 == 0 && 2 * p + 1 < size
    ensures GroupTerms(data, scales, size, k, x, g)(p) ==
      DequantTerms(data, scales, size, k, x)(g * size + 2 * p) + DequantTerms(data, scales, size, k, x)(g * size + 2 * p + 1)
  {
    hide Signed;
    hide BitAnd;
    hide DequantizeRow;
    hide UnpackRow;
    PairIndex(data, scales, size, k, g, p);
    var b := g * (size / 2) + p;
    UnpackAt(data, b);
    DequantAt(data, scales, size, k, 2 * b, g);
    DequantAt(data, scales, size, k, 2 * b + 1, g);
    assert GroupTerms(data, scales, size, k, x, g)(p) == PairTerm(data, scales[g], x, b);
  }

  lemma HalfGroup(g: nat, size: nat)
    requires size % 2 == 0
    ensures 2 * (g * (size / 2)) == g * size
  {
    assert size == 2 * (size / 2);
    assert g * (2 * (size / 2)) == 2 * (g * (size / 2));
  }

  /** The bytes of a group are its columns. */
  lemma GroupIsTile(data: seq<nat>, scales: seq<real>, size: nat, k: nat, x: seq<real>, g: nat)
    requires RowShape(data, scales, size, k) && |x| == k && g < |scales| && size % 2 == 0
    ensures Sum(GroupTerms(data, scales, size, k, x, g), size / 2) == TileSums(DequantTerms(data, scales, size, k, x), k, size)(g)
  {
    hide Sum;
    hide DequantTerms;
    hide GroupTerms;
    var f := DequantTerms(data, scales, size, k, x);
    var tile := TileTerm(f, k, size, g);
    forall p: nat | p < size / 2
      ensures GroupTerms(data, scales, size, k, x, g)(p) == TileSums(tile, size, 2)(p)
    {
      PairIndex(data, scales, size, k, g, p);
      PairIsColumns(data, scales, size, k, x, g, p);
      PairSum(tile, size, p);
      assert g * size + 2 * p + 1 == g * size + (2 * p + 1);
    }
    SumEq(GroupTerms(data, scales, size, k, x, g), TileSums(tile, size, 2), size / 2);
    TilesAddUp(tile, size, 2, size / 2);
  }

  lemma PairSum(f: nat -> real, n: nat, p: nat)
    requires 2 * p + 1 < n
    ensures TileSums(f, n, 2)(p) == f(2 * p) + f(2 * p + 1)
  {
    var t := TileTerm(f, n, 2, p);
    assert Sum(t, 2) == Sum(t, 1) + t(1);
    assert Sum(t, 1) == Sum(t, 0) + t(0);
    assert p * 2 + 0 == 2 * p && p * 2 + 1 == 2 * p + 1;
  }

  /** Column `c` of a dequantized row is its four bits of byte `c / 2`, the low ones for an even
      column, times the scale of its group. */
  lemma DequantizedAt(data: seq<nat>, scales: seq<real>, size: nat, k: nat, c: nat)
    requires RowShape(data, scales, size, k) && c < k
    ensures c / 2 < |data| && c / size < |scales|
    ensures DequantizeRow(data, scales, size, k)[c] ==
      FourBits(if c % 2 == 0 then data[c / 2] % 16 else data[c / 2] / 16) as real * scales[c / size]
  {
    hide DequantizeRow;
    hide UnpackRow;
    hide FourBits;
    hide RowShape;
    var b, g := ColumnPlace(data, scales, size, k, c);
    DequantAt(data, scales, size, k, c, g);
    UnpackedAt(data, c);
  }

  lemma ColumnPlace(data: seq<nat>, scales: seq<real>, size: nat, k: nat, c: nat) returns (b: nat, g: nat)
    requires RowShape(data, scales, size, k) && c < k
    ensures size > 0 && b == c / 2 < |data| && g == c / size < |scales|
  {
    hide PagedGather.RepeatInterleave;
    b, g := c / 2, c / size;
    PlaceInRow(scales, size, k, c);
  }

  lemma PlaceInRow(scales: seq<real>, size: nat, k: nat, c: nat)
    requires size > 0 && |scales| * size == k && c < k
    ensures c / size < |scales|
  {
    QuotientBelow(c, |scales|, size);
  }

  lemma {:induction false} DequantAddsUp(data: seq<nat>, scales: seq<real>, size: nat, k: nat, x: seq<real>, n: nat)
    requires RowShape(data, scales, size, k) && |x| == k && n <= k
    ensures Sum(DequantTerms(data, scales, size, k, x), n) == Reference.DotTo(DequantizeRow(data, scales, size, k), x, n)
  {
    hide DequantizeRow;
    if n > 0 { DequantAddsUp(data, scales, size, k, x, n - 1); }
  }

  /** `_project`, one row: the loop over groups computes the dequantized row times `x` without ever
      dequantizing it. */
  method Project(data: seq<nat>, scales: seq<real>, size: nat, k: nat, x: seq<real>) returns (accumulator: real)
    requires RowShape(data, scales, size, k) && |x| == k && size % 2 == 0
    ensures accumulator == Reference.DotTo(DequantizeRow(data, scales, size, k), x, k)
  {
    hide Sum;
    hide DequantTerms;
    hide DequantizeRow;
    hide Reference.DotTo;
    hide GroupTerms;
    hide TileSums;
    accumulator := 0.0;
    ghost var tiles := TileSums(DequantTerms(data, scales, size, k, x), k, size);
    NoTerms(tiles);
    for group := 0 to |scales|
      invariant accumulator == Sum(tiles, group)
    {
      GroupIsTile(data, scales, size, k, x, group);
      OneTerm(tiles, group);
      accumulator := accumulator + Sum(GroupTerms(data, scales, size, k, x, group), size / 2);
    }
    TilesAddUp(DequantTerms(data, scales, size, k, x), k, size, |scales|);
    DequantAddsUp(data, scales, size, k, x, k);
  }
}
