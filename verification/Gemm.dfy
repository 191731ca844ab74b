/** learning/06_gemm/gemm.py and learning/06_gemm/qwen_prefill_gemm.py: tiled matrix products
    under the grouped swizzle. */
module Gemm {
  import opened Basics
  import opened Sums
  import opened Swizzle
  import Reference

  type Matrix = seq<seq<real>>

  predicate Shaped(a: Matrix, rows: nat, cols: nat) {
    |a| == rows && forall i :: 0 <= i < rows ==> |a[i]| == cols
  }

  /** `B[K,N]`, or the weight `[N,K]` of a linear layer. */
  datatype Operand = Plain(b: Matrix) | Linear(w: Matrix)
  {
    predicate Fits(k: nat, n: nat) {
      match this
      case Plain(b) => Shaped(b, k, n)
      case Linear(w) => Shaped(w, n, k)
    }

    function At(k: nat, n: nat, kSize: nat, nSize: nat): real
      requires Fits(kSize, nSize) && k < kSize && n < nSize
    {
      match this
      case Plain(b) => b[k][n]
      case Linear(w) => w[n][k]
    }
  }

  /** One call: the sizes, the number of rows the launch grid is cut for, the tile sizes and the
      group size. */
  datatype Call = Call(a: Matrix, b: Operand, m: nat, n: nat, k: nat, rows: nat,
                       blockM: nat, blockN: nat, blockK: nat, group: nat)
  {
    predicate Valid() {
      && Shaped(a, m, k) && b.Fits(k, n) && m <= rows
      && blockM > 0 && blockN > 0 && blockK > 0 && group > 0
    }

    function Grid(): Grid
      requires Valid()
    {
      Swizzle.Grid(CeilDiv(rows, blockM), CeilDiv(n, blockN), group)
    }

    function Programs(): nat
      requires Valid()
    {
      Grid().p * Grid().q
    }

    /** The products that entry `(i, j)` sums up. */
    function Terms(i: nat, j: nat): nat -> real
      requires Valid() && i < m && j < n
    {
      (x: nat) => if x < k then a[i][x] * b.At(x, j, k, n) else 0.0
    }

    /** `(A @ B)[i, j]` */
    function Entry(i: nat, j: nat): real
      requires Valid() && i < m && j < n
    {
      Sum(Terms(i, j), k)
    }
  }

  /** The K loop of one output cell. */
  method Accumulate(c: Call, i: nat, j: nat) returns (accumulator: real)
    requires c.Valid() && i < c.m && j < c.n
    ensures accumulator == c.Entry(i, j)
  {
    hide Sum;
    hide TileTerm;
    accumulator := 0.0;
    var f, tiles := c.Terms(i, j), CeilDiv(c.k, c.blockK);
    CeilDivBounds(c.k, c.blockK);
    NoTerms(TileSums(f, c.k, c.blockK));
    for kStart := 0 to tiles
      invariant accumulator == Sum(TileSums(f, c.k, c.blockK), kStart)
    {
      OneTerm(TileSums(f, c.k, c.blockK), kStart);
      accumulator := accumulator + Sum(TileTerm(f, c.k, c.blockK, kStart), c.blockK);
    }
    TilesAddUp(f, c.k, c.blockK, tiles);
  }

  /** A cell lies in tile `t` of width `b`. */
  predicate InTile(x: nat, t: nat, b: nat) {
    t * b <= x < t * b + b
  }

  lemma InTileIs(x: nat, t: nat, b: nat)
    requires b > 0
    ensures InTile(x, t, b) <==> x / b == t
  {
    if InTile(x, t, b) { DivIs(x, b, t, x - t * b); }
    assert x == x / b * b + x % b;
  }

  /** What program `pid` leaves in cell `(i, j)`. */
  ghost predicate Stored(c: Call, tile: (nat, nat), i: nat, j: nat, before: real, after: real)
    requires c.Valid() && i < c.m && j < c.n
  {
    after == if InTile(i, tile.0, c.blockM) && InTile(j, tile.1, c.blockN) then c.Entry(i, j) else before
  }

  /** One program: its tile, cell by cell, masked to the matrix. */
  method Program(c: Call, pid: nat, out: array2<real>)
    requires c.Valid() && pid < c.Programs() && c.Grid().Valid() && out.Length0 == c.m && out.Length1 == c.n
    modifies out
    ensures forall i: nat, j: nat :: i < c.m && j < c.n ==> Stored(c, Tile(c.Grid(), pid), i, j, old(out[i, j]), out[i, j])
  {
    var tile := Tile(c.Grid(), pid);
    hide Call.Entry;
    hide Call.Valid;
    hide Tile;
    for y := 0 to c.blockM
      invariant forall i: nat, j: nat :: i < c.m && j < c.n ==>
        out[i, j] == if tile.0 * c.blockM <= i < tile.0 * c.blockM + y && InTile(j, tile.1, c.blockN)
                     then c.Entry(i, j) else old(out[i, j])
    {
      var row := tile.0 * c.blockM + y;
      if row < c.m { StoreRow(c, tile, row, out); }
    }
  }

  method StoreRow(c: Call, tile: (nat, nat), row: nat, out: array2<real>)
    requires c.Valid() && row < c.m && out.Length0 == c.m && out.Length1 == c.n
    modifies out
    ensures forall i: nat, j: nat :: i < c.m && j < c.n ==>
      out[i, j] == if i == row && InTile(j, tile.1, c.blockN) then c.Entry(i, j) else old(out[i, j])
  {
    hide Call.Entry;
    hide Call.Valid;
    for x := 0 to c.blockN
      invariant forall i: nat, j: nat :: i < c.m && j < c.n ==>
        out[i, j] == if i == row && tile.1 * c.blockN <= j < tile.1 * c.blockN + x then c.Entry(i, j) else old(out[i, j])
    {
      var column := tile.1 * c.blockN + x;
      if column < c.n { out[row, column] := Accumulate(c, row, column); }
    }
  }

  /** The program that owns a cell. */
  function Owner(c: Call, i: nat, j: nat): (pid: nat)
    requires c.Valid() && i < c.m && j < c.n
  {
    OwnerInGrid(c, i, j);
    Swizzle.Program(c.Grid(), i / c.blockM, j / c.blockN)
  }

  lemma OwnerInGrid(c: Call, i: nat, j: nat)
    requires c.Valid() && i < c.m && j < c.n
    ensures c.Grid().Valid() && i / c.blockM < c.Grid().p && j / c.blockN < c.Grid().q
  {
    PositionInBlocks(i, c.rows, c.blockM);
    PositionInBlocks(j, c.n, c.blockN);
  }

  /** Every cell of C is written by exactly one program of the launch, whatever the sizes, also
      when the last group is smaller and when rows are rounded up to a bucket. */
  lemma WrittenOnce(c: Call, i: nat, j: nat, pid: nat)
    requires c.Valid() && i < c.m && j < c.n && pid < c.Programs() && c.Grid().Valid()
    ensures Owner(c, i, j) < c.Programs()
    ensures InTile(i, Tile(c.Grid(), pid).0, c.blockM) && InTile(j, Tile(c.Grid(), pid).1, c.blockN) <==> pid == Owner(c, i, j)
  {
    OwnerInGrid(c, i, j);
    hide Tile;
    hide Swizzle.Program;
    ProgramThenTile(c.Grid(), i / c.blockM, j / c.blockN);
    TileThenProgram(c.Grid(), pid);
    InTileIs(i, Tile(c.Grid(), pid).0, c.blockM);
    InTileIs(j, Tile(c.Grid(), pid).1, c.blockN);
  }

  /** The whole launch, its programs in any order: C is the matrix product. */
  method Launch(c: Call, order: seq<nat>, out: array2<real>)
    requires c.Valid() && out.Length0 == c.m && out.Length1 == c.n
    requires forall pid :: 0 <= pid < c.Programs() ==> pid in order
    requires forall x :: x in order ==> x < c.Programs()
    modifies out
    ensures forall i: nat, j: nat :: i < c.m && j < c.n ==> out[i, j] == c.Entry(i, j)
    ensures forall i: nat, j: nat :: i < c.m && j < c.n ==> IsProduct(c.a, c.b, c.k, i, j, out[i, j])
  {
    hide Call.Entry;
    hide Call.Valid;
    hide IsProduct;
    hide Owner;
    hide Tile;
    hide InTile;
    hide CeilDiv;
    for x := 0 to |order|
      invariant forall i: nat, j: nat :: i < c.m && j < c.n && Owner(c, i, j) in order[..x] ==> out[i, j] == c.Entry(i, j)
    {
      assert order[x] in order;
      NonEmptyGrid(c, order[x]);
      ghost var before := order[..x];
      assert order[..x + 1] == before + [order[x]];
      Program(c, order[x], out);
      forall i: nat, j: nat | i < c.m && j < c.n { WrittenOnce(c, i, j, order[x]); }
    }
    forall i: nat, j: nat | i < c.m && j < c.n
      ensures Owner(c, i, j) in order[..|order|]
    {
      OwnerInLaunch(c, i, j);
      assert order[..|order|] == order;
    }
    forall i: nat, j: nat | i < c.m && j < c.n { EntryInTerms(c, i, j); }
  }

  /** `value` is the product of row `i` of A with column `j` of B, or with row `j` of a linear weight. */
  ghost predicate IsProduct(a: Matrix, b: Operand, k: nat, i: nat, j: nat, value: real) {
    && i < |a| && |a[i]| == k
    && match b
       case Plain(m) => |m| == k && (forall x :: 0 <= x < k ==> j < |m[x]|) && value == Reference.ColumnProduct(a[i], m, j, k)
       case Linear(w) => j < |w| && |w[j]| == k && value == Reference.DotTo(a[i], w[j], k)
  }

  lemma {:induction false} TermsAddUp(c: Call, i: nat, j: nat, n: nat)
    requires c.Valid() && i < c.m && j < c.n && n <= c.k
    ensures match c.b
      case Plain(m) => Sum(c.Terms(i, j), n) == Reference.ColumnProduct(c.a[i], m, j, n)
      case Linear(w) => Sum(c.Terms(i, j), n) == Reference.DotTo(c.a[i], w[j], n)
  {
    if n > 0 { TermsAddUp(c, i, j, n - 1); }
  }

  lemma EntryInTerms(c: Call, i: nat, j: nat)
    requires c.Valid() && i < c.m && j < c.n
    ensures IsProduct(c.a, c.b, c.k, i, j, c.Entry(i, j))
  {
    TermsAddUp(c, i, j, c.k);
  }

  lemma OwnerInLaunch(c: Call, i: nat, j: nat)
    requires c.Valid() && i < c.m && j < c.n
    ensures Owner(c, i, j) < c.Programs()
  {
    OwnerInGrid(c, i, j);
    ProgramThenTile(c.Grid(), i / c.blockM, j / c.blockN);
  }

  lemma NonEmptyGrid(c: Call, pid: nat)
    requires c.Valid() && pid < c.Programs()
    ensures c.Grid().Valid()
  {
    ZeroProduct(c.Grid().p, c.Grid().q);
  }

  // ----- buckets of rows -----

  const BUCKETS: seq<nat> := [16, 32, 64, 128, 256, 512, 1024, 2048, 4096]

  /** `_bucket_m` */
  method BucketM(m: nat) returns (r: Outcome<nat>)
    ensures r.Returns? <==> m <= 4096
    ensures r.Returns? ==> r.value in BUCKETS && m <= r.value && forall b :: b in BUCKETS && m <= b ==> r.value <= b
    ensures r.Raises? ==> r.error == ValueError
  {
    for i := 0 to |BUCKETS|
      invariant forall j :: 0 <= j < i ==> BUCKETS[j] < m
    {
      if m <= BUCKETS[i] {
        assert forall j :: i <= j < |BUCKETS| ==> BUCKETS[i] <= BUCKETS[j];
        return Returns(BUCKETS[i]);
      }
    }
    assert BUCKETS[8] == 4096;
    r := Raises(ValueError);
  }

  /** `qwen_prefill_gemm` and `qwen_prefill_linear`: rows are masked, not padded, up to the bucket,
      and the product is exact for every supported number of rows. Only the former leaves empty
      products to the library; the latter divides by `k` to count its rows. */
  method PrefillGemm(a: Matrix, b: Operand, m: nat, n: nat, k: nat, blockM: nat, blockN: nat, blockK: nat, group: nat)
    returns (r: Outcome<()>, out: array2<real>)
    requires Shaped(a, m, k) && b.Fits(k, n) && blockM > 0 && blockN > 0 && blockK > 0 && group > 0
    ensures r.Returns? <==> if b.Plain? then m <= 4096 || n == 0 || k == 0 else m <= 4096 && k > 0
    ensures r.Raises? ==> r.error == if !b.Plain? && k == 0 then ZeroDivisionError else ValueError
    ensures out.Length0 == m && out.Length1 == n
    ensures r.Returns? ==> forall i: nat, j: nat :: i < m && j < n ==> out[i, j] == Product(a, b, m, n, k, i, j)
    ensures r.Returns? ==> forall i: nat, j: nat :: i < m && j < n ==> IsProduct(a, b, k, i, j, out[i, j])
  {
    hide Product;
    hide IsProduct;
    if b.Plain? && (m == 0 || n == 0 || k == 0) {
      out := new real[m, n]((i: nat, j: nat) requires i < m && j < n && Shaped(a, m, k) && b.Fits(k, n) => Product(a, b, m, n, k, i, j));
      forall i: nat, j: nat | i < m && j < n
        ensures IsProduct(a, b, k, i, j, out[i, j])
      {
        var c := Call(a, b, m, n, k, m, blockM, blockN, blockK, group);
        EntryIsProduct(c, i, j);
        EntryInTerms(c, i, j);
      }
      return Returns(()), out;
    }
    out := new real[m, n];
    if !b.Plain? && k == 0 { return Raises(ZeroDivisionError), out; }
    var bucket := BucketM(m);
    if bucket.Raises? { return Raises(bucket.error), out; }
    var c := Call(a, b, m, n, k, bucket.value, blockM, blockN, blockK, group);
    var order := seq(c.Programs(), i => i);
    forall pid | 0 <= pid < c.Programs()
      ensures pid in order
    {
      assert order[pid] == pid;
    }
    Launch(c, order, out);
    forall i: nat, j: nat | i < m && j < n { EntryIsProduct(c, i, j); }
    r := Returns(());
  }

  /** `(A @ B)[i, j]`, without any launch. */
  function Product(a: Matrix, b: Operand, m: nat, n: nat, k: nat, i: nat, j: nat): real
    requires Shaped(a, m, k) && b.Fits(k, n) && i < m && j < n
  {
    Sum((x: nat) => if x < k then a[i][x] * b.At(x, j, k, n) else 0.0, k)
  }

  lemma EntryIsProduct(c: Call, i: nat, j: nat)
    requires c.Valid() && i < c.m && j < c.n
    ensures c.Entry(i, j) == Product(c.a, c.b, c.m, c.n, c.k, i, j)
  {
    SumEq(c.Terms(i, j), (x: nat) => if x < c.k then c.a[i][x] * c.b.At(x, j, c.k, c.n) else 0.0, c.k);
  }
}
