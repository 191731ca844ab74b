/** learning/08_decode/decode_gemv.py: `[K] @ [K,N]` with one program per column tile, and the
    Split-K form with a second reduction launch. */
module SplitK {
  import opened Basics
  import opened Sums
  import opened Gemm
  import Reference

  /** `x[K]` and `weight[K,N]`. */
  datatype Call = Call(x: seq<real>, w: Matrix, n: nat, k: nat)
  {
    predicate Valid() {
      |x| == k && Shaped(w, k, n)
    }

    function Terms(col: nat): nat -> real
      requires Valid() && col < n
    {
      (i: nat) => if i < k then w[i][col] * x[i] else 0.0
    }

    /** `(x @ weight)[col]` */
    function Entry(col: nat): real
      requires Valid() && col < n
    {
      Sum(Terms(col), k)
    }
  }

  /** An entry is the plain product of `x` with a column of the weight. */
  lemma {:induction false} EntryIs(c: Call, col: nat, n: nat)
    requires c.Valid() && col < c.n && n <= c.k
    ensures Sum(c.Terms(col), n) == Reference.ColumnProduct(c.x, c.w, col, n)
  {
    if n > 0 { EntryIs(c, col, n - 1); }
  }

  lemma EntryIsProduct(c: Call, col: nat)
    requires c.Valid() && col < c.n
    ensures c.Entry(col) == Reference.ColumnProduct(c.x, c.w, col, c.k)
  {
    EntryIs(c, col, c.k);
  }

  /** The tile loop over `size` terms from `begin` on, masked at `end`. */
  method TileLoop(f: nat -> real, begin: nat, size: nat, end: nat, blockK: nat) returns (accum: real)
    requires blockK > 0
    ensures accum == Sum(Window(f, begin, end), size)
  {
    hide Sum;
    accum := 0.0;
    var tiles, g := CeilDiv(size, blockK), Window(f, begin, end);
    CeilDivBounds(size, blockK);
    NoTerms(TileSums(g, size, blockK));
    for tile := 0 to tiles
      invariant accum == Sum(TileSums(g, size, blockK), tile)
    {
      OneTerm(TileSums(g, size, blockK), tile);
      accum := accum + Sum(TileTerm(g, size, blockK, tile), blockK);
    }
    TilesAddUp(g, size, blockK, tiles);
  }

  /** The masked terms of one split: `begin + i`, while below `end`. */
  function Window(f: nat -> real, begin: nat, end: nat): nat -> real {
    (i: nat) => if begin + i < end then f(begin + i) else 0.0
  }

  /** The end of a split, which lies before its beginning when the split is empty. */
  function End(split: nat, size: nat, k: nat): nat {
    if (split + 1) * size < k then (split + 1) * size else k
  }

  /** The windows of the splits are the tiles of one cut of `0..K`: they partition it, also when
      trailing splits are empty. */
  lemma WindowIsTile(f: nat -> real, k: nat, size: nat, split: nat)
    ensures Sum(Window(f, split * size, End(split, size, k)), size) == TileSums(f, k, size)(split)
  {
    assert (split + 1) * size == split * size + size;
    SumEq(Window(f, split * size, End(split, size, k)), TileTerm(f, k, size, split), size);
  }

  /** `gemv_kernel`: every column once, without partial sums. */
  method Gemv(c: Call, blockN: nat, blockK: nat, y: array<real>)
    requires c.Valid() && blockN > 0 && blockK > 0 && y.Length == c.n
    modifies y
    ensures forall col: nat :: col < c.n ==> y[col] == c.Entry(col) == Reference.ColumnProduct(c.x, c.w, col, c.k)
  {
    hide Call.Entry;
    var programs := CeilDiv(c.n, blockN);
    CeilDivBounds(c.n, blockN);
    for pid := 0 to programs
      invariant forall col: nat :: col < c.n && col < pid * blockN ==> y[col] == c.Entry(col)
    {
      var start := pid * blockN;
      for i := 0 to blockN
        invariant forall col: nat :: col < c.n && col < start + i ==> y[col] == c.Entry(col)
      {
        if start + i < c.n {
          y[start + i] := TileLoop(c.Terms(start + i), 0, c.k, c.k, blockK);
          WholeWindow(c, start + i);
        }
      }
      assert (pid + 1) * blockN == start + blockN;
    }
    forall col: nat | col < c.n { EntryIsProduct(c, col); }
  }

  lemma WholeWindow(c: Call, col: nat)
    requires c.Valid() && col < c.n
    ensures Sum(Window(c.Terms(col), 0, c.k), c.k) == c.Entry(col)
  {
    SumEq(Window(c.Terms(col), 0, c.k), c.Terms(col), c.k);
  }

  /** `splitk_gemv_kernel`: split `s` of every column goes to row `s` of the workspace. */
  method Partials(c: Call, splits: nat, blockN: nat, blockK: nat, partial: array2<real>)
    requires c.Valid() && splits > 0 && blockN > 0 && blockK > 0
    requires partial.Length0 == splits && partial.Length1 == c.n
    modifies partial
    ensures forall s: nat, col: nat :: s < splits && col < c.n ==>
      partial[s, col] == TileSums(c.Terms(col), c.k, CeilDiv(c.k, splits))(s)
  {
    hide TileSums;
    hide CeilDiv;
    for split := 0 to splits
      invariant forall s: nat, col: nat :: s < split && col < c.n ==>
        partial[s, col] == TileSums(c.Terms(col), c.k, CeilDiv(c.k, splits))(s)
    {
      PartialRow(c, splits, split, blockN, blockK, partial);
    }
  }

  method PartialRow(c: Call, splits: nat, split: nat, blockN: nat, blockK: nat, partial: array2<real>)
    requires c.Valid() && split < splits && blockN > 0 && blockK > 0
    requires partial.Length0 == splits && partial.Length1 == c.n
    modifies partial
    ensures forall col: nat :: col < c.n ==> partial[split, col] == TileSums(c.Terms(col), c.k, CeilDiv(c.k, splits))(split)
    ensures forall s: nat, col: nat :: s < splits && s != split && col < c.n ==> partial[s, col] == old(partial[s, col])
  {
    hide TileSums;
    var size := CeilDiv(c.k, splits);
    var begin, end := split * size, End(split, size, c.k);
    var programs := CeilDiv(c.n, blockN);
    CeilDivBounds(c.n, blockN);
    for pid := 0 to programs
      invariant forall col: nat :: col < c.n && col < pid * blockN ==> partial[split, col] == TileSums(c.Terms(col), c.k, size)(split)
      invariant forall s: nat, col: nat :: s < splits && s != split && col < c.n ==> partial[s, col] == old(partial[s, col])
    {
      var start := pid * blockN;
      for i := 0 to blockN
        invariant forall col: nat :: col < c.n && col < start + i ==> partial[split, col] == TileSums(c.Terms(col), c.k, size)(split)
        invariant forall s: nat, col: nat :: s < splits && s != split && col < c.n ==> partial[s, col] == old(partial[s, col])
      {
        if start + i < c.n {
          partial[split, start + i] := TileLoop(c.Terms(start + i), begin, size, end, blockK);
          WindowIsTile(c.Terms(start + i), c.k, size, split);
        }
      }
      assert (pid + 1) * blockN == start + blockN;
    }
  }

  /** One column of `reduce_splitk_kernel`. */
  method Reduce(f: nat -> real, splits: nat, col: nat, partial: array2<real>) returns (accum: real)
    requires partial.Length0 == splits && col < partial.Length1
    requires forall s: nat :: s < splits ==> partial[s, col] == f(s)
    ensures accum == Sum(f, splits)
  {
    accum := 0.0;
    for split := 0 to splits
      invariant accum == Sum(f, split)
    {
      accum := accum + partial[split, col];
    }
  }

  /** Split-K: the partial sums add up to the full product, for every number of splits and
      whatever the workspace held. */
  method SplitKGemv(c: Call, splits: nat, blockN: nat, blockK: nat, partial: array2<real>, y: array<real>)
    requires c.Valid() && splits > 0 && blockN > 0 && blockK > 0
    requires partial.Length0 == splits && partial.Length1 == c.n && y.Length == c.n
    modifies partial, y
    ensures forall col: nat :: col < c.n ==> y[col] == c.Entry(col) == Reference.ColumnProduct(c.x, c.w, col, c.k)
  {
    hide TileSums;
    hide CeilDiv;
    hide Call.Terms;
    Partials(c, splits, blockN, blockK, partial);
    for col := 0 to c.n
      invariant forall col': nat :: col' < col ==> y[col'] == c.Entry(col')
      invariant forall s: nat, col': nat :: s < splits && col' < c.n ==>
        partial[s, col'] == TileSums(c.Terms(col'), c.k, CeilDiv(c.k, splits))(s)
    {
      y[col] := Reduce(TileSums(c.Terms(col), c.k, CeilDiv(c.k, splits)), splits, col, partial);
      CeilDivBounds(c.k, splits);
      assert splits * CeilDiv(c.k, splits) == CeilDiv(c.k, splits) * splits;
      TilesAddUp(c.Terms(col), c.k, CeilDiv(c.k, splits), splits);
    }
    forall col: nat | col < c.n
      ensures c.Entry(col) == Reference.ColumnProduct(c.x, c.w, col, c.k)
    {
      EntryIsProduct(c, col);
    }
  }

  /** `decode_gemv` */
  method DecodeGemv(c: Call, splitK: nat, blockN: nat, blockK: nat) returns (r: Outcome<()>, y: array<real>)
    requires c.Valid() && blockN > 0 && blockK > 0
    ensures r == if splitK in {1, 2, 4, 8} then Returns(()) else Raises(ValueError)
    ensures r.Returns? ==> y.Length == c.n && forall col: nat :: col < c.n ==> y[col] == Reference.ColumnProduct(c.x, c.w, col, c.k)
  {
    y := new real[c.n];
    if splitK !in {1, 2, 4, 8} { return Raises(ValueError), y; }
    if splitK == 1 {
      Gemv(c, blockN, blockK, y);
    } else {
      var partial := new real[splitK, c.n];
      SplitKGemv(c, splitK, blockN, blockK, partial, y);
    }
    r := Returns(());
  }
}
