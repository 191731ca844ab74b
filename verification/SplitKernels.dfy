/** The split-KV launches: learning/10_cuda_decode/split_kv.py over a contiguous cache and
    serving/paged_attention.py through block tables. Both write partial outputs and log-sum-exps
    to workspaces and merge them; both equal attention over exactly the valid rows. */
module SplitKernels {
  import opened Basics
  import opened Sums
  import opened Softmax
  import opened SplitAttention
  import opened PagedGather
  import Reference

  /** `tl.sum(key * q)` */
  function Terms(a: Row, b: Row): nat -> real {
    (i: nat) => if i < |a| && i < |b| then a[i] * b[i] else 0.0
  }

  function Dot(a: Row, b: Row): real {
    Sum(Terms(a, b), |a|)
  }

  function Scores(q: Row, load: nat -> Row, scale: real): nat -> real {
    (t: nat) => Dot(q, load(t)) * scale
  }

  function Column(load: nat -> Row, d: nat): nat -> real {
    (t: nat) => if d < |load(t)| then load(t)[d] else 0.0
  }

  function Rows(rows: seq<Row>): nat -> Row {
    (t: nat) => if t < |rows| then rows[t] else []
  }

  /** The reference: softmax attention of one query over all the given rows. */
  function Direct(m: ExpLog, scale: real, q: Row, keys: seq<Row>, values: seq<Row>, d: nat): Num {
    Attention(m, Scores(q, Rows(keys), scale), Column(Rows(values), d), |keys|)
  }

  // ----- attention as plain sums -----

  lemma {:induction false} DotIs(q: Row, k: Row, n: nat)
    requires |k| == |q| && n <= |q|
    ensures Sum(Terms(q, k), n) == Reference.DotTo(q, k, n)
  {
    if n > 0 { DotIs(q, k, n - 1); }
  }

  lemma ScoreIs(scale: real, q: Row, keys: seq<Row>, t: nat)
    requires t < |keys| && |keys[t]| == |q|
    ensures Scores(q, Rows(keys), scale)(t) == Reference.ScoreOf(scale, q, keys[t])
  {
    assert Rows(keys)(t) == keys[t];
    DotIs(q, keys[t], |q|);
  }

  lemma {:induction false} MassIs(m: ExpLog, scale: real, q: Row, keys: seq<Row>, n: nat)
    requires n <= |keys| && Reference.Wide(keys, |q|)
    ensures Sum(Exps(m, Scores(q, Rows(keys), scale)), n) == Reference.Mass(m.exp, scale, q, keys, n)
  {
    if n > 0 {
      MassIs(m, scale, q, keys, n - 1);
      ScoreIs(scale, q, keys, n - 1);
    }
  }

  lemma {:induction false} MomentIs(m: ExpLog, scale: real, q: Row, keys: seq<Row>, values: seq<Row>, d: nat, n: nat)
    requires n <= |keys| && n <= |values| && Reference.Wide(keys, |q|) && Reference.Wide(values, |q|) && d < |q|
    ensures Sum(Weighted(m, Scores(q, Rows(keys), scale), Column(Rows(values), d)), n) ==
      Reference.Moment(m.exp, scale, q, keys, values, d, n)
  {
    if n > 0 {
      MomentIs(m, scale, q, keys, values, d, n - 1);
      ScoreIs(scale, q, keys, n - 1);
      assert Column(Rows(values), d)(n - 1) == values[n - 1][d];
    }
  }

  /** Attention over the first `n` rows is the quotient of two plain sums, the denominator of which
      is positive. */
  lemma AttentionIs(m: ExpLog, scale: real, q: Row, keys: seq<Row>, values: seq<Row>, d: nat, n: nat)
    requires Laws(m) && 0 < n <= |keys| && n <= |values| && d < |q|
    requires Reference.Wide(keys, |q|) && Reference.Wide(values, |q|)
    ensures Reference.Mass(m.exp, scale, q, keys, n) > 0.0
    ensures Attention(m, Scores(q, Rows(keys), scale), Column(Rows(values), d), n) ==
      Fin(Reference.Moment(m.exp, scale, q, keys, values, d, n) / Reference.Mass(m.exp, scale, q, keys, n))
  {
    hide Laws;
    hide Sum;
    hide Exps;
    hide Weighted;
    hide Scores;
    hide Column;
    PartitionPositive(m, Scores(q, Rows(keys), scale), n);
    MassIs(m, scale, q, keys, n);
    MomentIs(m, scale, q, keys, values, d, n);
  }

  /** Row `out` is softmax attention of `q` over the first `n` keys and values, and undefined when
      there are none. */
  ghost predicate Attends(m: ExpLog, scale: real, q: Row, keys: seq<Row>, values: seq<Row>, n: nat, d: nat, out: Num) {
    n <= |keys| && n <= |values| && Reference.Wide(keys, |q|) && Reference.Wide(values, |q|) && d < |q| ==>
      if n == 0 then out == Undefined
      else
        && Reference.Mass(m.exp, scale, q, keys, n) > 0.0
        && out == Fin(Reference.Moment(m.exp, scale, q, keys, values, d, n) / Reference.Mass(m.exp, scale, q, keys, n))
  }

  lemma DirectAttends(m: ExpLog, scale: real, q: Row, keys: seq<Row>, values: seq<Row>, d: nat)
    requires Laws(m) && |values| == |keys|
    ensures Attends(m, scale, q, keys, values, |keys|, d, Direct(m, scale, q, keys, values, d))
  {
    hide Laws;
    if Reference.Wide(keys, |q|) && Reference.Wide(values, |q|) && d < |q| && |keys| > 0 {
      hide Attention;
      AttentionIs(m, scale, q, keys, values, d, |keys|);
    }
  }

  /** Attention depends on its rows only. */
  lemma AttentionOfRows(m: ExpLog, scale: real, q: Row, keys: seq<Row>, values: seq<Row>, d: nat,
                        keyLoad: nat -> Row, valueLoad: nat -> Row)
    requires |values| == |keys|
    requires forall t: nat :: t < |keys| ==> keyLoad(t) == keys[t] && valueLoad(t) == values[t]
    ensures Attention(m, Scores(q, keyLoad, scale), Column(valueLoad, d), |keys|) == Direct(m, scale, q, keys, values, d)
  {
    var n := |keys|;
    var s, s' := Scores(q, keyLoad, scale), Scores(q, Rows(keys), scale);
    var v, v' := Column(valueLoad, d), Column(Rows(values), d);
    forall t: nat | t < n
      ensures Exps(m, s)(t) == Exps(m, s')(t) && Weighted(m, s, v)(t) == Weighted(m, s', v')(t)
    {
      assert keyLoad(t) == Rows(keys)(t) && valueLoad(t) == Rows(values)(t);
      assert s(t) == s'(t) && v(t) == v'(t);
    }
    SumEq(Exps(m, s), Exps(m, s'), n);
    SumEq(Weighted(m, s, v), Weighted(m, s', v'), n);
  }

  // ----- workspaces -----

  /** Partial outputs `[head, split, dimension]`, log-sum-exps `[head, split]` and outputs
      `[head, dimension]`; whatever they hold before a launch is overwritten. */
  class Workspace {
    const heads: nat
    const splits: nat
    const dims: nat
    const local: array3<Num>
    const lse: array2<Num>
    const output: array2<Num>

    ghost predicate Valid() {
      && local.Length0 == lse.Length0 == output.Length0 == heads
      && local.Length1 == lse.Length1 == splits
      && local.Length2 == output.Length1 == dims
      && lse != output
    }

    constructor (heads: nat, splits: nat, dims: nat)
      ensures Valid() && this.heads == heads && this.splits == splits && this.dims == dims
      ensures fresh(local) && fresh(lse) && fresh(output)
    {
      this.heads, this.splits, this.dims := heads, splits, dims;
      local := new Num[heads, splits, dims];
      lse := new Num[heads, splits];
      output := new Num[heads, dims];
    }

    /** The splits of one head: every program stores its row of partial outputs and its
        log-sum-exp. */
    method PartialPrograms(m: ExpLog, s: nat -> real, values: seq<nat -> real>, n: nat, tile: nat, h: nat)
      requires Valid() && h < heads && |values| == dims
      modifies local, lse
      ensures forall j, d :: 0 <= j < splits && 0 <= d < dims ==> local[h, j, d] == PartialOut(m, s, values[d], n, tile, j)
      ensures forall j :: 0 <= j < splits ==> lse[h, j] == PartialLse(m, s, n, tile, j)
    {
      hide PartialOut;
      hide PartialLse;
      for split := 0 to splits
        invariant forall j, d :: 0 <= j < split && 0 <= d < dims ==> local[h, j, d] == PartialOut(m, s, values[d], n, tile, j)
        invariant forall j :: 0 <= j < split ==> lse[h, j] == PartialLse(m, s, n, tile, j)
      {
        for d := 0 to dims
          invariant forall j, d :: 0 <= j < split && 0 <= d < dims ==> local[h, j, d] == PartialOut(m, s, values[d], n, tile, j)
          invariant forall j :: 0 <= j < split ==> lse[h, j] == PartialLse(m, s, n, tile, j)
          invariant forall d' :: 0 <= d' < d ==> local[h, split, d'] == PartialOut(m, s, values[d'], n, tile, split)
        {
          local[h, split, d] := PartialOut(m, s, values[d], n, tile, split);
        }
        lse[h, split] := PartialLse(m, s, n, tile, split);
      }
    }

    /** The merge program of one head, with `width` lanes. */
    method MergeProgram(m: ExpLog, s: nat -> real, values: seq<nat -> real>, n: nat, tile: nat, h: nat, width: nat)
      requires Laws(m) && Valid() && h < heads && |values| == dims && tile > 0 && splits * tile >= n && width >= splits
      requires forall j, d :: 0 <= j < splits && 0 <= d < dims ==> local[h, j, d] == PartialOut(m, s, values[d], n, tile, j)
      requires forall j :: 0 <= j < splits ==> lse[h, j] == PartialLse(m, s, n, tile, j)
      modifies output
      ensures forall d :: 0 <= d < dims ==> output[h, d] == Attention(m, s, values[d], n)
      ensures forall h', d :: 0 <= h' < heads && 0 <= d < dims && h' != h ==> output[h', d] == old(output[h', d])
    {
      hide PartialOut;
      hide PartialLse;
      hide Merge;
      hide Attention;
      hide Laws;
      var logsum := seq(splits, j requires 0 <= j < splits reads lse => lse[h, j]);
      for d := 0 to dims
        invariant forall d' :: 0 <= d' < d ==> output[h, d'] == Attention(m, s, values[d'], n)
        invariant forall h', d' :: 0 <= h' < heads && 0 <= d' < dims && h' != h ==> output[h', d'] == old(output[h', d'])
        invariant forall j :: 0 <= j < splits ==> lse[h, j] == PartialLse(m, s, n, tile, j)
      {
        var partial := seq(splits, j requires 0 <= j < splits reads local => local[h, j, d]);
        MergeIsAttention(m, s, values[d], n, tile, partial, logsum, width);
        output[h, d] := Merge(m, partial, logsum, width);
      }
    }
  }

  /** Both kernels of one head, for masked loads `keyLoad` and `valueLoad`. */
  method AttendHead(m: ExpLog, scale: real, q: Row, keyLoad: nat -> Row, valueLoad: nat -> Row, n: nat, tile: nat,
                    h: nat, width: nat, w: Workspace, ghost keys: seq<Row>, ghost values: seq<Row>)
    requires Laws(m) && w.Valid() && h < w.heads && tile > 0 && w.splits * tile >= n && width >= w.splits
    requires |keys| == |values| == n
    requires forall t: nat :: t < n ==> keyLoad(t) == keys[t] && valueLoad(t) == values[t]
    modifies w.local, w.lse, w.output
    ensures forall d :: 0 <= d < w.dims ==> w.output[h, d] == Direct(m, scale, q, keys, values, d)
    ensures forall h', d :: 0 <= h' < w.heads && 0 <= d < w.dims && h' != h ==> w.output[h', d] == old(w.output[h', d])
  {
    hide Laws;
    hide Attention;
    hide Direct;
    hide PartialOut;
    hide PartialLse;
    var columns := seq(w.dims, d requires 0 <= d => Column(valueLoad, d));
    var scores := Scores(q, keyLoad, scale);
    w.PartialPrograms(m, scores, columns, n, tile, h);
    w.MergeProgram(m, scores, columns, n, tile, h, width);
    forall d | 0 <= d < w.dims
      ensures w.output[h, d] == Direct(m, scale, q, keys, values, d)
    {
      AttentionOfRows(m, scale, q, keys, values, d, keyLoad, valueLoad);
    }
  }

  ghost predicate CacheOk(q: seq<Row>, k: seq<seq<Row>>, v: seq<seq<Row>>, capacity: nat) {
    && 0 < |k| == |v| && |q| > 0 && |q| % |k| == 0
    && forall h :: 0 <= h < |k| ==> |k[h]| == |v[h]| == capacity
  }

  lemma KvHead(q: seq<Row>, k: seq<seq<Row>>, v: seq<seq<Row>>, capacity: nat, h: nat)
    requires CacheOk(q, k, v, capacity) && h < |q|
    ensures |q| / |k| > 0 && h / (|q| / |k|) < |k| == |v| && |k[h / (|q| / |k|)]| == |v[h / (|q| / |k|)]| == capacity
  {
    assert |q| == (|q| / |k|) * |k|;
    QuotientBelow(h, |k|, |q| / |k|);
  }

  /** Query head `h` attends over exactly the first `n` positions of KV head
      `h // (heads // kv_heads)`. */
  ghost function PrefixDirect(m: ExpLog, scale: real, q: seq<Row>, k: seq<seq<Row>>, v: seq<seq<Row>>, capacity: nat, n: nat, h: nat, d: nat): Num
    requires CacheOk(q, k, v, capacity) && n <= capacity && h < |q|
  {
    KvHead(q, k, v, capacity, h);
    Direct(m, scale, q[h], k[h / (|q| / |k|)][..n], v[h / (|q| / |k|)][..n], d)
  }

  /** `split_kv_attention`, for every tile and merge width and whatever the rest of the cache and
      the workspaces hold. */
  method SplitKvAttention(m: ExpLog, scale: real, q: seq<Row>, k: seq<seq<Row>>, v: seq<seq<Row>>, capacity: nat, n: nat,
                          tile: nat, width: nat, w: Workspace)
    requires Laws(m) && w.Valid() && |q| == w.heads && CacheOk(q, k, v, capacity) && n <= capacity
    requires tile > 0 && w.splits == CeilDiv(capacity, tile) && width >= w.splits
    modifies w.local, w.lse, w.output
    ensures forall h, d :: 0 <= h < |q| && 0 <= d < w.dims ==>
      w.output[h, d] == PrefixDirect(m, scale, q, k, v, capacity, n, h, d)
    ensures forall h, d :: 0 <= h < |q| && 0 <= d < w.dims ==> HeadAttends(m, scale, q, k, v, capacity, n, h, d, w.output[h, d])
  {
    hide Laws;
    hide Direct;
    hide PrefixDirect;
    hide CacheOk;
    hide CeilDiv;
    hide HeadAttends;
    CeilDivBounds(capacity, tile);
    for h := 0 to |q|
      invariant forall h', d :: 0 <= h' < h && 0 <= d < w.dims ==>
        w.output[h', d] == PrefixDirect(m, scale, q, k, v, capacity, n, h', d)
    {
      KvHead(q, k, v, capacity, h);
      var kvHead := h / (|q| / |k|);
      AttendHead(m, scale, q[h], MaskedRows(k[kvHead], n), MaskedRows(v[kvHead], n), n, tile, h, width, w, k[kvHead][..n], v[kvHead][..n]);
      PrefixDirectIs(m, scale, q, k, v, capacity, n, h);
    }
    forall h, d | 0 <= h < |q| && 0 <= d < w.dims
      ensures HeadAttends(m, scale, q, k, v, capacity, n, h, d, w.output[h, d])
    {
      PrefixAttends(m, scale, q, k, v, capacity, n, h, d);
    }
  }

  /** Query head `h` attends over the first `n` positions of its KV head. */
  ghost predicate HeadAttends(m: ExpLog, scale: real, q: seq<Row>, k: seq<seq<Row>>, v: seq<seq<Row>>, capacity: nat, n: nat,
                              h: nat, d: nat, out: Num)
    requires CacheOk(q, k, v, capacity) && h < |q|
  {
    KvHead(q, k, v, capacity, h);
    var kvHead := h / (|q| / |k|);
    Attends(m, scale, q[h], k[kvHead], v[kvHead], n, d, out)
  }

  lemma PrefixAttends(m: ExpLog, scale: real, q: seq<Row>, k: seq<seq<Row>>, v: seq<seq<Row>>, capacity: nat, n: nat, h: nat, d: nat)
    requires Laws(m) && CacheOk(q, k, v, capacity) && n <= capacity && h < |q|
    ensures HeadAttends(m, scale, q, k, v, capacity, n, h, d, PrefixDirect(m, scale, q, k, v, capacity, n, h, d))
  {
    hide Laws;
    hide Direct;
    KvHead(q, k, v, capacity, h);
    var keys, values := k[h / (|q| / |k|)], v[h / (|q| / |k|)];
    DirectAttends(m, scale, q[h], keys[..n], values[..n], d);
    PrefixOfRows(m, scale, q[h], keys, values, n, d, Direct(m, scale, q[h], keys[..n], values[..n], d));
  }

  lemma {:induction false} SamePrefix(exp: real -> real, scale: real, q: Row, keys: seq<Row>, values: seq<Row>, d: nat, n: nat, j: nat)
    requires j <= n <= |keys| && n <= |values| && Reference.Wide(keys, |q|) && Reference.Wide(values, |q|) && d < |q|
    ensures Reference.Wide(keys[..n], |q|) && Reference.Wide(values[..n], |q|)
    ensures Reference.Mass(exp, scale, q, keys[..n], j) == Reference.Mass(exp, scale, q, keys, j)
    ensures Reference.Moment(exp, scale, q, keys[..n], values[..n], d, j) == Reference.Moment(exp, scale, q, keys, values, d, j)
  {
    if j > 0 { SamePrefix(exp, scale, q, keys, values, d, n, j - 1); }
  }

  lemma PrefixOfRows(m: ExpLog, scale: real, q: Row, keys: seq<Row>, values: seq<Row>, n: nat, d: nat, out: Num)
    requires n <= |keys| && n <= |values| && Attends(m, scale, q, keys[..n], values[..n], n, d, out)
    ensures Attends(m, scale, q, keys, values, n, d, out)
  {
    if Reference.Wide(keys, |q|) && Reference.Wide(values, |q|) && d < |q| { SamePrefix(m.exp, scale, q, keys, values, d, n, n); }
  }

  lemma PrefixDirectIs(m: ExpLog, scale: real, q: seq<Row>, k: seq<seq<Row>>, v: seq<seq<Row>>, capacity: nat, n: nat, h: nat)
    requires CacheOk(q, k, v, capacity) && n <= capacity && h < |q|
    ensures |q| / |k| > 0 && h / (|q| / |k|) < |k| == |v| && |k[h / (|q| / |k|)]| == |v[h / (|q| / |k|)]| == capacity
    ensures forall d: nat ::
      PrefixDirect(m, scale, q, k, v, capacity, n, h, d) == Direct(m, scale, q[h], k[h / (|q| / |k|)][..n], v[h / (|q| / |k|)][..n], d)
  {
    hide Direct;
    KvHead(q, k, v, capacity, h);
  }

  /** A masked load of a contiguous cache. */
  function MaskedRows(rows: seq<Row>, n: nat): nat -> Row {
    (t: nat) => if t < n && t < |rows| then rows[t] else []
  }

  /** A masked load through a block table. */
  function ThroughTable(pages: Pages, table: seq<int>, head: nat, n: nat, blockSize: nat): nat -> Row
    requires blockSize > 0
  {
    (t: nat) =>
      if t < n && t / blockSize < |table| && 0 <= table[t / blockSize] < |pages| && head < |pages[table[t / blockSize]]|
         && t % blockSize < |pages[table[t / blockSize]][head]|
      then pages[table[t / blockSize]][head][t % blockSize] else []
  }

  lemma ThroughTableAt(pages: Pages, table: seq<int>, kvHeads: nat, head: nat, n: nat, blockSize: nat)
    requires PagesOk(pages, kvHeads, blockSize) && TableOk(table, n, |pages|, blockSize) && head < kvHeads
    ensures forall t: nat :: t < n ==>
      ThroughTable(pages, table, head, n, blockSize)(t) == MaterializeHead(pages, table, kvHeads, head, n, blockSize)[t]
  {
    hide CeilDiv;
    hide TableOk;
    hide MaterializeHead;
    forall t: nat | t < n
      ensures ThroughTable(pages, table, head, n, blockSize)(t) == MaterializeHead(pages, table, kvHeads, head, n, blockSize)[t]
    {
      MaterializeAt(pages, table, kvHeads, head, n, blockSize, t);
      assert t % blockSize < blockSize == |pages[table[t / blockSize]][head]|;
    }
  }

  /** The materialized rows of program `bh`: its batch entry, its KV head. */
  ghost function RowsOf(c: Call, pages: Pages, bh: nat): (rows: seq<Row>)
    requires c.Valid() && bh < c.Programs() && PagesOk(pages, c.kvHeads, c.blockSize) && |pages| == |c.pages|
    ensures bh / c.heads < |c.lengths| && |rows| == c.lengths[bh / c.heads]
  {
    ProgramRow(c, bh);
    MaterializeHead(pages, c.tables[bh / c.heads], c.kvHeads, bh % c.heads / (c.heads / c.kvHeads), c.lengths[bh / c.heads], c.blockSize)
  }

  /** Loads through the table are the materialized rows. */
  lemma LoadsOf(c: Call, pages: Pages, bh: nat)
    requires c.Valid() && bh < c.Programs() && PagesOk(pages, c.kvHeads, c.blockSize) && |pages| == |c.pages|
    ensures bh / c.heads < |c.tables| == |c.lengths| && c.heads / c.kvHeads > 0 && bh % c.heads / (c.heads / c.kvHeads) < c.kvHeads
    ensures forall t: nat :: t < c.lengths[bh / c.heads] ==>
      ThroughTable(pages, c.tables[bh / c.heads], bh % c.heads / (c.heads / c.kvHeads), c.lengths[bh / c.heads], c.blockSize)(t)
      == RowsOf(c, pages, bh)[t]
  {
    hide CeilDiv;
    hide PagesOk;
    hide TableOk;
    hide Call.Valid;
    hide MaterializeHead;
    hide ThroughTable;
    ProgramRow(c, bh);
    ThroughTableAt(pages, c.tables[bh / c.heads], c.kvHeads, bh % c.heads / (c.heads / c.kvHeads), c.lengths[bh / c.heads], c.blockSize);
  }

  /** Position `t` of a sequence is row `t % blockSize` of the block that the table names for it. */
  ghost function PagedRows(pages: Pages, table: seq<int>, kvHeads: nat, head: nat, n: nat, blockSize: nat): (rows: seq<Row>)
    requires PagesOk(pages, kvHeads, blockSize) && TableOk(table, n, |pages|, blockSize) && head < kvHeads
    ensures |rows| == n
  {
    seq(n, t requires 0 <= t < n => StoredAt(pages, table, kvHeads, head, n, blockSize, t))
  }

  lemma PagedRowsOf(c: Call, pages: Pages, bh: nat)
    requires c.Valid() && bh < c.Programs() && PagesOk(pages, c.kvHeads, c.blockSize) && |pages| == |c.pages|
    ensures bh / c.heads < |c.tables| == |c.lengths| && c.heads / c.kvHeads > 0 && bh % c.heads / (c.heads / c.kvHeads) < c.kvHeads
    ensures TableOk(c.tables[bh / c.heads], c.lengths[bh / c.heads], |c.pages|, c.blockSize)
    ensures RowsOf(c, pages, bh) == PagedRows(pages, c.tables[bh / c.heads], c.kvHeads, bh % c.heads / (c.heads / c.kvHeads),
                                              c.lengths[bh / c.heads], c.blockSize)
  {
    hide CeilDiv;
    hide PagesOk;
    hide TableOk;
    hide Call.Valid;
    hide MaterializeHead;
    hide PagedRows;
    ProgramRow(c, bh);
    MaterializedRows(pages, c.tables[bh / c.heads], c.kvHeads, bh % c.heads / (c.heads / c.kvHeads), c.lengths[bh / c.heads], c.blockSize);
  }

  lemma MaterializedRows(pages: Pages, table: seq<int>, kvHeads: nat, head: nat, n: nat, blockSize: nat)
    requires PagesOk(pages, kvHeads, blockSize) && TableOk(table, n, |pages|, blockSize) && head < kvHeads
    ensures MaterializeHead(pages, table, kvHeads, head, n, blockSize) == PagedRows(pages, table, kvHeads, head, n, blockSize)
  {
    hide CeilDiv;
    hide PagesOk;
    hide TableOk;
    hide MaterializeHead;
    forall t: nat | t < n
      ensures MaterializeHead(pages, table, kvHeads, head, n, blockSize)[t] == StoredAt(pages, table, kvHeads, head, n, blockSize, t)
    {
      MaterializeAt(pages, table, kvHeads, head, n, blockSize, t);
    }
  }

  /** Program `bh` attends over the sequence of batch entry `bh / heads`, read from the pages of KV
      head `head / (heads / kvHeads)` of its query head. */
  ghost predicate SequenceAttends(m: ExpLog, scale: real, q: Row, c: Call, values: Pages, bh: nat, d: nat, out: Num)
    requires c.Valid() && bh < c.Programs() && PagesOk(values, c.kvHeads, c.blockSize) && |values| == |c.pages|
  {
    hide PagesOk;
    hide TableOk;
    hide Call.Valid;
    ProgramRow(c, bh);
    var batch, head := bh / c.heads, bh % c.heads / (c.heads / c.kvHeads);
    var n, table := c.lengths[batch], c.tables[batch];
    Attends(m, scale, q, PagedRows(c.pages, table, c.kvHeads, head, n, c.blockSize),
            PagedRows(values, table, c.kvHeads, head, n, c.blockSize), n, d, out)
  }

  lemma ProgramAttends(m: ExpLog, scale: real, q: Row, c: Call, values: Pages, bh: nat, d: nat)
    requires Laws(m) && c.Valid() && bh < c.Programs() && PagesOk(values, c.kvHeads, c.blockSize) && |values| == |c.pages|
    ensures SequenceAttends(m, scale, q, c, values, bh, d, Direct(m, scale, q, RowsOf(c, c.pages, bh), RowsOf(c, values, bh), d))
  {
    hide Laws;
    hide Direct;
    hide Attends;
    hide RowsOf;
    hide PagedRows;
    hide PagesOk;
    hide TableOk;
    PagedRowsOf(c, c.pages, bh);
    PagedRowsOf(c, values, bh);
    DirectAttends(m, scale, q, RowsOf(c, c.pages, bh), RowsOf(c, values, bh), d);
  }

  /** The splits cover the length. */
  lemma SplitsCover(c: Call, bh: nat, tile: nat)
    requires c.Valid() && bh < c.Programs() && tile > 0
    ensures bh / c.heads < |c.lengths|
    ensures CeilDiv(c.Capacity(), tile) * tile >= c.lengths[bh / c.heads]
  {
    hide PagesOk;
    hide CeilDiv;
    hide Call.Valid;
    ProgramRow(c, bh);
    var n := c.lengths[bh / c.heads];
    CeilDivBounds(c.Capacity(), tile);
    CeilDivBounds(n, c.blockSize);
    MulMonotone(CeilDiv(n, c.blockSize), c.width, c.blockSize);
  }

  /** `paged_attention`: program `bh` attends over the materialized sequence of its batch entry
      and KV head, read in place through the block table. */
  method PagedAttention(m: ExpLog, scale: real, q: seq<Row>, c: Call, values: Pages, tile: nat, width: nat, w: Workspace)
    requires Laws(m) && w.Valid() && c.Valid() && |q| == w.heads == c.Programs()
    requires PagesOk(values, c.kvHeads, c.blockSize) && |values| == |c.pages|
    requires tile > 0 && w.splits == CeilDiv(c.Capacity(), tile) && width >= w.splits
    modifies w.local, w.lse, w.output
    ensures forall bh, d :: 0 <= bh < |q| && 0 <= d < w.dims ==>
      w.output[bh, d] == Direct(m, scale, q[bh], RowsOf(c, c.pages, bh), RowsOf(c, values, bh), d)
    ensures forall bh, d :: 0 <= bh < |q| && 0 <= d < w.dims ==> SequenceAttends(m, scale, q[bh], c, values, bh, d, w.output[bh, d])
  {
    hide Laws;
    hide Direct;
    hide SequenceAttends;
    hide RowsOf;
    hide PagesOk;
    hide TableOk;
    hide ThroughTable;
    hide CeilDiv;
    for bh := 0 to |q|
      invariant forall r, d :: 0 <= r < bh && 0 <= d < w.dims ==>
        w.output[r, d] == Direct(m, scale, q[r], RowsOf(c, c.pages, r), RowsOf(c, values, r), d)
    {
      ProgramRow(c, bh);
      LoadsOf(c, c.pages, bh);
      LoadsOf(c, values, bh);
      SplitsCover(c, bh, tile);
      var batch, kvHead := bh / c.heads, bh % c.heads / (c.heads / c.kvHeads);
      var n, table := c.lengths[batch], c.tables[batch];
      AttendHead(m, scale, q[bh], ThroughTable(c.pages, table, kvHead, n, c.blockSize),
                 ThroughTable(values, table, kvHead, n, c.blockSize), n, tile, bh, width, w,
                 RowsOf(c, c.pages, bh), RowsOf(c, values, bh));
    }
    forall bh, d | 0 <= bh < |q| && 0 <= d < w.dims
      ensures SequenceAttends(m, scale, q[bh], c, values, bh, d, w.output[bh, d])
    {
      ProgramAttends(m, scale, q[bh], c, values, bh, d);
    }
  }
}
