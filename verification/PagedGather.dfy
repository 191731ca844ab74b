/** serving/paged_gather.py: reading pages into a contiguous buffer with the KV heads expanded,
    against `materialize_paged_kv` of serving/qwen_executor.py followed by `repeat_interleave`. */
module PagedGather {
  import opened Basics
  import PagedKV

  type Row = seq<real>
  /** One layer of storage: `[block][kv head][offset]` rows. */
  type Pages = seq<seq<seq<Row>>>

  ghost predicate PagesOk(pages: Pages, kvHeads: nat, blockSize: nat) {
    && blockSize > 0
    && (forall b :: 0 <= b < |pages| ==> |pages[b]| == kvHeads)
    && (forall b, h :: 0 <= b < |pages| && 0 <= h < kvHeads ==> |pages[b][h]| == blockSize)
  }

  /** A block table that covers `length` positions with real blocks. */
  ghost predicate TableOk(table: seq<int>, length: nat, blocks: nat, blockSize: nat)
    requires blockSize > 0
  {
    && CeilDiv(length, blockSize) <= |table|
    && forall b :: 0 <= b < CeilDiv(length, blockSize) ==> 0 <= table[b] < blocks
  }

  /** The tables the allocator hands out cover their lengths with real blocks: a reader that stays
      below the length meets no unused entry, and finds position `t` in the slot that was handed
      out for it. */
  lemma AllocatorTablesOk(p: PagedKV.Pool, id: PagedKV.Id, row: seq<int>, t: nat)
    requires PagedKV.PoolShape(p) && id in p.requests && PagedKV.RowOf(row, p.requests[id].blocks)
    ensures TableOk(row, p.requests[id].length, p.numBlocks, p.blockSize)
    ensures t < p.requests[id].length ==>
      && t / p.blockSize < |p.requests[id].blocks| <= |row|
      && (row[t / p.blockSize], t % p.blockSize) == PagedKV.SlotAt(p.requests[id].blocks, p.blockSize, t)
  {
    hide CeilDiv;
    hide NoDup;
    hide PagedKV.RowOf;
    hide PagedKV.PoolShape;
    RowIs(row, p.requests[id].blocks);
    BlocksReal(p, id);
    var a := p.requests[id];
    assert forall b :: 0 <= b < |a.blocks| ==> a.blocks[b] < p.numBlocks;
    if t < a.length { PositionInBlocks(t, a.length, p.blockSize); }
  }

  lemma BlocksReal(p: PagedKV.Pool, id: PagedKV.Id)
    requires PagedKV.PoolShape(p) && id in p.requests
    ensures p.blockSize > 0 && |p.requests[id].blocks| == CeilDiv(p.requests[id].length, p.blockSize)
    ensures forall b :: 0 <= b < |p.requests[id].blocks| ==> p.requests[id].blocks[b] < p.numBlocks
  {
    hide CeilDiv;
    hide NoDup;
    var a := p.requests[id];
    assert PagedKV.AllocationOk(p.numBlocks, p.blockSize, p.free, a);
    assert forall b :: 0 <= b < |a.blocks| ==> a.blocks[b] in a.blocks;
  }

  lemma RowIs(row: seq<int>, blocks: seq<nat>)
    requires PagedKV.RowOf(row, blocks)
    ensures |blocks| <= |row| && forall b :: 0 <= b < |blocks| ==> row[b] == blocks[b]
  {
  }

  // ----- the reference: gather whole blocks, flatten, cut -----

  /** The reshape that lays blocks end to end. */
  function Flatten<T>(blocks: seq<seq<T>>): seq<T> {
    if blocks == [] then [] else blocks[0] + Flatten(blocks[1..])
  }

  lemma {:induction false} FlattenAt<T>(blocks: seq<seq<T>>, size: nat, t: nat)
    requires size > 0 && t < |blocks| * size
    requires forall b :: 0 <= b < |blocks| ==> |blocks[b]| == size
    ensures t / size < |blocks| && t < |Flatten(blocks)|
    ensures Flatten(blocks)[t] == blocks[t / size][t % size]
  {
    FlattenSize(blocks, size);
    if t >= size {
      DivStep(t, size);
      OneLess(|blocks|, size);
      FlattenAt(blocks[1..], size, t - size);
    } else {
      DivIs(t, size, 0, t);
    }
  }

  lemma OneLess(n: int, k: int)
    ensures (n - 1) * k == n * k - k
  {
  }

  lemma {:induction false} FlattenSize<T>(blocks: seq<seq<T>>, size: nat)
    requires forall b :: 0 <= b < |blocks| ==> |blocks[b]| == size
    ensures |Flatten(blocks)| == |blocks| * size
  {
    if blocks != [] {
      FlattenSize(blocks[1..], size);
      assert |blocks| * size == size + |blocks[1..]| * size;
    }
  }

  /** `storage[physical]` for one head. */
  function HeadBlocks(pages: Pages, table: seq<int>, head: nat, count: nat): seq<seq<Row>>
    requires count <= |table|
    requires forall b :: 0 <= b < count ==> 0 <= table[b] < |pages| && head < |pages[table[b]]|
  {
    seq(count, b requires 0 <= b < count => pages[table[b]][head])
  }

  /** `materialize_paged_kv`, one head of it. */
  function MaterializeHead(pages: Pages, table: seq<int>, kvHeads: nat, head: nat, length: nat, blockSize: nat): (rows: seq<Row>)
    requires PagesOk(pages, kvHeads, blockSize) && TableOk(table, length, |pages|, blockSize) && head < kvHeads
    ensures |rows| == length
  {
    var count := CeilDiv(length, blockSize);
    CeilDivBounds(length, blockSize);
    FlattenSize(HeadBlocks(pages, table, head, count), blockSize);
    Flatten(HeadBlocks(pages, table, head, count))[..length]
  }

  predicate Negative(table: seq<int>, count: nat)
    requires count <= |table|
  {
    exists b :: 0 <= b < count && table[b] < 0
  }

  /** `materialize_paged_kv` on a host tensor, with its checks; a block number beyond the storage
      is the indexing error. */
  function Materialize(pages: Pages, table: seq<int>, kvHeads: nat, length: int, blockSize: nat): (r: Outcome<seq<seq<Row>>>)
    requires PagesOk(pages, kvHeads, blockSize)
    ensures r.Returns? <==> length > 0 && TableOk(table, length, |pages|, blockSize)
    ensures r.Returns? ==> |r.value| == kvHeads
  {
    if length <= 0 then Raises(ValueError)
    else if |table| < CeilDiv(length, blockSize) then Raises(ValueError)
    else if Negative(table, CeilDiv(length, blockSize)) then Raises(ValueError)
    else if exists b :: 0 <= b < CeilDiv(length, blockSize) && table[b] >= |pages| then Raises(IndexError)
    else Returns(seq(kvHeads, h requires 0 <= h < kvHeads => MaterializeHead(pages, table, kvHeads, h, length, blockSize)))
  }

  /** Position `t` is row `t % blockSize` of the `t / blockSize`-th block of the table. */
  lemma MaterializeAt(pages: Pages, table: seq<int>, kvHeads: nat, head: nat, length: nat, blockSize: nat, t: nat)
    requires PagesOk(pages, kvHeads, blockSize) && TableOk(table, length, |pages|, blockSize) && head < kvHeads
    requires t < length
    ensures t / blockSize < |table| && 0 <= table[t / blockSize] < |pages|
    ensures MaterializeHead(pages, table, kvHeads, head, length, blockSize)[t] ==
      pages[table[t / blockSize]][head][t % blockSize]
  {
    hide Flatten;
    hide CeilDiv;
    var count := CeilDiv(length, blockSize);
    PositionInBlocks(t, length, blockSize);
    CeilDivBounds(length, blockSize);
    FlattenAt(HeadBlocks(pages, table, head, count), blockSize, t);
  }

  lemma MaterializedHead(pages: Pages, table: seq<int>, kvHeads: nat, head: nat, length: nat, blockSize: nat)
    requires PagesOk(pages, kvHeads, blockSize) && TableOk(table, length, |pages|, blockSize) && head < kvHeads && length > 0
    ensures Materialize(pages, table, kvHeads, length, blockSize).Returns?
    ensures Materialize(pages, table, kvHeads, length, blockSize).value[head] ==
      MaterializeHead(pages, table, kvHeads, head, length, blockSize)
  {
  }

  /** `repeat_interleave(groups)` over the heads. */
  function RepeatInterleave<T>(xs: seq<T>, groups: nat): seq<T> {
    if xs == [] then [] else seq(groups, _ => xs[0]) + RepeatInterleave(xs[1..], groups)
  }

  /** Query head `h` gets KV head `h / groups`. */
  lemma {:induction false} RepeatInterleaveAt<T>(xs: seq<T>, groups: nat, h: nat)
    requires groups > 0 && h < |xs| * groups
    ensures h / groups < |xs| && h < |RepeatInterleave(xs, groups)|
    ensures RepeatInterleave(xs, groups)[h] == xs[h / groups]
  {
    RepeatSize(xs, groups);
    if h >= groups {
      DivStep(h, groups);
      OneLess(|xs|, groups);
      RepeatInterleaveAt(xs[1..], groups, h - groups);
    } else {
      DivIs(h, groups, 0, h);
    }
  }

  lemma {:induction false} RepeatSize<T>(xs: seq<T>, groups: nat)
    ensures |RepeatInterleave(xs, groups)| == |xs| * groups
  {
    if xs != [] {
      RepeatSize(xs[1..], groups);
      assert |xs| * groups == groups + |xs[1..]| * groups;
    }
  }

  // ----- the kernel -----

  function Zero(dim: nat): Row {
    seq(dim, _ => 0.0)
  }

  /** The masked load of one position. */
  function LoadRow(pages: Pages, table: seq<int>, kvHeads: nat, head: nat, length: nat, blockSize: nat, dim: nat, t: nat): Row
    requires PagesOk(pages, kvHeads, blockSize) && TableOk(table, length, |pages|, blockSize) && head < kvHeads
  {
    if t < length then
      MaterializeAt(pages, table, kvHeads, head, length, blockSize, t);
      pages[table[t / blockSize]][head][t % blockSize]
    else Zero(dim)
  }

  /** The row of programs of one batch entry and one head: tiles of `tile` tokens, those beyond
      the capacity masked out of the store. */
  method GatherHead(pages: Pages, table: seq<int>, kvHeads: nat, head: nat, length: nat, blockSize: nat, dim: nat,
                    capacity: nat, tile: nat, base: nat, output: array<Row>)
    requires PagesOk(pages, kvHeads, blockSize) && TableOk(table, length, |pages|, blockSize) && head < kvHeads
    requires tile > 0 && base + capacity <= output.Length
    modifies output
    ensures forall t: nat :: t < capacity ==>
      output[base + t] == LoadRow(pages, table, kvHeads, head, length, blockSize, dim, t)
    ensures forall k: nat :: k < base ==> output[k] == old(output[k])
  {
    hide LoadRow;
    var tiles := CeilDiv(capacity, tile);
    CeilDivBounds(capacity, tile);
    for tileId := 0 to tiles
      invariant forall t: nat :: t < capacity && t < tileId * tile ==>
        output[base + t] == LoadRow(pages, table, kvHeads, head, length, blockSize, dim, t)
      invariant forall k: nat :: k < base ==> output[k] == old(output[k])
    {
      var start := tileId * tile;
      for i := 0 to tile
        invariant forall t: nat :: t < capacity && t < start + i ==>
          output[base + t] == LoadRow(pages, table, kvHeads, head, length, blockSize, dim, t)
        invariant forall k: nat :: k < base ==> output[k] == old(output[k])
      {
        var token := start + i;
        if token < capacity {
          output[base + token] := LoadRow(pages, table, kvHeads, head, length, blockSize, dim, token);
        }
      }
      assert (tileId + 1) * tile == start + tile;
    }
  }

  /** The arguments of one call, for one layer. */
  datatype Call = Call(pages: Pages, tables: seq<seq<int>>, lengths: seq<nat>, heads: nat, kvHeads: nat,
                       blockSize: nat, dim: nat, width: nat)
  {
    ghost predicate Valid() {
      && PagesOk(pages, kvHeads, blockSize) && kvHeads > 0 && heads > 0 && heads % kvHeads == 0
      && |tables| == |lengths|
      && (forall b :: 0 <= b < |tables| ==> |tables[b]| == width && TableOk(tables[b], lengths[b], |pages|, blockSize))
    }

    function Capacity(): nat {
      width * blockSize
    }

    function Programs(): nat {
      |tables| * heads
    }

    /** Where the row of program `bh` starts in the buffer. */
    function Offset(bh: nat): nat {
      bh * Capacity()
    }
  }

  /** The groups of query heads cover all of them. */
  lemma HeadsCovered(c: Call)
    requires c.Valid()
    ensures c.kvHeads * (c.heads / c.kvHeads) == c.heads
  {
    assert c.heads == c.heads / c.kvHeads * c.kvHeads;
  }

  lemma ProgramRow(c: Call, bh: nat)
    requires c.Valid() && bh < c.Programs()
    ensures bh / c.heads < |c.tables| == |c.lengths| && c.blockSize > 0
    ensures |c.tables[bh / c.heads]| == c.width && PagesOk(c.pages, c.kvHeads, c.blockSize)
    ensures TableOk(c.tables[bh / c.heads], c.lengths[bh / c.heads], |c.pages|, c.blockSize)
    ensures c.heads / c.kvHeads > 0
    ensures bh % c.heads < c.heads && bh % c.heads / (c.heads / c.kvHeads) < c.kvHeads
  {
    QuotientBelow(bh, |c.tables|, c.heads);
    var groups := c.heads / c.kvHeads;
    assert c.heads == groups * c.kvHeads;
    QuotientBelow(bh % c.heads, c.kvHeads, groups);
  }

  /** What the gathered buffer must hold: for each batch entry and query head the materialized,
      head-expanded sequence, and zero rows beyond the length. */
  ghost function Expected(c: Call, bh: nat, t: nat): Row
    requires c.Valid() && bh < c.Programs()
  {
    ProgramRow(c, bh);
    HeadsCovered(c);
    var batch := bh / c.heads;
    if t < c.lengths[batch] then
      var materialized := Materialize(c.pages, c.tables[batch], c.kvHeads, c.lengths[batch], c.blockSize).value;
      RepeatInterleaveAt(materialized, c.heads / c.kvHeads, bh % c.heads);
      RepeatInterleave(materialized, c.heads / c.kvHeads)[bh % c.heads][t]
    else Zero(c.dim)
  }

  /** `kv_head = head // (H // HKV)` is the head that `repeat_interleave` puts there. */
  lemma LoadIsExpected(c: Call, bh: nat, t: nat)
    requires c.Valid() && bh < c.Programs()
    ensures bh / c.heads < |c.tables| && c.heads / c.kvHeads > 0 && bh % c.heads / (c.heads / c.kvHeads) < c.kvHeads
    ensures LoadRow(c.pages, c.tables[bh / c.heads], c.kvHeads, bh % c.heads / (c.heads / c.kvHeads),
                    c.lengths[bh / c.heads], c.blockSize, c.dim, t) == Expected(c, bh, t)
  {
    hide PagesOk;
    hide TableOk;
    hide Call.Valid;
    hide CeilDiv;
    hide Materialize;
    hide MaterializeHead;
    hide RepeatInterleave;
    ProgramRow(c, bh);
    HeadsCovered(c);
    var batch, head, groups := bh / c.heads, bh % c.heads, c.heads / c.kvHeads;
    if t < c.lengths[batch] {
      MaterializedHead(c.pages, c.tables[batch], c.kvHeads, head / groups, c.lengths[batch], c.blockSize);
      var materialized := Materialize(c.pages, c.tables[batch], c.kvHeads, c.lengths[batch], c.blockSize).value;
      RepeatInterleaveAt(materialized, groups, head);
      MaterializeAt(c.pages, c.tables[batch], c.kvHeads, head / groups, c.lengths[batch], c.blockSize, t);
    }
  }

  /** The first `done` program rows of the buffer hold what they must. */
  ghost predicate Gathered(c: Call, buffer: seq<Row>, done: nat)
    requires c.Valid() && done <= c.Programs()
  {
    forall bh: nat, t: nat :: bh < done && t < c.Capacity() ==> CellGathered(c, buffer, bh, t)
  }

  ghost predicate CellGathered(c: Call, buffer: seq<Row>, bh: nat, t: nat)
    requires c.Valid() && bh < c.Programs()
  {
    c.Offset(bh) + t < |buffer| && buffer[c.Offset(bh) + t] == Expected(c, bh, t)
  }

  /** Program rows lie end to end. */
  lemma OffsetBelow(c: Call, r: nat, bh: nat)
    requires r < bh
    ensures c.Offset(r) + c.Capacity() <= c.Offset(bh)
  {
    RowBelow(r, bh, c.Capacity());
  }

  lemma GatheredMore(c: Call, before: seq<Row>, after: seq<Row>, bh: nat)
    requires c.Valid() && bh < c.Programs() && Gathered(c, before, bh) && |after| == |before|
    requires c.Offset(bh) + c.Capacity() <= |after|
    requires forall k: nat :: k < c.Offset(bh) ==> after[k] == before[k]
    requires forall t: nat :: t < c.Capacity() ==> after[c.Offset(bh) + t] == Expected(c, bh, t)
    ensures Gathered(c, after, bh + 1)
  {
    hide Expected;
    hide Call.Valid;
    hide Call.Programs;
    hide Call.Capacity;
    hide Call.Offset;
    forall r: nat, t: nat | r < bh + 1 && t < c.Capacity()
      ensures CellGathered(c, after, r, t)
    {
      if r < bh {
        OffsetBelow(c, r, bh);
        assert CellGathered(c, before, r, t);
      }
    }
  }

  /** The launch for one buffer: the fused gather equals materializing and repeating the heads, for
      every layout, table width and tile, and whatever the buffer and unused table entries held. */
  method Gather(c: Call, tile: nat, output: array<Row>)
    requires c.Valid() && tile > 0 && output.Length == c.Offset(c.Programs())
    modifies output
    ensures Gathered(c, output[..], c.Programs())
  {
    hide Gathered;
    hide Expected;
    hide LoadRow;
    hide CeilDiv;
    hide Call.Offset;
    hide Call.Capacity;
    hide Call.Programs;
    assert Gathered(c, output[..], 0) by { NoneGathered(c, output[..]); }
    for bh := 0 to c.Programs()
      invariant Gathered(c, output[..], bh)
    {
      ProgramRow(c, bh);
      var batch, head := bh / c.heads, bh % c.heads;
      var kvHead := head / (c.heads / c.kvHeads);
      OffsetBelow(c, bh, c.Programs());
      ghost var before := output[..];
      GatherHead(c.pages, c.tables[batch], c.kvHeads, kvHead, c.lengths[batch], c.blockSize, c.dim,
                 c.Capacity(), tile, c.Offset(bh), output);
      forall t: nat | t < c.Capacity()
        ensures output[c.Offset(bh) + t] == Expected(c, bh, t)
      {
        LoadIsExpected(c, bh, t);
      }
      GatheredMore(c, before, output[..], bh);
    }
  }

  // ----- the wrapper -----

  /** A workspace of shape `[batch, heads, capacity, dimension]`, row by row. */
  datatype Workspace = Workspace(batch: nat, heads: nat, capacity: nat, dim: nat, rows: array<Row>)
  {
    predicate Valid() {
      rows.Length == batch * heads * capacity
    }
  }

  /** The arguments of `gather_paged_gqa`; `storage` has `pageRows` offsets per block. */
  datatype Request = Request(keys: seq<Pages>, values: seq<Pages>, pageRows: nat, kvHeads: nat, dim: nat,
                             tables: seq<seq<int>>, width: nat, lengths: seq<nat>, layer: int, blockSize: nat, expand: bool)
  {
    /** Twice the KV heads, or the KV heads themselves. */
    function Heads(): nat {
      if expand then kvHeads * 2 else kvHeads
    }

    predicate Accepted() {
      |lengths| == |tables| && 0 <= layer < |keys| && pageRows == blockSize
    }

    predicate Matches(w: Workspace) {
      w.batch == |tables| && w.heads == Heads() && w.capacity == width * blockSize && w.dim == dim
    }

    /** The launch over the storage of one layer, keys or values. */
    function CallOn(storage: seq<Pages>): Call
      requires 0 <= layer < |storage|
    {
      Call(storage[layer], tables, lengths, Heads(), kvHeads, blockSize, dim, width)
    }

    /** What the kernel takes for granted: stored pages, and tables that cover their lengths. */
    ghost predicate Readable() {
      && |keys| == |values| && kvHeads > 0 && blockSize > 0
      && (forall b :: 0 <= b < |tables| ==> |tables[b]| == width)
      && (Accepted() ==>
            && PagesOk(keys[layer], kvHeads, blockSize) && PagesOk(values[layer], kvHeads, blockSize)
            && |keys[layer]| == |values[layer]|
            && forall b :: 0 <= b < |tables| ==> TableOk(tables[b], lengths[b], |keys[layer]|, blockSize))
    }
  }

  lemma HeadsDivide(kvHeads: nat)
    requires kvHeads > 0
    ensures (kvHeads * 2) % kvHeads == 0 && kvHeads % kvHeads == 0
    ensures (kvHeads * 2) / kvHeads == 2 && kvHeads / kvHeads == 1
  {
    DivIs(kvHeads * 2, kvHeads, 2, 0);
    DivIs(kvHeads, kvHeads, 1, 0);
  }

  /** An accepted request launches the kernel on valid arguments, with one or two query heads for
      each KV head. */
  lemma Launches(q: Request)
    requires q.Readable() && q.Accepted()
    ensures |q.values| == |q.keys| && q.CallOn(q.keys).Valid() && q.CallOn(q.values).Valid()
    ensures q.Heads() / q.kvHeads == if q.expand then 2 else 1
  {
    HeadsDivide(q.kvHeads);
  }

  /** Position `t` of head `h` of entry `b`: the stored row of its KV head, found through the block
      table, and zeros beyond the length. */
  ghost predicate RowGathered(q: Request, pages: Pages, buffer: seq<Row>, b: nat, h: nat, t: nat)
    requires q.Readable() && q.Accepted() && PagesOk(pages, q.kvHeads, q.blockSize) && |pages| == |q.keys[q.layer]|
    requires b < |q.tables| && h < q.kvHeads * (if q.expand then 2 else 1)
  {
    hide PagesOk;
    hide TableOk;
    var row := RowNumber(q, b, h, t);
    && row < |buffer|
    && buffer[row] ==
         if t < q.lengths[b]
         then StoredAt(pages, q.tables[b], q.kvHeads, if q.expand then h / 2 else h, q.lengths[b], q.blockSize, t)
         else seq(q.dim, _ => 0.0)
  }

  /** Row `t` of head `h` of entry `b` in a buffer of shape `[batch, heads, capacity]`. */
  function RowNumber(q: Request, b: nat, h: nat, t: nat): nat {
    var heads: nat := if q.expand then q.kvHeads * 2 else q.kvHeads;
    NatTimes(b, heads);
    NatTimes(q.width, q.blockSize);
    NatTimes(b * heads + h, q.width * q.blockSize);
    (b * heads + h) * (q.width * q.blockSize) + t
  }

  /** Position `t` is row `t % blockSize` of the block that the table names for it. */
  ghost function StoredAt(pages: Pages, table: seq<int>, kvHeads: nat, head: nat, n: nat, blockSize: nat, t: nat): Row
    requires PagesOk(pages, kvHeads, blockSize) && TableOk(table, n, |pages|, blockSize) && head < kvHeads && t < n
  {
    hide CeilDiv;
    PositionInBlocks(t, n, blockSize);
    pages[table[t / blockSize]][head][t % blockSize]
  }

  ghost predicate RowsGathered(q: Request, pages: Pages, buffer: seq<Row>)
    requires q.Readable() && q.Accepted()
  {
    && PagesOk(pages, q.kvHeads, q.blockSize) && |pages| == |q.keys[q.layer]|
    && forall b: nat, h: nat, t: nat :: b < |q.tables| && h < q.kvHeads * (if q.expand then 2 else 1) && t < q.width * q.blockSize ==>
         RowGathered(q, pages, buffer, b, h, t)
  }

  lemma AllRowsGathered(q: Request, storage: seq<Pages>, buffer: seq<Row>)
    requires q.Readable() && q.Accepted() && (storage == q.keys || storage == q.values)
    requires q.CallOn(storage).Valid() && Gathered(q.CallOn(storage), buffer, q.CallOn(storage).Programs())
    ensures RowsGathered(q, storage[q.layer], buffer)
  {
    hide Gathered;
    hide RowGathered;
    forall b: nat, h: nat, t: nat | b < |q.tables| && h < q.kvHeads * (if q.expand then 2 else 1) && t < q.width * q.blockSize
      ensures RowGathered(q, storage[q.layer], buffer, b, h, t)
    {
      RowIsGathered(q, storage, buffer, b, h, t);
    }
  }

  lemma RowIsGathered(q: Request, storage: seq<Pages>, buffer: seq<Row>, b: nat, h: nat, t: nat)
    requires q.Readable() && q.Accepted() && (storage == q.keys || storage == q.values)
    requires q.CallOn(storage).Valid() && Gathered(q.CallOn(storage), buffer, q.CallOn(storage).Programs())
    requires b < |q.tables| && h < q.kvHeads * (if q.expand then 2 else 1) && t < q.width * q.blockSize
    ensures RowGathered(q, storage[q.layer], buffer, b, h, t)
  {
    hide Call.Valid;
    hide Expected;
    hide PagesOk;
    hide TableOk;
    hide LoadRow;
    var c := q.CallOn(storage);
    var bh := PlaceOf(c.heads, |q.tables|, b, h);
    HeadsDivide(q.kvHeads);
    OneGroup(h);
    assert CellGathered(c, buffer, bh, t);
    LoadIsExpected(c, bh, t);
    LoadIsStored(storage[q.layer], q.tables[b], q.kvHeads, if q.expand then h / 2 else h, q.lengths[b], q.blockSize, q.dim, t);
  }

  lemma PlaceOf(heads: nat, batch: nat, b: nat, h: nat) returns (bh: nat)
    requires b < batch && h < heads
    ensures bh == b * heads + h && bh < batch * heads && bh / heads == b && bh % heads == h
  {
    bh := b * heads + h;
    RowBelow(b, batch, heads);
    DivIs(bh, heads, b, h);
  }

  lemma LoadIsStored(pages: Pages, table: seq<int>, kvHeads: nat, head: nat, n: nat, blockSize: nat, dim: nat, t: nat)
    requires PagesOk(pages, kvHeads, blockSize) && TableOk(table, n, |pages|, blockSize) && head < kvHeads
    ensures LoadRow(pages, table, kvHeads, head, n, blockSize, dim, t) ==
      if t < n then StoredAt(pages, table, kvHeads, head, n, blockSize, t) else seq(dim, _ => 0.0)
  {
    hide CeilDiv;
    hide MaterializeHead;
  }

  lemma OneGroup(h: nat)
    ensures h / 1 == h
  {
  }

  method WorkspaceFor(q: Request, given: Option<Workspace>) returns (w: Workspace)
    ensures if given.Some? then w == given.value else w.Valid() && q.Matches(w) && fresh(w.rows)
  {
    if given.Some? { return given.value; }
    var rows := new Row[|q.tables| * q.Heads() * (q.width * q.blockSize)](_ => []);
    w := Workspace(|q.tables|, q.Heads(), q.width * q.blockSize, q.dim, rows);
  }

  /** `gather_paged_gqa`: a workspace or argument of the wrong shape is refused and nothing is
      written; otherwise the buffers hold the materialized, head-expanded sequences, unless the
      caller passed one buffer for both, which then holds the values. */
  method GatherPagedGqa(q: Request, tile: nat, keyOutput: Option<Workspace>, valueOutput: Option<Workspace>)
    returns (r: Outcome<(array<Row>, array<Row>)>)
    requires q.Readable() && tile > 0
    requires keyOutput.Some? ==> keyOutput.value.Valid()
    requires valueOutput.Some? ==> valueOutput.value.Valid()
    modifies (if keyOutput.Some? then {keyOutput.value.rows} else {}) + (if valueOutput.Some? then {valueOutput.value.rows} else {})
    ensures r.Returns? <==>
      q.Accepted() && (keyOutput.Some? ==> q.Matches(keyOutput.value)) && (valueOutput.Some? ==> q.Matches(valueOutput.value))
    ensures r.Raises? ==> r.error == ValueError
    ensures r.Raises? && keyOutput.Some? ==> keyOutput.value.rows[..] == old(keyOutput.value.rows[..])
    ensures r.Raises? && valueOutput.Some? ==> valueOutput.value.rows[..] == old(valueOutput.value.rows[..])
    ensures r.Returns? ==>
      && q.CallOn(q.keys).Valid() && q.CallOn(q.values).Valid()
      && (keyOutput.Some? ==> r.value.0 == keyOutput.value.rows) && (valueOutput.Some? ==> r.value.1 == valueOutput.value.rows)
      && (r.value.0 != r.value.1 ==> Gathered(q.CallOn(q.keys), r.value.0[..], q.CallOn(q.keys).Programs()))
      && Gathered(q.CallOn(q.values), r.value.1[..], q.CallOn(q.values).Programs())
      && (r.value.0 != r.value.1 ==> RowsGathered(q, q.keys[q.layer], r.value.0[..]))
      && RowsGathered(q, q.values[q.layer], r.value.1[..])
  {
    hide Gathered;
    hide Call.Valid;
    hide Request.Readable;
    hide RowsGathered;
    if !q.Accepted() { return Raises(ValueError); }
    Launches(q);
    var k := WorkspaceFor(q, keyOutput);
    var v := WorkspaceFor(q, valueOutput);
    if !q.Matches(k) || !q.Matches(v) { return Raises(ValueError); }
    Gather(q.CallOn(q.keys), tile, k.rows);
    Gather(q.CallOn(q.values), tile, v.rows);
    if k.rows != v.rows { AllRowsGathered(q, q.keys, k.rows[..]); }
    AllRowsGathered(q, q.values, v.rows[..]);
    r := Returns((k.rows, v.rows));
  }

  lemma NoneGathered(c: Call, buffer: seq<Row>)
    requires c.Valid()
    ensures Gathered(c, buffer, 0)
  {
  }
}
