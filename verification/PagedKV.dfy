/** serving/paged_kv.py as functions on values: which request owns which physical block,
    and what is read back through a block table. */
module PagedKV {
  import opened Basics

  type Id = string
  /** `(block, offset)` */
  type Slot = (nat, nat)
  /** One K/V row pair, over all layers and heads, as one unknown value. */
  type KV = int

  datatype Allocation = Allocation(blocks: seq<nat>, length: nat)

  datatype Pool = Pool(numBlocks: nat, blockSize: nat, free: set<nat>, requests: map<Id, Allocation>)

  /** `BatchKVMetadata`: entry -1 of a table row means unused. */
  datatype Metadata = Metadata(ids: seq<Id>, tables: seq<seq<int>>, lengths: seq<nat>)

  // ----- the free heap -----

  lemma LeastOf(s: set<nat>) returns (m: nat)
    requires s != {}
    ensures m in s && forall x :: x in s ==> m <= x
  {
    var y :| y in s;
    var below := set x | x in s && x < y;
    if below == {} {
      m := y;
    } else {
      assert y !in below && below < s;
      m := LeastOf(below);
    }
    forall x | x in s
      ensures m <= x
    {
      assert x in below || y <= x;
    }
  }

  lemma MinExists(s: set<nat>)
    requires s != {}
    ensures exists m :: m in s && forall x :: x in s ==> m <= x
  {
    var m := LeastOf(s);
  }

  /** What `heapq.heappop` returns. */
  ghost function Min(s: set<nat>): (m: nat)
    requires s != {}
    ensures m in s && forall x :: x in s ==> m <= x
  {
    MinExists(s);
    var m :| m in s && forall x :: x in s ==> m <= x;
    m
  }

  function Elems<T(==)>(q: seq<T>): set<T> {
    set x | x in q
  }

  /** The blocks `n` successive `heappop` calls return. */
  ghost function Lowest(free: set<nat>, n: nat): seq<nat>
    requires n <= |free|
  {
    if n == 0 then [] else [Min(free)] + Lowest(free - {Min(free)}, n - 1)
  }

  lemma {:induction false} LowestFromFree(free: set<nat>, n: nat)
    requires n <= |free|
    ensures |Lowest(free, n)| == n && NoDup(Lowest(free, n))
    ensures Elems(Lowest(free, n)) <= free
    ensures |free - Elems(Lowest(free, n))| == |free| - n
  {
    hide NoDup;
    hide Elems;
    hide Min;
    if n > 0 {
      var m := Min(free);
      var rest := Lowest(free - {m}, n - 1);
      LowestFromFree(free - {m}, n - 1);
      PrependFree(free, m, rest);
      assert Lowest(free, n) == [m] + rest;
    } else {
      NothingTaken(free);
    }
  }

  lemma NothingTaken(free: set<nat>)
    ensures NoDup<nat>([]) && Elems<nat>([]) == {} && free - Elems<nat>([]) == free
  {
  }

  lemma PrependFree(free: set<nat>, m: nat, rest: seq<nat>)
    requires m in free && NoDup(rest) && Elems(rest) <= free - {m}
    ensures NoDup([m] + rest) && Elems([m] + rest) <= free
    ensures free - Elems([m] + rest) == free - {m} - Elems(rest)
  {
    assert forall i :: 0 <= i < |rest| ==> rest[i] in Elems(rest);
    assert Elems([m] + rest) == {m} + Elems(rest);
  }

  /** Allocation is deterministic: blocks come out in increasing order, lowest numbers first. */
  lemma {:induction false} LowestAreLowest(free: set<nat>, n: nat, i: nat, x: nat)
    requires i < n <= |free| && x in free
    ensures |Lowest(free, n)| == n
    ensures x in Lowest(free, n)[..i + 1] || Lowest(free, n)[i] < x
  {
    hide Elems;
    hide NoDup;
    hide Min;
    var m := Min(free);
    var rest := Lowest(free - {m}, n - 1);
    LowestFromFree(free - {m}, n - 1);
    Prepended(m, rest, i, x);
    if x != m && i > 0 { LowestAreLowest(free - {m}, n - 1, i - 1, x); }
  }

  lemma Prepended(m: nat, rest: seq<nat>, i: nat, x: nat)
    requires i <= |rest|
    ensures x in ([m] + rest)[..i + 1] <==> x == m || x in rest[..i]
    ensures ([m] + rest)[i] == if i == 0 then m else rest[i - 1]
  {
    assert ([m] + rest)[..i + 1] == [m] + rest[..i];
  }

  // ----- operations -----

  function SlotAt(blocks: seq<nat>, blockSize: nat, position: nat): (s: Slot)
    requires blockSize > 0 && position / blockSize < |blocks|
  {
    (blocks[position / blockSize], position % blockSize)
  }

  function Create(p: Pool, id: Id): (Pool, Outcome<()>) {
    if id == "" || id in p.requests then (p, Raises(ValueError))
    else (p.(requests := p.requests[id := Allocation([], 0)]), Returns(()))
  }

  /** The slots of positions `lo..hi`. */
  function SlotRange(blocks: seq<nat>, blockSize: nat, lo: nat, hi: nat): (slots: seq<Slot>)
    requires blockSize > 0 && lo <= hi && CeilDiv(hi, blockSize) <= |blocks|
    decreases hi - lo
  {
    if lo == hi then []
    else
      PositionInBlocks(lo, hi, blockSize);
      [SlotAt(blocks, blockSize, lo)] + SlotRange(blocks, blockSize, lo + 1, hi)
  }

  lemma {:induction false} SlotRangeAt(blocks: seq<nat>, blockSize: nat, lo: nat, hi: nat, i: nat)
    requires blockSize > 0 && lo + i < hi && CeilDiv(hi, blockSize) <= |blocks|
    ensures (lo + i) / blockSize < |blocks|
    ensures |SlotRange(blocks, blockSize, lo, hi)| == hi - lo
    ensures SlotRange(blocks, blockSize, lo, hi)[i] == SlotAt(blocks, blockSize, lo + i)
    decreases hi - lo
  {
    PositionInBlocks(lo, hi, blockSize);
    PositionInBlocks(lo + i, hi, blockSize);
    if i > 0 {
      SlotRangeAt(blocks, blockSize, lo + 1, hi, i - 1);
    } else if lo + 1 < hi {
      SlotRangeAt(blocks, blockSize, lo + 1, hi, 0);
    }
  }

  /** How many new blocks `count` more positions need. */
  function Additional(p: Pool, id: Id, count: nat): int
    requires p.blockSize > 0 && id in p.requests
  {
    CeilDiv(p.requests[id].length + count, p.blockSize) - |p.requests[id].blocks|
  }

  ghost function AppendSlots(p: Pool, id: Id, count: int): (Pool, Outcome<seq<Slot>>)
    requires p.blockSize > 0
  {
    if count < 0 then (p, Raises(ValueError))
    else if id !in p.requests then (p, Raises(KeyError))
    else
      var a := p.requests[id];
      var additional := Additional(p, id, count);
      if additional > |p.free| then (p, Raises(MemoryError))
      else
        var taken := if additional > 0 then Lowest(p.free, additional) else [];
        LowestFromFree(p.free, if additional > 0 then additional else 0);
        var blocks := a.blocks + taken;
        (p.(free := p.free - Elems(taken),
            requests := p.requests[id := Allocation(blocks, a.length + count)]),
         Returns(SlotRange(blocks, p.blockSize, a.length, a.length + count)))
  }

  ghost function Release(p: Pool, id: Id): (Pool, bool) {
    if id !in p.requests then (p, false)
    else (p.(free := p.free + Elems(p.requests[id].blocks), requests := p.requests - {id}), true)
  }

  // ----- metadata -----

  function UsedWidth(p: Pool, ids: seq<Id>): (w: nat)
    requires forall id :: id in ids ==> id in p.requests
    ensures forall id :: id in ids ==> |p.requests[id].blocks| <= w
    ensures w == 0 || exists id :: id in ids && |p.requests[id].blocks| == w
  {
    if ids == [] then 0
    else
      var w := UsedWidth(p, ids[1..]);
      var b := |p.requests[ids[0]].blocks|;
      assert ids[0] in ids;
      if b > w then b else w
  }

  /** A table row: the blocks, then -1. */
  function TableRow(blocks: seq<nat>, width: nat): (row: seq<int>)
    requires |blocks| <= width
    ensures |row| == width
  {
    seq(width, i requires 0 <= i => if i < |blocks| then blocks[i] as int else -1)
  }

  function MetadataFor(p: Pool, ids: seq<Id>, tableWidth: Option<int>): Outcome<Metadata> {
    if exists id :: id in ids && id !in p.requests then Raises(KeyError)
    else
      var used := UsedWidth(p, ids);
      if tableWidth.Some? && (tableWidth.value < 0 || tableWidth.value < used || tableWidth.value > p.numBlocks)
      then Raises(ValueError)
      else
        var width := if tableWidth.Some? then tableWidth.value else used;
        Returns(Metadata(ids,
          seq(|ids|, i requires 0 <= i < |ids| => TableRow(p.requests[ids[i]].blocks, width)),
          seq(|ids|, i requires 0 <= i < |ids| => p.requests[ids[i]].length)))
  }

  /** A returned row starts with the blocks of its request; the rest is unused. */
  lemma MetadataRows(p: Pool, ids: seq<Id>, tableWidth: Option<int>, meta: Metadata, i: nat)
    requires MetadataFor(p, ids, tableWidth) == Returns(meta) && i < |ids|
    ensures ids[i] in p.requests && |meta.tables| == |meta.lengths| == |ids|
    ensures meta.lengths[i] == p.requests[ids[i]].length
    ensures RowOf(meta.tables[i], p.requests[ids[i]].blocks)
  {
    assert ids[i] in ids;
  }

  ghost predicate RowOf(row: seq<int>, blocks: seq<nat>) {
    && |blocks| <= |row|
    && forall b :: 0 <= b < |row| ==> row[b] == if b < |blocks| then blocks[b] else -1
  }

  // ----- the allocator's invariant -----

  ghost function BlockCounts(p: Pool): map<Id, nat> {
    map id | id in p.requests :: |p.requests[id].blocks|
  }

  /** Free and owned blocks partition `0..numBlocks`, and every request holds exactly the
      blocks that its length needs. */
  ghost predicate PoolInv(p: Pool) {
    PoolShape(p) && PoolDisjoint(p) && PoolCovers(p) && PoolCount(p)
  }

  ghost predicate PoolShape(p: Pool) {
    && p.blockSize > 0
    && (forall b :: b in p.free ==> b < p.numBlocks)
    && (forall id :: id in p.requests ==> AllocationOk(p.numBlocks, p.blockSize, p.free, p.requests[id]))
  }

  ghost predicate PoolDisjoint(p: Pool) {
    forall id1, id2 :: id1 in p.requests && id2 in p.requests && id1 != id2 ==>
      Disjoint(p.requests[id1], p.requests[id2])
  }

  ghost predicate PoolCovers(p: Pool) {
    forall b: nat :: b < p.numBlocks ==> b in p.free || Owned(p, b)
  }

  ghost predicate PoolCount(p: Pool) {
    SumMap(BlockCounts(p)) + |p.free| == p.numBlocks
  }

  ghost predicate Disjoint(a: Allocation, b: Allocation) {
    forall x :: x in a.blocks ==> x !in b.blocks
  }

  ghost predicate Owned(p: Pool, b: nat) {
    exists id :: id in p.requests && b in p.requests[id].blocks
  }

  ghost predicate AllocationOk(numBlocks: nat, blockSize: nat, free: set<nat>, a: Allocation)
    requires blockSize > 0
  {
    && NoDup(a.blocks)
    && (forall b :: b in a.blocks ==> b < numBlocks && b !in free)
    && |a.blocks| == CeilDiv(a.length, blockSize)
  }

  ghost function EmptyPool(numBlocks: nat, blockSize: nat): Pool {
    Pool(numBlocks, blockSize, Range(0, numBlocks), map[])
  }

  lemma EmptyPoolInv(numBlocks: nat, blockSize: nat)
    requires blockSize > 0
    ensures PoolInv(EmptyPool(numBlocks, blockSize))
  {
    assert BlockCounts(EmptyPool(numBlocks, blockSize)) == map[];
  }

  lemma CreateKeeps(p: Pool, id: Id)
    requires PoolInv(p)
    ensures PoolInv(Create(p, id).0)
  {
    if id != "" && id !in p.requests {
      var q := p.(requests := p.requests[id := Allocation([], 0)]);
      CreateCount(p, id, q);
      CoversKept(p, q, {id});
    }
  }

  lemma CreateCount(p: Pool, id: Id, q: Pool)
    requires PoolCount(p) && id !in p.requests
    requires q == p.(requests := p.requests[id := Allocation([], 0)])
    ensures PoolCount(q)
  {
    assert BlockCounts(q) == BlockCounts(p)[id := 0];
    SumMapPut(BlockCounts(p), id, 0);
    SumMapDrop(BlockCounts(p), id);
  }

  /** Coverage survives a change that frees or hands over every block it takes away. */
  lemma CoversKept(p: Pool, q: Pool, changed: set<Id>)
    requires PoolCovers(p) && q.numBlocks == p.numBlocks
    requires forall id :: id in p.requests && id !in changed ==> id in q.requests && q.requests[id] == p.requests[id]
    requires forall id, b :: id in p.requests && id in changed && b in p.requests[id].blocks ==> b in q.free || Owned(q, b)
    requires forall b :: b in p.free ==> b in q.free || Owned(q, b)
    ensures PoolCovers(q)
  {
    forall b: nat | b < q.numBlocks
      ensures b in q.free || Owned(q, b)
    {
      if b !in p.free {
        assert Owned(p, b);
        var o :| o in p.requests && b in p.requests[o].blocks;
        if o !in changed { assert b in q.requests[o].blocks; }
      }
    }
  }

  lemma ElemsSize<T>(q: seq<T>)
    requires NoDup(q)
    ensures |Elems(q)| == |q|
  {
    if q != [] {
      ElemsSize(q[1..]);
      assert q == [q[0]] + q[1..];
      assert Elems(q) == {q[0]} + Elems(q[1..]);
    } else {
      assert Elems(q) == {};
    }
  }

  lemma ReleaseKeeps(p: Pool, id: Id)
    requires PoolInv(p)
    ensures PoolInv(Release(p, id).0)
  {
    if id in p.requests {
      var a := p.requests[id];
      var q := p.(free := p.free + Elems(a.blocks), requests := p.requests - {id});
      ReleaseShape(p, id, q);
      ReleaseCount(p, id, q);
      CoversKept(p, q, {id});
    }
  }

  lemma ReleaseShape(p: Pool, id: Id, q: Pool)
    requires PoolShape(p) && PoolDisjoint(p) && id in p.requests
    requires q == p.(free := p.free + Elems(p.requests[id].blocks), requests := p.requests - {id})
    ensures PoolShape(q)
  {
    var a := p.requests[id];
    assert AllocationOk(p.numBlocks, p.blockSize, p.free, a);
    forall i | i in q.requests
      ensures AllocationOk(q.numBlocks, q.blockSize, q.free, q.requests[i])
    {
      assert AllocationOk(p.numBlocks, p.blockSize, p.free, p.requests[i]) && Disjoint(p.requests[i], a);
    }
  }

  lemma ReleaseCount(p: Pool, id: Id, q: Pool)
    requires PoolShape(p) && PoolCount(p) && id in p.requests
    requires q == p.(free := p.free + Elems(p.requests[id].blocks), requests := p.requests - {id})
    ensures PoolCount(q)
  {
    var a := p.requests[id];
    assert AllocationOk(p.numBlocks, p.blockSize, p.free, a);
    ElemsSize(a.blocks);
    assert p.free !! Elems(a.blocks);
    assert BlockCounts(q) == BlockCounts(p) - {id};
    SumMapDrop(BlockCounts(p), id);
  }

  /** The pool after `id` gets the blocks `taken` and `count` more positions. */
  ghost function Grown(p: Pool, id: Id, count: nat, taken: seq<nat>): Pool
    requires id in p.requests
  {
    p.(free := p.free - Elems(taken),
       requests := p.requests[id := Allocation(p.requests[id].blocks + taken, p.requests[id].length + count)])
  }

  /** A reservation that fits takes free blocks and nothing else. */
  lemma AppendShape(p: Pool, id: Id, count: nat) returns (taken: seq<nat>)
    requires PoolShape(p) && id in p.requests && Additional(p, id, count) <= |p.free|
    ensures NoDup(taken) && Elems(taken) <= p.free
    ensures |taken| == Additional(p, id, count) && taken == Lowest(p.free, Additional(p, id, count))
    ensures |p.free - Elems(taken)| == |p.free| - |taken|
    ensures CeilDiv(p.requests[id].length + count, p.blockSize) == |p.requests[id].blocks + taken|
    ensures AppendSlots(p, id, count) == (Grown(p, id, count, taken),
      Returns(SlotRange(p.requests[id].blocks + taken, p.blockSize, p.requests[id].length, p.requests[id].length + count)))
  {
    var a := p.requests[id];
    CeilDivMonotone(a.length, a.length + count, p.blockSize);
    assert AllocationOk(p.numBlocks, p.blockSize, p.free, a);
    taken := Lowest(p.free, Additional(p, id, count));
    LowestFromFree(p.free, Additional(p, id, count));
    if Additional(p, id, count) == 0 { assert taken == []; }
  }

  lemma AppendKeeps(p: Pool, id: Id, count: nat)
    requires PoolInv(p)
    ensures PoolInv(AppendSlots(p, id, count).0)
  {
    if id in p.requests && Additional(p, id, count) <= |p.free| {
      var taken := AppendShape(p, id, count);
      var q := Grown(p, id, count, taken);
      GrownShape(p, id, count, taken, q);
      GrownCount(p, id, count, taken, q);
      GrownCovers(p, id, count, taken, q);
    }
  }

  lemma GrownShape(p: Pool, id: Id, count: nat, taken: seq<nat>, q: Pool)
    requires PoolShape(p) && PoolDisjoint(p) && id in p.requests && q == Grown(p, id, count, taken)
    requires NoDup(taken) && Elems(taken) <= p.free && |taken| == Additional(p, id, count)
    ensures PoolShape(q) && PoolDisjoint(q)
  {
    var a, a' := p.requests[id], q.requests[id];
    assert AllocationOk(p.numBlocks, p.blockSize, p.free, a);
    assert forall b :: b in a'.blocks <==> b in a.blocks || b in Elems(taken);
    assert NoDup(a'.blocks) by {
      assert forall i :: 0 <= i < |taken| ==> taken[i] in Elems(taken);
    }
    forall i | i in q.requests && i != id
      ensures AllocationOk(q.numBlocks, q.blockSize, q.free, q.requests[i])
      ensures Disjoint(q.requests[i], a') && Disjoint(a', q.requests[i])
    {
      assert AllocationOk(p.numBlocks, p.blockSize, p.free, p.requests[i]);
      assert Disjoint(p.requests[i], a) && Disjoint(a, p.requests[i]);
    }
  }

  lemma GrownCount(p: Pool, id: Id, count: nat, taken: seq<nat>, q: Pool)
    requires PoolCount(p) && id in p.requests && q == Grown(p, id, count, taken)
    requires |p.free - Elems(taken)| == |p.free| - |taken|
    ensures PoolCount(q)
  {
    var n := |p.requests[id].blocks + taken|;
    assert BlockCounts(q) == BlockCounts(p)[id := n];
    SumMapPut(BlockCounts(p), id, n);
    SumMapDrop(BlockCounts(p), id);
  }

  lemma GrownCovers(p: Pool, id: Id, count: nat, taken: seq<nat>, q: Pool)
    requires PoolCovers(p) && id in p.requests && q == Grown(p, id, count, taken)
    ensures PoolCovers(q)
  {
    assert forall b :: b in q.requests[id].blocks <==> b in p.requests[id].blocks || b in Elems(taken);
    forall b | b in p.requests[id].blocks || b in Elems(taken)
      ensures Owned(q, b)
    {
      assert b in q.requests[id].blocks;
    }
    CoversKept(p, q, {id});
  }

  /** `q` is `p` with `count` more positions for `id`, and nothing else changed. */
  ghost predicate Extended(p: Pool, q: Pool, id: Id, count: nat)
    requires id in p.requests
  {
    && q.requests.Keys == p.requests.Keys
    && q.numBlocks == p.numBlocks && q.blockSize == p.blockSize
    && q.requests[id].length == p.requests[id].length + count
    && p.requests[id].blocks <= q.requests[id].blocks
    && (forall i :: i in q.requests && i != id ==> q.requests[i] == p.requests[i])
    && q.free <= p.free
  }

  /** What a reservation that fits promises its caller. */
  lemma AppendOutcome(p: Pool, id: Id, count: nat) returns (q: Pool, slots: seq<Slot>)
    requires PoolInv(p) && id in p.requests && Additional(p, id, count) <= |p.free|
    ensures AppendSlots(p, id, count) == (q, Returns(slots))
    ensures PoolInv(q) && Extended(p, q, id, count)
    ensures |slots| == count && SlotsAre(slots, q.requests[id], q.blockSize, p.requests[id].length)
  {
    hide PoolInv;
    hide PoolShape;
    hide AppendSlots;
    hide Additional;
    hide SlotRange;
    hide SlotsAre;
    hide CeilDiv;
    hide NoDup;
    hide Elems;
    hide Lowest;
    ShapeOfPool(p);
    AppendKeeps(p, id, count);
    var taken := AppendShape(p, id, count);
    q := Grown(p, id, count, taken);
    slots := SlotRange(q.requests[id].blocks, p.blockSize, p.requests[id].length, p.requests[id].length + count);
    GrownSlots(p, id, count, taken);
  }

  lemma ShapeOfPool(p: Pool)
    requires PoolInv(p)
    ensures PoolShape(p) && p.blockSize > 0
  {
  }

  lemma GrownSlots(p: Pool, id: Id, count: nat, taken: seq<nat>)
    requires p.blockSize > 0 && id in p.requests
    requires CeilDiv(p.requests[id].length + count, p.blockSize) == |p.requests[id].blocks + taken|
    ensures var q := Grown(p, id, count, taken);
      var slots := SlotRange(q.requests[id].blocks, p.blockSize, p.requests[id].length, p.requests[id].length + count);
      |slots| == count && SlotsAre(slots, q.requests[id], q.blockSize, p.requests[id].length)
  {
    var a := p.requests[id];
    RangeFacts(a.blocks + taken, p.blockSize, a.length, a.length + count);
  }

  /** Slot `i` is the slot of position `start + i`. */
  ghost predicate SlotsAre(slots: seq<Slot>, a: Allocation, blockSize: nat, start: nat) {
    && blockSize > 0
    && forall i :: 0 <= i < |slots| ==> SlotIs(slots[i], a.blocks, blockSize, start + i)
  }

  ghost predicate SlotIs(slot: Slot, blocks: seq<nat>, blockSize: nat, position: nat)
    requires blockSize > 0
  {
    position / blockSize < |blocks| && slot == SlotAt(blocks, blockSize, position)
  }

  lemma RangeFacts(blocks: seq<nat>, blockSize: nat, lo: nat, hi: nat)
    requires blockSize > 0 && lo <= hi && CeilDiv(hi, blockSize) <= |blocks|
    ensures |SlotRange(blocks, blockSize, lo, hi)| == hi - lo
    ensures forall i :: 0 <= i < hi - lo ==> SlotIs(SlotRange(blocks, blockSize, lo, hi)[i], blocks, blockSize, lo + i)
  {
    if lo < hi { SlotRangeAt(blocks, blockSize, lo, hi, 0); }
    forall i | 0 <= i < hi - lo
      ensures SlotIs(SlotRange(blocks, blockSize, lo, hi)[i], blocks, blockSize, lo + i)
    {
      SlotRangeAt(blocks, blockSize, lo, hi, i);
    }
  }
}
