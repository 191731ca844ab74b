/** The physical K/V pages behind the block tables: paged storage refines one private
    sequence per request. */
module PagedStorage {
  import opened Basics
  import opened PagedKV

  type Cells = map<Slot, KV>

  /** The pages hold a value in every slot; fresh pages hold arbitrary ones. */
  ghost predicate StorageOk(p: Pool, cells: Cells) {
    forall b: nat, o: nat :: b < p.numBlocks && o < p.blockSize ==> (b, o) in cells
  }

  /** What a request with allocation `a` reads at position `i`. The fallback is never taken
      below the length, see `SlotInRange`. */
  function CellAt(blockSize: nat, a: Allocation, cells: Cells, i: nat): KV
    requires blockSize > 0
  {
    if i / blockSize < |a.blocks| && SlotAt(a.blocks, blockSize, i) in cells
    then cells[SlotAt(a.blocks, blockSize, i)] else 0
  }

  lemma SlotInRange(p: Pool, id: Id, i: nat)
    requires PoolShape(p) && id in p.requests && i < p.requests[id].length
    ensures i / p.blockSize < |p.requests[id].blocks|
    ensures SlotAt(p.requests[id].blocks, p.blockSize, i).0 < p.numBlocks
    ensures SlotAt(p.requests[id].blocks, p.blockSize, i).0 !in p.free
    ensures SlotAt(p.requests[id].blocks, p.blockSize, i).1 < p.blockSize
  {
    var a := p.requests[id];
    assert AllocationOk(p.numBlocks, p.blockSize, p.free, a);
    PositionInBlocks(i, a.length, p.blockSize);
    assert a.blocks[i / p.blockSize] in a.blocks;
  }

  /** The slot of any position inside a request's blocks lies in the pages. */
  lemma SlotInPages(p: Pool, id: Id, slot: Slot, position: nat)
    requires PoolShape(p) && id in p.requests && SlotIs(slot, p.requests[id].blocks, p.blockSize, position)
    ensures slot.0 < p.numBlocks && slot.1 < p.blockSize
  {
    assert AllocationOk(p.numBlocks, p.blockSize, p.free, p.requests[id]);
    assert slot.0 in p.requests[id].blocks;
  }

  /** Two positions, of one request or of two, never share a slot. */
  lemma SlotsDistinct(p: Pool, id: Id, i: nat, id': Id, i': nat)
    requires PoolShape(p) && PoolDisjoint(p)
    requires id in p.requests && i < p.requests[id].length
    requires id' in p.requests && i' < p.requests[id'].length
    requires (id, i) != (id', i')
    ensures i / p.blockSize < |p.requests[id].blocks| && i' / p.blockSize < |p.requests[id'].blocks|
    ensures SlotAt(p.requests[id].blocks, p.blockSize, i) != SlotAt(p.requests[id'].blocks, p.blockSize, i')
  {
    SlotInRange(p, id, i);
    SlotInRange(p, id', i');
    var a, a' := p.requests[id], p.requests[id'];
    hide PoolShape;
    if id != id' {
      ForeignSlots(a, a', p.blockSize, i, i');
    } else {
      OwnBlocksDistinct(p, id);
      OwnSlotsDistinct(a.blocks, p.blockSize, i, i');
    }
  }

  lemma OwnBlocksDistinct(p: Pool, id: Id)
    requires PoolShape(p) && id in p.requests
    ensures NoDup(p.requests[id].blocks)
  {
    assert AllocationOk(p.numBlocks, p.blockSize, p.free, p.requests[id]);
  }

  lemma ForeignSlots(a: Allocation, a': Allocation, blockSize: nat, i: nat, i': nat)
    requires Disjoint(a, a') && blockSize > 0 && i / blockSize < |a.blocks| && i' / blockSize < |a'.blocks|
    ensures SlotAt(a.blocks, blockSize, i) != SlotAt(a'.blocks, blockSize, i')
  {
    var b := a.blocks[i / blockSize];
    assert b in a.blocks;
  }

  lemma OwnSlotsDistinct(blocks: seq<nat>, blockSize: nat, i: nat, i': nat)
    requires NoDup(blocks) && blockSize > 0 && i != i'
    requires i / blockSize < |blocks| && i' / blockSize < |blocks|
    ensures SlotAt(blocks, blockSize, i) != SlotAt(blocks, blockSize, i')
  {
    if i / blockSize == i' / blockSize && i % blockSize == i' % blockSize {
      DivModInjective(i, i', blockSize);
    }
  }

  // ----- the reference writer -----

  function WriteFrom(blockSize: nat, a: Allocation, cells: Cells, positions: seq<int>, rows: seq<KV>): (Cells, Outcome<()>)
    requires blockSize > 0 && |positions| == |rows| && |a.blocks| == CeilDiv(a.length, blockSize)
    decreases |positions|
  {
    if positions == [] then (cells, Returns(()))
    else if !(0 <= positions[0] < a.length) then (cells, Raises(IndexError))
    else
      PositionInBlocks(positions[0], a.length, blockSize);
      WriteFrom(blockSize, a, cells[SlotAt(a.blocks, blockSize, positions[0]) := rows[0]], positions[1..], rows[1..])
  }

  ghost function Write(p: Pool, cells: Cells, id: Id, positions: seq<int>, rows: seq<KV>): (Cells, Outcome<()>)
    requires PoolShape(p)
  {
    if id !in p.requests then (cells, Raises(KeyError))
    else if |positions| != |rows| then (cells, Raises(ValueError))
    else
      assert AllocationOk(p.numBlocks, p.blockSize, p.free, p.requests[id]);
      WriteFrom(p.blockSize, p.requests[id], cells, positions, rows)
  }

  // ----- private sequences -----

  /** What each live request has stored: a value where one was written, None where a
      reserved position was never written. */
  type Private = map<Id, seq<Option<KV>>>

  datatype Op =
    | CreateOp(id: Id)
    | AppendOp(id: Id, count: int)
    | WriteOp(id: Id, positions: seq<int>, rows: seq<KV>)
    | ReleaseOp(id: Id)

  ghost function Nones(n: nat): seq<Option<KV>> {
    seq(n, _ => None)
  }

  /** How many blocks the private sequences need altogether. */
  ghost function Demand(blockSize: nat, s: Private): nat
    requires blockSize > 0
  {
    SumMap(Demands(blockSize, s))
  }

  function Overwrite(s: seq<Option<KV>>, positions: seq<int>, rows: seq<KV>): (r: seq<Option<KV>>)
    requires |positions| == |rows|
    ensures |r| == |s|
    decreases |positions|
  {
    if positions == [] || !(0 <= positions[0] < |s|) then s
    else Overwrite(s[positions[0] := Some(rows[0])], positions[1..], rows[1..])
  }

  /** The specification of the allocator: no blocks, no tables, one sequence per request. */
  ghost function PrivateStep(numBlocks: nat, blockSize: nat, s: Private, op: Op): Private
    requires blockSize > 0
  {
    match op
    case CreateOp(id) => if id == "" || id in s then s else s[id := []]
    case AppendOp(id, count) =>
      if id !in s || count < 0 then s
      else
        var s' := s[id := s[id] + Nones(count)];
        if Demand(blockSize, s') > numBlocks then s else s'
    case WriteOp(id, positions, rows) =>
      if id !in s || |positions| != |rows| then s else s[id := Overwrite(s[id], positions, rows)]
    case ReleaseOp(id) => s - {id}
  }

  ghost function PagedStep(p: Pool, cells: Cells, op: Op): (Pool, Cells)
    requires PoolInv(p)
  {
    match op
    case CreateOp(id) => (Create(p, id).0, cells)
    case AppendOp(id, count) => (AppendSlots(p, id, count).0, cells)
    case WriteOp(id, positions, rows) => (p, Write(p, cells, id, positions, rows).0)
    case ReleaseOp(id) => (Release(p, id).0, cells)
  }

  /** The pages hold every value the private sequences hold. */
  ghost predicate Refines(p: Pool, cells: Cells, s: Private) {
    && PoolInv(p) && StorageOk(p, cells)
    && p.requests.Keys == s.Keys
    && forall id :: id in s ==> RowRefines(p.blockSize, p.requests[id], cells, s[id])
  }

  ghost predicate RowRefines(blockSize: nat, a: Allocation, cells: Cells, row: seq<Option<KV>>)
    requires blockSize > 0
  {
    && a.length == |row|
    && forall i :: 0 <= i < |row| && row[i].Some? ==> CellAt(blockSize, a, cells, i) == row[i].value
  }

  ghost function Demands(blockSize: nat, s: Private): map<Id, nat>
    requires blockSize > 0
  {
    map id | id in s :: CeilDiv(|s[id]|, blockSize)
  }

  lemma DemandsAreBlocks(p: Pool, cells: Cells, s: Private)
    requires Refines(p, cells, s)
    ensures Demands(p.blockSize, s) == BlockCounts(p)
  {
    forall i | i in s
      ensures CeilDiv(|s[i]|, p.blockSize) == |p.requests[i].blocks|
    {
      assert RowRefines(p.blockSize, p.requests[i], cells, s[i]);
      assert AllocationOk(p.numBlocks, p.blockSize, p.free, p.requests[i]);
    }
  }

  /** A reservation runs out of memory exactly when the requests together need more blocks
      than there are. */
  lemma AppendFits(p: Pool, cells: Cells, s: Private, id: Id, count: nat)
    requires Refines(p, cells, s) && id in s
    ensures Additional(p, id, count) > |p.free| <==>
      Demand(p.blockSize, s[id := s[id] + Nones(count)]) > p.numBlocks
  {
    DemandsAreBlocks(p, cells, s);
    assert RowRefines(p.blockSize, p.requests[id], cells, s[id]);
    AppendDemand(p.blockSize, s, id, count);
    assert BlockCounts(p)[id] == |p.requests[id].blocks|;
  }

  lemma AppendDemand(blockSize: nat, s: Private, id: Id, count: nat)
    requires blockSize > 0 && id in s
    ensures Demand(blockSize, s[id := s[id] + Nones(count)]) ==
      Demand(blockSize, s) - Demands(blockSize, s)[id] + CeilDiv(|s[id]| + count, blockSize)
  {
    var n := CeilDiv(|s[id]| + count, blockSize);
    var s' := s[id := s[id] + Nones(count)];
    assert Demands(blockSize, s') == Demands(blockSize, s)[id := n];
    SumMapPut(Demands(blockSize, s), id, n);
    SumMapDrop(Demands(blockSize, s), id);
  }

  lemma {:induction false} WriteRefines(p: Pool, cells: Cells, s: Private, id: Id, positions: seq<int>, rows: seq<KV>)
    requires Refines(p, cells, s) && id in s && |positions| == |rows|
    requires |p.requests[id].blocks| == CeilDiv(p.requests[id].length, p.blockSize)
    ensures Refines(p, WriteFrom(p.blockSize, p.requests[id], cells, positions, rows).0,
                    s[id := Overwrite(s[id], positions, rows)])
    decreases |positions|
  {
    hide PoolDisjoint;
    hide PoolCovers;
    hide PoolCount;
    hide AllocationOk;
    hide StorageOk;
    hide CeilDiv;
    assert RowRefines(p.blockSize, p.requests[id], cells, s[id]);
    if positions == [] || !(0 <= positions[0] < |s[id]|) {
      assert s[id := s[id]] == s;
    } else {
      var i := positions[0];
      PositionInBlocks(i, p.requests[id].length, p.blockSize);
      var cells' := cells[SlotAt(p.requests[id].blocks, p.blockSize, i) := rows[0]];
      var s' := s[id := s[id][i := Some(rows[0])]];
      WriteOneRefines(p, cells, s, id, i, rows[0]);
      WriteRefines(p, cells', s', id, positions[1..], rows[1..]);
      assert s'[id := Overwrite(s'[id], positions[1..], rows[1..])] == s[id := Overwrite(s[id], positions, rows)];
    }
  }

  lemma WriteOneRefines(p: Pool, cells: Cells, s: Private, id: Id, i: nat, v: KV)
    requires Refines(p, cells, s) && id in s && i < |s[id]|
    requires i / p.blockSize < |p.requests[id].blocks|
    ensures Refines(p, cells[SlotAt(p.requests[id].blocks, p.blockSize, i) := v], s[id := s[id][i := Some(v)]])
  {
    var cells' := cells[SlotAt(p.requests[id].blocks, p.blockSize, i) := v];
    var s' := s[id := s[id][i := Some(v)]];
    assert RowRefines(p.blockSize, p.requests[id], cells, s[id]);
    forall id' | id' in s
      ensures RowRefines(p.blockSize, p.requests[id'], cells', s'[id'])
    {
      assert RowRefines(p.blockSize, p.requests[id'], cells, s[id']);
      forall j | 0 <= j < |s[id']| && (id', j) != (id, i)
        ensures CellAt(p.blockSize, p.requests[id'], cells', j) == CellAt(p.blockSize, p.requests[id'], cells, j)
      {
        SlotsDistinct(p, id, i, id', j);
      }
    }
  }

  /** What a request keeps while it grows. */
  lemma GrownRow(blockSize: nat, a: Allocation, a': Allocation, cells: Cells, row: seq<Option<KV>>, more: nat)
    requires blockSize > 0 && |a.blocks| == CeilDiv(a.length, blockSize)
    requires a.blocks <= a'.blocks && a'.length == a.length + more
    requires RowRefines(blockSize, a, cells, row)
    ensures RowRefines(blockSize, a', cells, row + Nones(more))
  {
    forall i | 0 <= i < |row|
      ensures CellAt(blockSize, a', cells, i) == CellAt(blockSize, a, cells, i)
    {
      PositionInBlocks(i, a.length, blockSize);
    }
  }

  /** One allocator call does to the pages what the specification does to the private sequences. */
  lemma StepRefines(p: Pool, cells: Cells, s: Private, op: Op)
    requires Refines(p, cells, s)
    ensures Refines(PagedStep(p, cells, op).0, PagedStep(p, cells, op).1,
                    PrivateStep(p.numBlocks, p.blockSize, s, op))
  {
    match op
    case CreateOp(id) => CreateRefines(p, cells, s, id);
    case AppendOp(id, count) => if id in s && count >= 0 { AppendStepRefines(p, cells, s, id, count); }
    case WriteOp(id, positions, rows) =>
      if id in s && |positions| == |rows| {
        assert AllocationOk(p.numBlocks, p.blockSize, p.free, p.requests[id]);
        WriteRefines(p, cells, s, id, positions, rows);
      }
    case ReleaseOp(id) =>
      ReleaseKeeps(p, id);
      ReleaseRefines(p, cells, s, id, Release(p, id).0);
  }

  lemma CreateRefines(p: Pool, cells: Cells, s: Private, id: Id)
    requires Refines(p, cells, s)
    ensures Refines(Create(p, id).0, cells, if id == "" || id in s then s else s[id := []])
  {
    hide PoolInv;
    hide StorageOk;
    PositiveBlocks(p);
    CreateKeeps(p, id);
    SameStorage(p, Create(p, id).0, cells);
  }

  lemma AppendStepRefines(p: Pool, cells: Cells, s: Private, id: Id, count: nat)
    requires Refines(p, cells, s) && id in s
    ensures Refines(AppendSlots(p, id, count).0, cells, PrivateStep(p.numBlocks, p.blockSize, s, AppendOp(id, count)))
  {
    AppendFits(p, cells, s, id, count);
    if Additional(p, id, count) <= |p.free| {
      AppendKeeps(p, id, count);
      var taken := AppendShape(p, id, count);
      AppendRefines(p, cells, s, id, count, Grown(p, id, count, taken));
    }
  }

  lemma AppendRefines(p: Pool, cells: Cells, s: Private, id: Id, count: nat, q: Pool)
    requires Refines(p, cells, s) && id in s && PoolInv(q)
    requires q.numBlocks == p.numBlocks && q.blockSize == p.blockSize && q.requests.Keys == p.requests.Keys
    requires forall i :: i in p.requests && i != id ==> q.requests[i] == p.requests[i]
    requires p.requests[id].blocks <= q.requests[id].blocks
    requires q.requests[id].length == p.requests[id].length + count
    ensures Refines(q, cells, s[id := s[id] + Nones(count)])
  {
    hide PoolInv;
    hide StorageOk;
    hide RowRefines;
    SizedAllocation(p, id);
    SameStorage(p, q, cells);
    GrownRow(p.blockSize, p.requests[id], q.requests[id], cells, s[id], count);
  }

  lemma PositiveBlocks(p: Pool)
    requires PoolInv(p)
    ensures p.blockSize > 0
  {
  }

  lemma SizedAllocation(p: Pool, id: Id)
    requires PoolInv(p) && id in p.requests
    ensures p.blockSize > 0 && |p.requests[id].blocks| == CeilDiv(p.requests[id].length, p.blockSize)
  {
    assert AllocationOk(p.numBlocks, p.blockSize, p.free, p.requests[id]);
  }

  lemma SameStorage(p: Pool, q: Pool, cells: Cells)
    requires StorageOk(p, cells) && q.numBlocks == p.numBlocks && q.blockSize == p.blockSize
    ensures StorageOk(q, cells)
  {
  }

  lemma ReleaseRefines(p: Pool, cells: Cells, s: Private, id: Id, q: Pool)
    requires Refines(p, cells, s) && PoolInv(q) && q == Release(p, id).0
    ensures Refines(q, cells, s - {id})
  {
    assert q.requests.Keys == (s - {id}).Keys;
  }

  // ----- whole runs -----

  ghost function PagedRun(p: Pool, cells: Cells, ops: seq<Op>): (r: (Pool, Cells))
    requires PoolInv(p)
    ensures PoolInv(r.0)
    decreases |ops|
  {
    if ops == [] then (p, cells)
    else
      var last := |ops| - 1;
      var before := PagedRun(p, cells, ops[..last]);
      StepKeepsPool(before.0, before.1, ops[last]);
      PagedStep(before.0, before.1, ops[last])
  }

  lemma StepKeepsPool(p: Pool, cells: Cells, op: Op)
    requires PoolInv(p)
    ensures PoolInv(PagedStep(p, cells, op).0)
    ensures PagedStep(p, cells, op).0.numBlocks == p.numBlocks
    ensures PagedStep(p, cells, op).0.blockSize == p.blockSize
  {
    match op
    case CreateOp(id) => CreateKeeps(p, id);
    case AppendOp(id, count) => if count >= 0 { AppendKeeps(p, id, count); }
    case WriteOp(_, _, _) =>
    case ReleaseOp(id) => ReleaseKeeps(p, id);
  }

  ghost function PrivateRun(numBlocks: nat, blockSize: nat, ops: seq<Op>): Private
    requires blockSize > 0
    decreases |ops|
  {
    if ops == [] then map[]
    else PrivateStep(numBlocks, blockSize, PrivateRun(numBlocks, blockSize, ops[..|ops| - 1]), ops[|ops| - 1])
  }

  /** Whatever the interleaving of calls, a live request reads back at each position the last
      value written there, and sees no other request's writes. */
  lemma {:induction false} PagedStorageIsPrivate(numBlocks: nat, blockSize: nat, cells: Cells, ops: seq<Op>)
    requires blockSize > 0 && StorageOk(EmptyPool(numBlocks, blockSize), cells)
    ensures PoolInv(EmptyPool(numBlocks, blockSize))
    ensures var r := PagedRun(EmptyPool(numBlocks, blockSize), cells, ops);
      Refines(r.0, r.1, PrivateRun(numBlocks, blockSize, ops)) && r.0.numBlocks == numBlocks && r.0.blockSize == blockSize
    decreases |ops|
  {
    EmptyPoolInv(numBlocks, blockSize);
    if ops != [] {
      var last := |ops| - 1;
      PagedStorageIsPrivate(numBlocks, blockSize, cells, ops[..last]);
      var before := PagedRun(EmptyPool(numBlocks, blockSize), cells, ops[..last]);
      StepRefines(before.0, before.1, PrivateRun(numBlocks, blockSize, ops[..last]), ops[last]);
      StepKeepsPool(before.0, before.1, ops[last]);
    }
  }
}
