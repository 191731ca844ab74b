/** What the executor writes and reads is what the requests would have had alone. */
module RefinementExec {
  import opened Basics
  import opened PagedKV
  import opened PagedStorage
  import opened Scheduler
  import opened SchedulerInvariant
  import opened PlanInvariant
  import opened Executor
  import opened Engine
  import opened EngineInvariant
  import opened Alone
  import opened Refinement

  // ----- reading -----

  /** Reading through the block table is reading the request's own cells; no entry -1 is used. */
  lemma ReadIsCell(blockSize: nat, a: Allocation, table: seq<int>, cells: Cells, p: nat)
    requires blockSize > 0 && p < a.length && |a.blocks| == CeilDiv(a.length, blockSize) && TableOf(table, a.blocks)
    ensures p / blockSize < |table| && table[p / blockSize] >= 0
    ensures ReadCell(cells, table, blockSize, p) == CellAt(blockSize, a, cells, p)
  {
    PositionInBlocks(p, a.length, blockSize);
  }

  lemma ReadHeld(m: Model, blockSize: nat, a: Allocation, table: seq<int>, cells: Cells, tokens: seq<Token>, n: nat)
    requires blockSize > 0 && n <= a.length && |a.blocks| == CeilDiv(a.length, blockSize) && TableOf(table, a.blocks)
    requires Holds(m, blockSize, a, cells, tokens, n)
    ensures ReadThrough(cells, table, blockSize, n) == Context(m, tokens)[..n]
  {
    hide Context;
    hide CellAt;
    hide ReadCell;
    forall p: nat | p < n
      ensures ReadThrough(cells, table, blockSize, n)[p] == Context(m, tokens)[p]
    {
      ReadIsCell(blockSize, a, table, cells, p);
    }
  }

  /** Tables made by the allocator always cover what a decode item reads. */
  lemma TableCoversItem(blockSize: nat, a: Allocation, table: seq<int>, n: nat)
    requires blockSize > 0 && n <= a.length && |a.blocks| == CeilDiv(a.length, blockSize) && TableOf(table, a.blocks)
    ensures TableCovers(table, n, blockSize)
  {
    CeilDivMonotone(n, a.length, blockSize);
  }

  // ----- writing a decode batch -----

  lemma {:induction false} SlotsChecked(p: Pool, work: seq<DecodeWork>, i: nat)
    requires p.blockSize > 0 && SlotError(p, work).None? && i < |work|
    ensures work[i].id in p.requests && SlotIs(work[i].slot, p.requests[work[i].id].blocks, p.blockSize, work[i].position)
    decreases |work|
  {
    if i > 0 { SlotsChecked(p, work[1..], i - 1); }
  }

  lemma {:induction false} WriteElsewhere(m: Model, before: Cells, cells: Cells, blockSize: nat, work: seq<DecodeWork>,
                                          tables: seq<seq<int>>, slot: Slot)
    requires blockSize > 0 && |work| == |tables|
    requires forall i :: 0 <= i < |work| ==> work[i].slot != slot
    ensures Get(WriteRows(m, before, cells, blockSize, work, tables), slot) == Get(cells, slot)
    decreases |work|
  {
    hide NewRow;
    if work != [] {
      var cells1 := cells[work[0].slot := NewRow(m, before, blockSize, work[0], tables[0])];
      WriteElsewhere(m, before, cells1, blockSize, work[1..], tables[1..], slot);
      assert Get(cells1, slot) == Get(cells, slot);
    }
  }

  lemma {:induction false} WriteHere(m: Model, before: Cells, cells: Cells, blockSize: nat, work: seq<DecodeWork>,
                                     tables: seq<seq<int>>, i: nat)
    requires blockSize > 0 && |work| == |tables| && i < |work|
    requires forall j :: 0 <= j < |work| && j != i ==> work[j].slot != work[i].slot
    ensures Get(WriteRows(m, before, cells, blockSize, work, tables), work[i].slot) ==
      Some(NewRow(m, before, blockSize, work[i], tables[i]))
    decreases |work|
  {
    hide NewRow;
    var cells1 := cells[work[0].slot := NewRow(m, before, blockSize, work[0], tables[0])];
    if i > 0 {
      assert forall j :: 0 <= j < |work[1..]| && j != i - 1 ==> work[1..][j].slot != work[1..][i - 1].slot;
      WriteHere(m, before, cells1, blockSize, work[1..], tables[1..], i - 1);
    } else {
      WriteElsewhere(m, before, cells1, blockSize, work[1..], tables[1..], work[0].slot);
    }
  }

  lemma {:induction false} AttendOnly(m: Model, cells: Cells, blockSize: nat, work: seq<DecodeWork>, tables: seq<seq<int>>)
    requires blockSize > 0 && |work| == |tables|
    ensures AttendRows(m, cells, blockSize, work, tables).Keys == Elems(DecodeIds(work))
    decreases |work|
  {
    hide ReadThrough;
    if work != [] {
      assert DecodeIds(work) == [work[0].id] + DecodeIds(work[1..]);
      AttendOnly(m, cells, blockSize, work[1..], tables[1..]);
    }
  }

  lemma {:induction false} AttendAt(m: Model, cells: Cells, blockSize: nat, work: seq<DecodeWork>, tables: seq<seq<int>>, i: nat)
    requires blockSize > 0 && |work| == |tables| && i < |work| && NoDup(DecodeIds(work))
    ensures Get(AttendRows(m, cells, blockSize, work, tables), work[i].id) ==
      Some(m.logits(work[i].token, ReadThrough(cells, tables[i], blockSize, work[i].position + 1)))
    decreases |work|
  {
    hide ReadThrough;
    assert DecodeIds(work) == [work[0].id] + DecodeIds(work[1..]);
    NoDupTail(work[0].id, DecodeIds(work[1..]));
    if i > 0 {
      assert work[i].id == DecodeIds(work[1..])[i - 1];
      AttendAt(m, cells, blockSize, work[1..], tables[1..], i - 1);
    } else {
      AttendOnly(m, cells, blockSize, work[1..], tables[1..]);
    }
  }

  /** Every item of the batch passed its checks and is still in flight. */
  ghost predicate BatchOk(s: Sched, work: seq<DecodeWork>, tables: seq<seq<int>>) {
    && SchedInv(s) && |tables| == |work| && NoDup(DecodeIds(work))
    && forall i :: 0 <= i < |work| ==> RowOk(s, work[i], tables[i])
  }

  ghost predicate RowOk(s: Sched, w: DecodeWork, table: seq<int>) {
    && DecodeItemOk(s, w) && TableOf(table, s.pool.requests[w.id].blocks)
    && s.pool.requests[w.id].length == w.position + 1
  }

  /** A cell of the batch's pool that no row writes. */
  lemma UnwrittenCell(s: Sched, work: seq<DecodeWork>, tables: seq<seq<int>>, id: Id, p: nat)
    requires BatchOk(s, work, tables) && id in s.pool.requests && p < s.pool.requests[id].length
    requires forall j :: 0 <= j < |work| ==> work[j].id != id || work[j].position != p
    ensures s.pool.blockSize > 0 && p / s.pool.blockSize < |s.pool.requests[id].blocks|
    ensures forall j :: 0 <= j < |work| ==> work[j].slot != SlotAt(s.pool.requests[id].blocks, s.pool.blockSize, p)
  {
    hide OwnersOk;
    hide QueuesOk;
    hide RequestsOk;
    hide ReservedOk;
    hide PoolCovers;
    hide PoolCount;
    assert PoolShape(s.pool) && PoolDisjoint(s.pool);
    SlotInRange(s.pool, id, p);
    hide PoolDisjoint;
    hide PoolShape;
    forall j | 0 <= j < |work|
      ensures work[j].slot != SlotAt(s.pool.requests[id].blocks, s.pool.blockSize, p)
    {
      assert RowOk(s, work[j], tables[j]);
      SlotsDistinct(s.pool, work[j].id, work[j].position, id, p);
    }
  }

  lemma UnwrittenKept(m: Model, s: Sched, cells: Cells, work: seq<DecodeWork>, tables: seq<seq<int>>, id: Id, p: nat)
    requires BatchOk(s, work, tables) && id in s.pool.requests && p < s.pool.requests[id].length
    requires forall j :: 0 <= j < |work| ==> work[j].id != id || work[j].position != p
    ensures s.pool.blockSize > 0
    ensures CellAt(s.pool.blockSize, s.pool.requests[id], WriteRows(m, cells, cells, s.pool.blockSize, work, tables), p) ==
      CellAt(s.pool.blockSize, s.pool.requests[id], cells, p)
  {
    UnwrittenCell(s, work, tables, id, p);
    hide BatchOk;
    WriteElsewhere(m, cells, cells, s.pool.blockSize, work, tables, SlotAt(s.pool.requests[id].blocks, s.pool.blockSize, p));
  }

  /** The new row of item `i` lands in its own cell. */
  lemma WrittenCell(m: Model, s: Sched, cells: Cells, work: seq<DecodeWork>, tables: seq<seq<int>>, i: nat)
    requires BatchOk(s, work, tables) && i < |work|
    ensures s.pool.blockSize > 0 && work[i].id in s.pool.requests
    ensures CellAt(s.pool.blockSize, s.pool.requests[work[i].id], WriteRows(m, cells, cells, s.pool.blockSize, work, tables), work[i].position) ==
      NewRow(m, cells, s.pool.blockSize, work[i], tables[i])
  {
    assert RowOk(s, work[i], tables[i]);
    SlotsApart(s, work, tables, i);
    hide BatchOk;
    hide NewRow;
    WriteHere(m, cells, cells, s.pool.blockSize, work, tables, i);
  }

  lemma SlotsApart(s: Sched, work: seq<DecodeWork>, tables: seq<seq<int>>, i: nat)
    requires BatchOk(s, work, tables) && i < |work|
    ensures forall j :: 0 <= j < |work| && j != i ==> work[j].slot != work[i].slot
  {
    hide OwnersOk;
    hide QueuesOk;
    hide RequestsOk;
    hide ReservedOk;
    hide PoolCovers;
    hide PoolCount;
    hide PoolShape;
    hide PoolDisjoint;
    forall j | 0 <= j < |work| && j != i
      ensures work[j].slot != work[i].slot
    {
      assert DecodeIds(work)[i] == work[i].id && DecodeIds(work)[j] == work[j].id;
      assert RowOk(s, work[i], tables[i]) && RowOk(s, work[j], tables[j]);
      SlotsDistinct(s.pool, work[i].id, work[i].position, work[j].id, work[j].position);
    }
  }

  /** The new row is the last row of the request's context. */
  lemma NewRowIsLast(m: Model, s: Sched, cells: Cells, w: DecodeWork, table: seq<int>)
    requires s.pool.blockSize > 0 && RowOk(s, w, table)
    requires |s.pool.requests[w.id].blocks| == CeilDiv(s.pool.requests[w.id].length, s.pool.blockSize)
    requires Holds(m, s.pool.blockSize, s.pool.requests[w.id], cells, Tokens(s.requests[w.id]), w.position)
    ensures NewRow(m, cells, s.pool.blockSize, w, table) == Context(m, Tokens(s.requests[w.id]))[w.position]
  {
    var toks := Tokens(s.requests[w.id]);
    hide Context;
    hide Holds;
    hide ReadThrough;
    ReadHeld(m, s.pool.blockSize, s.pool.requests[w.id], table, cells, toks, w.position);
    ContextTake(m, toks, w.position);
    assert toks == toks[..w.position] + [w.token];
    ContextLast(m, toks[..w.position], w.token);
  }

  // ----- the decode call -----

  lemma BatchFromChecks(s: Sched, plan: StepPlan, meta: Metadata)
    requires SchedInv(s) && Pending(s, plan.decode, plan.prefill) && MetaOk(s, plan.decode, meta)
    requires SlotError(s.pool, plan.decode).None?
    ensures BatchOk(s, plan.decode, meta.tables)
    ensures forall i :: 0 <= i < |plan.decode| ==> plan.decode[i].id in s.inflight
  {
    hide PoolInv;
    hide QueuesOk;
    hide ReservedOk;
    hide RequestOk;
    hide DecodeItemFits;
    hide PendingPrefill;
    InflightOwned(s);
    assert NoDup(DecodeIds(plan.decode)) by {
      assert forall i :: 0 <= i < |plan.decode| ==>
        (DecodeIds(plan.decode) + PrefillIds(plan.prefill))[i] == DecodeIds(plan.decode)[i];
    }
    forall i | 0 <= i < |plan.decode|
      ensures plan.decode[i].id in s.inflight && RowOk(s, plan.decode[i], meta.tables[i])
    {
      SlotsChecked(s.pool, plan.decode, i);
      assert PendingDecode(s, plan.decode[i]);
      PositionIsLast(s, plan.decode[i]);
    }
  }

  lemma OwnBlocks(s: Sched, id: Id)
    requires SchedInv(s) && id in s.pool.requests
    ensures s.pool.blockSize > 0
    ensures |s.pool.requests[id].blocks| == CeilDiv(s.pool.requests[id].length, s.pool.blockSize)
  {
    CommittedStored(s, id);
  }

  /** One row of an executed batch. */
  lemma RowDone(m: Model, s: Sched, cells: Cells, caches: Caches, work: seq<DecodeWork>, tables: seq<seq<int>>, omit: set<Id>, i: nat)
    requires BatchOk(s, work, tables) && CleanBut(m, s, cells, caches, []) && i < |work|
    ensures var cells' := WriteRows(m, cells, cells, s.pool.blockSize, work, tables);
      DecodeDone(m, s, cells', AttendRows(m, cells', s.pool.blockSize, work, tables) - omit, work[i])
  {
    hide SchedInv;
    hide Context;
    hide WriteRows;
    hide AttendRows;
    hide NewRow;
    var w := work[i];
    assert RowOk(s, w, tables[i]);
    OwnBlocks(s, w.id);
    var a, r, bs := s.pool.requests[w.id], s.requests[w.id], s.pool.blockSize;
    assert Clean(m, s, cells, caches, w.id);
    var cells' := WriteRows(m, cells, cells, bs, work, tables);
    NewRowIsLast(m, s, cells, w, tables[i]);
    WrittenCell(m, s, cells, work, tables, i);
    forall p: nat | p < w.position
      ensures CellAt(bs, a, cells', p) == CellAt(bs, a, cells, p)
    {
      RowPositions(s, work, tables, i, p);
      UnwrittenKept(m, s, cells, work, tables, w.id, p);
    }
    assert Holds(m, bs, a, cells', Tokens(r), |Tokens(r)|);
    ReadHeld(m, bs, a, tables[i], cells', Tokens(r), |Tokens(r)|);
    AttendAt(m, cells', bs, work, tables, i);
    var rows := AttendRows(m, cells', bs, work, tables);
    assert Context(m, Tokens(r))[..|Tokens(r)|] == Context(m, Tokens(r));
    assert w.token == Tokens(r)[|Tokens(r)| - 1] && w.position + 1 == |Tokens(r)|;
    assert rows[w.id] == LogitsAfter(m, Tokens(r));
  }

  /** The past of a row is the same before the batch and after all of it was stored. */
  lemma PastKept(m: Model, s: Sched, cells: Cells, work: seq<DecodeWork>, tables: seq<seq<int>>, i: nat)
    requires BatchOk(s, work, tables) && i < |work|
    ensures s.pool.blockSize > 0
    ensures var cells' := WriteRows(m, cells, cells, s.pool.blockSize, work, tables);
      NewRow(m, cells', s.pool.blockSize, work[i], tables[i]) == NewRow(m, cells, s.pool.blockSize, work[i], tables[i])
  {
    hide SchedInv;
    hide WriteRows;
    hide ReadCell;
    hide CellAt;
    var w := work[i];
    assert RowOk(s, w, tables[i]);
    OwnBlocks(s, w.id);
    var bs, a := s.pool.blockSize, s.pool.requests[w.id];
    var cells' := WriteRows(m, cells, cells, bs, work, tables);
    forall p: nat | p < w.position
      ensures ReadCell(cells', tables[i], bs, p) == ReadCell(cells, tables[i], bs, p)
    {
      ReadIsCell(bs, a, tables[i], cells', p);
      ReadIsCell(bs, a, tables[i], cells, p);
      RowPositions(s, work, tables, i, p);
      UnwrittenKept(m, s, cells, work, tables, w.id, p);
    }
    assert ReadThrough(cells', tables[i], bs, w.position) == ReadThrough(cells, tables[i], bs, w.position);
  }

  lemma {:induction false} SameRows(m: Model, before: Cells, before': Cells, cells: Cells, blockSize: nat, work: seq<DecodeWork>,
                                    tables: seq<seq<int>>)
    requires blockSize > 0 && |work| == |tables|
    requires forall i :: 0 <= i < |work| ==>
      NewRow(m, before', blockSize, work[i], tables[i]) == NewRow(m, before, blockSize, work[i], tables[i])
    ensures WriteRows(m, before', cells, blockSize, work, tables) == WriteRows(m, before, cells, blockSize, work, tables)
    decreases |work|
  {
    hide NewRow;
    if work != [] {
      SameRows(m, before, before', cells[work[0].slot := NewRow(m, before, blockSize, work[0], tables[0])], blockSize, work[1..], tables[1..]);
    }
  }

  /** A batch stores the same rows whether its rows read the pages before the batch or after all
      of it was stored, as the layers of a forward pass do. */
  lemma BatchReadsEitherWay(m: Model, s: Sched, cells: Cells, plan: StepPlan, meta: Metadata)
    requires SchedInv(s) && Pending(s, plan.decode, plan.prefill) && MetaOk(s, plan.decode, meta)
    requires s.pool.blockSize > 0 && SlotError(s.pool, plan.decode).None?
    ensures |plan.decode| == |meta.tables|
    ensures var cells' := WriteRows(m, cells, cells, s.pool.blockSize, plan.decode, meta.tables);
      WriteRows(m, cells', cells, s.pool.blockSize, plan.decode, meta.tables) == cells'
  {
    hide SchedInv;
    hide Pending;
    hide RowOk;
    hide NewRow;
    hide WriteRows;
    BatchFromChecks(s, plan, meta);
    var cells' := WriteRows(m, cells, cells, s.pool.blockSize, plan.decode, meta.tables);
    forall i: nat | i < |plan.decode|
      ensures NewRow(m, cells', s.pool.blockSize, plan.decode[i], meta.tables[i]) ==
        NewRow(m, cells, s.pool.blockSize, plan.decode[i], meta.tables[i])
    {
      PastKept(m, s, cells, plan.decode, meta.tables, i);
    }
    SameRows(m, cells, cells', cells, s.pool.blockSize, plan.decode, meta.tables);
  }

  lemma RowPositions(s: Sched, work: seq<DecodeWork>, tables: seq<seq<int>>, i: nat, p: nat)
    requires BatchOk(s, work, tables) && i < |work| && p != work[i].position
    ensures forall j :: 0 <= j < |work| ==> work[j].id != work[i].id || work[j].position != p
  {
    hide SchedInv;
    hide RowOk;
    assert forall j :: 0 <= j < |work| ==> DecodeIds(work)[j] == work[j].id;
  }

  /** Requests whose committed positions the batch does not write stay clean. */
  lemma BatchKeepsClean(m: Model, s: Sched, cells: Cells, caches: Caches, caches': Caches, work: seq<DecodeWork>, tables: seq<seq<int>>)
    requires BatchOk(s, work, tables) && CleanBut(m, s, cells, caches, [])
    requires forall id :: id !in DecodeIds(work) ==> Get(caches', id) == Get(caches, id)
    ensures CleanBut(m, s, WriteRows(m, cells, cells, s.pool.blockSize, work, tables), caches', [])
  {
    hide SchedInv;
    hide Context;
    hide WriteRows;
    hide RowOk;
    var cells' := WriteRows(m, cells, cells, s.pool.blockSize, work, tables);
    forall id | id in s.pool.requests
      ensures Clean(m, s, cells', caches', id)
    {
      assert Clean(m, s, cells, caches, id);
      CommittedStored(s, id);
      forall p: nat | p < Committed(s.requests[id])
        ensures CellAt(s.pool.blockSize, s.pool.requests[id], cells', p) == CellAt(s.pool.blockSize, s.pool.requests[id], cells, p)
      {
        CommittedUnwritten(s, work, tables, id, p);
        UnwrittenKept(m, s, cells, work, tables, id, p);
      }
      if s.requests[id].state == PREFILL { PrefillNotDecoding(s, work, tables, id); }
    }
  }

  /** A batch only writes positions that are not committed yet. */
  lemma CommittedUnwritten(s: Sched, work: seq<DecodeWork>, tables: seq<seq<int>>, id: Id, p: nat)
    requires BatchOk(s, work, tables) && id in s.pool.requests && id in s.requests && p < Committed(s.requests[id])
    ensures forall j :: 0 <= j < |work| ==> work[j].id != id || work[j].position != p
  {
    hide SchedInv;
    forall j | 0 <= j < |work| && work[j].id == id
      ensures work[j].position != p
    {
      assert RowOk(s, work[j], tables[j]);
    }
  }

  lemma PrefillNotDecoding(s: Sched, work: seq<DecodeWork>, tables: seq<seq<int>>, id: Id)
    requires BatchOk(s, work, tables) && id in s.requests && s.requests[id].state == PREFILL
    ensures id !in DecodeIds(work)
  {
    hide SchedInv;
    forall j | 0 <= j < |work|
      ensures DecodeIds(work)[j] != id
    {
      assert RowOk(s, work[j], tables[j]);
    }
  }

  // ----- writes of requests that are gone -----

  /** No slot of a pending item lies in a block of another live request, also when the item's
      own request was cancelled meanwhile. */
  lemma DecodeSlotForeign(s: Sched, w: DecodeWork, id: Id)
    requires PoolShape(s.pool) && PoolDisjoint(s.pool) && PendingDecode(s, w) && id in s.pool.requests && w.id != id
    ensures w.slot.0 !in s.pool.requests[id].blocks
  {
    assert AllocationOk(s.pool.numBlocks, s.pool.blockSize, s.pool.free, s.pool.requests[id]);
    if w.id in s.inflight {
      assert Disjoint(s.pool.requests[w.id], s.pool.requests[id]);
      assert w.slot.0 in s.pool.requests[w.id].blocks;
    }
  }

  lemma PrefillSlotForeign(s: Sched, w: PrefillWork, i: nat, id: Id)
    requires PoolShape(s.pool) && PoolDisjoint(s.pool) && PendingPrefill(s, w) && id in s.pool.requests && w.id != id
    requires i < |w.slots|
    ensures w.slots[i].0 !in s.pool.requests[id].blocks
  {
    assert AllocationOk(s.pool.numBlocks, s.pool.blockSize, s.pool.free, s.pool.requests[id]);
    if w.id in s.inflight {
      assert Disjoint(s.pool.requests[w.id], s.pool.requests[id]);
      assert SlotIs(w.slots[i], s.pool.requests[w.id].blocks, s.pool.blockSize, w.start + i);
      assert w.slots[i].0 in s.pool.requests[w.id].blocks;
    }
  }

  /** `cells'` differs from `cells` only in slots outside the blocks of `id`. */
  ghost predicate Spared(cells: Cells, cells': Cells, a: Allocation) {
    forall slot: Slot :: slot.0 in a.blocks ==> Get(cells', slot) == Get(cells, slot)
  }

  lemma SparedHolds(m: Model, blockSize: nat, a: Allocation, cells: Cells, cells': Cells, tokens: seq<Token>, n: nat)
    requires blockSize > 0 && Spared(cells, cells', a) && Holds(m, blockSize, a, cells, tokens, n)
    ensures Holds(m, blockSize, a, cells', tokens, n)
  {
    hide Context;
    forall p: nat | p < n
      ensures CellAt(blockSize, a, cells', p) == CellAt(blockSize, a, cells, p)
    {
      SparedCell(blockSize, a, cells, cells', p);
    }
  }

  lemma SparedCell(blockSize: nat, a: Allocation, cells: Cells, cells': Cells, p: nat)
    requires blockSize > 0 && Spared(cells, cells', a)
    ensures CellAt(blockSize, a, cells', p) == CellAt(blockSize, a, cells, p)
  {
    if p / blockSize < |a.blocks| {
      assert Get(cells', SlotAt(a.blocks, blockSize, p)) == Get(cells, SlotAt(a.blocks, blockSize, p));
    }
  }

  lemma SparedClean(m: Model, s: Sched, cells: Cells, caches: Caches, cells': Cells, caches': Caches, ids: seq<Id>)
    requires CleanBut(m, s, cells, caches, ids)
    requires forall id :: id in s.pool.requests && id !in ids ==>
      Spared(cells, cells', s.pool.requests[id]) && (id in s.requests && s.requests[id].state == PREFILL ==> Get(caches', id) == Get(caches, id))
    ensures CleanBut(m, s, cells', caches', ids)
  {
    hide Context;
    hide Spared;
    hide Holds;
    forall id | id in s.pool.requests && id !in ids
      ensures Clean(m, s, cells', caches', id)
    {
      assert Clean(m, s, cells, caches, id);
      SparedHolds(m, s.pool.blockSize, s.pool.requests[id], cells, cells', Tokens(s.requests[id]), Committed(s.requests[id]));
    }
  }

  lemma SmudgeSpares(cells: Cells, junk: map<Slot, KV>, slots: set<Slot>, a: Allocation)
    requires forall slot :: slot in slots ==> slot.0 !in a.blocks
    ensures Spared(cells, Smudge(cells, junk, slots), a)
  {
  }

  // ----- the decode call in its phase -----

  lemma DroppedCaches(s: Sched, caches: Caches, work: seq<DecodeWork>, lengths: seq<nat>, prefill: seq<PrefillWork>)
    requires Pending(s, work, prefill)
    ensures forall id :: id !in DecodeIds(work) ==> Get(DropAndCheck(caches, work, lengths).0, id) == Get(caches, id)
    ensures forall id :: id in s.requests && s.requests[id].state == PREFILL ==>
      Get(DropAndCheck(caches, work, lengths).0, id) == Get(caches, id)
  {
    hide DecodeItemFits;
    hide PendingPrefill;
    forall id | id !in DecodeIds(work)
      ensures Get(DropAndCheck(caches, work, lengths).0, id) == Get(caches, id)
    {
      DropsOnly(caches, work, lengths, id);
    }
    forall id | id in s.requests && s.requests[id].state == PREFILL
      ensures id !in DecodeIds(work)
    {
      forall i | 0 <= i < |work|
        ensures DecodeIds(work)[i] != id
      {
        assert PendingDecode(s, work[i]);
      }
    }
  }

  /** A failed decode call: every request outside the plan is untouched. */
  lemma FailedDecodeClean(m: Model, s: Sched, cells: Cells, caches: Caches, caches': Caches, plan: StepPlan, junk: map<Slot, KV>)
    requires SchedInv(s) && Pending(s, plan.decode, plan.prefill) && CleanBut(m, s, cells, caches, [])
    requires forall id :: id in s.requests && s.requests[id].state == PREFILL ==> Get(caches', id) == Get(caches, id)
    ensures CleanBut(m, s, Smudge(cells, junk, DecodeSlots(plan.decode)), caches', PlanIds(plan))
    ensures CleanBut(m, s, cells, caches', PlanIds(plan))
  {
    hide Clean;
    hide Smudge;
    hide PendingDecode;
    hide PendingPrefill;
    hide OwnersOk;
    hide QueuesOk;
    hide RequestsOk;
    hide ReservedOk;
    hide PoolShape;
    hide PoolDisjoint;
    hide PoolCovers;
    hide PoolCount;
    forall id | id in s.pool.requests && id !in PlanIds(plan)
      ensures Spared(cells, Smudge(cells, junk, DecodeSlots(plan.decode)), s.pool.requests[id])
    {
      forall i | 0 <= i < |plan.decode|
        ensures plan.decode[i].slot.0 !in s.pool.requests[id].blocks
      {
        assert DecodeIds(plan.decode)[i] == plan.decode[i].id;
        DecodeSlotForeign(s, plan.decode[i], id);
      }
      SmudgeSpares(cells, junk, DecodeSlots(plan.decode), s.pool.requests[id]);
    }
    SparedClean(m, s, cells, caches, Smudge(cells, junk, DecodeSlots(plan.decode)), caches', PlanIds(plan));
    SparedClean(m, s, cells, caches, cells, caches', PlanIds(plan));
  }

  lemma WriteRowsGrow(m: Model, before: Cells, cells: Cells, blockSize: nat, work: seq<DecodeWork>, tables: seq<seq<int>>)
    requires blockSize > 0 && |work| == |tables|
    ensures cells.Keys <= WriteRows(m, before, cells, blockSize, work, tables).Keys
    decreases |work|
  {
  }

  lemma DecodeExecMeaning(setup: Setup, e: Engine, fault: Option<map<Slot, KV>>, omit: set<Id>)
    requires EngineInv(e) && e.phase.DecodePending? && Meaning(setup.model, e)
    ensures e.s.pool.blockSize > 0 && Meaning(setup.model, DecodeExecStep(setup, e, fault, omit))
  {
    hide SchedInv;
    hide KeysOk;
    hide Clean;
    hide GeneratedAll;
    hide SamplersOk;
    hide MetaOk;
    hide Pending;
    hide WriteRows;
    hide AttendRows;
    hide DecodeDone;
    hide TableCovers;
    hide CleanBut;
    hide DropAndCheck;
    hide SlotError;
    hide Sampled;
    hide PlanKnown;
    hide DecodeExec;
    hide Smudge;
    InflightOwned(e.s);
    var m, plan, meta := setup.model, e.phase.plan, e.phase.meta;
    var caches' := DropAndCheck(e.caches, plan.decode, meta.lengths).0;
    DecodeExecShape(m, e.s.pool, e.cells, e.caches, plan.decode, meta, fault);
    DroppedCaches(e.s, e.caches, plan.decode, meta.lengths, plan.prefill);
    if DecodeExec(m, e.s.pool, e.cells, e.caches, plan.decode, meta, fault).2.Returns? {
      BatchMeaning(m, e.s, e.cells, e.caches, caches', plan, meta, omit);
      WriteRowsGrow(m, e.cells, e.cells, e.s.pool.blockSize, plan.decode, meta.tables);
    } else {
      FailedDecodeClean(m, e.s, e.cells, e.caches, caches', plan, if fault.Some? then fault.value else map[]);
      FailedDecodeClean(m, e.s, e.cells, e.caches, e.caches, plan, map[]);
      SmudgeGrows(e.cells, if fault.Some? then fault.value else map[], DecodeSlots(plan.decode));
    }
  }

  lemma SmudgeGrows(cells: Cells, junk: map<Slot, KV>, slots: set<Slot>)
    ensures cells.Keys <= Smudge(cells, junk, slots).Keys
  {
  }

  /** The outcomes of a decode call. */
  lemma DecodeExecShape(m: Model, p: Pool, cells: Cells, caches: Caches, work: seq<DecodeWork>, meta: Metadata, fault: Option<map<Slot, KV>>)
    requires p.blockSize > 0
    ensures var (cells', caches', r) := DecodeExec(m, p, cells, caches, work, meta, fault);
      var dropped := DropAndCheck(caches, work, meta.lengths).0;
      if r.Raises? then
        && (caches' == caches || caches' == dropped)
        && (cells' == cells || (fault.Some? && caches' == dropped && cells' == Smudge(cells, fault.value, DecodeSlots(work))))
      else
        && |work| == |meta.tables| && SlotError(p, work).None? && caches' == dropped
        && cells' == WriteRows(m, cells, cells, p.blockSize, work, meta.tables)
        && r.value == AttendRows(m, cells', p.blockSize, work, meta.tables)
  {
    hide DropAndCheck;
    hide SlotError;
    hide TableCovers;
    hide WriteRows;
    hide AttendRows;
    hide Smudge;
  }

  lemma BatchMeaning(m: Model, s: Sched, cells: Cells, caches: Caches, caches': Caches, plan: StepPlan, meta: Metadata, omit: set<Id>)
    requires SchedInv(s) && Pending(s, plan.decode, plan.prefill) && MetaOk(s, plan.decode, meta)
    requires s.pool.blockSize > 0 && SlotError(s.pool, plan.decode).None? && CleanBut(m, s, cells, caches, [])
    requires forall id :: id !in DecodeIds(plan.decode) ==> Get(caches', id) == Get(caches, id)
    ensures |plan.decode| == |meta.tables|
    ensures var cells' := WriteRows(m, cells, cells, s.pool.blockSize, plan.decode, meta.tables);
      && CleanBut(m, s, cells', caches', [])
      && forall i :: 0 <= i < |plan.decode| ==>
           DecodeDone(m, s, cells', AttendRows(m, cells', s.pool.blockSize, plan.decode, meta.tables) - omit, plan.decode[i])
  {
    hide SchedInv;
    hide Clean;
    hide Pending;
    hide RowOk;
    hide DecodeDone;
    hide WriteRows;
    hide AttendRows;
    BatchFromChecks(s, plan, meta);
    BatchKeepsClean(m, s, cells, caches, caches', plan.decode, meta.tables);
    forall i: nat | i < |plan.decode|
      ensures var cells' := WriteRows(m, cells, cells, s.pool.blockSize, plan.decode, meta.tables);
        DecodeDone(m, s, cells', AttendRows(m, cells', s.pool.blockSize, plan.decode, meta.tables) - omit, plan.decode[i])
    {
      RowDone(m, s, cells, caches, plan.decode, meta.tables, omit, i);
    }
  }
}
