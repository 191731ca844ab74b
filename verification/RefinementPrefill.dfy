/** Chunked prefill writes the rows of the whole prompt, chunk by chunk. */
module RefinementPrefill {
  import opened Basics
  import opened PagedKV
  import opened PagedStorage
  import opened Scheduler
  import opened SchedulerInvariant
  import opened PlanInvariant
  import opened Executor
  import opened Engine
  import opened EngineInvariant
  import opened Alone
  import opened Refinement
  import opened RefinementExec

  // ----- scattering a chunk -----

  lemma {:induction false} ScatterElsewhere(cells: Cells, slots: seq<Slot>, rows: seq<KV>, slot: Slot)
    requires |slots| <= |rows| && slot !in slots
    ensures Get(Scatter(cells, slots, rows), slot) == Get(cells, slot)
    decreases |slots|
  {
    if slots != [] {
      assert slots == [slots[0]] + slots[1..];
      ScatterElsewhere(cells[slots[0] := rows[0]], slots[1..], rows[1..], slot);
      assert Get(cells[slots[0] := rows[0]], slot) == Get(cells, slot);
    }
  }

  lemma {:induction false} ScatterHere(cells: Cells, slots: seq<Slot>, rows: seq<KV>, i: nat)
    requires |slots| <= |rows| && NoDup(slots) && i < |slots|
    ensures Get(Scatter(cells, slots, rows), slots[i]) == Some(rows[i])
    decreases |slots|
  {
    assert slots == [slots[0]] + slots[1..];
    NoDupTail(slots[0], slots[1..]);
    if i > 0 {
      ScatterHere(cells[slots[0] := rows[0]], slots[1..], rows[1..], i - 1);
    } else {
      ScatterElsewhere(cells[slots[0] := rows[0]], slots[1..], rows[1..], slots[0]);
    }
  }

  lemma {:induction false} ScatterGrows(cells: Cells, slots: seq<Slot>, rows: seq<KV>)
    requires |slots| <= |rows|
    ensures cells.Keys <= Scatter(cells, slots, rows).Keys
    decreases |slots|
  {
    if slots != [] { ScatterGrows(cells[slots[0] := rows[0]], slots[1..], rows[1..]); }
  }

  lemma ChunkSlotsDistinct(blocks: seq<nat>, blockSize: nat, a: Allocation, slots: seq<Slot>, start: nat)
    requires NoDup(blocks) && a.blocks == blocks && SlotsAre(slots, a, blockSize, start)
    ensures NoDup(slots)
  {
    forall i, j | 0 <= i < j < |slots|
      ensures slots[i] != slots[j]
    {
      assert SlotIs(slots[i], blocks, blockSize, start + i) && SlotIs(slots[j], blocks, blockSize, start + j);
      OwnSlotsDistinct(blocks, blockSize, start + i, start + j);
    }
  }

  /** A chunk extends the stored prefix of its own request. */
  lemma ChunkHolds(m: Model, blockSize: nat, a: Allocation, cells: Cells, prompt: seq<Token>, w: PrefillWork, cache: seq<KV>)
    requires NoDup(a.blocks) && |w.slots| == |w.tokens| && SlotsAre(w.slots, a, blockSize, w.start)
    requires w.start + |w.tokens| <= |prompt| && cache == Context(m, prompt[..w.start + |w.tokens|])
    requires Holds(m, blockSize, a, cells, prompt, w.start)
    ensures Holds(m, blockSize, a, Scatter(cells, w.slots, cache[w.start..]), prompt, w.start + |w.tokens|)
  {
    hide Context;
    hide Scatter;
    var n := w.start + |w.tokens|;
    var cells' := Scatter(cells, w.slots, cache[w.start..]);
    ContextTake(m, prompt, n);
    ChunkSlotsDistinct(a.blocks, blockSize, a, w.slots, w.start);
    forall p: nat | p < n
      ensures CellAt(blockSize, a, cells', p) == Context(m, prompt)[p]
    {
      if p < w.start {
        ChunkSpares(blockSize, a, cells, w, cache[w.start..], p);
      } else {
        var i := p - w.start;
        assert SlotIs(w.slots[i], a.blocks, blockSize, w.start + i);
        ScatterHere(cells, w.slots, cache[w.start..], i);
      }
    }
  }

  /** A chunk leaves the positions before it alone. */
  lemma ChunkSpares(blockSize: nat, a: Allocation, cells: Cells, w: PrefillWork, rows: seq<KV>, p: nat)
    requires NoDup(a.blocks) && SlotsAre(w.slots, a, blockSize, w.start) && |w.slots| <= |rows| && p < w.start
    ensures CellAt(blockSize, a, Scatter(cells, w.slots, rows), p) == CellAt(blockSize, a, cells, p)
  {
    hide Scatter;
    if p / blockSize < |a.blocks| {
      var slot := SlotAt(a.blocks, blockSize, p);
      forall i | 0 <= i < |w.slots|
        ensures w.slots[i] != slot
      {
        assert SlotIs(w.slots[i], a.blocks, blockSize, w.start + i);
        OwnSlotsDistinct(a.blocks, blockSize, w.start + i, p);
      }
      ScatterElsewhere(cells, w.slots, rows, slot);
    }
  }

  // ----- one item -----

  /** The state of the prefill call. */
  datatype Call = Call(cells: Cells, caches: Caches, logits: map<Id, Logits>)

  /** One successful item. */
  function AfterItem(m: Model, c: Call, w: PrefillWork): Call
    requires w.tokens != [] && |w.slots| == |w.tokens| && |CacheOf(c.caches, w.id)| == w.start
  {
    var cache := Extend(m, CacheOf(c.caches, w.id), w.tokens);
    Call(Scatter(c.cells, w.slots, cache[w.start..]), c.caches[w.id := cache],
         c.logits[w.id := m.logits(w.tokens[|w.tokens| - 1], cache)])
  }

  /** Nothing that belongs to `id` changed. */
  ghost predicate Untroubled(c: Call, c': Call, a: Allocation, id: Id) {
    Spared(c.cells, c'.cells, a) && Get(c'.caches, id) == Get(c.caches, id) && Get(c'.logits, id) == Get(c.logits, id)
  }

  lemma ItemForeign(s: Sched, w: PrefillWork, id: Id)
    requires SchedInv(s) && PendingPrefill(s, w) && id in s.pool.requests && id != w.id
    ensures forall i :: 0 <= i < |w.slots| ==> w.slots[i].0 !in s.pool.requests[id].blocks
  {
    hide PendingPrefill;
    hide OwnersOk;
    hide QueuesOk;
    hide RequestsOk;
    hide ReservedOk;
    hide PoolShape;
    hide PoolDisjoint;
    hide PoolCovers;
    hide PoolCount;
    forall i | 0 <= i < |w.slots|
      ensures w.slots[i].0 !in s.pool.requests[id].blocks
    {
      PrefillSlotForeign(s, w, i, id);
    }
  }

  lemma ItemUntroubled(m: Model, s: Sched, c: Call, w: PrefillWork, id: Id)
    requires SchedInv(s) && PendingPrefill(s, w) && id in s.pool.requests && id != w.id
    requires w.tokens != [] && |w.slots| == |w.tokens| && |CacheOf(c.caches, w.id)| == w.start
    ensures Untroubled(c, AfterItem(m, c, w), s.pool.requests[id], id)
  {
    hide SchedInv;
    hide PendingPrefill;
    hide Scatter;
    hide Extend;
    ItemForeign(s, w, id);
    var rows := Extend(m, CacheOf(c.caches, w.id), w.tokens)[w.start..];
    forall slot: Slot | slot.0 in s.pool.requests[id].blocks
      ensures Get(Scatter(c.cells, w.slots, rows), slot) == Get(c.cells, slot)
    {
      ScatterElsewhere(c.cells, w.slots, rows, slot);
    }
  }

  /** A chunk in flight, as its request sees it. */
  lemma ItemShape(s: Sched, w: PrefillWork)
    requires SchedInv(s) && PrefillItemOk(s, w)
    ensures w.id in s.requests && w.id in s.pool.requests
    ensures s.pool.blockSize > 0 && Tokens(s.requests[w.id]) == s.requests[w.id].prompt
    ensures s.requests[w.id].state == PREFILL && w.start == s.requests[w.id].cursor
    ensures 0 < |w.tokens| == |w.slots| && w.start + |w.tokens| <= |s.requests[w.id].prompt|
    ensures w.tokens == s.requests[w.id].prompt[w.start..w.start + |w.tokens|]
    ensures SlotsAre(w.slots, s.pool.requests[w.id], s.pool.blockSize, w.start)
  {
    hide SchedInv;
    hide SlotsAre;
    InflightOwned(s);
    ItemRuns(s, w);
    assert s.requests[w.id].prompt + [] == s.requests[w.id].prompt;
  }

  /** Its cache is that of the prompt up to its end. */
  lemma ItemCached(m: Model, s: Sched, c: Call, w: PrefillWork)
    requires SchedInv(s) && PrefillItemOk(s, w) && s.pool.blockSize > 0 && Clean(m, s, c.cells, c.caches, w.id)
    ensures |CacheOf(c.caches, w.id)| == w.start && w.start + |w.tokens| <= |s.requests[w.id].prompt|
    ensures Extend(m, CacheOf(c.caches, w.id), w.tokens) == Context(m, s.requests[w.id].prompt[..w.start + |w.tokens|])
    ensures Holds(m, s.pool.blockSize, s.pool.requests[w.id], c.cells, s.requests[w.id].prompt, w.start)
  {
    hide SchedInv;
    hide PrefillItemOk;
    hide Context;
    hide Extend;
    hide Holds;
    hide SlotsAre;
    ItemShape(s, w);
    var prompt := s.requests[w.id].prompt;
    assert prompt[..w.start + |w.tokens|] == prompt[..w.start] + w.tokens;
    ContextPrefix(m, prompt[..w.start], w.tokens);
  }

  /** A chunk of a waiting request is stored, cached and scored as in the whole prompt. */
  lemma ItemDone(m: Model, s: Sched, c: Call, w: PrefillWork)
    requires SchedInv(s) && PendingPrefill(s, w) && w.id in s.inflight && w.id in s.pool.requests && s.pool.blockSize > 0
    requires w.id in s.requests && Clean(m, s, c.cells, c.caches, w.id)
    ensures w.tokens != [] && |w.slots| == |w.tokens| && |CacheOf(c.caches, w.id)| == w.start
    ensures var c' := AfterItem(m, c, w); PrefillDone(m, s, c'.cells, c'.caches, c'.logits, w)
  {
    hide SchedInv;
    hide PrefillItemOk;
    hide Clean;
    hide Context;
    hide Scatter;
    hide Extend;
    hide Holds;
    hide NoDup;
    hide SlotsAre;
    var prompt, a := s.requests[w.id].prompt, s.pool.requests[w.id];
    ItemShape(s, w);
    ItemCached(m, s, c, w);
    OwnBlocksDistinct(s, w.id);
    ChunkHolds(m, s.pool.blockSize, a, c.cells, prompt, w, Extend(m, CacheOf(c.caches, w.id), w.tokens));
    assert w.tokens[|w.tokens| - 1] == prompt[..w.start + |w.tokens|][w.start + |w.tokens| - 1];
  }

  lemma OwnBlocksDistinct(s: Sched, id: Id)
    requires SchedInv(s) && id in s.pool.requests
    ensures NoDup(s.pool.requests[id].blocks)
  {
    hide OwnersOk;
    hide QueuesOk;
    hide RequestsOk;
    hide ReservedOk;
    hide PoolDisjoint;
    hide PoolCovers;
    hide PoolCount;
    assert AllocationOk(s.pool.numBlocks, s.pool.blockSize, s.pool.free, s.pool.requests[id]);
  }

  // ----- the whole call -----

  ghost predicate AllPending(s: Sched, work: seq<PrefillWork>) {
    SchedInv(s) && NoDup(PrefillIds(work)) && forall i :: 0 <= i < |work| ==> PendingPrefill(s, work[i])
  }

  lemma AllPendingTail(s: Sched, work: seq<PrefillWork>)
    requires AllPending(s, work) && work != []
    ensures AllPending(s, work[1..]) && PendingPrefill(s, work[0])
    ensures PrefillIds(work) == [work[0].id] + PrefillIds(work[1..]) && work[0].id !in PrefillIds(work[1..])
  {
    hide SchedInv;
    hide PendingPrefill;
    assert PrefillIds(work) == [work[0].id] + PrefillIds(work[1..]);
    NoDupTail(work[0].id, PrefillIds(work[1..]));
  }

  function Run(m: Model, c: Call, work: seq<PrefillWork>, fault: Option<nat>, junk: map<Slot, KV>): (Cells, Caches, Outcome<map<Id, Logits>>) {
    PrefillExec(m, c.cells, c.caches, c.logits, work, fault, junk)
  }

  function NextFault(fault: Option<nat>): Option<nat> {
    if fault.Some? && fault.value > 0 then Some(fault.value - 1) else None
  }

  ghost predicate GoesOn(c: Call, w: PrefillWork, fault: Option<nat>) {
    fault != Some(0) && w.tokens != [] && |w.slots| == |w.tokens| && |CacheOf(c.caches, w.id)| == w.start
  }

  lemma RunStep(m: Model, c: Call, work: seq<PrefillWork>, fault: Option<nat>, junk: map<Slot, KV>)
    requires work != []
    ensures GoesOn(c, work[0], fault) ==>
      Run(m, c, work, fault, junk) == Run(m, AfterItem(m, c, work[0]), work[1..], NextFault(fault), junk)
    ensures !GoesOn(c, work[0], fault) ==>
      var r := Run(m, c, work, fault, junk);
      && r.0 == Smudge(c.cells, junk, Elems(work[0].slots)) && r.2.Raises?
      && (r.1 == c.caches || r.1 == c.caches[work[0].id := Extend(m, CacheOf(c.caches, work[0].id), work[0].tokens)])
  {
    hide Extend;
    hide Scatter;
    hide Smudge;
  }

  /** A prefill call leaves every request outside its work alone, even when it raises. */
  lemma {:induction false} OthersUntroubled(m: Model, s: Sched, c: Call, work: seq<PrefillWork>, fault: Option<nat>, junk: map<Slot, KV>, id: Id)
    requires AllPending(s, work) && id in s.pool.requests && id !in PrefillIds(work)
    ensures var r := Run(m, c, work, fault, junk);
      Untroubled(c, Call(r.0, r.1, if r.2.Returns? then r.2.value else c.logits), s.pool.requests[id], id)
    decreases |work|
  {
    hide PendingPrefill;
    hide SchedInv;
    hide PrefillExec;
    hide Extend;
    hide Smudge;
    if work == [] {
      RunNone(m, c, fault, junk);
    } else {
      AllPendingTail(s, work);
      RunStep(m, c, work, fault, junk);
      if GoesOn(c, work[0], fault) {
        var c1 := AfterItem(m, c, work[0]);
        ItemUntroubled(m, s, c, work[0], id);
        OthersUntroubled(m, s, c1, work[1..], NextFault(fault), junk, id);
      } else {
        ItemForeign(s, work[0], id);
        SmudgeSpares(c.cells, junk, Elems(work[0].slots), s.pool.requests[id]);
      }
    }
  }

  lemma RunNone(m: Model, c: Call, fault: Option<nat>, junk: map<Slot, KV>)
    ensures Run(m, c, [], fault, junk) == (c.cells, c.caches, Returns(c.logits))
  {
  }

  lemma UntroubledClean(m: Model, s: Sched, c: Call, c': Call, id: Id)
    requires s.pool.blockSize > 0 && id in s.pool.requests && id in s.requests
    requires Untroubled(c, c', s.pool.requests[id], id) && Clean(m, s, c.cells, c.caches, id)
    ensures Clean(m, s, c'.cells, c'.caches, id)
  {
    hide Holds;
    hide Context;
    hide Spared;
    SparedHolds(m, s.pool.blockSize, s.pool.requests[id], c.cells, c'.cells, Tokens(s.requests[id]), Committed(s.requests[id]));
  }

  lemma UntroubledDone(m: Model, s: Sched, c: Call, c': Call, w: PrefillWork)
    requires w.id in s.pool.requests && Untroubled(c, c', s.pool.requests[w.id], w.id)
    requires PrefillDone(m, s, c.cells, c.caches, c.logits, w)
    ensures PrefillDone(m, s, c'.cells, c'.caches, c'.logits, w)
  {
    hide Holds;
    hide Context;
    hide Spared;
    if w.id in s.inflight {
      var n := s.requests[w.id].cursor + |w.tokens|;
      SparedHolds(m, s.pool.blockSize, s.pool.requests[w.id], c.cells, c'.cells, s.requests[w.id].prompt, n);
    }
  }

  /** A prefill call that returns did every waiting item. */
  lemma {:induction false} OwnDone(m: Model, s: Sched, c: Call, work: seq<PrefillWork>, fault: Option<nat>, junk: map<Slot, KV>, i: nat)
    requires AllPending(s, work) && i < |work| && work[i].id in s.inflight && work[i].id in s.pool.requests
    requires s.pool.blockSize > 0 && work[i].id in s.requests && Clean(m, s, c.cells, c.caches, work[i].id)
    requires Run(m, c, work, fault, junk).2.Returns?
    ensures var r := Run(m, c, work, fault, junk); PrefillDone(m, s, r.0, r.1, r.2.value, work[i])
    decreases |work|
  {
    hide PendingPrefill;
    hide SchedInv;
    hide PrefillExec;
    hide Run;
    hide AfterItem;
    hide Clean;
    hide PrefillDone;
    hide Untroubled;
    AllPendingTail(s, work);
    RunStep(m, c, work, fault, junk);
    var c1 := AfterItem(m, c, work[0]);
    var r := Run(m, c, work, fault, junk);
    if i > 0 {
      assert work[i].id == PrefillIds(work[1..])[i - 1];
      ItemUntroubled(m, s, c, work[0], work[i].id);
      UntroubledClean(m, s, c, c1, work[i].id);
      OwnDone(m, s, c1, work[1..], NextFault(fault), junk, i - 1);
    } else {
      ItemDone(m, s, c, work[0]);
      OthersUntroubled(m, s, c1, work[1..], NextFault(fault), junk, work[0].id);
      UntroubledDone(m, s, c1, Call(r.0, r.1, r.2.value), work[0]);
    }
  }

  lemma {:induction false} RunGrows(m: Model, c: Call, work: seq<PrefillWork>, fault: Option<nat>, junk: map<Slot, KV>)
    ensures c.cells.Keys <= Run(m, c, work, fault, junk).0.Keys
    decreases |work|
  {
    if work != [] {
      RunStep(m, c, work, fault, junk);
      if GoesOn(c, work[0], fault) {
        ScatterGrows(c.cells, work[0].slots, Extend(m, CacheOf(c.caches, work[0].id), work[0].tokens)[work[0].start..]);
        RunGrows(m, AfterItem(m, c, work[0]), work[1..], NextFault(fault), junk);
      }
    }
  }

  lemma PrefillExecMeaning(setup: Setup, e: Engine, fail: Option<nat>, junk: map<Slot, KV>, omit: set<Id>)
    requires EngineInv(e) && e.phase.PrefillPending? && Meaning(setup.model, e)
    ensures Meaning(setup.model, PrefillExecStep(setup, e, fail, junk, omit))
  {
    hide SchedInv;
    hide KeysOk;
    hide CleanBut;
    hide GeneratedAll;
    hide SamplersOk;
    hide Pending;
    hide PrefillExec;
    hide PrefillDone;
    hide AllPending;
    hide Sampled;
    hide PlanKnown;
    var plan, c := e.phase.plan, Call(e.cells, e.caches, map[]);
    PrefillAllPending(e.s, plan);
    RunGrows(setup.model, c, plan.prefill, fail, junk);
    PrefillRunClean(setup.model, e.s, c, plan.prefill, fail, junk, PrefillIds(plan.prefill));
    PrefillRunClean(setup.model, e.s, c, plan.prefill, fail, junk, PlanIds(plan));
    if Run(setup.model, c, plan.prefill, fail, junk).2.Returns? {
      PrefillRunDone(setup.model, e.s, c, plan.prefill, fail, junk, omit);
    }
  }

  lemma PrefillAllPending(s: Sched, plan: StepPlan)
    requires SchedInv(s) && Pending(s, [], plan.prefill)
    ensures AllPending(s, plan.prefill)
  {
    hide SchedInv;
    hide PendingPrefill;
    assert DecodeIds([]) + PrefillIds(plan.prefill) == PrefillIds(plan.prefill);
  }

  lemma PrefillRunClean(m: Model, s: Sched, c: Call, work: seq<PrefillWork>, fault: Option<nat>, junk: map<Slot, KV>, ids: seq<Id>)
    requires AllPending(s, work) && CleanBut(m, s, c.cells, c.caches, [])
    requires forall id :: id in PrefillIds(work) ==> id in ids
    ensures CleanBut(m, s, Run(m, c, work, fault, junk).0, Run(m, c, work, fault, junk).1, ids)
  {
    hide AllPending;
    hide Run;
    hide Clean;
    hide Untroubled;
    var r := Run(m, c, work, fault, junk);
    forall id | id in s.pool.requests && id !in ids
      ensures Clean(m, s, r.0, r.1, id)
    {
      assert Clean(m, s, c.cells, c.caches, id);
      OthersUntroubled(m, s, c, work, fault, junk, id);
      UntroubledClean(m, s, c, Call(r.0, r.1, if r.2.Returns? then r.2.value else c.logits), id);
    }
  }

  lemma PrefillRunDone(m: Model, s: Sched, c: Call, work: seq<PrefillWork>, fault: Option<nat>, junk: map<Slot, KV>, omit: set<Id>)
    requires AllPending(s, work) && CleanBut(m, s, c.cells, c.caches, [])
    requires Run(m, c, work, fault, junk).2.Returns?
    ensures var r := Run(m, c, work, fault, junk);
      forall i :: 0 <= i < |work| ==> PrefillDone(m, s, r.0, r.1, r.2.value - omit, work[i])
  {
    hide SchedInv;
    hide PendingPrefill;
    hide Run;
    hide Clean;
    var r := Run(m, c, work, fault, junk);
    forall i: nat | i < |work|
      ensures PrefillDone(m, s, r.0, r.1, r.2.value - omit, work[i])
    {
      if work[i].id in s.inflight {
        InflightOwned(s);
        assert Clean(m, s, c.cells, c.caches, work[i].id);
        OwnDone(m, s, c, work, fault, junk, i);
        OmitDone(m, s, r.0, r.1, r.2.value, omit, work[i]);
      }
    }
  }

  lemma OmitDone(m: Model, s: Sched, cells: Cells, caches: Caches, logits: map<Id, Logits>, omit: set<Id>, w: PrefillWork)
    requires PrefillDone(m, s, cells, caches, logits, w)
    ensures PrefillDone(m, s, cells, caches, logits - omit, w)
  {
    hide Holds;
    hide Context;
  }
}
