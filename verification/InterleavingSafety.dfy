/** Safety wherever submits, cancels and executor failures fall between the awaits of a step. */
module InterleavingSafety {
  import opened Basics
  import opened PagedKV
  import opened PagedStorage
  import opened Scheduler
  import opened SchedulerInvariant
  import opened PlanInvariant
  import opened Executor
  import opened Engine
  import opened EngineInvariant
  import opened Alone
  import opened Refinement
  import opened RefinementExec
  import opened RefinementPrefill
  import opened ContinuousBatching

  // ----- what is left between steps, and of finished requests -----

  /** A finished request holds no block, no reservation, no queue entry and no work in flight. */
  ghost predicate HoldsNothing(s: Sched, id: Id) {
    id !in s.pool.requests && id !in s.reserved && id !in s.inflight && id !in s.prefill && id !in s.decode
  }

  /** In every run: `plan` never raises, so the engine loop never dies; between steps nothing is
      in flight; finished requests hold nothing; every block is free or belongs to exactly one
      live request. */
  lemma NothingLeftBehind(setup: Setup, numBlocks: nat, blockSize: nat, cells: Cells, actions: seq<Action>)
    requires setup.limits.Valid() && blockSize > 0
    ensures EngineInv(Start(numBlocks, blockSize, cells))
    ensures var e := RunEngine(setup, Start(numBlocks, blockSize, cells), actions);
      && !e.phase.Crashed?
      && (e.phase.Idle? ==> e.s.inflight == map[])
      && (forall id :: id in e.s.requests && e.s.requests[id].Finished() ==> HoldsNothing(e.s, id))
      && PoolInv(e.s.pool)
  {
    hide EngineInv;
    hide HoldsNothing;
    StartInv(numBlocks, blockSize, cells);
    LeavesNothing(RunEngine(setup, Start(numBlocks, blockSize, cells), actions));
  }

  lemma LeavesNothing(e: Engine)
    requires EngineInv(e)
    ensures !e.phase.Crashed? && (e.phase.Idle? ==> e.s.inflight == map[]) && PoolInv(e.s.pool)
    ensures forall id :: id in e.s.requests && e.s.requests[id].Finished() ==> HoldsNothing(e.s, id)
  {
    hide PoolInv;
    hide RequestsOk;
    hide ReservedOk;
    hide KeysOk;
    hide Pending;
  }

  // ----- writes in flight -----

  lemma WritesSpare(m: Model, before: Cells, cells: Cells, blockSize: nat, work: seq<DecodeWork>, tables: seq<seq<int>>, a: Allocation)
    requires blockSize > 0 && |work| == |tables|
    requires forall i :: 0 <= i < |work| ==> work[i].slot.0 !in a.blocks
    ensures Spared(cells, WriteRows(m, before, cells, blockSize, work, tables), a)
  {
    hide WriteRows;
    forall slot: Slot | slot.0 in a.blocks
      ensures Get(WriteRows(m, before, cells, blockSize, work, tables), slot) == Get(cells, slot)
    {
      WriteElsewhere(m, before, cells, blockSize, work, tables, slot);
    }
  }

  /** A decode call writes no block of a live request outside its batch, whether it succeeds or
      raises, and also for batch members that were cancelled meanwhile. */
  lemma DecodeSparesOthers(setup: Setup, e: Engine, fault: Option<map<Slot, KV>>, omit: set<Id>, id: Id)
    requires EngineInv(e) && e.phase.DecodePending? && id in e.s.pool.requests && id !in DecodeIds(e.phase.plan.decode)
    ensures e.s.pool.blockSize > 0
    ensures Spared(e.cells, DecodeExecStep(setup, e, fault, omit).cells, e.s.pool.requests[id])
  {
    hide OwnersOk;
    hide QueuesOk;
    hide RequestsOk;
    hide ReservedOk;
    hide PoolShape;
    hide PoolDisjoint;
    hide PoolCovers;
    hide PoolCount;
    hide KeysOk;
    hide MetaOk;
    hide PendingDecode;
    hide PendingPrefill;
    hide WriteRows;
    hide AttendRows;
    hide TableCovers;
    hide Smudge;
    InflightOwned(e.s);
    var plan, meta, a := e.phase.plan, e.phase.meta, e.s.pool.requests[id];
    forall i | 0 <= i < |plan.decode|
      ensures plan.decode[i].slot.0 !in a.blocks
    {
      assert DecodeIds(plan.decode)[i] == plan.decode[i].id;
      DecodeSlotForeign(e.s, plan.decode[i], id);
    }
    if |meta.tables| == |plan.decode| {
      WritesSpare(setup.model, e.cells, e.cells, e.s.pool.blockSize, plan.decode, meta.tables, a);
    }
    if fault.Some? { SmudgeSpares(e.cells, fault.value, DecodeSlots(plan.decode), a); }
  }

  /** Nor does a prefill call, which writes without checking its slots. */
  lemma PrefillSparesOthers(setup: Setup, e: Engine, fail: Option<nat>, junk: map<Slot, KV>, omit: set<Id>, id: Id)
    requires EngineInv(e) && e.phase.PrefillPending? && id in e.s.pool.requests && id !in PrefillIds(e.phase.plan.prefill)
    ensures Spared(e.cells, PrefillExecStep(setup, e, fail, junk, omit).cells, e.s.pool.requests[id])
  {
    hide SchedInv;
    hide KeysOk;
    hide Pending;
    hide PrefillExec;
    hide Spared;
    PrefillAllPending(e.s, e.phase.plan);
    OthersUntroubled(setup.model, e.s, Call(e.cells, e.caches, map[]), e.phase.plan.prefill, fail, junk, id);
  }

  // ----- when an executor call goes through -----

  lemma {:induction false} LengthsPass(caches: Caches, work: seq<DecodeWork>, lengths: seq<nat>)
    requires |lengths| == |work| && forall i :: 0 <= i < |work| ==> lengths[i] == work[i].position + 1
    ensures CheckEach(caches, work, lengths).1.None?
    decreases |work|
  {
    if work != [] { LengthsPass(caches - {work[0].id}, work[1..], lengths[1..]); }
  }

  lemma {:induction false} SlotsPass(p: Pool, work: seq<DecodeWork>)
    requires p.blockSize > 0
    requires forall i :: 0 <= i < |work| ==>
      (work[i].id in p.requests && SlotIs(work[i].slot, p.requests[work[i].id].blocks, p.blockSize, work[i].position))
    ensures SlotError(p, work).None?
    decreases |work|
  {
    if work != [] {
      assert SlotIs(work[0].slot, p.requests[work[0].id].blocks, p.blockSize, work[0].position);
      SlotsPass(p, work[1..]);
    }
  }

  lemma AllItemsPass(s: Sched, plan: StepPlan, meta: Metadata)
    requires SchedInv(s) && Pending(s, plan.decode, plan.prefill) && MetaOk(s, plan.decode, meta)
    requires forall i :: 0 <= i < |plan.decode| ==> plan.decode[i].id in s.inflight
    ensures s.pool.blockSize > 0 && SlotError(s.pool, plan.decode).None?
    ensures forall i :: 0 <= i < |plan.decode| ==> TableCovers(meta.tables[i], plan.decode[i].position + 1, s.pool.blockSize)
  {
    hide SchedInv;
    hide TableCovers;
    hide TableOf;
    hide DecodeItemOk;
    hide OwnersOk;
    InflightOwned(s);
    forall i | 0 <= i < |plan.decode|
      ensures DecodeItemOk(s, plan.decode[i])
    {
      PendingItem(s, plan, i);
    }
    ItemsPass(s, plan.decode);
    forall i | 0 <= i < |plan.decode|
      ensures TableCovers(meta.tables[i], plan.decode[i].position + 1, s.pool.blockSize)
    {
      ItemOwned(s, plan.decode[i]);
      ItemCovered(s, plan.decode[i], meta.tables[i]);
    }
  }

  lemma PendingItem(s: Sched, plan: StepPlan, i: nat)
    requires Pending(s, plan.decode, plan.prefill) && i < |plan.decode| && plan.decode[i].id in s.inflight
    ensures DecodeItemOk(s, plan.decode[i])
  {
    assert PendingDecode(s, plan.decode[i]);
  }

  lemma ItemOwned(s: Sched, w: DecodeWork)
    requires DecodeItemOk(s, w)
    ensures w.id in s.pool.requests
  {
  }

  lemma ItemsPass(s: Sched, work: seq<DecodeWork>)
    requires s.pool.blockSize > 0 && forall i :: 0 <= i < |work| ==> DecodeItemOk(s, work[i])
    ensures SlotError(s.pool, work).None?
  {
    SlotsPass(s.pool, work);
  }

  lemma ItemCovered(s: Sched, w: DecodeWork, table: seq<int>)
    requires SchedInv(s) && s.pool.blockSize > 0 && DecodeItemOk(s, w) && TableOf(table, s.pool.requests[w.id].blocks)
    ensures TableCovers(table, w.position + 1, s.pool.blockSize)
  {
    OwnBlocks(s, w.id);
    LastPosition(s, w);
    TableCoversItem(s.pool.blockSize, s.pool.requests[w.id], table, w.position + 1);
  }

  lemma LastPosition(s: Sched, w: DecodeWork)
    requires SchedInv(s) && DecodeItemOk(s, w)
    ensures s.pool.requests[w.id].length == w.position + 1
  {
    hide PoolInv;
    PositionIsLast(s, w);
  }

  /** Every length check, slot check and block table of a decode call is right: without a fault
      of its own the call fails exactly when a request of the batch is gone. */
  lemma DecodeCallSucceeds(setup: Setup, e: Engine)
    requires EngineInv(e) && e.phase.DecodePending?
    ensures e.s.pool.blockSize > 0
    ensures DecodeExec(setup.model, e.s.pool, e.cells, e.caches, e.phase.plan.decode, e.phase.meta, None).2.Returns? <==>
      forall i :: 0 <= i < |e.phase.plan.decode| ==> e.phase.plan.decode[i].id in e.s.inflight
  {
    hide SchedInv;
    hide KeysOk;
    hide Pending;
    hide WriteRows;
    hide AttendRows;
    hide TableCovers;
    InflightOwned(e.s);
    var plan, meta := e.phase.plan, e.phase.meta;
    if meta.lengths != [] { LengthsPass(e.caches, plan.decode, meta.lengths); }
    if forall i :: 0 <= i < |plan.decode| ==> plan.decode[i].id in e.s.inflight {
      AllItemsPass(e.s, plan, meta);
    } else if SlotError(e.s.pool, plan.decode).None? {
      BatchFromChecks(e.s, plan, meta);
    }
  }

  /** Beginning a step never fails: the table width from the graph bucket is always accepted.
      With a request live the plan is not empty. */
  lemma BeginNeverFails(setup: Setup, e: Engine, now: real, planNow: real)
    requires EngineInv(e) && e.phase.Idle? && setup.limits.Valid()
    ensures e.s.pool.blockSize > 0
    ensures var e' := BeginStep(setup, e, now, planNow);
      && (e'.phase.Idle? || e'.phase.DecodePending? || e'.phase.PrefillPending?)
      && (e'.phase.Idle? <==> e'.s.pool.requests == map[])
  {
    hide SchedInv;
    hide KeysOk;
    hide PlanTurns;
    hide SoFar;
    hide MetadataFor;
    InflightOwned(e.s);
    var s1, s2, plan := BeginOutcome(setup, e, now, planNow);
    SoFarOwned(setup.limits, s2, plan);
    if plan.decode != [] { MetadataReturned(setup.limits, setup.buckets, s1, planNow, s2, plan); }
    EmptyPlanIffNoneLive(setup.limits, s2, plan);
    FinishKeepsPhase(e.(s := s1), Expire(e.s, now).1);
  }

  lemma EmptyPlanIffNoneLive(l: Limits, s: Sched, plan: StepPlan)
    requires PlanOk(l, s, plan)
    requires plan.decode == [] && plan.prefill == [] ==> s.decode == [] && s.prefill == []
    ensures plan.decode == [] && plan.prefill == [] <==> s.pool.requests == map[]
  {
    hide PoolInv;
    hide RequestOk;
    hide DecodeItemFits;
    hide PrefillItemFits;
    if plan.decode != [] { assert DecodeItemOk(s, plan.decode[0]); }
    if plan.prefill != [] { assert PrefillItemOk(s, plan.prefill[0]); }
  }
}
