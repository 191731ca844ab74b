/** What every engine action keeps, wherever submits, cancels and executor failures fall:
    the work of the current step is the only work in flight, and its slots belong to its own
    requests or to nobody. */
module EngineInvariant {
  import opened Basics
  import opened PagedKV
  import opened PagedStorage
  import opened GraphBuckets
  import opened Scheduler
  import opened SchedulerInvariant
  import opened PlanInvariant
  import opened Executor
  import opened Engine

  // ----- work that is not committed yet -----

  /** The request of a pending item is still waiting for it, or has finished and given the
      slot back: nobody else owns the slot. */
  ghost predicate PendingDecode(s: Sched, w: DecodeWork) {
    && w.id in s.requests
    && (w.id in s.inflight ==> DecodeItemOk(s, w))
    && (w.id !in s.inflight ==> s.requests[w.id].Finished() && w.slot.0 in s.pool.free)
  }

  ghost predicate PendingPrefill(s: Sched, w: PrefillWork) {
    && w.id in s.requests
    && (w.id in s.inflight ==> PrefillItemOk(s, w))
    && (w.id !in s.inflight ==> s.requests[w.id].Finished() && SlotsFree(s.pool, w.slots))
  }

  ghost predicate SlotsFree(p: Pool, slots: seq<Slot>) {
    forall i :: 0 <= i < |slots| ==> slots[i].0 in p.free && slots[i].1 < p.blockSize
  }

  ghost predicate Pending(s: Sched, decode: seq<DecodeWork>, prefill: seq<PrefillWork>) {
    && NoDup(DecodeIds(decode) + PrefillIds(prefill))
    && (forall id :: id in s.inflight ==> id in DecodeIds(decode) + PrefillIds(prefill))
    && (forall i :: 0 <= i < |decode| ==> PendingDecode(s, decode[i]))
    && (forall i :: 0 <= i < |prefill| ==> PendingPrefill(s, prefill[i]))
  }

  /** The batch metadata still describes every item that is in flight. */
  ghost predicate MetaOk(s: Sched, work: seq<DecodeWork>, meta: Metadata) {
    && |meta.ids| == |meta.tables| == |meta.lengths| == |work|
    && forall i :: 0 <= i < |work| ==>
         && meta.ids[i] == work[i].id && meta.lengths[i] == work[i].position + 1
         && (work[i].id in s.inflight && work[i].id in s.pool.requests ==>
               TableOf(meta.tables[i], s.pool.requests[work[i].id].blocks))
  }

  ghost predicate TableOf(table: seq<int>, blocks: seq<nat>) {
    |blocks| <= |table| && forall b :: 0 <= b < |blocks| ==> table[b] == blocks[b]
  }

  /** Every decoding request outside `ids` has a sampled token. */
  ghost predicate SampledBut(s: Sched, ids: seq<Id>) {
    forall id :: id in s.requests && s.requests[id].state == DECODE && id !in ids ==> s.requests[id].generated != []
  }

  ghost predicate FailingOk(s: Sched, ids: seq<Id>) {
    && (forall id :: id in s.inflight ==> id in ids)
    && (forall id :: id in ids ==> id in s.requests)
    && SampledBut(s, ids)
  }

  ghost predicate PlanKnown(s: Sched, plan: StepPlan) {
    forall id :: id in PlanIds(plan) ==> id in s.requests
  }

  ghost predicate PhaseInv(s: Sched, phase: Phase) {
    match phase
    case Idle => s.inflight == map[] && Sampled(s)
    case DecodePending(plan, meta) =>
      && plan.decode != []
      && Pending(s, plan.decode, plan.prefill) && Sampled(s) && PlanKnown(s, plan) && MetaOk(s, plan.decode, meta)
    case DecodeReturned(plan, _) => Pending(s, plan.decode, plan.prefill) && Sampled(s) && PlanKnown(s, plan)
    case PrefillPending(plan) => Pending(s, [], plan.prefill) && Sampled(s) && PlanKnown(s, plan)
    case PrefillReturned(plan, _) => Pending(s, [], plan.prefill) && Sampled(s) && PlanKnown(s, plan)
    case Failing(plan) => FailingOk(s, PlanIds(plan))
    case Crashed => false
  }

  /** Every request that was admitted has a sampler and an event queue. */
  ghost predicate KeysOk(e: Engine) {
    && (forall id :: id in e.s.requests && e.s.requests[id].state != REJECTED ==> id in e.samplers && id in e.events)
    && (forall id :: id in e.caches || id in e.samplers || id in e.events ==> id in e.s.requests)
  }

  ghost predicate EngineInv(e: Engine) {
    SchedInv(e.s) && PhaseInv(e.s, e.phase) && KeysOk(e)
  }

  // ----- retiring a request while a step is under way -----

  lemma RetirePendingDecode(s: Sched, id: Id, r: Request, w: DecodeWork)
    requires OwnersOk(s) && id in s.requests && r.Finished() && PendingDecode(s, w)
    requires w.id == id ==> w.id in s.inflight
    ensures PendingDecode(Retired(s, id, r), w)
  {
    var s' := Retired(s, id, r);
    if w.id == id {
      assert w.slot.0 in s.pool.requests[id].blocks;
    }
  }

  lemma RetirePendingPrefill(s: Sched, id: Id, r: Request, w: PrefillWork)
    requires OwnersOk(s) && id in s.requests && r.Finished() && PendingPrefill(s, w)
    requires w.id == id ==> w.id in s.inflight
    ensures PendingPrefill(Retired(s, id, r), w)
  {
    var s' := Retired(s, id, r);
    if w.id == id {
      forall i | 0 <= i < |w.slots|
        ensures w.slots[i].0 in s'.pool.free && w.slots[i].1 < s'.pool.blockSize
      {
        assert SlotIs(w.slots[i], s.pool.requests[id].blocks, s.pool.blockSize, w.start + i);
        assert w.slots[i].0 in s.pool.requests[id].blocks;
      }
    }
  }

  lemma RetirePending(s: Sched, id: Id, r: Request, decode: seq<DecodeWork>, prefill: seq<PrefillWork>)
    requires OwnersOk(s) && id in s.requests && r.Finished() && Pending(s, decode, prefill)
    requires s.requests[id].Finished() ==> id !in DecodeIds(decode) + PrefillIds(prefill)
    ensures Pending(Retired(s, id, r), decode, prefill)
  {
    hide OwnersOk;
    forall i | 0 <= i < |decode|
      ensures PendingDecode(Retired(s, id, r), decode[i])
    {
      assert PendingDecode(s, decode[i]);
      assert (DecodeIds(decode) + PrefillIds(prefill))[i] == decode[i].id;
      RetirePendingDecode(s, id, r, decode[i]);
    }
    forall i | 0 <= i < |prefill|
      ensures PendingPrefill(Retired(s, id, r), prefill[i])
    {
      assert PendingPrefill(s, prefill[i]);
      assert (DecodeIds(decode) + PrefillIds(prefill))[|decode| + i] == prefill[i].id;
      RetirePendingPrefill(s, id, r, prefill[i]);
    }
  }

  lemma RetirePhase(s: Sched, id: Id, r: Request, phase: Phase)
    requires OwnersOk(s) && id in s.requests && r.Finished() && Live(s.requests[id]) && PhaseInv(s, phase)
    ensures PhaseInv(Retired(s, id, r), phase)
  {
    hide Pending;
    hide OwnersOk;
    var s' := Retired(s, id, r);
    match phase
    case Idle =>
    case DecodePending(plan, meta) => RetirePendingLive(s, id, r, plan.decode, plan.prefill);
    case DecodeReturned(plan, _) => RetirePendingLive(s, id, r, plan.decode, plan.prefill);
    case PrefillPending(plan) => RetirePendingLive(s, id, r, [], plan.prefill);
    case PrefillReturned(plan, _) => RetirePendingLive(s, id, r, [], plan.prefill);
    case Failing(plan) =>
  }

  lemma RetirePendingLive(s: Sched, id: Id, r: Request, decode: seq<DecodeWork>, prefill: seq<PrefillWork>)
    requires OwnersOk(s) && id in s.requests && r.Finished() && Live(s.requests[id]) && Pending(s, decode, prefill)
    ensures Pending(Retired(s, id, r), decode, prefill)
  {
    RetirePending(s, id, r, decode, prefill);
  }

  // ----- submit and cancel at any await -----

  lemma SubmitPending(s: Sched, s': Sched, id: Id, decode: seq<DecodeWork>, prefill: seq<PrefillWork>)
    requires Pending(s, decode, prefill) && Joined(s, s', id)
    ensures Pending(s', decode, prefill)
  {
    hide DecodeItemFits;
    hide PrefillItemFits;
    forall i | 0 <= i < |decode|
      ensures PendingDecode(s', decode[i])
    {
      assert PendingDecode(s, decode[i]);
    }
    forall i | 0 <= i < |prefill|
      ensures PendingPrefill(s', prefill[i])
    {
      assert PendingPrefill(s, prefill[i]);
    }
  }

  /** A new request joined and nothing else changed. */
  ghost predicate Joined(s: Sched, s': Sched, id: Id) {
    && id !in s.requests && id !in s.pool.requests
    && s'.requests.Keys == s.requests.Keys + {id} && s'.requests[id].state in {PREFILL, REJECTED}
    && (forall i :: i in s.requests ==> s'.requests[i] == s.requests[i])
    && s'.inflight == s.inflight && s'.pool.free == s.pool.free && s'.pool.blockSize == s.pool.blockSize
    && s.pool.requests.Keys <= s'.pool.requests.Keys <= s.pool.requests.Keys + {id}
    && (forall i :: i in s.pool.requests ==> s'.pool.requests[i] == s.pool.requests[i])
  }

  lemma SubmitJoins(s: Sched, sub: Submission, now: real)
    requires SchedInv(s)
    ensures var (s', r) := Submit(s, sub, now);
      if r.Returns? || r == Raises(AdmissionError) then Joined(s, s', sub.id) else s' == s
  {
    hide PoolInv;
    hide RequestsOk;
    hide QueuesOk;
    assert s.pool.blockSize > 0;
  }

  lemma JoinPhase(s: Sched, s': Sched, id: Id, phase: Phase)
    requires Joined(s, s', id) && PhaseInv(s, phase)
    requires forall i :: i in s.inflight ==> i in s.pool.requests
    ensures PhaseInv(s', phase)
  {
    hide Pending;
    match phase
    case Idle =>
    case DecodePending(plan, meta) => SubmitPending(s, s', id, plan.decode, plan.prefill);
    case DecodeReturned(plan, _) => SubmitPending(s, s', id, plan.decode, plan.prefill);
    case PrefillPending(plan) => SubmitPending(s, s', id, [], plan.prefill);
    case PrefillReturned(plan, _) => SubmitPending(s, s', id, [], plan.prefill);
    case Failing(plan) =>
  }

  lemma InflightOwned(s: Sched)
    requires SchedInv(s)
    ensures OwnersOk(s) && s.pool.blockSize > 0
    ensures forall i :: i in s.inflight ==> i in s.pool.requests
  {
  }

  lemma SubmitStepKeeps(e: Engine, sub: Submission, now: real)
    requires EngineInv(e)
    ensures e.s.pool.blockSize > 0 && EngineInv(SubmitStep(e, sub, now))
  {
    hide SchedInv;
    hide OwnersOk;
    hide PhaseInv;
    InflightOwned(e.s);
    SubmitKeeps(e.s, sub, now);
    SubmitJoins(e.s, sub, now);
    var (s', r) := Submit(e.s, sub, now);
    if r.Returns? || r == Raises(AdmissionError) {
      JoinPhase(e.s, s', sub.id, e.phase);
    }
    SubmitKeys(e, sub, now);
  }

  lemma SubmitKeys(e: Engine, sub: Submission, now: real)
    requires KeysOk(e) && e.s.pool.blockSize > 0
    ensures KeysOk(SubmitStep(e, sub, now))
  {
    hide Submit;
    hide KeysOk;
    SubmitOutcome(e.s, sub, now);
    var (s, r) := Submit(e.s, sub, now);
    if r == Raises(AdmissionError) {
      KeysEnter(e, SubmitStep(e, sub, now), sub.id, ToRequest(sub, REJECTED, now));
    } else if r.Returns? {
      KeysEnter(e, SubmitStep(e, sub, now), sub.id, ToRequest(sub, PREFILL, now));
    }
  }

  lemma KeysEnter(e: Engine, e': Engine, id: Id, r: Request)
    requires KeysOk(e) && e'.s.requests == e.s.requests[id := r] && e'.caches == e.caches
    requires if r.state == REJECTED then e'.samplers == e.samplers && e'.events == e.events
             else e'.samplers.Keys == e.samplers.Keys + {id} && e'.events.Keys == e.events.Keys + {id}
    requires id !in e.s.requests
    ensures KeysOk(e')
  {
  }

  lemma CancelStepKeeps(e: Engine, id: Id)
    requires EngineInv(e)
    ensures EngineInv(CancelStep(e, id))
  {
    hide SchedInv;
    hide OwnersOk;
    hide PhaseInv;
    InflightOwned(e.s);
    if id in e.s.requests && !e.s.requests[id].Finished() {
      NotWaiting(e.s, id);
      TerminateKeeps(e.s, id, CANCELLED);
      RetirePhase(e.s, id, e.s.requests[id].(state := CANCELLED), e.phase);
    }
  }

  lemma NotWaiting(s: Sched, id: Id)
    requires SchedInv(s) && id in s.requests && !s.requests[id].Finished()
    ensures Live(s.requests[id]) && id in s.pool.requests
  {
    hide PoolInv;
  }

  // ----- beginning a step -----

  /** The work a plan hands out is pending. */
  lemma PlannedIsPending(l: Limits, s: Sched, plan: StepPlan)
    requires PlanOk(l, s, plan)
    ensures Pending(s, plan.decode, plan.prefill)
    ensures plan.decode == [] ==> Pending(s, [], plan.prefill)
    ensures PlanKnown(s, plan)
    ensures plan.decode == [] && plan.prefill == [] ==> s.inflight == map[]
  {
    hide SchedInv;
    hide DecodeItemFits;
    hide PrefillItemFits;
    forall i | 0 <= i < |plan.decode|
      ensures PendingDecode(s, plan.decode[i])
    {
      assert DecodeItemOk(s, plan.decode[i]);
    }
    forall i | 0 <= i < |plan.prefill|
      ensures PendingPrefill(s, plan.prefill[i])
    {
      assert PrefillItemOk(s, plan.prefill[i]);
    }
  }

  /** The width taken from the graph bucket is always accepted, and the tables describe the
      planned requests. */
  lemma MetadataAccepted(s: Sched, plan: StepPlan) returns (meta: Metadata)
    requires SchedInv(s) && DecodeItemsOk(s, plan.decode)
    requires plan.sequence.Some? ==> CoveredBy(s, plan.decode, plan.sequence.value)
    ensures s.pool.blockSize > 0
    ensures MetadataFor(s.pool, DecodeIds(plan.decode), TableWidth(s.pool, plan)) == Returns(meta)
    ensures MetaOk(s, plan.decode, meta)
  {
    hide PoolDisjoint;
    hide PoolCovers;
    hide OwnersOk;
    hide QueuesOk;
    hide ReservedOk;
    hide RequestOk;
    hide PoolShape;
    hide PoolCount;
    hide MetadataFor;
    hide UsedWidth;
    hide TableWidth;
    hide RowOf;
    hide TableOf;
    var ids := DecodeIds(plan.decode);
    Positive(s.pool);
    forall i | 0 <= i < |plan.decode|
      ensures ids[i] in s.pool.requests
    {
      assert DecodeItemOk(s, plan.decode[i]);
    }
    assert forall id :: id in ids ==> id in s.pool.requests;
    WidthFits(s, plan, ids);
    var width := TableWidth(s.pool, plan);
    meta := MetadataReturns(s.pool, ids, width);
    forall i | 0 <= i < |plan.decode|
      ensures meta.lengths[i] == plan.decode[i].position + 1
      ensures TableOf(meta.tables[i], s.pool.requests[ids[i]].blocks)
    {
      MetadataRows(s.pool, ids, width, meta, i);
      RowIsTable(meta.tables[i], s.pool.requests[ids[i]].blocks);
      PositionIsLast(s, plan.decode[i]);
    }
  }

  lemma Positive(p: Pool)
    requires PoolShape(p)
    ensures p.blockSize > 0
  {
  }

  lemma MetadataReturns(p: Pool, ids: seq<Id>, tableWidth: Option<int>) returns (meta: Metadata)
    requires forall id :: id in ids ==> id in p.requests
    requires tableWidth.Some? ==> UsedWidth(p, ids) <= tableWidth.value <= p.numBlocks
    ensures MetadataFor(p, ids, tableWidth) == Returns(meta)
    ensures meta.ids == ids && |meta.tables| == |meta.lengths| == |ids|
  {
    meta := MetadataFor(p, ids, tableWidth).value;
  }

  lemma RowIsTable(row: seq<int>, blocks: seq<nat>)
    requires RowOf(row, blocks)
    ensures TableOf(row, blocks)
  {
  }

  lemma PositionIsLast(s: Sched, w: DecodeWork)
    requires RequestsOk(s) && DecodeItemOk(s, w)
    ensures s.pool.requests[w.id].length == w.position + 1
  {
    assert RequestOk(s.requests[w.id], s.pool.requests[w.id].length, Some(InDecode));
  }

  lemma WidthFits(s: Sched, plan: StepPlan, ids: seq<Id>)
    requires PoolShape(s.pool) && PoolCount(s.pool) && ids == DecodeIds(plan.decode)
    requires forall id :: id in ids ==> id in s.pool.requests
    requires plan.sequence.Some? ==> CoveredBy(s, plan.decode, plan.sequence.value)
    ensures TableWidth(s.pool, plan).Some? ==>
      UsedWidth(s.pool, ids) <= TableWidth(s.pool, plan).value <= s.pool.numBlocks
  {
    if plan.sequence.Some? && UsedWidth(s.pool, ids) > 0 {
      var id :| id in ids && |s.pool.requests[id].blocks| == UsedWidth(s.pool, ids);
      var i :| 0 <= i < |ids| && ids[i] == id;
      assert plan.decode[i] in plan.decode;
      var a := s.pool.requests[id];
      assert AllocationOk(s.pool.numBlocks, s.pool.blockSize, s.pool.free, a);
      CeilDivMonotone(a.length, plan.sequence.value, s.pool.blockSize);
      SumMapTake(BlockCounts(s.pool), id);
    }
  }

  lemma {:induction false} FinishExpiredSame(e: Engine, ids: seq<Id>)
    requires KeysOk(e)
    ensures var e' := FinishExpired(e, ids);
      KeysOk(e') && e'.s == e.s && e'.cells == e.cells && e'.samplers == e.samplers && e'.phase == e.phase
    decreases |ids|
  {
    if ids != [] {
      FinishExpiredSame(Finish(e.(metrics := e.metrics.(timedOut := e.metrics.timedOut + 1)), ids[0], Timeout), ids[1..]);
    }
  }

  /** What expiry may change: live requests time out. */
  ghost predicate OnlyExpired(s: Sched, s': Sched) {
    && s'.requests.Keys == s.requests.Keys
    && forall id :: id in s.requests ==>
         s'.requests[id] == s.requests[id] ||
         (!s.requests[id].Finished() && s'.requests[id] == s.requests[id].(state := TIMED_OUT))
  }

  lemma {:induction false} ExpireOnlyExpires(s: Sched, now: real, ids: seq<Id>, expired: seq<Id>)
    ensures OnlyExpired(s, ExpireFrom(s, now, ids, expired).0)
    decreases |ids|
  {
    if ids != [] {
      if ids[0] in s.requests && Due(s.requests[ids[0]], now) {
        var s1 := Terminate(s, ids[0], TIMED_OUT);
        ExpireOnlyExpires(s1, now, ids[1..], expired + [ids[0]]);
      } else {
        ExpireOnlyExpires(s, now, ids[1..], expired);
      }
    }
  }

  /** The outcome of beginning a step, in one place. */
  ghost predicate Begun(setup: Setup, e: Engine, now: real, planNow: real, s1: Sched, s2: Sched, plan: StepPlan, e': Engine) {
    && s1 == Expire(e.s, now).0
    && s1.pool.blockSize > 0 && PlanReady(s1)
    && Plan(setup.limits, setup.buckets, s1, planNow) == (s2, Returns(plan))
    && PlanOk(setup.limits, s2, plan) && PlanTurns(Sorted(Expire(s1, planNow).0), s2, plan)
    && PlanFull(setup.limits, s2, plan) && Bucketed(setup.buckets, s2, plan)
    && OnlyExpired(e.s, s1) && OnlyExpired(s1, s2)
    && (plan.decode == [] && plan.prefill == [] ==> s2.decode == [] && s2.prefill == [])
    && s2.pool.blockSize > 0
    && e' == FinishExpired(e.(s := s1), Expire(e.s, now).1).(s := s2, phase := AfterPlan(e.(s := s2), plan))
  }

  lemma BeginOutcome(setup: Setup, e: Engine, now: real, planNow: real) returns (s1: Sched, s2: Sched, plan: StepPlan)
    requires EngineInv(e) && e.phase.Idle? && setup.limits.Valid()
    ensures e.s.pool.blockSize > 0
    ensures Begun(setup, e, now, planNow, s1, s2, plan, BeginStep(setup, e, now, planNow))
  {
    hide EngineInv;
    hide PlanReady;
    hide PlanOk;
    hide PlanTurns;
    hide PlanFull;
    hide Bucketed;
    hide OnlyExpired;
    hide CoveredBy;
    hide ExpireFrom;
    hide Plan;
    hide FinishExpired;
    hide MetadataFor;
    hide TableWidth;
    IdleReady(e);
    ExpireReady(e.s, now, e.s.order, []);
    ExpireOnlyExpires(e.s, now, e.s.order, []);
    ExpireKeepsDimensions(e.s, now, e.s.order, []);
    s1 := Expire(e.s, now).0;
    s2, plan := PlanNeverRaises(setup.limits, setup.buckets, s1, planNow);
    ExpireOnlyExpires(s1, planNow, s1.order, []);
    PlannedOnlyExpired(s1, Expire(s1, planNow).0, s2, plan);
    SoFarOwned(setup.limits, s2, plan);
    FinishKeepsPhase(e.(s := s1), Expire(e.s, now).1);
  }

  lemma PlannedOnlyExpired(s: Sched, s1: Sched, s2: Sched, plan: StepPlan)
    requires OnlyExpired(s, s1) && PlanTurns(Sorted(s1), s2, plan)
    ensures OnlyExpired(s, s2)
  {
  }

  lemma IdleReady(e: Engine)
    requires EngineInv(e) && e.phase.Idle?
    ensures PlanReady(e.s) && e.s.pool.blockSize > 0
  {
    hide SchedInv;
    hide KeysOk;
    InflightOwned(e.s);
  }

  lemma SoFarOwned(l: Limits, s: Sched, plan: StepPlan)
    requires PlanOk(l, s, plan)
    ensures SchedInv(s) && s.pool.blockSize > 0
  {
  }

  lemma {:induction false} FinishKeepsPhase(e: Engine, ids: seq<Id>)
    ensures var e' := FinishExpired(e, ids); e'.s == e.s && e'.cells == e.cells && e'.samplers == e.samplers
    decreases |ids|
  {
    if ids != [] {
      FinishKeepsPhase(Finish(e.(metrics := e.metrics.(timedOut := e.metrics.timedOut + 1)), ids[0], Timeout), ids[1..]);
    }
  }

  lemma BeginStepKeeps(setup: Setup, e: Engine, now: real, planNow: real)
    requires EngineInv(e) && e.phase.Idle? && setup.limits.Valid()
    ensures e.s.pool.blockSize > 0 && EngineInv(BeginStep(setup, e, now, planNow))
  {
    hide SchedInv;
    hide KeysOk;
    hide PlanOk;
    hide PlanTurns;
    InflightOwned(e.s);
    var s1, s2, plan := BeginOutcome(setup, e, now, planNow);
    BegunPhase(setup.limits, e.(s := s2), plan, setup, s1, planNow);
    KeysExpired(e, s1);
    FinishExpiredSame(e.(s := s1), Expire(e.s, now).1);
    KeysExpired(FinishExpired(e.(s := s1), Expire(e.s, now).1), s2);
    KeysPhase(FinishExpired(e.(s := s1), Expire(e.s, now).1).(s := s2), AfterPlan(e.(s := s2), plan));
  }

  lemma KeysPhase(e: Engine, phase: Phase)
    requires KeysOk(e)
    ensures KeysOk(e.(phase := phase))
  {
  }

  lemma KeysExpired(e: Engine, s: Sched)
    requires KeysOk(e) && OnlyExpired(e.s, s)
    ensures KeysOk(e.(s := s))
  {
  }

  lemma BegunPhase(l: Limits, e: Engine, plan: StepPlan, setup: Setup, s1: Sched, planNow: real)
    requires PlanOk(l, e.s, plan) && s1.pool.blockSize > 0 && PlanReady(s1) && l.Valid() && l == setup.limits
    requires Plan(setup.limits, setup.buckets, s1, planNow) == (e.s, Returns(plan))
    ensures e.s.pool.blockSize > 0 && SchedInv(e.s)
    ensures PhaseInv(e.s, AfterPlan(e, plan))
  {
    hide SchedInv;
    hide Pending;
    hide Sampled;
    hide MetaOk;
    hide Plan;
    hide PlanFull;
    hide Bucketed;
    hide PlanTurns;
    hide MetadataFor;
    hide TableWidth;
    SoFarOwned(l, e.s, plan);
    PlannedIsPending(l, e.s, plan);
    var s', plan' := PlanNeverRaises(l, setup.buckets, s1, planNow);
    if plan.decode != [] {
      var meta := MetadataAccepted(e.s, plan);
    }
  }

  lemma MetadataReturned(l: Limits, b: Buckets, s1: Sched, now: real, s2: Sched, plan: StepPlan)
    requires PlanReady(s1) && l.Valid() && s1.pool.blockSize > 0 && Plan(l, b, s1, now) == (s2, Returns(plan))
    ensures s2.pool.blockSize > 0 && MetadataFor(s2.pool, DecodeIds(plan.decode), TableWidth(s2.pool, plan)).Returns?
  {
    hide SchedInv;
    hide Plan;
    hide MetadataFor;
    var s', plan' := PlanNeverRaises(l, b, s1, now);
    SoFarOwned(l, s2, plan);
    var meta := MetadataAccepted(s2, plan);
  }

  // ----- executor calls -----

  /** A step that stops half way may only touch the requests of its plan. */
  lemma PendingFails(s: Sched, decode: seq<DecodeWork>, prefill: seq<PrefillWork>, plan: StepPlan)
    requires Pending(s, decode, prefill) && Sampled(s) && PlanKnown(s, plan)
    requires decode == plan.decode || decode == []
    requires prefill == plan.prefill
    ensures FailingOk(s, PlanIds(plan))
  {
    hide PendingDecode;
    hide PendingPrefill;
  }

  lemma DropsOnly(caches: Caches, work: seq<DecodeWork>, lengths: seq<nat>, id: Id)
    ensures id in DropAndCheck(caches, work, lengths).0 ==> id in caches
    ensures id !in DecodeIds(work) ==> Get(DropAndCheck(caches, work, lengths).0, id) == Get(caches, id)
  {
    if lengths != [] { ChecksOnly(caches, work, lengths, id); }
  }

  lemma {:induction false} ChecksOnly(caches: Caches, work: seq<DecodeWork>, lengths: seq<nat>, id: Id)
    ensures id in CheckEach(caches, work, lengths).0 ==> id in caches
    ensures id !in DecodeIds(work) ==> Get(CheckEach(caches, work, lengths).0, id) == Get(caches, id)
    decreases |work|
  {
    if work != [] {
      assert DecodeIds(work) == [work[0].id] + DecodeIds(work[1..]);
      if lengths != [] && lengths[0] == work[0].position + 1 {
        ChecksOnly(caches - {work[0].id}, work[1..], lengths[1..], id);
      }
      assert id != work[0].id ==> Get(caches - {work[0].id}, id) == Get(caches, id);
      assert id == work[0].id ==> id in DecodeIds(work);
    }
  }

  lemma DecodeExecStepKeeps(setup: Setup, e: Engine, fault: Option<map<Slot, KV>>, omit: set<Id>)
    requires EngineInv(e) && e.phase.DecodePending? 
    ensures e.s.pool.blockSize > 0 && EngineInv(DecodeExecStep(setup, e, fault, omit))
  {
    hide SchedInv;
    hide Pending;
    hide MetaOk;
    hide DropAndCheck;
    hide SlotError;
    hide TableCovers;
    hide WriteRows;
    hide AttendRows;
    hide Smudge;
    InflightOwned(e.s);
    forall id {
      DropsOnly(e.caches, e.phase.plan.decode, e.phase.meta.lengths, id);
    }
    PendingFails(e.s, e.phase.plan.decode, e.phase.plan.prefill, e.phase.plan);
  }

  lemma {:induction false} PrefillExecKeys(m: Model, cells: Cells, caches: Caches, logits: map<Id, Logits>, work: seq<PrefillWork>,
                                           fault: Option<nat>, junk: map<Slot, KV>, id: Id)
    requires id in PrefillExec(m, cells, caches, logits, work, fault, junk).1 && id !in caches
    ensures id in PrefillIds(work)
    decreases |work|
  {
    if work != [] {
      var w := work[0];
      var cache := Extend(m, CacheOf(caches, w.id), w.tokens);
      assert PrefillIds(work) == [w.id] + PrefillIds(work[1..]);
      if id != w.id {
        PrefillExecKeys(m, Scatter(cells, w.slots, cache[w.start..]), caches[w.id := cache],
          logits[w.id := m.logits(w.tokens[|w.tokens| - 1], cache)], work[1..],
          if fault.Some? && fault.value > 0 then Some(fault.value - 1) else None, junk, id);
      } else {
        assert PrefillIds(work)[0] == id;
      }
    }
  }

  lemma PrefillExecStepKeeps(setup: Setup, e: Engine, fail: Option<nat>, junk: map<Slot, KV>, omit: set<Id>)
    requires EngineInv(e) && e.phase.PrefillPending? 
    ensures EngineInv(PrefillExecStep(setup, e, fail, junk, omit))
  {
    hide SchedInv;
    hide Pending;
    hide PrefillExec;
    hide Sampled;
    var caches := PrefillExec(setup.model, e.cells, e.caches, map[], e.phase.plan.prefill, fail, junk).1;
    forall id | id in caches && id !in e.caches
      ensures id in e.s.requests
    {
      PrefillExecKeys(setup.model, e.cells, e.caches, map[], e.phase.plan.prefill, fail, junk, id);
      assert id in PlanIds(e.phase.plan);
    }
    PendingFails(e.s, [], e.phase.plan.prefill, e.phase.plan);
  }

  // ----- commits -----

  /** What committing one item may do to the scheduler. */
  ghost predicate OnlyCommitted(s: Sched, s': Sched, id: Id) {
    && s'.requests.Keys == s.requests.Keys && s'.pool.blockSize == s.pool.blockSize
    && s'.inflight == s.inflight - {id}
    && (forall i :: i in s.requests && i != id ==> s'.requests[i] == s.requests[i])
    && s.pool.free <= s'.pool.free
    && s'.pool.requests.Keys <= s.pool.requests.Keys <= s'.pool.requests.Keys + {id}
    && (forall i :: i in s'.pool.requests ==> s'.pool.requests[i] == s.pool.requests[i])
  }

  lemma CommittedPending(s: Sched, s': Sched, id: Id, decode: seq<DecodeWork>, prefill: seq<PrefillWork>)
    requires OnlyCommitted(s, s', id) && id !in DecodeIds(decode) + PrefillIds(prefill)
    requires NoDup(DecodeIds(decode) + PrefillIds(prefill))
    requires forall i :: i in s'.inflight ==> i in DecodeIds(decode) + PrefillIds(prefill)
    requires forall i :: 0 <= i < |decode| ==> PendingDecode(s, decode[i])
    requires forall i :: 0 <= i < |prefill| ==> PendingPrefill(s, prefill[i])
    ensures Pending(s', decode, prefill)
  {
    hide DecodeItemFits;
    hide PrefillItemFits;
    var ids := DecodeIds(decode) + PrefillIds(prefill);
    forall i | 0 <= i < |decode|
      ensures PendingDecode(s', decode[i])
    {
      assert PendingDecode(s, decode[i]);
      assert ids[i] == decode[i].id;
    }
    forall i | 0 <= i < |prefill|
      ensures PendingPrefill(s', prefill[i])
    {
      assert PendingPrefill(s, prefill[i]);
      assert ids[|decode| + i] == prefill[i].id;
    }
  }

  /** Peeling the first item off the pending work. */
  lemma PendingDecodeTail(s: Sched, s': Sched, decode: seq<DecodeWork>, prefill: seq<PrefillWork>)
    requires decode != [] && Pending(s, decode, prefill) && OnlyCommitted(s, s', decode[0].id)
    ensures Pending(s', decode[1..], prefill)
  {
    hide PendingDecode;
    hide PendingPrefill;
    hide OnlyCommitted;
    var ids := DecodeIds(decode) + PrefillIds(prefill);
    assert ids == [decode[0].id] + (DecodeIds(decode[1..]) + PrefillIds(prefill));
    NoDupTail(decode[0].id, DecodeIds(decode[1..]) + PrefillIds(prefill));
    CommittedInflight(s, s', decode[0].id);
    CommittedPending(s, s', decode[0].id, decode[1..], prefill);
  }

  lemma PendingPrefillTail(s: Sched, s': Sched, prefill: seq<PrefillWork>)
    requires prefill != [] && Pending(s, [], prefill) && OnlyCommitted(s, s', prefill[0].id)
    ensures Pending(s', [], prefill[1..])
  {
    hide PendingPrefill;
    hide OnlyCommitted;
    assert DecodeIds([]) + PrefillIds(prefill) == [prefill[0].id] + (DecodeIds([]) + PrefillIds(prefill[1..]));
    NoDupTail(prefill[0].id, DecodeIds([]) + PrefillIds(prefill[1..]));
    CommittedInflight(s, s', prefill[0].id);
    CommittedPending(s, s', prefill[0].id, [], prefill[1..]);
  }

  lemma CommittedInflight(s: Sched, s': Sched, id: Id)
    requires OnlyCommitted(s, s', id)
    ensures s'.inflight == s.inflight - {id}
  {
  }

  lemma CommitOnly(s: Sched, id: Id, token: Token, stopped: bool)
    requires id in s.requests
    ensures OnlyCommitted(s, Commit(s.(inflight := s.inflight - {id}), id, token, stopped), id)
  {
  }

  /** Committing a decode item: it goes through exactly when its request is still waiting and
      has logits, and then it appends the sampled token. */
  lemma CommitDecodeOutcome(m: Model, e: Engine, w: DecodeWork, logits: map<Id, Logits>)
    requires SchedInv(e.s) && KeysOk(e) && PendingDecode(e.s, w)
    ensures var (e', r) := CommitDecodeItem(m, e, w, logits);
      && r.Returns? <==> (w.id in e.s.inflight && w.id in logits)
    ensures CommitDecodeItem(m, e, w, logits).1.Raises? ==>
      CommitDecodeItem(m, e, w, logits).0 == e.(samplers := CommitDecodeItem(m, e, w, logits).0.samplers)
    ensures w.id in e.s.inflight && w.id in logits ==> w.id in e.samplers && DecodeItemDone(m, e, w, logits)
  {
    hide SchedInv;
    hide KeysOk;
    hide DecodeItemFits;
    hide Commit;
    hide Record;
    if w.id in e.s.inflight && w.id in logits {
      RunningHasKeys(e, w.id);
      var r := e.s.requests[w.id];
      var sample := Draw(m, e, w.id, logits[w.id], r.prompt + r.generated);
      var s := e.s.(inflight := e.s.inflight - {w.id});
      CommittedStays(s, w.id, sample.token, sample.stopped);
      RecordReturns(Drawn(e, w.id).(s := Commit(s, w.id, sample.token, sample.stopped)), w.id, sample);
    }
  }

  ghost predicate DecodeItemDone(m: Model, e: Engine, w: DecodeWork, logits: map<Id, Logits>)
    requires w.id in e.s.requests && w.id in e.samplers && w.id in logits
  {
    var r := e.s.requests[w.id];
    var sample := Draw(m, e, w.id, logits[w.id], r.prompt + r.generated);
    CommitDecodeItem(m, e, w, logits) ==
      Record(Drawn(e, w.id).(s := Commit(e.s.(inflight := e.s.inflight - {w.id}), w.id, sample.token, sample.stopped)), w.id, sample)
  }

  lemma RunningHasKeys(e: Engine, id: Id)
    requires SchedInv(e.s) && KeysOk(e) && id in e.s.inflight
    ensures id in e.s.requests && Live(e.s.requests[id]) && id in e.samplers && id in e.events
  {
    hide PoolInv;
    hide QueuesOk;
    hide RequestsOk;
    hide ReservedOk;
  }

  lemma CommittedStays(s: Sched, id: Id, token: Token, stopped: bool)
    requires id in s.requests
    ensures id in Commit(s, id, token, stopped).requests
  {
    hide Remove;
    hide Release;
  }

  lemma RecordReturns(e: Engine, id: Id, sample: Sample)
    requires id in e.events && id in e.s.requests
    ensures Record(e, id, sample).1.Returns?
  {
  }

  /** What the commit loops keep, whether or not they stop half way. */
  ghost predicate Committing(e: Engine, e': Engine) {
    && SchedInv(e'.s) && KeysOk(e')
    && e'.s.requests.Keys == e.s.requests.Keys && e'.s.inflight.Keys <= e.s.inflight.Keys
    && e'.cells == e.cells && e'.phase == e.phase
  }

  lemma RecordSame(e: Engine, id: Id, sample: Sample)
    requires KeysOk(e) && id in e.s.requests && e.s.requests[id].state != REJECTED
    ensures Record(e, id, sample).1.Returns?
    ensures Record(e, id, sample).0.s == e.s && KeysOk(Record(e, id, sample).0)
    ensures Record(e, id, sample).0.cells == e.cells && Record(e, id, sample).0.phase == e.phase
    ensures Record(e, id, sample).0.samplers == e.samplers
  {
  }

  lemma DrawnKeys(e: Engine, id: Id, s: Sched)
    requires KeysOk(e) && id in e.samplers && OnlyCommitted(e.s, s, id)
    requires id in e.s.requests && e.s.requests[id].state != REJECTED && s.requests[id].state != REJECTED
    ensures KeysOk(Drawn(e, id).(s := s))
  {
  }

  lemma CommitState(s: Sched, id: Id, token: Token, stopped: bool)
    requires id in s.requests && s.requests[id].state == DECODE
    ensures var s' := Commit(s.(inflight := s.inflight - {id}), id, token, stopped);
      id in s'.requests && s'.requests[id].state in {DECODE, FINISHED} && s'.requests[id].generated != []
  {
  }

  lemma SampledCommitted(s: Sched, s': Sched, id: Id)
    requires Sampled(s) && OnlyCommitted(s, s', id) && id in s'.requests && s'.requests[id].generated != []
    ensures Sampled(s')
  {
  }

  lemma CommitDecodeHead(m: Model, e: Engine, w: DecodeWork, logits: map<Id, Logits>)
    requires SchedInv(e.s) && KeysOk(e) && Sampled(e.s) && PendingDecode(e.s, w)
    ensures var (e1, r) := CommitDecodeItem(m, e, w, logits);
      && Committing(e, e1) && Sampled(e1.s)
      && (r.Returns? ==> OnlyCommitted(e.s, e1.s, w.id))
  {
    hide SchedInv;
    hide KeysOk;
    hide OnlyCommitted;
    hide DecodeItemFits;
    hide Commit;
    hide Record;
    hide Draw;
    CommitDecodeOutcome(m, e, w, logits);
    if w.id in e.s.inflight && w.id in logits {
      var r := e.s.requests[w.id];
      var sample := Draw(m, e, w.id, logits[w.id], r.prompt + r.generated);
      var s := Commit(e.s.(inflight := e.s.inflight - {w.id}), w.id, sample.token, sample.stopped);
      CommitKeeps(e.s, w.id, sample.token, sample.stopped);
      CommitOnly(e.s, w.id, sample.token, sample.stopped);
      CommitState(e.s, w.id, sample.token, sample.stopped);
      DrawnKeys(e, w.id, s);
      RecordSame(Drawn(e, w.id).(s := s), w.id, sample);
      CommittedInflight(e.s, s, w.id);
      CommittedKeys(e.s, s, w.id);
      SampledCommitted(e.s, s, w.id);
    } else {
      FailedDrawKeys(e, CommitDecodeItem(m, e, w, logits).0);
    }
  }

  lemma CommittedKeys(s: Sched, s': Sched, id: Id)
    requires OnlyCommitted(s, s', id)
    ensures s'.requests.Keys == s.requests.Keys
  {
  }

  lemma FailedDrawKeys(e: Engine, e': Engine)
    requires KeysOk(e) && e' == e.(samplers := e'.samplers) && e'.samplers.Keys == e.samplers.Keys
    ensures KeysOk(e')
  {
  }

  lemma {:induction false} CommitDecodesKeep(m: Model, e: Engine, work: seq<DecodeWork>, prefill: seq<PrefillWork>, logits: map<Id, Logits>)
    requires SchedInv(e.s) && KeysOk(e) && Sampled(e.s) && Pending(e.s, work, prefill)
    ensures var (e', r) := CommitDecodes(m, e, work, logits);
      && Committing(e, e') && Sampled(e'.s)
      && (r.Returns? ==> Pending(e'.s, [], prefill))
    decreases |work|
  {
    hide SchedInv;
    hide KeysOk;
    hide Sampled;
    hide OnlyCommitted;
    hide CommitDecodeItem;
    hide PendingDecode;
    hide PendingPrefill;
    if work != [] {
      assert PendingDecode(e.s, work[0]);
      CommitDecodeHead(m, e, work[0], logits);
      var (e1, r) := CommitDecodeItem(m, e, work[0], logits);
      if r.Returns? {
        PendingDecodeTail(e.s, e1.s, work, prefill);
        CommitDecodesKeep(m, e1, work[1..], prefill, logits);
      }
    }
  }

  lemma CommittingFails(e: Engine, e': Engine, plan: StepPlan, decode: seq<DecodeWork>)
    requires Committing(e, e') && PlanKnown(e.s, plan) && Pending(e.s, decode, plan.prefill)
    requires decode == plan.decode || decode == []
    requires SampledBut(e'.s, PlanIds(plan))
    ensures FailingOk(e'.s, PlanIds(plan))
  {
    hide SchedInv;
    hide KeysOk;
    hide PendingDecode;
    hide PendingPrefill;
  }

  lemma PendingNone(s: Sched)
    requires Pending(s, [], [])
    ensures s.inflight == map[]
  {
    assert forall id :: id !in DecodeIds([]) + PrefillIds([]);
  }

  lemma DecodeCommitStepKeeps(setup: Setup, e: Engine)
    requires EngineInv(e) && e.phase.DecodeReturned?
    ensures EngineInv(DecodeCommitStep(setup, e))
  {
    hide SchedInv;
    hide Pending;
    hide KeysOk;
    var plan := e.phase.plan;
    CommitDecodesKeep(setup.model, e, plan.decode, plan.prefill, e.phase.logits);
    var (e1, r) := CommitDecodes(setup.model, e, plan.decode, e.phase.logits);
    if r.Raises? {
      CommittingFails(e, e1, plan, plan.decode);
    } else if plan.prefill == [] {
      PendingNone(e1.s);
    }
    KeysPhase(e1, DecodeCommitStep(setup, e).phase);
  }

  // ----- prefill commits -----

  lemma PrefillCompleted(s: Sched, w: PrefillWork)
    requires SchedInv(s) && PendingPrefill(s, w)
    ensures CompletePrefill(s, w.id, |w.tokens|).1.Returns? <==> w.id in s.inflight
    ensures CompletePrefill(s, w.id, |w.tokens|).1.Raises? ==> CompletePrefill(s, w.id, |w.tokens|).0 == s
    ensures w.id in s.inflight ==>
      var (s', r) := CompletePrefill(s, w.id, |w.tokens|);
      && OnlyCommitted(s, s', w.id) && w.id in s'.requests
      && s'.requests[w.id] == s.requests[w.id].(cursor := s.requests[w.id].cursor + |w.tokens|,
                                               state := if r.value then DECODE else PREFILL)
      && s.requests[w.id].state == PREFILL && s.requests[w.id].generated == [] && w.id in s'.pool.requests
  {
    hide SchedInv;
    hide PrefillItemFits;
    hide Remove;
    if w.id in s.inflight { ItemRuns(s, w); }
  }

  /** A chunk in flight is one that `complete_prefill` accepts. */
  lemma ItemRuns(s: Sched, w: PrefillWork)
    requires SchedInv(s) && PrefillItemOk(s, w)
    ensures 0 < |w.tokens| <= s.requests[w.id].RemainingPrompt()
    ensures s.requests[w.id].generated == []
  {
    hide PoolInv;
    hide QueuesOk;
    hide ReservedOk;
    hide SlotsAre;
    assert RequestOk(s.requests[w.id], s.pool.requests[w.id].length, Get(s.inflight, w.id));
  }

  /** Committing a prefill item: the last chunk also commits the first sampled token. */
  lemma CommitPrefillOutcome(m: Model, e: Engine, w: PrefillWork, logits: map<Id, Logits>)
    requires SchedInv(e.s) && KeysOk(e) && PendingPrefill(e.s, w)
    ensures w.id !in e.s.inflight ==> CommitPrefillItem(m, e, w, logits).1.Raises? && CommitPrefillItem(m, e, w, logits).0 == e
    ensures w.id in e.s.inflight ==> w.id in e.samplers && PrefillItemDone(m, e, w, logits)
  {
    hide SchedInv;
    hide KeysOk;
    hide Commit;
    hide Record;
    hide CompletePrefill;
    hide PrefillItemFits;
    hide OnlyCommitted;
    PrefillCompleted(e.s, w);
    if w.id in e.s.inflight { RunningHasKeys(e, w.id); }
    CompletedReady(e.s, w);
  }

  /** A completed prompt is ready for its first sample. */
  lemma CompletedReady(s: Sched, w: PrefillWork)
    requires SchedInv(s) && PendingPrefill(s, w)
    ensures var (s', r) := CompletePrefill(s, w.id, |w.tokens|);
      r.Returns? ==> w.id in s'.requests && w.id !in s'.inflight && s'.requests[w.id].generated == []
                     && (r.value ==> s'.requests[w.id].state == DECODE)
  {
    hide SchedInv;
    hide CompletePrefill;
    hide PrefillItemFits;
    PrefillCompleted(s, w);
    if w.id in s.inflight {
      CommittedInflight(s, CompletePrefill(s, w.id, |w.tokens|).0, w.id);
    }
  }

  ghost predicate PrefillItemDone(m: Model, e: Engine, w: PrefillWork, logits: map<Id, Logits>)
    requires w.id in e.samplers
  {
    var (s, last) := CompletePrefill(e.s, w.id, |w.tokens|);
    && last.Returns? && w.id in s.requests
    && (!last.value ==> CommitPrefillItem(m, e, w, logits) == (e.(s := s), Returns(())))
    && (last.value && w.id !in logits ==> CommitPrefillItem(m, e, w, logits) == (e.(s := s), Raises(RuntimeError)))
    && (last.value && w.id in logits ==>
          var sample := Draw(m, e, w.id, logits[w.id], s.requests[w.id].prompt);
          CommitPrefillItem(m, e, w, logits) ==
            Record(Drawn(e, w.id).(s := Commit(s, w.id, sample.token, sample.stopped)), w.id, sample))
  }

  lemma OnlyCommittedTwice(s: Sched, s1: Sched, s2: Sched, id: Id)
    requires OnlyCommitted(s, s1, id) && OnlyCommitted(s1, s2, id) && id in s1.pool.requests
    ensures OnlyCommitted(s, s2, id)
  {
  }

  lemma CommitPrefillHead(m: Model, e: Engine, w: PrefillWork, logits: map<Id, Logits>)
    requires SchedInv(e.s) && KeysOk(e) && Sampled(e.s) && PendingPrefill(e.s, w)
    ensures var (e1, r) := CommitPrefillItem(m, e, w, logits);
      && Committing(e, e1) && SampledBut(e1.s, [w.id])
      && (r.Returns? ==> Sampled(e1.s) && OnlyCommitted(e.s, e1.s, w.id))
  {
    hide SchedInv;
    hide KeysOk;
    hide OnlyCommitted;
    hide PrefillItemFits;
    hide Commit;
    hide CompletePrefill;
    hide Record;
    hide Draw;
    CommitPrefillOutcome(m, e, w, logits);
    if w.id in e.s.inflight {
      PrefillCompleted(e.s, w);
      CompletePrefillKeeps(e.s, w.id, |w.tokens|);
      var (s, last) := CompletePrefill(e.s, w.id, |w.tokens|);
      CommittedInflight(e.s, s, w.id);
      CommittedKeys(e.s, s, w.id);
      SampledOthers(e.s, s, w.id);
      KeysCommitted(e, s, w.id);
      if last.value && w.id in logits {
        CommitFirst(m, e, w, logits[w.id], s);
      }
    }
  }

  lemma SampledOthers(s: Sched, s': Sched, id: Id)
    requires Sampled(s) && OnlyCommitted(s, s', id) && id in s'.requests
    ensures SampledBut(s', [id])
    ensures s'.requests[id].state == PREFILL ==> Sampled(s')
  {
  }

  lemma KeysCommitted(e: Engine, s: Sched, id: Id)
    requires KeysOk(e) && OnlyCommitted(e.s, s, id) && id in e.s.requests && e.s.requests[id].state != REJECTED
    ensures KeysOk(e.(s := s))
  {
  }

  /** The first token of a request whose prompt is complete. */
  lemma CommitFirst(m: Model, e: Engine, w: PrefillWork, row: Logits, s: Sched)
    requires SchedInv(s) && KeysOk(e) && Sampled(e.s) && OnlyCommitted(e.s, s, w.id)
    requires w.id in e.samplers && w.id in e.s.requests && w.id in s.requests && w.id in s.pool.requests
    requires s.requests[w.id].state == DECODE && s.requests[w.id].generated == [] && e.s.requests[w.id].state == PREFILL
    ensures var sample := Draw(m, e, w.id, row, s.requests[w.id].prompt);
      var (e1, r) := Record(Drawn(e, w.id).(s := Commit(s, w.id, sample.token, sample.stopped)), w.id, sample);
      r.Returns? && Committing(e, e1) && Sampled(e1.s) && OnlyCommitted(e.s, e1.s, w.id)
  {
    hide SchedInv;
    hide KeysOk;
    hide OnlyCommitted;
    hide Commit;
    hide Record;
    hide Draw;
    var sample := Draw(m, e, w.id, row, s.requests[w.id].prompt);
    CommittedInflight(e.s, s, w.id);
    assert s.(inflight := s.inflight - {w.id}) == s;
    CommitKeeps(s, w.id, sample.token, sample.stopped);
    CommitOnly(s, w.id, sample.token, sample.stopped);
    CommitState(s, w.id, sample.token, sample.stopped);
    var s2 := Commit(s, w.id, sample.token, sample.stopped);
    OnlyCommittedTwice(e.s, s, s2, w.id);
    DrawnKeys(e, w.id, s2);
    RecordSame(Drawn(e, w.id).(s := s2), w.id, sample);
    CommittedInflight(e.s, s2, w.id);
    CommittedKeys(e.s, s2, w.id);
    SampledCommitted(e.s, s2, w.id);
  }

  lemma {:induction false} CommitPrefillsKeep(m: Model, e: Engine, work: seq<PrefillWork>, logits: map<Id, Logits>, ids: seq<Id>)
    requires SchedInv(e.s) && KeysOk(e) && Sampled(e.s) && Pending(e.s, [], work)
    requires forall w :: w in work ==> w.id in ids
    ensures var (e', r) := CommitPrefills(m, e, work, logits);
      && Committing(e, e') && SampledBut(e'.s, ids)
      && (r.Returns? ==> Sampled(e'.s) && e'.s.inflight == map[])
    decreases |work|
  {
    hide SchedInv;
    hide KeysOk;
    hide OnlyCommitted;
    hide CommitPrefillItem;
    hide PendingPrefill;
    if work != [] {
      assert PendingPrefill(e.s, work[0]);
      CommitPrefillHead(m, e, work[0], logits);
      var (e1, r) := CommitPrefillItem(m, e, work[0], logits);
      assert work[0].id in ids;
      if r.Returns? {
        PendingPrefillTail(e.s, e1.s, work);
        CommitPrefillsKeep(m, e1, work[1..], logits, ids);
      }
    } else {
      PendingNone(e.s);
    }
  }

  lemma PrefillCommitStepKeeps(setup: Setup, e: Engine)
    requires EngineInv(e) && e.phase.PrefillReturned?
    ensures EngineInv(PrefillCommitStep(setup, e))
  {
    hide SchedInv;
    hide Pending;
    hide KeysOk;
    var plan := e.phase.plan;
    forall w | w in plan.prefill
      ensures w.id in PlanIds(plan)
    {
      var i :| 0 <= i < |plan.prefill| && plan.prefill[i] == w;
      assert PrefillIds(plan.prefill)[i] == w.id;
    }
    CommitPrefillsKeep(setup.model, e, plan.prefill, e.phase.logits, PlanIds(plan));
    var (e1, r) := CommitPrefills(setup.model, e, plan.prefill, e.phase.logits);
    if r.Raises? {
      CommittingFails(e, e1, plan, []);
    }
    KeysPhase(e1, PrefillCommitStep(setup, e).phase);
  }

  // ----- error cleanup -----

  lemma FailOneKeeps(e: Engine, id: Id)
    requires SchedInv(e.s) && KeysOk(e)
    ensures SchedInv(FailOne(e, id).s) && KeysOk(FailOne(e, id))
    ensures id !in FailOne(e, id).s.inflight
  {
    hide SchedInv;
    hide KeysOk;
    hide OwnersOk;
    InflightOwned(e.s);
    if id in e.s.requests && !e.s.requests[id].Finished() {
      TerminateKeeps(e.s, id, FAILED);
      TerminateKeys(e, id, FailOne(e, id));
    } else {
      FinishedIdle(e.s, id);
    }
  }

  lemma TerminateKeys(e: Engine, id: Id, e': Engine)
    requires KeysOk(e) && id in e.s.requests && e'.s.requests.Keys == e.s.requests.Keys
    requires forall i :: i in e.s.requests && i != id ==> e'.s.requests[i] == e.s.requests[i]
    requires e.s.requests[id].state != REJECTED
    requires e'.samplers == e.samplers && e'.caches == e.caches - {id} && e'.events.Keys == e.events.Keys
    ensures KeysOk(e')
  {
  }

  lemma FinishedIdle(s: Sched, id: Id)
    requires OwnersOk(s) && (id in s.requests ==> s.requests[id].Finished())
    ensures id !in s.inflight
  {
  }

  lemma {:induction false} FailAllKeeps(e: Engine, ids: seq<Id>)
    requires SchedInv(e.s) && KeysOk(e) && SampledBut(e.s, ids) && (forall id :: id in e.s.inflight ==> id in ids)
    requires forall id :: id in ids ==> id in e.s.requests
    ensures var e' := FailAll(e, ids);
      SchedInv(e'.s) && KeysOk(e') && Sampled(e'.s) && e'.s.inflight == map[]
    decreases |ids|
  {
    hide SchedInv;
    hide KeysOk;
    hide FailOne;
    hide SampledBut;
    if ids != [] {
      FailOneKeeps(e, ids[0]);
      FailOneRest(e, ids);
      FailAllKeeps(FailOne(e, ids[0]), ids[1..]);
    } else {
      SampledButNone(e.s);
    }
  }

  lemma SampledButNone(s: Sched)
    requires SampledBut(s, [])
    ensures Sampled(s)
  {
  }

  lemma FailOneRest(e: Engine, ids: seq<Id>)
    requires ids != [] && ids[0] in e.s.requests && SampledBut(e.s, ids) && ids[0] !in FailOne(e, ids[0]).s.inflight
    requires forall id :: id in e.s.inflight ==> id in ids
    ensures FailOne(e, ids[0]).s.requests.Keys == e.s.requests.Keys && SampledBut(FailOne(e, ids[0]).s, ids[1..])
    ensures forall id :: id in FailOne(e, ids[0]).s.inflight ==> id in ids[1..]
  {
    assert forall id :: id in ids <==> id == ids[0] || id in ids[1..];
  }

  lemma CleanupStepKeeps(e: Engine)
    requires EngineInv(e) && e.phase.Failing?
    ensures EngineInv(CleanupStep(e))
  {
    hide SchedInv;
    hide KeysOk;
    FailAllKeeps(e, PlanIds(e.phase.plan));
    KeysPhase(FailAll(e, PlanIds(e.phase.plan)), Idle);
  }

  // ----- every action, every run -----

  ghost function Start(numBlocks: nat, blockSize: nat, cells: Cells): Engine {
    Engine(EmptySched(numBlocks, blockSize), cells, map[], map[], map[], Metrics(0, 0, 0, 0, 0, 0, 0, 0), Idle)
  }

  lemma StartInv(numBlocks: nat, blockSize: nat, cells: Cells)
    requires blockSize > 0
    ensures EngineInv(Start(numBlocks, blockSize, cells))
  {
    EmptySchedInv(numBlocks, blockSize);
    hide SchedInv;
  }

  lemma StepKeeps(setup: Setup, e: Engine, a: Action)
    requires EngineInv(e) && setup.limits.Valid()
    ensures e.s.pool.blockSize > 0 && EngineInv(Step(setup, e, a))
  {
    hide SchedInv;
    hide PhaseInv;
    hide KeysOk;
    InflightOwned(e.s);
    match a
    case SubmitAction(sub, now) => SubmitStepKeeps(e, sub, now);
    case CancelAction(id) => CancelStepKeeps(e, id);
    case BeginAction(now, planNow) => if e.phase.Idle? { BeginStepKeeps(setup, e, now, planNow); }
    case DecodeExecAction(fault, omit) => if e.phase.DecodePending? { DecodeExecStepKeeps(setup, e, fault, omit); }
    case DecodeCommitAction => if e.phase.DecodeReturned? { DecodeCommitStepKeeps(setup, e); }
    case PrefillExecAction(fail, junk, omit) => if e.phase.PrefillPending? { PrefillExecStepKeeps(setup, e, fail, junk, omit); }
    case PrefillCommitAction => if e.phase.PrefillReturned? { PrefillCommitStepKeeps(setup, e); }
    case CleanupAction => if e.phase.Failing? { CleanupStepKeeps(e); }
  }
}
