/** The executor's prefill caches: exactly when a prefill call goes through, and exactly which
    finished requests keep a cache that nothing will ever release. */
module PrefillCaches {
  import opened Basics
  import opened PagedKV
  import opened PagedStorage
  import opened Scheduler
  import opened SchedulerInvariant
  import opened PlanInvariant
  import opened Executor
  import opened Engine
  import opened EngineInvariant
  import opened Alone
  import opened Refinement
  import opened RefinementExec
  import opened RefinementPrefill
  import opened ContinuousBatching
  import opened Evolution
  import opened Endings
  import opened InterleavingSafety

  // ----- one prefill call -----

  /** The cache of the request ends where the chunk begins, and the chunk has a slot per token. */
  predicate Fits(caches: Caches, w: PrefillWork) {
    w.tokens != [] && |w.slots| == |w.tokens| && |CacheOf(caches, w.id)| == w.start
  }

  predicate AllFit(caches: Caches, work: seq<PrefillWork>, n: nat)
    requires n <= |work|
  {
    forall j :: 0 <= j < n ==> Fits(caches, work[j])
  }

  /** The forward pass of item `i` comes to its end: its cache is kept, whatever happens next. */
  predicate Stores(caches: Caches, work: seq<PrefillWork>, fault: Option<nat>, i: nat) {
    i < |work| && (fault.Some? ==> i < fault.value) && AllFit(caches, work, i)
  }

  /** The call keeps a cache for request `id`. */
  predicate StoresFor(caches: Caches, work: seq<PrefillWork>, fault: Option<nat>, id: Id) {
    exists i :: 0 <= i < |work| && work[i].id == id && Stores(caches, work, fault, i)
  }

  lemma FitsTail(caches: Caches, c: Caches, work: seq<PrefillWork>, fault: Option<nat>)
    requires work != [] && NoDup(PrefillIds(work)) && fault != Some(0) && Fits(caches, work[0])
    requires forall id :: id != work[0].id ==> Get(c, id) == Get(caches, id)
    ensures AllFit(caches, work, |work|) <==> AllFit(c, work[1..], |work| - 1)
    ensures forall i: nat :: 0 < i ==> (Stores(caches, work, fault, i) <==> Stores(c, work[1..], NextFault(fault), i - 1))
  {
    forall j | 0 < j < |work|
      ensures Fits(caches, work[j]) <==> Fits(c, work[1..][j - 1])
    {
      assert PrefillIds(work)[0] != PrefillIds(work)[j];
      assert Get(c, work[j].id) == Get(caches, work[j].id);
    }
    forall n | 0 < n <= |work|
      ensures AllFit(caches, work, n) <==> AllFit(c, work[1..], n - 1)
    {
      AllFitTail(caches, c, work, n);
    }
  }

  lemma AllFitTail(caches: Caches, c: Caches, work: seq<PrefillWork>, n: nat)
    requires 0 < n <= |work| && Fits(caches, work[0])
    requires forall j :: 0 < j < |work| ==> (Fits(caches, work[j]) <==> Fits(c, work[1..][j - 1]))
    ensures AllFit(caches, work, n) <==> AllFit(c, work[1..], n - 1)
  {
    hide Fits;
    if AllFit(c, work[1..], n - 1) {
      forall j | 0 < j < n
        ensures Fits(caches, work[j])
      {
        assert Fits(c, work[1..][j - 1]);
      }
    }
    if AllFit(caches, work, n) {
      forall j | 0 <= j < n - 1
        ensures Fits(c, work[1..][j])
      {
        assert Fits(caches, work[j + 1]);
      }
    }
  }

  /** A call returns if and only if no forward pass raises and every item fits; either way it
      leaves a cache for exactly the items it went through, beside those that were there. */
  lemma {:induction false} CallCaches(m: Model, c: Call, work: seq<PrefillWork>, fault: Option<nat>, junk: map<Slot, KV>, id: Id)
    requires NoDup(PrefillIds(work))
    ensures var r := Run(m, c, work, fault, junk);
      && (r.2.Returns? <==> (fault.Some? ==> fault.value >= |work|) && AllFit(c.caches, work, |work|))
      && (id in r.1 <==> id in c.caches || StoresFor(c.caches, work, fault, id))
    decreases |work|
  {
    hide Run;
    hide Fits;
    hide AllFit;
    hide StoresFor;
    hide NoDup;
    if work == [] {
      RunNone(m, c, fault, junk);
      NothingStored(c.caches, fault, id);
    } else {
      RunFirst(m, c, work, fault, junk);
      if GoesOn(c, work[0], fault) {
        FitsFirst(c, work[0], fault);
        var c1 := AfterItem(m, c, work[0]);
        assert PrefillIds(work) == [work[0].id] + PrefillIds(work[1..]);
        NoDupTail(work[0].id, PrefillIds(work[1..]));
        FitsTail(c.caches, c1.caches, work, fault);
        CallCaches(m, c1, work[1..], NextFault(fault), junk, id);
        StoresTail(c.caches, c1.caches, work, fault, id);
      } else {
        NotFirst(c, work, fault, id);
      }
    }
  }

  lemma NothingStored(caches: Caches, fault: Option<nat>, id: Id)
    ensures AllFit(caches, [], 0) && !StoresFor(caches, [], fault, id)
  {
  }

  lemma FitsFirst(c: Call, w: PrefillWork, fault: Option<nat>)
    ensures GoesOn(c, w, fault) <==> fault != Some(0) && Fits(c.caches, w)
  {
  }

  lemma StoresTail(caches: Caches, c: Caches, work: seq<PrefillWork>, fault: Option<nat>, id: Id)
    requires work != [] && fault != Some(0) && c.Keys == caches.Keys + {work[0].id}
    requires forall i: nat :: 0 < i ==> (Stores(caches, work, fault, i) <==> Stores(c, work[1..], NextFault(fault), i - 1))
    ensures id in caches || StoresFor(caches, work, fault, id) <==> id in c || StoresFor(c, work[1..], NextFault(fault), id)
  {
    hide Fits;
    hide NextFault;
    assert Stores(caches, work, fault, 0);
    if i :| 0 <= i < |work| && work[i].id == id && Stores(caches, work, fault, i) {
      if i > 0 { assert Stores(c, work[1..], NextFault(fault), i - 1) && work[1..][i - 1].id == id; }
    }
    if i :| 0 <= i < |work[1..]| && work[1..][i].id == id && Stores(c, work[1..], NextFault(fault), i) {
      assert Stores(caches, work, fault, i + 1) && work[i + 1].id == id;
    }
  }

  lemma NotFirst(c: Call, work: seq<PrefillWork>, fault: Option<nat>, id: Id)
    requires work != [] && !GoesOn(c, work[0], fault)
    ensures (fault.Some? ==> fault.value >= |work|) ==> !AllFit(c.caches, work, |work|)
    ensures StoresFor(c.caches, work, fault, id) <==> fault != Some(0) && id == work[0].id
  {
    hide Fits;
    FitsFirst(c, work[0], fault);
    assert Stores(c.caches, work, fault, 0) <==> fault != Some(0);
    if fault != Some(0) { assert !Fits(c.caches, work[0]); }
  }

  /** The first item: done, or raising before or after its cache is kept. */
  lemma RunFirst(m: Model, c: Call, work: seq<PrefillWork>, fault: Option<nat>, junk: map<Slot, KV>)
    requires work != []
    ensures GoesOn(c, work[0], fault) ==>
      Run(m, c, work, fault, junk) == Run(m, AfterItem(m, c, work[0]), work[1..], NextFault(fault), junk)
    ensures !GoesOn(c, work[0], fault) ==>
      var r := Run(m, c, work, fault, junk);
      && r.2.Raises?
      && r.1.Keys == c.caches.Keys + if fault == Some(0) then {} else {work[0].id}
  {
    hide Extend;
    hide Scatter;
    hide Smudge;
  }

  // ----- what a plan finds when its calls begin -----

  /** The plan that still has executor calls ahead of it. */
  function PlanAhead(phase: Phase): Option<StepPlan> {
    match phase
    case DecodePending(plan, _) => Some(plan)
    case DecodeReturned(plan, _) => Some(plan)
    case PrefillPending(plan) => Some(plan)
    case _ => None
  }

  /** A planned request that ended meanwhile has lost its cache, and every chunk has its slots. */
  ghost predicate FreshPlan(e: Engine) {
    PlanAhead(e.phase).Some? ==>
      var plan := PlanAhead(e.phase).value;
      && (forall id :: id in PlanIds(plan) && id in e.s.requests && e.s.requests[id].Finished() ==> id !in e.caches)
      && (forall i :: 0 <= i < |plan.prefill| ==> ShapeOk(plan.prefill[i]))
  }

  predicate ShapeOk(w: PrefillWork) {
    w.tokens != [] && |w.slots| == |w.tokens|
  }

  lemma PlannedAreLive(l: Limits, s: Sched, plan: StepPlan)
    requires PlanOk(l, s, plan)
    ensures forall id :: id in PlanIds(plan) && id in s.requests ==> !s.requests[id].Finished()
    ensures forall i :: 0 <= i < |plan.prefill| ==> ShapeOk(plan.prefill[i])
  {
    hide SchedInv;
    hide DecodeItemOk;
    hide PrefillItemOk;
    hide ShapeOk;
    hide NoDup;
    hide Chunked;
    forall i | 0 <= i < |plan.decode|
      ensures LiveIn(s, plan.decode[i].id)
    {
      DecodeItemLive(s, plan.decode[i]);
    }
    forall i | 0 <= i < |plan.prefill|
      ensures LiveIn(s, plan.prefill[i].id) && ShapeOk(plan.prefill[i])
    {
      PrefillItemLive(s, plan.prefill[i]);
    }
    forall id | id in PlanIds(plan)
      ensures LiveIn(s, id)
    {
      var k :| 0 <= k < |PlanIds(plan)| && PlanIds(plan)[k] == id;
      assert id == if k < |plan.decode| then plan.decode[k].id else plan.prefill[k - |plan.decode|].id;
    }
  }

  ghost predicate LiveIn(s: Sched, id: Id) {
    id in s.requests && !s.requests[id].Finished()
  }

  lemma DecodeItemLive(s: Sched, w: DecodeWork)
    requires DecodeItemOk(s, w)
    ensures LiveIn(s, w.id)
  {
  }

  lemma PrefillItemLive(s: Sched, w: PrefillWork)
    requires PrefillItemOk(s, w)
    ensures LiveIn(s, w.id) && ShapeOk(w)
  {
  }

  lemma BeginFresh(setup: Setup, e: Engine, now: real, planNow: real)
    requires EngineInv(e) && e.phase.Idle? && setup.limits.Valid()
    ensures e.s.pool.blockSize > 0 && FreshPlan(BeginStep(setup, e, now, planNow))
  {
    hide SchedInv;
    hide KeysOk;
    hide PlanOk;
    hide PlanTurns;
    hide PlanReady;
    hide Plan;
    hide MetadataFor;
    hide TableWidth;
    hide ShapeOk;
    EngineDimensions(e);
    var s1, s2, plan := BeginOutcome(setup, e, now, planNow);
    PlannedAreLive(setup.limits, s2, plan);
  }

  lemma SettledFresh(e: Engine, e': Engine)
    requires FreshPlan(e) && Settled(e, e')
    requires PlanAhead(e'.phase).Some? ==> PlanAhead(e'.phase) == PlanAhead(e.phase)
    ensures FreshPlan(e')
  {
    hide SettledFor;
    if PlanAhead(e'.phase).Some? {
      forall id | id in PlanIds(PlanAhead(e.phase).value) && id in e'.s.requests && e'.s.requests[id].Finished()
        ensures id !in e'.caches
      {
        assert SettledFor(e, e', id);
        SettledCache(e, e', id);
      }
    }
  }

  lemma SettledCache(e: Engine, e': Engine, id: Id)
    requires id in e.s.requests && id in e'.s.requests && SettledFor(e, e', id) && e'.s.requests[id].Finished()
    ensures id in e'.caches <==> e.s.requests[id].Finished() && id in e.caches
  {
  }

  /** A decode call drops caches of its own batch, and nothing else. */
  lemma DecodeExecSame(setup: Setup, e: Engine, fault: Option<map<Slot, KV>>, omit: set<Id>)
    requires e.s.pool.blockSize > 0 && e.phase.DecodePending?
    ensures var e' := DecodeExecStep(setup, e, fault, omit);
      e'.s == e.s && (PlanAhead(e'.phase).Some? ==> PlanAhead(e'.phase) == PlanAhead(e.phase))
    ensures forall id :: id in DecodeExecStep(setup, e, fault, omit).caches ==> id in e.caches
    ensures forall id :: id in e.caches && id !in DecodeIds(e.phase.plan.decode) ==> id in DecodeExecStep(setup, e, fault, omit).caches
  {
    hide DropAndCheck;
    hide SlotError;
    hide TableCovers;
    hide WriteRows;
    hide AttendRows;
    hide Smudge;
    hide DecodeExec;
    DecodeExecShape(setup.model, e.s.pool, e.cells, e.caches, e.phase.plan.decode, e.phase.meta, fault);
    forall id { DropsOnly(e.caches, e.phase.plan.decode, e.phase.meta.lengths, id); }
  }

  lemma DecodeIdsPlanned(plan: StepPlan)
    ensures forall id :: id in DecodeIds(plan.decode) ==> id in PlanIds(plan)
  {
  }

  lemma DecodeExecFresh(setup: Setup, e: Engine, fault: Option<map<Slot, KV>>, omit: set<Id>)
    requires e.s.pool.blockSize > 0 && e.phase.DecodePending? && FreshPlan(e)
    ensures FreshPlan(DecodeExecStep(setup, e, fault, omit))
  {
    hide DecodeExecStep;
    hide ShapeOk;
    DecodeExecSame(setup, e, fault, omit);
  }

  lemma StepFresh(setup: Setup, e: Engine, a: Action)
    requires EngineInv(e) && setup.limits.Valid() && FreshPlan(e)
    ensures e.s.pool.blockSize > 0 && FreshPlan(Step(setup, e, a))
  {
    hide SchedInv;
    hide KeysOk;
    hide Pending;
    hide MetaOk;
    hide Settled;
    hide DecodeExecStep;
    hide BeginStep;
    EngineDimensions(e);
    var e' := Step(setup, e, a);
    if a.SubmitAction? {
      SubmitAdds(e, a.sub, a.now);
    } else if a.BeginAction? && e.phase.Idle? {
      BeginFresh(setup, e, a.now, a.planNow);
    } else if a.DecodeExecAction? && e.phase.DecodePending? {
      DecodeExecFresh(setup, e, a.fault, a.omit);
    } else if Ordinary(e, a) {
      StepSettles(setup, e, a);
      SettledFresh(e, e');
    }
  }

  // ----- when a prefill call goes through -----

  /** Its request is still waiting for it, or has ended and the chunk is its first. */
  predicate Executable(inflight: map<Id, Inflight>, w: PrefillWork) {
    w.id in inflight || w.start == 0
  }

  /** The call keeps a cache for item `i`. */
  predicate Reached(inflight: map<Id, Inflight>, work: seq<PrefillWork>, fail: Option<nat>, i: nat) {
    && i < |work| && (fail.Some? ==> i < fail.value)
    && forall j :: 0 <= j < i ==> Executable(inflight, work[j])
  }

  lemma FitsWhen(m: Model, e: Engine, i: nat)
    requires EngineInv(e) && Meaning(m, e) && FreshPlan(e) && e.phase.PrefillPending? && i < |e.phase.plan.prefill|
    ensures Fits(e.caches, e.phase.plan.prefill[i]) <==> Executable(e.s.inflight, e.phase.plan.prefill[i])
  {
    hide SchedInv;
    hide KeysOk;
    hide Holds;
    hide Context;
    hide PrefillItemFits;
    var w := e.phase.plan.prefill[i];
    assert PendingPrefill(e.s, w) && ShapeOk(w);
    assert PrefillIds(e.phase.plan.prefill)[i] == w.id;
    if w.id in e.s.inflight {
      assert Clean(m, e.s, e.cells, e.caches, w.id);
      ItemStart(e.s, w);
    } else {
      assert w.id in PlanIds(e.phase.plan);
    }
  }

  lemma ItemStart(s: Sched, w: PrefillWork)
    requires PrefillItemOk(s, w)
    ensures w.start == s.requests[w.id].cursor
  {
  }

  /** Without a fault of its own a prefill call returns if and only if no listed request is gone
      that had an earlier chunk. */
  lemma PrefillCallSucceeds(setup: Setup, e: Engine, junk: map<Slot, KV>)
    requires EngineInv(e) && Meaning(setup.model, e) && FreshPlan(e) && e.phase.PrefillPending?
    ensures PrefillExec(setup.model, e.cells, e.caches, map[], e.phase.plan.prefill, None, junk).2.Returns? <==>
      forall i :: 0 <= i < |e.phase.plan.prefill| ==> Executable(e.s.inflight, e.phase.plan.prefill[i])
  {
    hide EngineInv;
    hide Meaning;
    hide FreshPlan;
    hide Fits;
    hide Executable;
    hide PrefillExec;
    var work := e.phase.plan.prefill;
    PrefillDistinct(e);
    forall i: nat | i < |work|
      ensures Fits(e.caches, work[i]) <==> Executable(e.s.inflight, work[i])
    {
      FitsWhen(setup.model, e, i);
    }
    CallCaches(setup.model, Call(e.cells, e.caches, map[]), work, None, junk, "");
  }

  // ----- caches of finished requests -----

  /** Finished requests that still have a prefill cache. */
  ghost function Leftover(e: Engine): set<Id> {
    set id | id in e.caches && id in e.s.requests && e.s.requests[id].Finished()
  }

  /** The requests of which an action leaves a cache behind: those that fall due between the two
      expiries of a beginning step, and those gone before a prefill call that reaches them. */
  ghost function NewlyLeft(e: Engine, a: Action): set<Id> {
    if a.BeginAction? && e.phase.Idle?
    then set id | id in e.caches && id in e.s.requests && Missed(e.s.requests[id], a.now, a.planNow)
    else if a.PrefillExecAction? && e.phase.PrefillPending?
    then
      var work := e.phase.plan.prefill;
      set i | 0 <= i < |work| && work[i].id !in e.s.inflight && Reached(e.s.inflight, work, a.fail, i) :: work[i].id
    else {}
  }

  lemma SubmitLeaves(e: Engine, sub: Submission, now: real)
    requires EngineInv(e)
    ensures e.s.pool.blockSize > 0 && Leftover(SubmitStep(e, sub, now)) == Leftover(e)
  {
    hide SchedInv;
    hide PhaseInv;
    hide SubmitStep;
    SubmitAdds(e, sub, now);
  }

  lemma BeginLeaves(setup: Setup, e: Engine, now: real, planNow: real)
    requires EngineInv(e) && e.phase.Idle? && setup.limits.Valid()
    ensures e.s.pool.blockSize > 0
    ensures Leftover(BeginStep(setup, e, now, planNow)) == Leftover(e) + NewlyLeft(e, BeginAction(now, planNow))
  {
    hide EngineInv;
    hide BeginStep;
    hide BegunFor;
    BeginFrame(setup, e, now, planNow);
    BeginCaches(setup, e, now, planNow);
    var e' := BeginStep(setup, e, now, planNow);
    forall id | id in e.s.requests
      ensures id in Leftover(e') <==> id in Leftover(e) || id in NewlyLeft(e, BeginAction(now, planNow))
    {
      BegunLeaves(e, e', now, planNow, id);
    }
  }

  lemma BeginCaches(setup: Setup, e: Engine, now: real, planNow: real)
    requires EngineInv(e) && e.phase.Idle? && setup.limits.Valid()
    ensures e.s.pool.blockSize > 0
    ensures forall id :: id in BeginStep(setup, e, now, planNow).caches ==> id in e.s.requests
  {
    hide SchedInv;
    hide PhaseInv;
    BeginStepKeeps(setup, e, now, planNow);
    BeginKeys(setup, e, now, planNow);
  }

  lemma BegunLeaves(e: Engine, e': Engine, now: real, planNow: real, id: Id)
    requires id in e.s.requests && BegunFor(e, e', now, planNow, id)
    ensures id in e'.caches && e'.s.requests[id].Finished() <==>
      id in e.caches && (e.s.requests[id].Finished() || Missed(e.s.requests[id], now, planNow))
  {
  }

  lemma DecodeExecLeaves(setup: Setup, e: Engine, fault: Option<map<Slot, KV>>, omit: set<Id>)
    requires EngineInv(e) && e.phase.DecodePending? && FreshPlan(e)
    ensures e.s.pool.blockSize > 0 && Leftover(DecodeExecStep(setup, e, fault, omit)) == Leftover(e)
  {
    hide EngineInv;
    hide DecodeExecStep;
    hide ShapeOk;
    EngineDimensions(e);
    DecodeExecSame(setup, e, fault, omit);
    DecodeIdsPlanned(e.phase.plan);
  }

  lemma PrefillExecLeaves(setup: Setup, e: Engine, fail: Option<nat>, junk: map<Slot, KV>, omit: set<Id>, id: Id)
    requires EngineInv(e) && Meaning(setup.model, e) && FreshPlan(e) && e.phase.PrefillPending?
    ensures id in Leftover(PrefillExecStep(setup, e, fail, junk, omit)) <==>
      id in Leftover(e) || id in NewlyLeft(e, PrefillExecAction(fail, junk, omit))
  {
    hide EngineInv;
    hide Meaning;
    hide FreshPlan;
    hide Stores;
    hide Reached;
    hide PrefillExec;
    var work := e.phase.plan.prefill;
    PrefillDistinct(e);
    CallCaches(setup.model, Call(e.cells, e.caches, map[]), work, fail, junk, id);
    StoresReached(setup.model, e, fail);
    LeftByCall(e, PrefillExecStep(setup, e, fail, junk, omit), PrefillExecAction(fail, junk, omit), id);
  }

  lemma LeftByCall(e: Engine, e': Engine, a: Action, id: Id)
    requires e.phase.PrefillPending? && a.PrefillExecAction? && e'.s == e.s
    requires forall i :: 0 <= i < |e.phase.plan.prefill| ==> ItemState(e.s, e.phase.plan.prefill[i])
    requires id in e'.caches <==> id in e.caches || StoresFor(e.caches, e.phase.plan.prefill, a.fail, id)
    requires forall i: nat ::
      Stores(e.caches, e.phase.plan.prefill, a.fail, i) <==> Reached(e.s.inflight, e.phase.plan.prefill, a.fail, i)
    ensures id in Leftover(e') <==> id in Leftover(e) || id in NewlyLeft(e, a)
  {
    hide Stores;
    hide Reached;
    var work := e.phase.plan.prefill;
    if i :| 0 <= i < |work| && work[i].id == id && Stores(e.caches, work, a.fail, i) {
      assert ItemState(e.s, work[i]);
    }
  }

  lemma PrefillDistinct(e: Engine)
    requires EngineInv(e) && e.phase.PrefillPending?
    ensures NoDup(PrefillIds(e.phase.plan.prefill))
    ensures forall i :: 0 <= i < |e.phase.plan.prefill| ==> ItemState(e.s, e.phase.plan.prefill[i])
  {
    hide SchedInv;
    hide KeysOk;
    hide Pending;
    hide NoDup;
    hide ItemState;
    PendingDistinct(e.s, e.phase.plan.prefill);
    forall i: nat | i < |e.phase.plan.prefill|
      ensures ItemState(e.s, e.phase.plan.prefill[i])
    {
      ItemGone(e.s, e.phase.plan.prefill, i);
    }
  }

  lemma PendingDistinct(s: Sched, work: seq<PrefillWork>)
    requires Pending(s, [], work)
    ensures NoDup(PrefillIds(work))
  {
    assert DecodeIds([]) + PrefillIds(work) == PrefillIds(work);
  }

  lemma StoresReached(m: Model, e: Engine, fail: Option<nat>)
    requires EngineInv(e) && Meaning(m, e) && FreshPlan(e) && e.phase.PrefillPending?
    ensures forall i: nat ::
      Stores(e.caches, e.phase.plan.prefill, fail, i) <==> Reached(e.s.inflight, e.phase.plan.prefill, fail, i)
  {
    hide EngineInv;
    hide Meaning;
    hide FreshPlan;
    hide Fits;
    hide Executable;
    var work := e.phase.plan.prefill;
    forall i: nat | i < |work|
      ensures Fits(e.caches, work[i]) <==> Executable(e.s.inflight, work[i])
    {
      FitsWhen(m, e, i);
    }
  }

  /** Its request is in flight or has ended. */
  ghost predicate ItemState(s: Sched, w: PrefillWork) {
    w.id in s.requests && (w.id !in s.inflight <==> s.requests[w.id].Finished())
  }

  /** Releasing on a terminal event does not free an executor of a request's temporary state for
      good: a planned request that ended before its prefill call has a cache again if and only if
      the call, whether it returns or raises, reaches its chunk. */
  lemma CancelledPrefillCached(setup: Setup, e: Engine, fail: Option<nat>, junk: map<Slot, KV>, omit: set<Id>, i: nat)
    requires EngineInv(e) && Meaning(setup.model, e) && FreshPlan(e)
    requires e.phase.PrefillPending? && i < |e.phase.plan.prefill| && e.phase.plan.prefill[i].id !in e.s.inflight
    ensures var w := e.phase.plan.prefill[i];
      var e' := PrefillExecStep(setup, e, fail, junk, omit);
      && w.id in e'.s.requests && e'.s.requests[w.id].Finished() && w.id !in e.caches
      && (w.id in e'.caches <==> Reached(e.s.inflight, e.phase.plan.prefill, fail, i))
  {
    hide SchedInv;
    hide KeysOk;
    hide Meaning;
    hide FreshPlan;
    hide Reached;
    hide PendingPrefill;
    hide PrefillExecStep;
    hide Leftover;
    hide NewlyLeft;
    ItemGone(e.s, e.phase.plan.prefill, i);
    ItemUncached(e, i);
    PrefillExecSame(setup, e, fail, junk, omit);
    PrefillExecLeaves(setup, e, fail, junk, omit, e.phase.plan.prefill[i].id);
    LeftIfReached(e, fail, junk, omit, i);
    InLeftover(e, e.phase.plan.prefill[i].id);
    InLeftover(PrefillExecStep(setup, e, fail, junk, omit), e.phase.plan.prefill[i].id);
  }

  lemma InLeftover(e: Engine, id: Id)
    ensures id in Leftover(e) <==> id in e.caches && id in e.s.requests && e.s.requests[id].Finished()
  {
  }

  lemma PrefillExecSame(setup: Setup, e: Engine, fail: Option<nat>, junk: map<Slot, KV>, omit: set<Id>)
    requires e.phase.PrefillPending?
    ensures PrefillExecStep(setup, e, fail, junk, omit).s == e.s
  {
  }

  lemma ItemUncached(e: Engine, i: nat)
    requires FreshPlan(e) && e.phase.PrefillPending? && i < |e.phase.plan.prefill|
    requires e.phase.plan.prefill[i].id in e.s.requests && e.s.requests[e.phase.plan.prefill[i].id].Finished()
    ensures e.phase.plan.prefill[i].id !in e.caches
  {
    assert PrefillIds(e.phase.plan.prefill)[i] == e.phase.plan.prefill[i].id;
  }

  lemma LeftIfReached(e: Engine, fail: Option<nat>, junk: map<Slot, KV>, omit: set<Id>, i: nat)
    requires e.phase.PrefillPending? && Pending(e.s, [], e.phase.plan.prefill) && i < |e.phase.plan.prefill|
    requires e.phase.plan.prefill[i].id !in e.s.inflight
    ensures e.phase.plan.prefill[i].id in NewlyLeft(e, PrefillExecAction(fail, junk, omit)) <==>
      Reached(e.s.inflight, e.phase.plan.prefill, fail, i)
  {
    hide Reached;
    hide PendingPrefill;
    var work := e.phase.plan.prefill;
    forall j | 0 <= j < |work| && j != i
      ensures work[j].id != work[i].id
    {
      assert (DecodeIds([]) + PrefillIds(work))[j] == work[j].id && (DecodeIds([]) + PrefillIds(work))[i] == work[i].id;
    }
  }

  lemma ItemGone(s: Sched, work: seq<PrefillWork>, i: nat)
    requires SchedInv(s) && Pending(s, [], work) && i < |work|
    ensures ItemState(s, work[i])
  {
    hide SchedInv;
    hide PrefillItemFits;
    assert PendingPrefill(s, work[i]);
  }

  lemma SettledLeaves(e: Engine, e': Engine)
    requires KeysOk(e) && Settled(e, e')
    ensures Leftover(e') == Leftover(e)
  {
    hide SettledFor;
    forall id | id in e.s.requests
      ensures id in Leftover(e') <==> id in Leftover(e)
    {
      assert SettledFor(e, e', id);
      SettledLeft(e, e', id);
    }
  }

  lemma SettledLeft(e: Engine, e': Engine, id: Id)
    requires id in e.s.requests && id in e'.s.requests && SettledFor(e, e', id)
    ensures id in e'.caches && e'.s.requests[id].Finished() <==> id in e.caches && e.s.requests[id].Finished()
  {
  }

  /** No action but those two leaves a cache of a finished request behind, and none ever removes
      one. */
  lemma StepLeaves(setup: Setup, e: Engine, a: Action)
    requires EngineInv(e) && setup.limits.Valid() && Meaning(setup.model, e) && FreshPlan(e)
    ensures e.s.pool.blockSize > 0
    ensures Leftover(Step(setup, e, a)) == Leftover(e) + NewlyLeft(e, a)
  {
    hide Meaning;
    hide SchedInv;
    hide PhaseInv;
    hide KeysOk;
    hide FreshPlan;
    hide Leftover;
    EngineDimensions(e);
    if a.SubmitAction? {
      SubmitLeaves(e, a.sub, a.now);
    } else if a.BeginAction? && e.phase.Idle? {
      BeginLeaves(setup, e, a.now, a.planNow);
    } else if a.DecodeExecAction? && e.phase.DecodePending? {
      DecodeExecLeaves(setup, e, a.fault, a.omit);
    } else if a.PrefillExecAction? && e.phase.PrefillPending? {
      forall id
        ensures id in Leftover(Step(setup, e, a)) <==> id in Leftover(e) || id in NewlyLeft(e, a)
      {
        PrefillExecLeaves(setup, e, a.fail, a.junk, a.omit, id);
      }
    } else if Ordinary(e, a) {
      StepSettles(setup, e, a);
      SettledLeaves(e, Step(setup, e, a));
    }
  }

  // ----- every run -----

  ghost predicate LeftAt(setup: Setup, e: Engine, actions: seq<Action>, k: nat, id: Id)
    requires EngineInv(e) && setup.limits.Valid() && k < |actions|
  {
    id in NewlyLeft(RunEngine(setup, e, actions[..k]), actions[k])
  }

  ghost predicate LeftInRun(setup: Setup, e: Engine, actions: seq<Action>, id: Id)
    requires EngineInv(e) && setup.limits.Valid()
  {
    exists k :: 0 <= k < |actions| && LeftAt(setup, e, actions, k, id)
  }

  lemma {:induction false} RunFresh(setup: Setup, e: Engine, actions: seq<Action>)
    requires EngineInv(e) && setup.limits.Valid() && FreshPlan(e)
    ensures FreshPlan(RunEngine(setup, e, actions))
    decreases |actions|
  {
    hide EngineInv;
    hide FreshPlan;
    if actions != [] {
      RunFresh(setup, e, actions[..|actions| - 1]);
      StepFresh(setup, RunEngine(setup, e, actions[..|actions| - 1]), actions[|actions| - 1]);
    }
  }

  lemma {:induction false} RunLeaves(setup: Setup, e: Engine, actions: seq<Action>, id: Id)
    requires EngineInv(e) && setup.limits.Valid() && Meaning(setup.model, e) && FreshPlan(e)
    ensures id in Leftover(RunEngine(setup, e, actions)) <==>
      id in Leftover(e) || LeftInRun(setup, e, actions, id)
    decreases |actions|
  {
    hide LeftInRun;
    hide EngineInv;
    hide Meaning;
    hide FreshPlan;
    hide Leftover;
    hide NewlyLeft;
    if actions != [] {
      var n := |actions| - 1;
      var earlier := actions[..n];
      RunLeaves(setup, e, earlier, id);
      RunMeaning(setup, e, earlier);
      RunFresh(setup, e, earlier);
      StepLeaves(setup, RunEngine(setup, e, earlier), actions[n]);
      LeftNext(setup, e, actions, id);
    } else {
      NeverLeft(setup, e, id);
    }
  }

  lemma NeverLeft(setup: Setup, e: Engine, id: Id)
    requires EngineInv(e) && setup.limits.Valid()
    ensures !LeftInRun(setup, e, [], id)
  {
    hide EngineInv;
  }

  lemma LeftNext(setup: Setup, e: Engine, actions: seq<Action>, id: Id)
    requires EngineInv(e) && setup.limits.Valid() && actions != []
    ensures var n := |actions| - 1;
      LeftInRun(setup, e, actions, id) <==>
        LeftInRun(setup, e, actions[..n], id) || id in NewlyLeft(RunEngine(setup, e, actions[..n]), actions[n])
  {
    hide EngineInv;
    hide NewlyLeft;
    var n := |actions| - 1;
    var earlier := actions[..n];
    forall k | 0 <= k < n
      ensures LeftAt(setup, e, earlier, k, id) <==> LeftAt(setup, e, actions, k, id)
    {
      assert earlier[..k] == actions[..k];
    }
    assert LeftAt(setup, e, actions, n, id) <==> id in NewlyLeft(RunEngine(setup, e, earlier), actions[n]);
  }

  /** In every run: a finished request has a prefill cache if and only if it timed out inside a
      `plan` while it had one, or a prefill call stored one after the request was gone. */
  lemma FinishedCaches(setup: Setup, numBlocks: nat, blockSize: nat, cells: Cells, actions: seq<Action>, id: Id)
    requires setup.limits.Valid() && blockSize > 0 && StorageOk(EmptyPool(numBlocks, blockSize), cells)
    ensures EngineInv(Start(numBlocks, blockSize, cells))
    ensures var e := RunEngine(setup, Start(numBlocks, blockSize, cells), actions);
      id in e.caches && id in e.s.requests && e.s.requests[id].Finished() <==>
        exists k :: 0 <= k < |actions| && LeftAt(setup, Start(numBlocks, blockSize, cells), actions, k, id)
  {
    hide EngineInv;
    hide Meaning;
    hide LeftAt;
    StartInv(numBlocks, blockSize, cells);
    StartMeaning(setup.model, numBlocks, blockSize, cells);
    RunLeaves(setup, Start(numBlocks, blockSize, cells), actions, id);
  }
}
