/** What the model is fed over a run: the positions of each request in order, once each. */
module Feeding {
  import opened Basics
  import opened PagedKV
  import opened PagedStorage
  import opened Scheduler
  import opened SchedulerInvariant
  import opened PlanInvariant
  import opened Executor
  import opened Engine
  import opened EngineInvariant
  import opened Alone
  import opened Refinement
  import opened ContinuousBatching
  import opened Evolution

  /** The tokens a plan feeds for one request. */
  function DecodeFeed(work: seq<DecodeWork>, id: Id): seq<Token> {
    if work == [] then [] else (if work[0].id == id then [work[0].token] else []) + DecodeFeed(work[1..], id)
  }

  function PrefillFeed(work: seq<PrefillWork>, id: Id): seq<Token> {
    if work == [] then [] else (if work[0].id == id then work[0].tokens else []) + PrefillFeed(work[1..], id)
  }

  function PlanFeed(plan: StepPlan, id: Id): seq<Token> {
    DecodeFeed(plan.decode, id) + PrefillFeed(plan.prefill, id)
  }

  /** The plan an action hands out, if it begins a step with work. */
  function NewPlan(e: Engine, e': Engine): Option<StepPlan> {
    if e.phase.Idle? && (e'.phase.DecodePending? || e'.phase.PrefillPending?) then Some(e'.phase.plan) else None
  }

  /** All tokens handed out for `id` so far, in order. */
  ghost function Fed(setup: Setup, e: Engine, actions: seq<Action>, id: Id): seq<Token>
    requires EngineInv(e) && setup.limits.Valid()
    decreases |actions|
  {
    if actions == [] then []
    else
      var last := |actions| - 1;
      var plan := NewPlan(RunEngine(setup, e, actions[..last]), RunEngine(setup, e, actions));
      Fed(setup, e, actions[..last], id) + (if plan.None? then [] else PlanFeed(plan.value, id))
  }

  /** A request was fed the first part of its tokens; a live one exactly the stored positions. */
  ghost predicate FedOk(s: Sched, id: Id, fed: seq<Token>) {
    && (id in s.requests ==> fed <= Tokens(s.requests[id]))
    && (id in s.requests && id in s.pool.requests ==> |fed| == s.pool.requests[id].length)
    && (id !in s.requests ==> fed == [])
  }

  /** The items of a plan start where the tokens fed before end. */
  ghost predicate Continue(plan: StepPlan, id: Id, fed: seq<Token>) {
    && (forall i :: 0 <= i < |plan.decode| && plan.decode[i].id == id ==> plan.decode[i].position == |fed|)
    && (forall i :: 0 <= i < |plan.prefill| && plan.prefill[i].id == id ==> plan.prefill[i].start == |fed|)
  }

  lemma {:induction false} DecodeFeedNone(work: seq<DecodeWork>, id: Id)
    requires id !in DecodeIds(work)
    ensures DecodeFeed(work, id) == []
    decreases |work|
  {
    if work != [] {
      assert DecodeIds(work) == [work[0].id] + DecodeIds(work[1..]);
      DecodeFeedNone(work[1..], id);
    }
  }

  lemma {:induction false} PrefillFeedNone(work: seq<PrefillWork>, id: Id)
    requires id !in PrefillIds(work)
    ensures PrefillFeed(work, id) == []
    decreases |work|
  {
    if work != [] {
      assert PrefillIds(work) == [work[0].id] + PrefillIds(work[1..]);
      PrefillFeedNone(work[1..], id);
    }
  }

  lemma {:induction false} DecodeFeedOne(work: seq<DecodeWork>, i: nat)
    requires i < |work| && NoDup(DecodeIds(work))
    ensures DecodeFeed(work, work[i].id) == [work[i].token]
    decreases |work|
  {
    assert DecodeIds(work) == [work[0].id] + DecodeIds(work[1..]);
    NoDupTail(work[0].id, DecodeIds(work[1..]));
    if i > 0 {
      assert work[i].id == DecodeIds(work[1..])[i - 1];
      DecodeFeedOne(work[1..], i - 1);
    } else {
      DecodeFeedNone(work[1..], work[0].id);
    }
  }

  lemma {:induction false} PrefillFeedOne(work: seq<PrefillWork>, i: nat)
    requires i < |work| && NoDup(PrefillIds(work))
    ensures PrefillFeed(work, work[i].id) == work[i].tokens
    decreases |work|
  {
    hide NoDup;
    assert PrefillIds(work) == [work[0].id] + PrefillIds(work[1..]);
    NoDupTail(work[0].id, PrefillIds(work[1..]));
    if i > 0 {
      assert work[i].id == PrefillIds(work[1..])[i - 1];
      PrefillFeedOne(work[1..], i - 1);
    } else {
      PrefillFeedNone(work[1..], work[0].id);
    }
  }

  lemma PlanIdsApart(plan: StepPlan)
    requires NoDup(PlanIds(plan))
    ensures NoDup(DecodeIds(plan.decode)) && NoDup(PrefillIds(plan.prefill))
    ensures forall id :: id in DecodeIds(plan.decode) ==> id !in PrefillIds(plan.prefill)
  {
    hide NoDup;
    NoDupParts(DecodeIds(plan.decode), PrefillIds(plan.prefill));
  }

  /** The positions of a live request before its work was handed out. */
  ghost function LengthBefore(s: Sched, id: Id): int
    requires id in s.pool.requests
  {
    s.pool.requests[id].length - (if id in s.inflight then Count(s.inflight[id]) else 0)
  }

  lemma ItemLength(s: Sched, id: Id)
    requires SchedInv(s) && id in s.pool.requests && id in s.requests
    ensures LengthBefore(s, id) == Committed(s.requests[id])
  {
    hide PoolInv;
    hide QueuesOk;
    hide ReservedOk;
    assert RequestOk(s.requests[id], s.pool.requests[id].length, Get(s.inflight, id));
  }

  /** What a plan must do for one live request. */
  ghost predicate FeedsNext(s: Sched, plan: StepPlan, id: Id, fed: seq<Token>)
    requires id in s.pool.requests && id in s.requests
  {
    && fed + PlanFeed(plan, id) <= Tokens(s.requests[id])
    && |fed + PlanFeed(plan, id)| == Committed(s.requests[id]) + (if id in s.inflight then Count(s.inflight[id]) else 0)
    && Continue(plan, id, fed)
  }

  lemma DecodeFeedsNext(s: Sched, plan: StepPlan, i: nat, fed: seq<Token>)
    requires NoDup(PlanIds(plan)) && i < |plan.decode| && DecodeItemOk(s, plan.decode[i])
    requires fed <= Tokens(s.requests[plan.decode[i].id]) && |fed| == Committed(s.requests[plan.decode[i].id])
    ensures FeedsNext(s, plan, plan.decode[i].id, fed)
  {
    var id := plan.decode[i].id;
    PlanIdsApart(plan);
    assert DecodeIds(plan.decode)[i] == id;
    DecodeFeedOne(plan.decode, i);
    PrefillFeedNone(plan.prefill, id);
    assert PlanFeed(plan, id) == [plan.decode[i].token];
    OnlyItem(plan, id);
  }

  lemma PrefillFeedsNext(s: Sched, plan: StepPlan, i: nat, fed: seq<Token>)
    requires NoDup(PlanIds(plan)) && i < |plan.prefill| && PrefillItemOk(s, plan.prefill[i])
    requires s.requests[plan.prefill[i].id].generated == []
    requires fed <= Tokens(s.requests[plan.prefill[i].id]) && |fed| == Committed(s.requests[plan.prefill[i].id])
    ensures FeedsNext(s, plan, plan.prefill[i].id, fed)
  {
    hide SlotsAre;
    hide NoDup;
    hide PlanFeed;
    hide PlanIds;
    OnlyPrefillFeeds(plan, i);
    OnlyItem(plan, plan.prefill[i].id);
  }

  lemma OnlyPrefillFeeds(plan: StepPlan, i: nat)
    requires NoDup(PlanIds(plan)) && i < |plan.prefill|
    ensures PlanFeed(plan, plan.prefill[i].id) == plan.prefill[i].tokens
  {
    hide NoDup;
    var id := plan.prefill[i].id;
    PlanIdsApart(plan);
    assert PrefillIds(plan.prefill)[i] == id;
    DecodeFeedNone(plan.decode, id);
    PrefillFeedOne(plan.prefill, i);
    assert [] + plan.prefill[i].tokens == plan.prefill[i].tokens;
  }

  /** A request has at most one item in a plan. */
  lemma OnlyItem(plan: StepPlan, id: Id)
    requires NoDup(PlanIds(plan))
    ensures forall i, j :: 0 <= i < |plan.decode| && plan.decode[i].id == id && 0 <= j < |plan.decode| && plan.decode[j].id == id ==> i == j
    ensures forall i, j :: 0 <= i < |plan.prefill| && plan.prefill[i].id == id && 0 <= j < |plan.prefill| && plan.prefill[j].id == id ==> i == j
    ensures forall i, j :: 0 <= i < |plan.decode| && plan.decode[i].id == id && 0 <= j < |plan.prefill| ==> plan.prefill[j].id != id
  {
    PlanIdsApart(plan);
    assert forall i :: 0 <= i < |plan.decode| ==> plan.decode[i].id == DecodeIds(plan.decode)[i] && plan.decode[i].id in DecodeIds(plan.decode);
    assert forall i :: 0 <= i < |plan.prefill| ==> plan.prefill[i].id == PrefillIds(plan.prefill)[i] && plan.prefill[i].id in PrefillIds(plan.prefill);
  }

  lemma IdleFeedsNext(s: Sched, plan: StepPlan, id: Id, fed: seq<Token>)
    requires Tracks(s, PlanIds(plan)) && id in s.pool.requests && id in s.requests && id !in s.inflight
    requires fed <= Tokens(s.requests[id]) && |fed| == Committed(s.requests[id])
    ensures FeedsNext(s, plan, id, fed)
  {
    DecodeFeedNone(plan.decode, id);
    PrefillFeedNone(plan.prefill, id);
    assert PlanFeed(plan, id) == [];
    assert forall i :: 0 <= i < |plan.decode| ==> DecodeIds(plan.decode)[i] == plan.decode[i].id;
    assert forall i :: 0 <= i < |plan.prefill| ==> PrefillIds(plan.prefill)[i] == plan.prefill[i].id;
  }

  /** A plan feeds a live request exactly the positions it was given slots for. */
  lemma PlanFeeds(l: Limits, s: Sched, plan: StepPlan, id: Id, fed: seq<Token>)
    requires PlanOk(l, s, plan) && id in s.pool.requests && id in s.requests
    requires fed <= Tokens(s.requests[id]) && |fed| == Committed(s.requests[id])
    ensures FedOk(s, id, fed + PlanFeed(plan, id)) && Continue(plan, id, fed)
  {
    hide SchedInv;
    hide DecodeItemOk;
    hide PrefillItemOk;
    hide Continue;
    hide PlanFeed;
    SoFarOwned(l, s, plan);
    ItemLength(s, id);
    if id !in s.inflight {
      IdleFeedsNext(s, plan, id, fed);
    } else if id in DecodeIds(plan.decode) {
      var i :| 0 <= i < |plan.decode| && DecodeIds(plan.decode)[i] == id;
      assert DecodeItemOk(s, plan.decode[i]);
      DecodeFeedsNext(s, plan, i, fed);
    } else {
      var i :| 0 <= i < |plan.prefill| && PrefillIds(plan.prefill)[i] == id;
      assert PrefillItemOk(s, plan.prefill[i]);
      NothingGenerated(s, plan.prefill[i]);
      PrefillFeedsNext(s, plan, i, fed);
    }
  }

  lemma NothingGenerated(s: Sched, w: PrefillWork)
    requires SchedInv(s) && PrefillItemOk(s, w)
    ensures s.requests[w.id].generated == []
  {
    hide PoolInv;
    hide QueuesOk;
    hide ReservedOk;
    assert RequestOk(s.requests[w.id], s.pool.requests[w.id].length, Get(s.inflight, w.id));
  }

  // ----- runs -----

  lemma EvolvedFed(e: Engine, e': Engine, id: Id, fed: seq<Token>)
    requires Evolves(e, e') && FedOk(e.s, id, fed)
    ensures FedOk(e'.s, id, fed)
  {
    hide ToGo;
    if id in e.s.requests {
      assert Unmoved(e, e', id) || Moved(e.s.requests[id], e'.s.requests[id]);
    }
  }

  lemma SubmittedFed(e: Engine, sub: Submission, now: real, id: Id, fed: seq<Token>)
    requires EngineInv(e) && FedOk(e.s, id, fed)
    ensures e.s.pool.blockSize > 0 && FedOk(SubmitStep(e, sub, now).s, id, fed)
  {
    hide SchedInv;
    hide PhaseInv;
    hide KeysOk;
    InflightOwned(e.s);
    SubmitJoins(e.s, sub, now);
    if id == sub.id { FreshLength(e.s, sub, now); }
  }

  lemma FreshLength(s: Sched, sub: Submission, now: real)
    requires s.pool.blockSize > 0
    ensures Submit(s, sub, now).1.Returns? ==>
      sub.id in Submit(s, sub, now).0.pool.requests && Submit(s, sub, now).0.pool.requests[sub.id].length == 0
    ensures sub.id in s.requests ==> Submit(s, sub, now).0 == s
    ensures Submit(s, sub, now).1 == Raises(AdmissionError) ==> Submit(s, sub, now).0.pool == s.pool
  {
  }

  lemma BegunFed(setup: Setup, e: Engine, now: real, planNow: real, id: Id, fed: seq<Token>)
    requires EngineInv(e) && e.phase.Idle? && setup.limits.Valid() && FedOk(e.s, id, fed)
    ensures e.s.pool.blockSize > 0
    ensures var e' := BeginStep(setup, e, now, planNow);
      var plan := NewPlan(e, e');
      && FedOk(e'.s, id, fed + (if plan.None? then [] else PlanFeed(plan.value, id)))
      && (plan.Some? && id in e'.s.pool.requests ==> Continue(plan.value, id, fed))
  {
    hide SchedInv;
    hide KeysOk;
    hide Begun;
    hide Continue;
    hide PlanFeed;
    InflightOwned(e.s);
    var s1, s2, plan := BeginOutcome(setup, e, now, planNow);
    var e' := BeginStep(setup, e, now, planNow);
    BegunPlan(setup, e, now, planNow, s1, s2, plan, e');
    BegunRequests(setup, e, now, planNow, s1, s2, plan, e');
    BegunBlocks(setup, e, now, planNow, s1, s2, plan, e');
    if id in s2.pool.requests {
      LengthIdle(e.s, id);
      PlanFeeds(setup.limits, s2, plan, id, fed);
      if NewPlan(e, e').None? { EmptyFeed(plan, id); }
    } else {
      GoneUnfed(setup.limits, s2, plan, id);
      assert fed + [] == fed;
    }
  }

  lemma EmptyFeed(plan: StepPlan, id: Id)
    requires plan.decode == [] && plan.prefill == []
    ensures PlanFeed(plan, id) == []
  {
  }

  /** A request that is not live gets nothing. */
  lemma GoneUnfed(l: Limits, s: Sched, plan: StepPlan, id: Id)
    requires PlanOk(l, s, plan) && id !in s.pool.requests
    ensures PlanFeed(plan, id) == []
  {
    hide SchedInv;
    SoFarOwned(l, s, plan);
    InflightOwned(s);
    DecodeFeedNone(plan.decode, id);
    PrefillFeedNone(plan.prefill, id);
  }

  lemma LengthIdle(s: Sched, id: Id)
    requires SchedInv(s) && s.inflight == map[] && id in s.pool.requests
    ensures id in s.requests && s.pool.requests[id].length == Committed(s.requests[id])
  {
    CommittedStored(s, id);
    ItemLength(s, id);
  }

  /** The plan of a begun step, as its phase shows it. */
  lemma BegunPlan(setup: Setup, e: Engine, now: real, planNow: real, s1: Sched, s2: Sched, plan: StepPlan, e': Engine)
    requires Begun(setup, e, now, planNow, s1, s2, plan, e') && e.phase.Idle? && setup.limits.Valid()
    ensures e'.s == s2 && PlanOk(setup.limits, s2, plan)
    ensures NewPlan(e, e') == if plan.decode == [] && plan.prefill == [] then None else Some(plan)
  {
    hide SchedInv;
    hide SoFar;
    hide PlanOk;
    hide PlanTurns;
    hide Plan;
    hide MetadataFor;
    hide PlanReady;
    FinishKeepsPhase(e.(s := s1), Expire(e.s, now).1);
    if plan.decode != [] { MetadataReturned(setup.limits, setup.buckets, s1, planNow, s2, plan); }
  }

  /** Over every run the work of a request feeds its positions 0, 1, 2, ... once each, with the
      tokens of its prompt and then its generated tokens: what was fed is a prefix of those, and
      for a live request exactly as long as its stored length; each new item starts where the
      last one ended. */
  lemma {:induction false} FedInOrder(setup: Setup, e0: Engine, actions: seq<Action>, id: Id)
    requires EngineInv(e0) && setup.limits.Valid() && e0.s.requests == map[]
    ensures FedOk(RunEngine(setup, e0, actions).s, id, Fed(setup, e0, actions, id))
    ensures actions != [] ==>
      var before := RunEngine(setup, e0, actions[..|actions| - 1]);
      var plan := NewPlan(before, RunEngine(setup, e0, actions));
      plan.Some? && id in RunEngine(setup, e0, actions).s.pool.requests ==>
        Continue(plan.value, id, Fed(setup, e0, actions[..|actions| - 1], id))
    decreases |actions|
  {
    hide EngineInv;
    hide FedOk;
    hide Continue;
    hide PlanFeed;
    if actions == [] {
      StartFed(e0, id);
    } else {
      var last := |actions| - 1;
      var before, a := RunEngine(setup, e0, actions[..last]), actions[last];
      var fed := Fed(setup, e0, actions[..last], id);
      FedInOrder(setup, e0, actions[..last], id);
      StepFed(setup, before, a, id, fed);
    }
  }

  lemma StartFed(e: Engine, id: Id)
    requires EngineInv(e) && e.s.requests == map[]
    ensures FedOk(e.s, id, [])
  {
  }

  lemma StepFed(setup: Setup, e: Engine, a: Action, id: Id, fed: seq<Token>)
    requires EngineInv(e) && setup.limits.Valid() && FedOk(e.s, id, fed)
    ensures e.s.pool.blockSize > 0
    ensures var e' := Step(setup, e, a);
      var plan := NewPlan(e, e');
      && FedOk(e'.s, id, fed + (if plan.None? then [] else PlanFeed(plan.value, id)))
      && (plan.Some? && id in e'.s.pool.requests ==> Continue(plan.value, id, fed))
  {
    hide EngineInv;
    hide FedOk;
    hide Continue;
    hide PlanFeed;
    hide Evolves;
    EngineDimensions(e);
    if a.BeginAction? && e.phase.Idle? {
      BegunFed(setup, e, a.now, a.planNow, id, fed);
    } else {
      assert fed + [] == fed;
      if a.SubmitAction? {
        SubmittedFed(e, a.sub, a.now, id, fed);
      } else {
        StepEvolves(setup, e, a);
        EvolvedFed(e, Step(setup, e, a), id, fed);
      }
    }
  }
}
