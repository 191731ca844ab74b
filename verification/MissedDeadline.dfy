/** Two short runs from the start: a deadline between the two expiries of a step, and a cancel
    between a plan and its prefill call. Both leave a finished request with a prefill cache, and
    the first one leaves its client without a terminal event. */
module MissedDeadline {
  import opened Basics
  import opened PagedKV
  import opened PagedStorage
  import opened GraphBuckets
  import opened Scheduler
  import opened SchedulerInvariant
  import opened PlanInvariant
  import opened Executor
  import opened Engine
  import opened EngineInvariant
  import opened Alone
  import opened Refinement
  import RefinementPrefill
  import opened ContinuousBatching
  import opened Evolution
  import opened Endings
  import opened EventProtocol
  import opened InterleavingSafety
  import opened PrefillCaches

  /** One request at a time, one token at a time. */
  const Tight := Limits(1, 1, 1, 1)

  /** Two prompt tokens, one second to live. */
  const Sub := Submission("a", [7, 8], 1, 0, 0, Some(1.0))

  /** Room for eight positions. */
  ghost function Small(cells: Cells): Engine {
    Start(2, 4, cells)
  }

  /** The request waits between two steps with a cursor of `cursor`. */
  ghost predicate Waits(e: Engine, cursor: nat) {
    && e.s.requests.Keys == {"a"} && e.s.requests["a"] == ToRequest(Sub, PREFILL, 0.0).(cursor := cursor)
    && "a" in e.events && e.events["a"] == []
  }

  lemma Submitted(cells: Cells)
    ensures EngineInv(Small(cells)) && EngineInv(SubmitStep(Small(cells), Sub, 0.0))
    ensures Waits(SubmitStep(Small(cells), Sub, 0.0), 0)
    ensures SubmitStep(Small(cells), Sub, 0.0).phase.Idle?
  {
    StartInv(2, 4, cells);
    SubmitStepKeeps(Small(cells), Sub, 0.0);
    SubmittedWaits(cells);
  }

  lemma SubmittedWaits(cells: Cells)
    ensures Waits(SubmitStep(Small(cells), Sub, 0.0), 0)
    ensures SubmitStep(Small(cells), Sub, 0.0).phase.Idle?
  {
    assert SumMap<Id>(map[]) == 0;
    assert CeilDiv(3, 4) == 1;
  }

  /** A step that begins in time plans the first token. */
  lemma Planned(setup: Setup, e: Engine)
    requires EngineInv(e) && e.phase.Idle? && Waits(e, 0) && setup.limits == Tight
    ensures e.s.pool.blockSize > 0
    ensures var e' := BeginStep(setup, e, 0.0, 0.0);
      && EngineInv(e') && Waits(e', 0) && e'.phase.PrefillPending?
      && |e'.phase.plan.prefill| == 1 && e'.phase.plan.prefill[0].id == "a"
      && e'.phase.plan.prefill[0].start == 0 && |e'.phase.plan.prefill[0].tokens| == 1
      && "a" in e'.s.inflight
  {
    hide SchedInv;
    hide KeysOk;
    hide PlanOk;
    hide PlanTurns;
    hide Plan;
    hide MetadataFor;
    hide BegunFor;
    EngineDimensions(e);
    var e' := BeginStep(setup, e, 0.0, 0.0);
    BeginStepKeeps(setup, e, 0.0, 0.0);
    BeginFrame(setup, e, 0.0, 0.0);
    BegunWaits(e, e', 0.0, 0.0);
    BeginNeverFails(setup, e, 0.0, 0.0);
    OnlyPrefill(e');
    var s1, s2, plan := BeginOutcome(setup, e, 0.0, 0.0);
    OneToken(setup.limits, s2, plan);
  }

  lemma BegunWaits(e: Engine, e': Engine, now: real, planNow: real)
    requires Waits(e, 0) && now < 1.0 && planNow < 1.0
    requires e'.s.requests.Keys == e.s.requests.Keys && BegunFor(e, e', now, planNow, "a") && KeysOk(e')
    ensures Waits(e', 0)
  {
  }

  /** The only request is in prefill, so a step under way is at its prefill call. */
  lemma OnlyPrefill(e: Engine)
    requires EngineInv(e) && Waits(e, 0)
    ensures e.s.pool.requests != map[]
    ensures !e.phase.DecodePending?
  {
    hide PoolInv;
    hide QueuesOk;
    hide RequestsOk;
    hide ReservedOk;
    hide MetaOk;
    hide KeysOk;
    hide PendingDecode;
    hide PendingPrefill;
    assert "a" in e.s.pool.requests;
    if e.phase.DecodePending? { NotDecoding(e.s, e.phase.plan.decode[0]); }
  }

  lemma NotDecoding(s: Sched, w: DecodeWork)
    requires s.requests.Keys == {"a"} && s.requests["a"].state == PREFILL
    ensures !PendingDecode(s, w)
  {
  }

  lemma OneToken(l: Limits, s: Sched, plan: StepPlan)
    requires l == Tight && PlanOk(l, s, plan) && s.requests.Keys == {"a"} && s.requests["a"].cursor == 0
    requires plan.decode == [] && plan.prefill != []
    ensures |plan.prefill| == 1 && plan.prefill[0].id == "a" && "a" in s.inflight
    ensures plan.prefill[0].start == 0 && |plan.prefill[0].tokens| == 1
  {
    hide SchedInv;
    assert PrefillItemOk(s, plan.prefill[0]);
  }

  /** The call stores a cache, whether or not the request is still there. */
  lemma Prefilled(setup: Setup, e: Engine)
    requires e.phase.PrefillPending? && FreshPlan(e) && "a" !in e.caches
    requires |e.phase.plan.prefill| == 1 && e.phase.plan.prefill[0].id == "a"
    requires e.phase.plan.prefill[0].start == 0 && |e.phase.plan.prefill[0].tokens| == 1
    ensures var e' := PrefillExecStep(setup, e, None, map[], {});
      e'.phase.PrefillReturned? && e'.phase.plan == e.phase.plan && "a" in e'.caches && e'.s == e.s && e'.events == e.events
  {
    hide Extend;
    hide Scatter;
    assert ShapeOk(e.phase.plan.prefill[0]);
    assert PrefillIds(e.phase.plan.prefill) == ["a"];
    CallCaches(setup.model, RefinementPrefill.Call(e.cells, e.caches, map[]), e.phase.plan.prefill, None, map[], "a");
    assert Stores(e.caches, e.phase.plan.prefill, None, 0);
  }

  /** Its commit moves the cursor; the second prompt token is still to come. */
  lemma Advanced(setup: Setup, e: Engine)
    requires EngineInv(e) && Waits(e, 0) && e.phase.PrefillReturned? && "a" in e.s.inflight && "a" in e.caches
    requires |e.phase.plan.prefill| == 1 && e.phase.plan.prefill[0].id == "a" && |e.phase.plan.prefill[0].tokens| == 1
    ensures var e' := PrefillCommitStep(setup, e); EngineInv(e') && Waits(e', 1) && e'.phase.Idle? && "a" in e'.caches
  {
    hide EngineInv;
    hide CommitPrefillItem;
    var work := e.phase.plan.prefill;
    PrefillCommitStepKeeps(setup, e);
    AdvancedItem(setup.model, e, work[0]);
    var (e1, r) := CommitPrefillItem(setup.model, e, work[0], e.phase.logits);
    assert CommitPrefills(setup.model, e1, work[1..], e.phase.logits) == (e1, Returns(()));
  }

  lemma AdvancedItem(m: Model, e: Engine, w: PrefillWork)
    requires EngineInv(e) && Waits(e, 0) && e.phase.PrefillReturned? && "a" in e.s.inflight
    requires e.phase.plan.prefill == [w] && w.id == "a" && |w.tokens| == 1
    ensures var (e', r) := CommitPrefillItem(m, e, w, e.phase.logits);
      r.Returns? && e' == e.(s := e'.s) && e'.s.requests == e.s.requests["a" := e.s.requests["a"].(cursor := 1)]
  {
    hide SchedInv;
    hide KeysOk;
    hide CompletePrefill;
    hide PrefillItemFits;
    assert PendingPrefill(e.s, e.phase.plan.prefill[0]);
    PrefillCompleted(e.s, w);
    NotLast(e.s, w);
  }

  lemma NotLast(s: Sched, w: PrefillWork)
    requires w.id in s.requests && CompletePrefill(s, w.id, |w.tokens|).1.Returns?
    requires s.requests[w.id].RemainingPrompt() > |w.tokens|
    ensures CompletePrefill(s, w.id, |w.tokens|).1 == Returns(false)
    ensures CompletePrefill(s, w.id, |w.tokens|).0.requests ==
      s.requests[w.id := s.requests[w.id].(cursor := s.requests[w.id].cursor + |w.tokens|)]
  {
  }

  lemma RunOn(setup: Setup, e: Engine, actions: seq<Action>, a: Action)
    requires EngineInv(e) && setup.limits.Valid()
    ensures RunEngine(setup, e, actions).s.pool.blockSize > 0
    ensures RunEngine(setup, e, actions + [a]) == Step(setup, RunEngine(setup, e, actions), a)
  {
    hide EngineInv;
    EngineDimensions(RunEngine(setup, e, actions));
    assert (actions + [a])[..|actions|] == actions;
  }

  const Opening := [SubmitAction(Sub, 0.0), BeginAction(0.0, 0.0)]

  /** The step is at the prefill call of the first chunk. */
  ghost predicate AtFirstChunk(e: Engine) {
    && EngineInv(e) && FreshPlan(e) && Waits(e, 0) && e.phase.PrefillPending? && "a" !in e.caches
    && |e.phase.plan.prefill| == 1 && e.phase.plan.prefill[0].id == "a"
    && e.phase.plan.prefill[0].start == 0 && |e.phase.plan.prefill[0].tokens| == 1
    && "a" in e.s.inflight
  }

  /** After the first two actions it is. */
  lemma Opened(buckets: Buckets, model: Model, cells: Cells)
    ensures EngineInv(Small(cells))
    ensures AtFirstChunk(RunEngine(Setup(Tight, buckets, model), Small(cells), Opening))
  {
    hide EngineInv;
    hide BeginStep;
    hide SubmitStep;
    hide FreshPlan;
    hide BegunFor;
    var setup := Setup(Tight, buckets, model);
    Submitted(cells);
    var e1 := SubmitStep(Small(cells), Sub, 0.0);
    RunOn(setup, Small(cells), [], SubmitAction(Sub, 0.0));
    RunOn(setup, Small(cells), [SubmitAction(Sub, 0.0)], BeginAction(0.0, 0.0));
    assert [] + [SubmitAction(Sub, 0.0)] == [SubmitAction(Sub, 0.0)];
    assert [SubmitAction(Sub, 0.0)] + [BeginAction(0.0, 0.0)] == Opening;
    Planned(setup, e1);
    BeginFresh(setup, e1, 0.0, 0.0);
    SubmittedUncached(cells);
    BeginFor(setup, e1, 0.0, 0.0, "a");
    BegunUncached(e1, BeginStep(setup, e1, 0.0, 0.0), 0.0, 0.0);
  }

  lemma SubmittedUncached(cells: Cells)
    ensures "a" !in SubmitStep(Small(cells), Sub, 0.0).caches
  {
  }

  lemma BegunUncached(e: Engine, e': Engine, now: real, planNow: real)
    requires "a" in e.s.requests && "a" !in e.caches && BegunFor(e, e', now, planNow, "a")
    ensures "a" !in e'.caches
  {
  }

  /** The deadline passes between the two expiries of the second step: the request has timed out,
      its client was told nothing, and its prefill cache stays. */
  lemma DeadlineBetweenExpiries(buckets: Buckets, model: Model, cells: Cells)
    ensures EngineInv(Small(cells))
    ensures var actions := Opening + [PrefillExecAction(None, map[], {})] + [PrefillCommitAction] + [BeginAction(0.5, 1.0)];
      var e := RunEngine(Setup(Tight, buckets, model), Small(cells), actions);
      && "a" in e.s.requests && e.s.requests["a"].state == TIMED_OUT
      && EventsOf(e.events, "a") == [] && "a" in e.caches
  {
    hide EngineInv;
    hide BeginStep;
    hide PrefillExecStep;
    hide PrefillCommitStep;
    hide FreshPlan;
    var setup := Setup(Tight, buckets, model);
    Opened(buckets, model, cells);
    var e2 := RunEngine(setup, Small(cells), Opening);
    RunOn(setup, Small(cells), Opening, PrefillExecAction(None, map[], {}));
    Prefilled(setup, e2);
    PrefillExecStepKeeps(setup, e2, None, map[], {});
    var e3 := PrefillExecStep(setup, e2, None, map[], {});
    var soFar := Opening + [PrefillExecAction(None, map[], {})];
    RunOn(setup, Small(cells), soFar, PrefillCommitAction);
    Advanced(setup, e3);
    var e4 := PrefillCommitStep(setup, e3);
    RunOn(setup, Small(cells), soFar + [PrefillCommitAction], BeginAction(0.5, 1.0));
    BeginFor(setup, e4, 0.5, 1.0, "a");
  }

  /** A cancel between the plan and its prefill call: the call stores a cache for a request whose
      cancellation already released it. */
  lemma CancelBeforePrefill(buckets: Buckets, model: Model, cells: Cells)
    ensures EngineInv(Small(cells))
    ensures var actions := Opening + [CancelAction("a")] + [PrefillExecAction(None, map[], {})];
      var e := RunEngine(Setup(Tight, buckets, model), Small(cells), actions);
      "a" in e.s.requests && e.s.requests["a"].state == CANCELLED && "a" in e.caches
  {
    hide EngineInv;
    hide AtFirstChunk;
    hide RunEngine;
    hide Step;
    var setup := Setup(Tight, buckets, model);
    Opened(buckets, model, cells);
    RunOn(setup, Small(cells), Opening, CancelAction("a"));
    RunOn(setup, Small(cells), Opening + [CancelAction("a")], PrefillExecAction(None, map[], {}));
    CancelThenPrefill(setup, RunEngine(setup, Small(cells), Opening));
  }

  lemma CancelThenPrefill(setup: Setup, e: Engine)
    requires setup.limits.Valid() && AtFirstChunk(e)
    ensures e.s.pool.blockSize > 0 && Step(setup, e, CancelAction("a")).s.pool.blockSize > 0
    ensures var e' := Step(setup, Step(setup, e, CancelAction("a")), PrefillExecAction(None, map[], {}));
      "a" in e'.s.requests && e'.s.requests["a"].state == CANCELLED && "a" in e'.caches
  {
    hide EngineInv;
    hide FreshPlan;
    hide CancelStep;
    hide PrefillExecStep;
    hide Waits;
    StepFresh(setup, e, CancelAction("a"));
    StepKeeps(setup, e, CancelAction("a"));
    EngineDimensions(Step(setup, e, CancelAction("a")));
    CancelKept(e);
    Prefilled(setup, Step(setup, e, CancelAction("a")));
  }

  lemma CancelKept(e: Engine)
    requires Waits(e, 0) && "a" !in e.caches
    ensures var e' := CancelStep(e, "a");
      e'.phase == e.phase && "a" !in e'.caches && "a" in e'.s.requests && e'.s.requests["a"].state == CANCELLED
  {
  }
}
