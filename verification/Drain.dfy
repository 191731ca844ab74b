/** The engine drains: every step brings some live request closer to its end, also when the
    executor fails. */
module Drain {
  import opened Basics
  import opened PagedKV
  import opened PagedStorage
  import opened Scheduler
  import opened SchedulerInvariant
  import opened PlanInvariant
  import opened Executor
  import opened Engine
  import opened EngineInvariant
  import opened ContinuousBatching
  import opened Evolution

  ghost function ToGoAll(requests: map<Id, Request>): map<Id, nat> {
    map id | id in requests :: ToGo(requests[id])
  }

  ghost function Work(s: Sched): nat {
    SumMap(ToGoAll(s.requests))
  }

  lemma {:induction false} SumMapStrictlyBelow<K(!new)>(m: map<K, nat>, n: map<K, nat>, k: K)
    requires m.Keys == n.Keys && k in m && m[k] < n[k]
    requires forall i :: i in m ==> m[i] <= n[i]
    ensures SumMap(m) < SumMap(n)
  {
    SumMapTake(m, k);
    SumMapTake(n, k);
    SumMapBelow(m - {k}, n - {k});
  }

  /** No request gets further from its end, and one whose work in flight was settled gets closer. */
  ghost predicate Progress(s: Sched, s': Sched) {
    && s'.requests.Keys == s.requests.Keys
    && (forall id :: id in s.requests ==> ToGo(s'.requests[id]) <= ToGo(s.requests[id]))
    && s'.inflight.Keys <= s.inflight.Keys
    && (forall id :: id in s.inflight && id !in s'.inflight && id in s.requests ==> ToGo(s'.requests[id]) < ToGo(s.requests[id]))
  }

  lemma ProgressOn(s: Sched, s1: Sched, s2: Sched)
    requires Progress(s, s1) && Progress(s1, s2)
    ensures Progress(s, s2)
  {
    hide ToGo;
  }

  lemma ProgressWork(s: Sched, s': Sched)
    requires Progress(s, s') && (forall id :: id in s.inflight ==> id in s.requests)
    ensures Work(s') <= Work(s)
    ensures s.inflight != map[] && s'.inflight == map[] ==> Work(s') < Work(s)
  {
    hide ToGo;
    SumMapBelow(ToGoAll(s'.requests), ToGoAll(s.requests));
    if s.inflight != map[] && s'.inflight == map[] {
      var id :| id in s.inflight;
      SumMapStrictlyBelow(ToGoAll(s'.requests), ToGoAll(s.requests), id);
    }
  }

  lemma LiveToGo(s: Sched, id: Id)
    requires SchedInv(s) && id in s.requests && Live(s.requests[id])
    ensures id in s.pool.requests && ToGo(s.requests[id]) > 0
    ensures ToGo(s.requests[id]) == |s.requests[id].prompt| - s.requests[id].cursor + s.requests[id].maxNew - |s.requests[id].generated|
  {
    hide PoolInv;
    hide QueuesOk;
    hide ReservedOk;
    assert RequestOk(s.requests[id], s.pool.requests[id].length, Get(s.inflight, id));
  }

  /** Ending a live request is progress. */
  lemma EndProgress(s: Sched, id: Id, state: RequestState)
    requires SchedInv(s) && id in s.requests && Live(s.requests[id]) && state in {CANCELLED, TIMED_OUT, FAILED}
    ensures Progress(s, Terminate(s, id, state))
  {
    hide SchedInv;
    LiveToGo(s, id);
  }

  lemma {:induction false} ExpireProgress(s: Sched, now: real, ids: seq<Id>, expired: seq<Id>)
    requires SchedInv(s)
    ensures Progress(s, ExpireFrom(s, now, ids, expired).0)
    decreases |ids|
  {
    hide SchedInv;
    hide ToGo;
    if ids != [] {
      if ids[0] in s.requests && Due(s.requests[ids[0]], now) {
        var s1 := Terminate(s, ids[0], TIMED_OUT);
        NotWaiting(s, ids[0]);
        EndProgress(s, ids[0], TIMED_OUT);
        TerminateKeeps(s, ids[0], TIMED_OUT);
        ExpireProgress(s1, now, ids[1..], expired + [ids[0]]);
        ProgressOn(s, s1, ExpireFrom(s, now, ids, expired).0);
      } else {
        ExpireProgress(s, now, ids[1..], expired);
      }
    }
  }

  lemma EvolvedProgress(e: Engine, e': Engine)
    requires Evolves(e, e')
    ensures Progress(e.s, e'.s)
  {
    hide ToGo;
    forall id | id in e.s.requests
      ensures ToGo(e'.s.requests[id]) <= ToGo(e.s.requests[id])
      ensures id in e.s.inflight && id !in e'.s.inflight ==> ToGo(e'.s.requests[id]) < ToGo(e.s.requests[id])
    {
      assert Unmoved(e, e', id) || Moved(e.s.requests[id], e'.s.requests[id]);
    }
  }

  // ----- one action -----

  /** Work left, and one more while a step has settled everything but has not ended. */
  ghost function Left(e: Engine): nat {
    Work(e.s) + (if !e.phase.Idle? && e.s.inflight == map[] then 1 else 0)
  }

  /** An action that ends a step. */
  ghost predicate Ends(e: Engine, e': Engine) {
    !e.phase.Idle? && e'.phase.Idle?
  }

  ghost function Ended(e: Engine, e': Engine): nat {
    if Ends(e, e') then 1 else 0
  }

  lemma ProgressLeft(e: Engine, e': Engine)
    requires EngineInv(e) && EngineInv(e') && Progress(e.s, e'.s) && (e.phase.Idle? ==> e'.phase.Idle?)
    ensures Left(e') + Ended(e, e') <= Left(e)
  {
    hide SchedInv;
    hide KeysOk;
    hide Pending;
    hide ToGo;
    InflightRequests(e.s);
    ProgressWork(e.s, e'.s);
  }

  lemma InflightRequests(s: Sched)
    requires SchedInv(s)
    ensures forall id :: id in s.inflight ==> id in s.requests
  {
    hide PoolInv;
  }

  lemma BeginLeft(setup: Setup, e: Engine, now: real, planNow: real)
    requires EngineInv(e) && e.phase.Idle? && setup.limits.Valid()
    ensures e.s.pool.blockSize > 0
    ensures Left(BeginStep(setup, e, now, planNow)) <= Left(e)
  {
    hide SchedInv;
    hide KeysOk;
    hide ToGo;
    hide MetadataFor;
    InflightOwned(e.s);
    var s1, s2, plan := BeginOutcome(setup, e, now, planNow);
    BegunWork(setup, e, now, planNow, s1, s2, plan, BeginStep(setup, e, now, planNow));
    FinishKeepsPhase(e.(s := s1), Expire(e.s, now).1);
    if plan.decode != [] || plan.prefill != [] { PlannedInflight(setup.limits, s2, plan); }
  }

  lemma PlannedInflight(l: Limits, s: Sched, plan: StepPlan)
    requires PlanOk(l, s, plan) && (plan.decode != [] || plan.prefill != [])
    ensures s.inflight != map[]
  {
    hide SchedInv;
    hide DecodeItemFits;
    hide PrefillItemFits;
    if plan.decode != [] {
      assert DecodeItemOk(s, plan.decode[0]);
    } else {
      assert PrefillItemOk(s, plan.prefill[0]);
    }
  }

  lemma BegunWork(setup: Setup, e: Engine, now: real, planNow: real, s1: Sched, s2: Sched, plan: StepPlan, e': Engine)
    requires Begun(setup, e, now, planNow, s1, s2, plan, e') && SchedInv(e.s) && (forall id :: id in e.s.inflight ==> id in e.s.requests)
    requires SchedInv(s1)
    ensures Work(s2) <= Work(e.s)
  {
    hide SchedInv;
    hide ToGo;
    hide PlanOk;
    hide Plan;
    ExpireProgress(e.s, now, e.s.order, []);
    ProgressWork(e.s, s1);
    ExpireProgress(s1, planNow, s1.order, []);
    InflightRequests(s1);
    ProgressWork(s1, Expire(s1, planNow).0);
  }

  /** How much work an action may bring in: an admitted request's prompt and tokens. */
  function Brings(a: Action): nat {
    if a.SubmitAction? && a.sub.maxNew > 0 then |a.sub.prompt| + a.sub.maxNew else 0
  }

  lemma SubmitWork(s: Sched, sub: Submission, now: real)
    requires SchedInv(s) && s.pool.blockSize > 0
    ensures Work(Submit(s, sub, now).0) <= Work(s) + Brings(SubmitAction(sub, now))
    ensures Submit(s, sub, now).0.inflight == s.inflight
  {
    hide SchedInv;
    hide ToGo;
    var s' := Submit(s, sub, now).0;
    if s' != s {
      var r := s'.requests[sub.id];
      assert ToGoAll(s'.requests) == ToGoAll(s.requests)[sub.id := ToGo(r)];
      SumMapPut(ToGoAll(s.requests), sub.id, ToGo(r));
      SumMapDrop(ToGoAll(s.requests), sub.id);
      FreshToGo(sub, r.state, r.submittedAt);
    }
  }

  lemma FreshToGo(sub: Submission, state: RequestState, now: real)
    requires sub.maxNew > 0 && state in {PREFILL, REJECTED}
    ensures ToGo(ToRequest(sub, state, now)) <= |sub.prompt| + sub.maxNew
  {
  }

  lemma StepLeft(setup: Setup, e: Engine, a: Action)
    requires EngineInv(e) && setup.limits.Valid()
    ensures e.s.pool.blockSize > 0
    ensures Left(Step(setup, e, a)) + Ended(e, Step(setup, e, a)) <= Left(e) + Brings(a)
  {
    hide SchedInv;
    hide KeysOk;
    hide Pending;
    hide MetaOk;
    hide ToGo;
    hide Progress;
    EngineDimensions(e);
    StepKeeps(setup, e, a);
    var e' := Step(setup, e, a);
    if a.SubmitAction? {
      SubmitWork(e.s, a.sub, a.now);
    } else if a.BeginAction? && e.phase.Idle? {
      BeginLeft(setup, e, a.now, a.planNow);
    } else {
      StepEvolves(setup, e, a);
      EvolvedProgress(e, e');
      ProgressLeft(e, e');
    }
  }

  // ----- every run -----

  /** How many steps a run completed. */
  ghost function StepsEnded(setup: Setup, e: Engine, actions: seq<Action>): nat
    requires EngineInv(e) && setup.limits.Valid()
    decreases |actions|
  {
    if actions == [] then 0
    else
      var last := |actions| - 1;
      StepsEnded(setup, e, actions[..last]) + Ended(RunEngine(setup, e, actions[..last]), RunEngine(setup, e, actions))
  }

  function Brought(actions: seq<Action>): nat
    decreases |actions|
  {
    if actions == [] then 0 else Brought(actions[..|actions| - 1]) + Brings(actions[|actions| - 1])
  }

  lemma {:induction false} RunDrains(setup: Setup, e: Engine, actions: seq<Action>)
    requires EngineInv(e) && setup.limits.Valid()
    ensures StepsEnded(setup, e, actions) + Left(RunEngine(setup, e, actions)) <= Left(e) + Brought(actions)
    decreases |actions|
  {
    hide EngineInv;
    hide Left;
    hide Ended;
    if actions != [] {
      var before := RunEngine(setup, e, actions[..|actions| - 1]);
      RunDrains(setup, e, actions[..|actions| - 1]);
      StepLeft(setup, before, actions[|actions| - 1]);
    }
  }

  /** Between steps no work is left exactly when no request is live. */
  lemma NoWorkNoRequest(s: Sched)
    requires SchedInv(s)
    ensures Work(s) == 0 <==> forall id :: id in s.requests ==> s.requests[id].Finished()
  {
    hide SchedInv;
    hide ToGo;
    if forall id :: id in s.requests ==> s.requests[id].Finished() {
      ZeroSum(ToGoAll(s.requests), s);
    } else {
      var id :| id in s.requests && !s.requests[id].Finished();
      NotWaiting(s, id);
      LiveToGo(s, id);
      SumMapTake(ToGoAll(s.requests), id);
    }
  }

  lemma {:induction false} ZeroSum(m: map<Id, nat>, s: Sched)
    requires forall id :: id in m ==> id in s.requests && m[id] == ToGo(s.requests[id]) && s.requests[id].Finished()
    ensures SumMap(m) == 0
    decreases |m|
  {
    if m != map[] {
      var id :| id in m;
      SumMapTake(m, id);
      ZeroSum(m - {id}, s);
    }
  }

  /** The engine drains: a run completes at most as many steps with live requests as the
      prompt tokens and token limits submitted to it, so after that many steps every
      request is terminal, whatever the executor does. */
  lemma EngineDrains(setup: Setup, numBlocks: nat, blockSize: nat, cells: Cells, actions: seq<Action>)
    requires setup.limits.Valid() && blockSize > 0
    ensures EngineInv(Start(numBlocks, blockSize, cells))
    ensures var e := RunEngine(setup, Start(numBlocks, blockSize, cells), actions);
      && StepsEnded(setup, Start(numBlocks, blockSize, cells), actions) + Work(e.s) <= Brought(actions)
      && (StepsEnded(setup, Start(numBlocks, blockSize, cells), actions) == Brought(actions) ==>
            forall id :: id in e.s.requests ==> e.s.requests[id].Finished())
  {
    hide SchedInv;
    hide PhaseInv;
    hide KeysOk;
    StartInv(numBlocks, blockSize, cells);
    var e0 := Start(numBlocks, blockSize, cells);
    RunDrains(setup, e0, actions);
    assert ToGoAll(e0.s.requests) == map[];
    NoWorkNoRequest(RunEngine(setup, e0, actions).s);
  }

  /** The action a phase waits for. */
  predicate Awaited(phase: Phase, a: Action) {
    match phase
    case DecodePending(_, _) => a.DecodeExecAction?
    case DecodeReturned(_, _) => a.DecodeCommitAction?
    case PrefillPending(_) => a.PrefillExecAction?
    case PrefillReturned(_, _) => a.PrefillCommitAction?
    case Failing(_) => a.CleanupAction?
    case _ => false
  }

  function Rank(phase: Phase): nat {
    match phase
    case DecodePending(_, _) => 5
    case DecodeReturned(_, _) => 4
    case PrefillPending(_) => 3
    case PrefillReturned(_, _) => 2
    case Failing(_) => 1
    case _ => 0
  }

  /** A step that began ends after at most five of its own actions; submits and cancels in
      between do not set it back. */
  lemma StepsEnd(setup: Setup, e: Engine, a: Action)
    requires EngineInv(e) && setup.limits.Valid() && !e.phase.Idle?
    ensures e.s.pool.blockSize > 0
    ensures Awaited(e.phase, a) ==> Rank(Step(setup, e, a).phase) < Rank(e.phase)
    ensures !Awaited(e.phase, a) ==> Step(setup, e, a).phase == e.phase
  {
    hide SchedInv;
    hide KeysOk;
    hide Pending;
    hide MetaOk;
    hide DecodeExec;
    hide PrefillExec;
    hide CommitDecodes;
    hide CommitPrefills;
    hide FailAll;
    EngineDimensions(e);
  }
}
