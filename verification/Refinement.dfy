/** Continuous batching over paged memory refines serving each request alone. */
module Refinement {
  import opened Basics
  import opened PagedKV
  import opened PagedStorage
  import opened GraphBuckets
  import opened Scheduler
  import opened SchedulerInvariant
  import opened PlanInvariant
  import opened Executor
  import opened Engine
  import opened EngineInvariant
  import opened Alone

  // ----- what the tokens, samplers, pages and caches hold -----

  /** What a request generated so far is what it would have generated alone. */
  ghost predicate GeneratedOk(m: Model, r: Request) {
    r.state != REJECTED ==>
      && r.prompt != []
      && (Live(r) ==> AloneFrom(m, r.prompt, r.sampling, r.maxNew, r.generated) == RunAlone(m, r))
      && (r.state == FINISHED ==> r.generated == RunAlone(m, r))
      && r.generated <= RunAlone(m, r)
  }

  ghost predicate GeneratedAll(m: Model, s: Sched) {
    forall id :: id in s.requests ==> GeneratedOk(m, s.requests[id])
  }

  /** The sampler of a live request was used once per generated token. */
  ghost predicate SamplersOk(s: Sched, samplers: map<Id, Sampler>) {
    forall id :: id in s.requests && Live(s.requests[id]) ==>
      id in samplers && samplers[id] == Sampler(s.requests[id].sampling, |s.requests[id].generated|)
  }

  /** Positions written and committed. */
  function Committed(r: Request): nat {
    if r.state == PREFILL then r.cursor
    else |r.prompt| + (if r.generated == [] then 0 else |r.generated| - 1)
  }

  /** The pages of `a` hold the first `n` rows of the context of `tokens`. */
  ghost predicate Holds(m: Model, blockSize: nat, a: Allocation, cells: Cells, tokens: seq<Token>, n: nat)
    requires blockSize > 0
  {
    n <= |tokens| && forall p :: 0 <= p < n ==> CellAt(blockSize, a, cells, p) == Context(m, tokens)[p]
  }

  /** A live request's pages and prefill cache hold its committed context. */
  ghost predicate Clean(m: Model, s: Sched, cells: Cells, caches: Caches, id: Id)
    requires s.pool.blockSize > 0 && id in s.pool.requests && id in s.requests
  {
    && Holds(m, s.pool.blockSize, s.pool.requests[id], cells, Tokens(s.requests[id]), Committed(s.requests[id]))
    && (s.requests[id].state == PREFILL ==>
          s.requests[id].cursor <= |s.requests[id].prompt| &&
          CacheOf(caches, id) == Context(m, s.requests[id].prompt[..s.requests[id].cursor]))
  }

  ghost predicate CleanBut(m: Model, s: Sched, cells: Cells, caches: Caches, ids: seq<Id>) {
    && s.pool.blockSize > 0
    && forall id :: id in s.pool.requests && id !in ids ==> id in s.requests && Clean(m, s, cells, caches, id)
  }

  /** A decode item was executed: its row is in its slot and its logits are those of the whole
      token sequence, read through the pages. */
  ghost predicate DecodeDone(m: Model, s: Sched, cells: Cells, logits: map<Id, Logits>, w: DecodeWork) {
    && s.pool.blockSize > 0
    && (w.id in s.inflight ==>
          && w.id in s.pool.requests && w.id in s.requests && Tokens(s.requests[w.id]) != []
          && Holds(m, s.pool.blockSize, s.pool.requests[w.id], cells, Tokens(s.requests[w.id]), |Tokens(s.requests[w.id])|)
          && (w.id in logits ==> logits[w.id] == LogitsAfter(m, Tokens(s.requests[w.id]))))
  }

  /** A prefill item was executed: rows, cache and logits are those of the prompt up to its end. */
  ghost predicate PrefillDone(m: Model, s: Sched, cells: Cells, caches: Caches, logits: map<Id, Logits>, w: PrefillWork) {
    && s.pool.blockSize > 0
    && (w.id in s.inflight ==>
          && w.id in s.pool.requests && w.id in s.requests
          && PrefillRead(m, s.pool.blockSize, s.requests[w.id], s.pool.requests[w.id], cells, caches, logits, w))
  }

  ghost predicate PrefillRead(m: Model, blockSize: nat, r: Request, a: Allocation, cells: Cells, caches: Caches,
                              logits: map<Id, Logits>, w: PrefillWork)
    requires blockSize > 0
  {
    var n := r.cursor + |w.tokens|;
    && 0 < n <= |r.prompt|
    && Holds(m, blockSize, a, cells, r.prompt, n)
    && CacheOf(caches, w.id) == Context(m, r.prompt[..n])
    && (w.id in logits ==> logits[w.id] == LogitsAfter(m, r.prompt[..n]))
  }

  ghost predicate PhaseMeaning(m: Model, e: Engine) {
    match e.phase
    case Idle => CleanBut(m, e.s, e.cells, e.caches, [])
    case DecodePending(_, _) => CleanBut(m, e.s, e.cells, e.caches, [])
    case DecodeReturned(plan, logits) =>
      && CleanBut(m, e.s, e.cells, e.caches, [])
      && forall i :: 0 <= i < |plan.decode| ==> DecodeDone(m, e.s, e.cells, logits, plan.decode[i])
    case PrefillPending(_) => CleanBut(m, e.s, e.cells, e.caches, [])
    case PrefillReturned(plan, logits) =>
      && CleanBut(m, e.s, e.cells, e.caches, PrefillIds(plan.prefill))
      && forall i :: 0 <= i < |plan.prefill| ==> PrefillDone(m, e.s, e.cells, e.caches, logits, plan.prefill[i])
    case Failing(plan) => CleanBut(m, e.s, e.cells, e.caches, PlanIds(plan))
    case Crashed => false
  }

  ghost predicate Meaning(m: Model, e: Engine) {
    GeneratedAll(m, e.s) && SamplersOk(e.s, e.samplers) && StorageOk(e.s.pool, e.cells) && PhaseMeaning(m, e)
  }

  // ----- submit and cancel -----

  /** Requests come and go, but the ones that stay keep everything. */
  ghost predicate Quiet(e: Engine, e': Engine) {
    && e'.s.pool.blockSize == e.s.pool.blockSize && e'.cells == e.cells && e'.phase == e.phase
    && (forall id :: id in e'.s.inflight ==> id in e.s.inflight && id in e'.s.pool.requests)
    && (forall id :: id in e'.s.pool.requests ==> id in e'.s.requests && (Stays(e, e', id) || Fresh(e', id)))
  }

  ghost predicate Stays(e: Engine, e': Engine, id: Id)
    requires id in e'.s.pool.requests && id in e'.s.requests
  {
    && id in e.s.pool.requests && id in e.s.requests
    && e'.s.requests[id] == e.s.requests[id] && e'.s.pool.requests[id] == e.s.pool.requests[id]
    && CacheOf(e'.caches, id) == CacheOf(e.caches, id)
  }

  ghost predicate Fresh(e: Engine, id: Id)
    requires id in e.s.requests
  {
    && e.s.requests[id].state == PREFILL && e.s.requests[id].cursor == 0 && e.s.requests[id].generated == []
    && id !in e.s.inflight && id !in e.caches
  }

  lemma QuietMeaning(m: Model, e: Engine, e': Engine)
    requires PhaseMeaning(m, e) && Quiet(e, e')
    ensures PhaseMeaning(m, e')
  {
    hide Holds;
    hide CleanBut;
    match e.phase
    case Idle => QuietClean(m, e, e', []);
    case DecodePending(_, _) => QuietClean(m, e, e', []);
    case DecodeReturned(plan, logits) => QuietClean(m, e, e', []);
    case PrefillPending(_) => QuietClean(m, e, e', []);
    case PrefillReturned(plan, logits) =>
      QuietClean(m, e, e', PrefillIds(plan.prefill));
      forall i | 0 <= i < |plan.prefill|
        ensures PrefillDone(m, e'.s, e'.cells, e'.caches, logits, plan.prefill[i])
      {
        assert PrefillDone(m, e.s, e.cells, e.caches, logits, plan.prefill[i]);
      }
    case Failing(plan) => QuietClean(m, e, e', PlanIds(plan));
  }

  lemma QuietClean(m: Model, e: Engine, e': Engine, ids: seq<Id>)
    requires CleanBut(m, e.s, e.cells, e.caches, ids) && Quiet(e, e')
    ensures CleanBut(m, e'.s, e'.cells, e'.caches, ids)
  {
    forall id | id in e'.s.pool.requests && id !in ids
      ensures Clean(m, e'.s, e'.cells, e'.caches, id)
    {
      if Stays(e, e', id) { assert Clean(m, e.s, e.cells, e.caches, id); }
    }
  }

  lemma SubmitMeaning(m: Model, e: Engine, sub: Submission, now: real)
    requires EngineInv(e) && Meaning(m, e)
    ensures e.s.pool.blockSize > 0 && Meaning(m, SubmitStep(e, sub, now))
  {
    hide SchedInv;
    hide PhaseInv;
    hide PhaseMeaning;
    hide KeysOk;
    hide RunAlone;
    hide AloneFrom;
    InflightOwned(e.s);
    SubmitJoins(e.s, sub, now);
    SubmitQuiet(e, sub, now);
    SubmitGenerated(m, e, sub, now);
    QuietMeaning(m, e, SubmitStep(e, sub, now));
    SubmitSamplers(e, sub, now);
  }

  lemma SubmitQuiet(e: Engine, sub: Submission, now: real)
    requires EngineInv(e)
    ensures e.s.pool.blockSize > 0 && Quiet(e, SubmitStep(e, sub, now))
    ensures SubmitStep(e, sub, now).s.pool.numBlocks == e.s.pool.numBlocks
  {
    hide SchedInv;
    hide PhaseInv;
    hide Submit;
    hide Quiet;
    hide Joined;
    hide OwnersOk;
    InflightOwned(e.s);
    SubmitJoins(e.s, sub, now);
    SubmitChanges(e.s, sub, now);
    var (s', r) := Submit(e.s, sub, now);
    if r.Returns? || r == Raises(AdmissionError) {
      Uncached(e, sub.id);
      NewId(e.s, s', sub.id);
      JoinedQuiet(e, SubmitStep(e, sub, now), sub.id);
    } else {
      SameQuiet(e);
    }
  }

  lemma NewId(s: Sched, s': Sched, id: Id)
    requires Joined(s, s', id)
    ensures id !in s.requests && id !in s.pool.requests
  {
  }

  lemma Uncached(e: Engine, id: Id)
    requires KeysOk(e)
    ensures id !in e.s.requests ==> id !in e.caches
  {
  }

  lemma SameQuiet(e: Engine)
    requires OwnersOk(e.s) && forall i :: i in e.s.inflight ==> i in e.s.pool.requests
    ensures Quiet(e, e)
  {
  }

  lemma JoinedQuiet(e: Engine, e': Engine, id: Id)
    requires OwnersOk(e.s) && (forall i :: i in e.s.inflight ==> i in e.s.pool.requests) && Joined(e.s, e'.s, id)
    requires e'.cells == e.cells && e'.phase == e.phase && e'.caches == e.caches && (id !in e.s.requests ==> id !in e.caches)
    requires id in e'.s.pool.requests ==>
      id in e'.s.requests && e'.s.requests[id].state == PREFILL && e'.s.requests[id].cursor == 0 && e'.s.requests[id].generated == []
    ensures Quiet(e, e')
  {
  }

  /** A submit only adds. */
  lemma SubmitChanges(s: Sched, sub: Submission, now: real)
    requires s.pool.blockSize > 0
    ensures Submit(s, sub, now).0.pool.numBlocks == s.pool.numBlocks
    ensures Submit(s, sub, now).0.pool.blockSize == s.pool.blockSize
    ensures sub.id in Submit(s, sub, now).0.pool.requests && sub.id !in s.pool.requests ==>
      && sub.id in Submit(s, sub, now).0.requests && Submit(s, sub, now).0.requests[sub.id] == ToRequest(sub, PREFILL, now)
  {
  }

  lemma SubmitGenerated(m: Model, e: Engine, sub: Submission, now: real)
    requires e.s.pool.blockSize > 0 && GeneratedAll(m, e.s)
    ensures GeneratedAll(m, SubmitStep(e, sub, now).s)
  {
  }

  lemma SubmitSamplers(e: Engine, sub: Submission, now: real)
    requires e.s.pool.blockSize > 0 && SamplersOk(e.s, e.samplers)
    ensures SamplersOk(SubmitStep(e, sub, now).s, SubmitStep(e, sub, now).samplers)
  {
    hide Submit;
    SubmitOutcome(e.s, sub, now);
  }

  lemma CancelMeaning(m: Model, e: Engine, id: Id)
    requires EngineInv(e) && Meaning(m, e)
    ensures Meaning(m, CancelStep(e, id))
  {
    hide SchedInv;
    hide PhaseInv;
    hide PhaseMeaning;
    hide KeysOk;
    InflightOwned(e.s);
    if id in e.s.requests && !e.s.requests[id].Finished() {
      NotWaiting(e.s, id);
      RetiredMeaning(m, e, id, CANCELLED, CancelStep(e, id));
    }
  }

  /** Ending one request early leaves the others as they are. */
  lemma RetiredMeaning(m: Model, e: Engine, id: Id, state: RequestState, e': Engine)
    requires OwnersOk(e.s) && id in e.s.requests && Live(e.s.requests[id]) && state in {CANCELLED, TIMED_OUT, FAILED}
    requires Meaning(m, e)
    requires e'.s == Terminate(e.s, id, state) && e'.caches == e.caches - {id}
    requires e'.cells == e.cells && e'.phase == e.phase && e'.samplers == e.samplers
    ensures Meaning(m, e')
  {
    hide PhaseMeaning;
    hide OwnersOk;
    hide SamplersOk;
    hide GeneratedAll;
    hide Quiet;
    hide Terminate;
    RetiredQuiet(e, id, state, e');
    QuietMeaning(m, e, e');
    RetiredGenerated(m, e.s, id, state);
    RetiredSamplers(e, id, state, e');
  }

  lemma RetiredSamplers(e: Engine, id: Id, state: RequestState, e': Engine)
    requires SamplersOk(e.s, e.samplers) && id in e.s.requests && state in {CANCELLED, TIMED_OUT, FAILED}
    requires e'.s == Terminate(e.s, id, state) && e'.samplers == e.samplers
    ensures SamplersOk(e'.s, e'.samplers)
  {
  }

  lemma RetiredQuiet(e: Engine, id: Id, state: RequestState, e': Engine)
    requires OwnersOk(e.s) && id in e.s.requests && Live(e.s.requests[id])
    requires e'.s == Terminate(e.s, id, state) && e'.caches == e.caches - {id}
    requires e'.cells == e.cells && e'.phase == e.phase
    ensures Quiet(e, e') && e'.s.pool.numBlocks == e.s.pool.numBlocks && e'.s.pool.blockSize == e.s.pool.blockSize
  {
    forall i | i in e'.s.pool.requests
      ensures i in e'.s.requests && Stays(e, e', i)
    {
      assert i != id;
    }
  }

  lemma RetiredGenerated(m: Model, s: Sched, id: Id, state: RequestState)
    requires GeneratedAll(m, s) && id in s.requests && state in {CANCELLED, TIMED_OUT, FAILED} && Live(s.requests[id])
    ensures GeneratedAll(m, Terminate(s, id, state))
  {
    assert GeneratedOk(m, s.requests[id]);
  }

  // ----- beginning a step -----

  lemma {:induction false} ExpirePool(s: Sched, now: real, ids: seq<Id>, expired: seq<Id>)
    ensures BlocksGrow(s.pool, ExpireFrom(s, now, ids, expired).0.pool)
    ensures forall id :: id in ExpireFrom(s, now, ids, expired).1 && id !in expired ==>
      id !in ExpireFrom(s, now, ids, expired).0.pool.requests
    decreases |ids|
  {
    if ids != [] {
      if ids[0] in s.requests && Due(s.requests[ids[0]], now) {
        var s1 := Terminate(s, ids[0], TIMED_OUT);
        ExpirePool(s1, now, ids[1..], expired + [ids[0]]);
        BlocksGrowOn(s.pool, s1.pool, ExpireFrom(s, now, ids, expired).0.pool);
      } else {
        ExpirePool(s, now, ids[1..], expired);
      }
    }
  }

  lemma {:induction false} FinishExpiredCaches(e: Engine, ids: seq<Id>, id: Id)
    ensures id !in ids ==> Get(FinishExpired(e, ids).caches, id) == Get(e.caches, id)
    decreases |ids|
  {
    if ids != [] {
      var e1 := Finish(e.(metrics := e.metrics.(timedOut := e.metrics.timedOut + 1)), ids[0], Timeout);
      FinishExpiredCaches(e1, ids[1..], id);
    }
  }

  /** A request keeps its committed rows while its blocks grow. */
  lemma GrownHolds(m: Model, blockSize: nat, a: Allocation, a': Allocation, cells: Cells, tokens: seq<Token>, n: nat)
    requires blockSize > 0 && a.blocks <= a'.blocks && n <= a.length && |a.blocks| == CeilDiv(a.length, blockSize)
    requires Holds(m, blockSize, a, cells, tokens, n)
    ensures Holds(m, blockSize, a', cells, tokens, n)
  {
    hide Context;
    forall p: nat | p < n
      ensures CellAt(blockSize, a', cells, p) == CellAt(blockSize, a, cells, p)
    {
      GrownCell(blockSize, a, a', cells, p);
    }
  }

  lemma GrownCell(blockSize: nat, a: Allocation, a': Allocation, cells: Cells, p: nat)
    requires blockSize > 0 && a.blocks <= a'.blocks && p < a.length && |a.blocks| == CeilDiv(a.length, blockSize)
    ensures CellAt(blockSize, a', cells, p) == CellAt(blockSize, a, cells, p)
  {
    PositionInBlocks(p, a.length, blockSize);
  }

  lemma CommittedStored(s: Sched, id: Id)
    requires SchedInv(s) && id in s.pool.requests
    ensures id in s.requests && s.pool.blockSize > 0
    ensures Committed(s.requests[id]) <= s.pool.requests[id].length
    ensures |s.pool.requests[id].blocks| == CeilDiv(s.pool.requests[id].length, s.pool.blockSize)
  {
    hide PoolDisjoint;
    hide PoolCovers;
    hide PoolCount;
    hide QueuesOk;
    hide ReservedOk;
    assert AllocationOk(s.pool.numBlocks, s.pool.blockSize, s.pool.free, s.pool.requests[id]);
    assert RequestOk(s.requests[id], s.pool.requests[id].length, Get(s.inflight, id));
  }

  lemma BegunClean(m: Model, s: Sched, caches: Caches, cells: Cells, s2: Sched, caches': Caches)
    requires SchedInv(s) && CleanBut(m, s, cells, caches, [])
    requires BlocksGrow(s.pool, s2.pool) && s2.pool.blockSize == s.pool.blockSize
    requires forall id :: id in s2.pool.requests ==>
      id in s2.requests && id in s.requests && s2.requests[id] == s.requests[id] && Get(caches', id) == Get(caches, id)
    ensures CleanBut(m, s2, cells, caches', [])
  {
    hide SchedInv;
    hide Holds;
    forall id | id in s2.pool.requests
      ensures Clean(m, s2, cells, caches', id)
    {
      assert Clean(m, s, cells, caches, id);
      CommittedStored(s, id);
      GrownHolds(m, s.pool.blockSize, s.pool.requests[id], s2.pool.requests[id], cells, Tokens(s.requests[id]), Committed(s.requests[id]));
    }
  }

  lemma ExpiredGenerated(m: Model, s: Sched, s': Sched)
    requires GeneratedAll(m, s) && OnlyExpired(s, s')
    ensures GeneratedAll(m, s')
  {
    forall id | id in s'.requests
      ensures GeneratedOk(m, s'.requests[id])
    {
      assert GeneratedOk(m, s.requests[id]);
    }
  }

  lemma ExpiredSamplers(e: Engine, e': Engine)
    requires SamplersOk(e.s, e.samplers) && OnlyExpired(e.s, e'.s) && e'.samplers == e.samplers
    ensures SamplersOk(e'.s, e'.samplers)
  {
  }

  lemma OnlyExpiredOn(s: Sched, s1: Sched, s2: Sched)
    requires OnlyExpired(s, s1) && OnlyExpired(s1, s2)
    ensures OnlyExpired(s, s2)
  {
  }

  /** The requests that are still live after the two expiries of a step are unchanged. */
  lemma LiveUnchanged(s: Sched, s2: Sched)
    requires OnlyExpired(s, s2) && OwnersOk(s2)
    ensures forall id :: id in s2.pool.requests ==> id in s2.requests && id in s.requests && s2.requests[id] == s.requests[id]
  {
  }

  /** The blocks of the requests that stay live through a begun step. */
  lemma BegunBlocks(setup: Setup, e: Engine, now: real, planNow: real, s1: Sched, s2: Sched, plan: StepPlan, e': Engine)
    requires Begun(setup, e, now, planNow, s1, s2, plan, e')
    ensures BlocksGrow(s1.pool, s2.pool) && BlocksGrow(e.s.pool, s2.pool)
    ensures e'.s == s2 && e'.cells == e.cells && e'.samplers == e.samplers
  {
    hide SoFar;
    hide SchedInv;
    ExpirePool(e.s, now, e.s.order, []);
    ExpirePool(s1, planNow, s1.order, []);
    BlocksGrowOn(s1.pool, Expire(s1, planNow).0.pool, s2.pool);
    BlocksGrowOn(e.s.pool, s1.pool, s2.pool);
    FinishKeepsPhase(e.(s := s1), Expire(e.s, now).1);
  }

  lemma BegunCaches(setup: Setup, e: Engine, now: real, planNow: real, s1: Sched, s2: Sched, plan: StepPlan, e': Engine)
    requires Begun(setup, e, now, planNow, s1, s2, plan, e')
    ensures forall id :: id in s1.pool.requests ==> Get(e'.caches, id) == Get(e.caches, id)
  {
    hide SoFar;
    hide SchedInv;
    ExpirePool(e.s, now, e.s.order, []);
    forall id | id in s1.pool.requests
      ensures Get(e'.caches, id) == Get(e.caches, id)
    {
      FinishExpiredCaches(e.(s := s1), Expire(e.s, now).1, id);
    }
  }

  lemma BegunDimensions(setup: Setup, e: Engine, now: real, planNow: real, s1: Sched, s2: Sched, plan: StepPlan, e': Engine)
    requires Begun(setup, e, now, planNow, s1, s2, plan, e')
    ensures s2.pool.blockSize == e.s.pool.blockSize && s2.pool.numBlocks == e.s.pool.numBlocks
  {
    hide SoFar;
    hide SchedInv;
    ExpireKeepsDimensions(e.s, now, e.s.order, []);
    PlanKeepsDimensions(setup.limits, setup.buckets, s1, planNow);
  }

  lemma {:induction false} PlanPrefillKeepsDimensions(s: Sched, visits: nat, chunkLimit: nat, budget: nat, done: seq<PrefillWork>)
    requires s.pool.blockSize > 0
    ensures PlanPrefill(s, visits, chunkLimit, budget, done).0.pool.blockSize == s.pool.blockSize
    ensures PlanPrefill(s, visits, chunkLimit, budget, done).0.pool.numBlocks == s.pool.numBlocks
    decreases visits
  {
    if visits > 0 {
      var (s1, visit) := VisitPrefill(s, chunkLimit, budget);
      if visit.Returns? {
        match visit.value
        case Exhausted =>
        case Skipped => PlanPrefillKeepsDimensions(s1, visits - 1, chunkLimit, budget, done);
        case Issued(work) =>
          PlanPrefillKeepsDimensions(s1, visits - 1, chunkLimit, if budget > |work.tokens| then budget - |work.tokens| else 0, done + [work]);
      }
    }
  }

  lemma PlanKeepsDimensions(l: Limits, b: Buckets, s: Sched, now: real)
    requires s.pool.blockSize > 0
    ensures Plan(l, b, s, now).0.pool.blockSize == s.pool.blockSize && Plan(l, b, s, now).0.pool.numBlocks == s.pool.numBlocks
  {
    ExpireKeepsDimensions(s, now, s.order, []);
    var s1 := Sorted(Expire(s, now).0);
    PlanDecodeKeepsDimensions(s1, Min2(|s1.decode|, l.maxBatch), []);
    var (s2, decode) := PlanDecode(s1, Min2(|s1.decode|, l.maxBatch), []);
    if decode.Returns? {
      var visits := Min2(|s2.prefill|, l.maxBatch - |decode.value|);
      PlanPrefillKeepsDimensions(s2, if visits < 0 then 0 else visits, ChunkLimit(l, decode.value != []), l.maxPrefillTokens, []);
    }
  }

  lemma BeginMeaning(setup: Setup, e: Engine, now: real, planNow: real)
    requires EngineInv(e) && e.phase.Idle? && setup.limits.Valid() && Meaning(setup.model, e)
    ensures e.s.pool.blockSize > 0 && Meaning(setup.model, BeginStep(setup, e, now, planNow))
  {
    hide SchedInv;
    hide KeysOk;
    hide Begun;
    hide GeneratedAll;
    hide SamplersOk;
    hide CleanBut;
    InflightOwned(e.s);
    var m := setup.model;
    var s1, s2, plan := BeginOutcome(setup, e, now, planNow);
    var e' := BeginStep(setup, e, now, planNow);
    BegunMeaning(setup, e, now, planNow, s1, s2, plan, e');
    BegunPhaseMeaning(setup, e, now, planNow, s1, s2, plan, e');
  }

  lemma BegunMeaning(setup: Setup, e: Engine, now: real, planNow: real, s1: Sched, s2: Sched, plan: StepPlan, e': Engine)
    requires Begun(setup, e, now, planNow, s1, s2, plan, e') && SchedInv(e.s)
    requires GeneratedAll(setup.model, e.s) && SamplersOk(e.s, e.samplers) && StorageOk(e.s.pool, e.cells)
    requires CleanBut(setup.model, e.s, e.cells, e.caches, [])
    ensures GeneratedAll(setup.model, e'.s) && SamplersOk(e'.s, e'.samplers) && StorageOk(e'.s.pool, e'.cells)
    ensures CleanBut(setup.model, e'.s, e'.cells, e'.caches, [])
  {
    hide SchedInv;
    hide GeneratedAll;
    hide SamplersOk;
    hide CleanBut;
    BegunBlocks(setup, e, now, planNow, s1, s2, plan, e');
    BegunCaches(setup, e, now, planNow, s1, s2, plan, e');
    BegunDimensions(setup, e, now, planNow, s1, s2, plan, e');
    BegunRequests(setup, e, now, planNow, s1, s2, plan, e');
    hide Begun;
    ExpiredGenerated(setup.model, e.s, s2);
    ExpiredSamplers(e, e');
    BegunClean(setup.model, e.s, e.caches, e.cells, s2, e'.caches);
  }

  lemma BegunRequests(setup: Setup, e: Engine, now: real, planNow: real, s1: Sched, s2: Sched, plan: StepPlan, e': Engine)
    requires Begun(setup, e, now, planNow, s1, s2, plan, e')
    ensures OnlyExpired(e.s, s2)
    ensures forall id :: id in s2.pool.requests ==> id in s2.requests && id in e.s.requests && s2.requests[id] == e.s.requests[id]
  {
    hide SchedInv;
    SoFarOwned(setup.limits, s2, plan);
    InflightOwned(s2);
    OnlyExpiredOn(e.s, s1, s2);
    LiveUnchanged(e.s, s2);
  }

  lemma BegunPhaseMeaning(setup: Setup, e: Engine, now: real, planNow: real, s1: Sched, s2: Sched, plan: StepPlan, e': Engine)
    requires Begun(setup, e, now, planNow, s1, s2, plan, e')
    requires CleanBut(setup.model, e'.s, e'.cells, e'.caches, [])
    ensures PhaseMeaning(setup.model, e')
  {
    hide CleanBut;
    hide PlanOk;
    hide PlanTurns;
    hide PlanReady;
    hide Plan;
    hide MetadataFor;
    hide FinishExpired;
    if e'.phase.Failing? { CleanButMore(setup.model, e', PlanIds(e'.phase.plan)); }
  }

  lemma CleanButMore(m: Model, e: Engine, ids: seq<Id>)
    requires CleanBut(m, e.s, e.cells, e.caches, [])
    ensures CleanBut(m, e.s, e.cells, e.caches, ids)
  {
    hide Clean;
  }
}
