/** What `plan` hands out: never an exception, distinct requests, exactly the in-flight work,
    each item with the slots of its own positions, inside the batch and token limits. */
module PlanInvariant {
  import opened Basics
  import opened PagedKV
  import opened GraphBuckets
  import opened Scheduler
  import opened SchedulerInvariant

  // ----- the stable sort -----

  lemma {:induction false} InsertMembers(requests: map<Id, Request>, id: Id, q: seq<Id>)
    requires NoDup(q) && id !in q
    ensures NoDup(InsertByPriority(requests, id, q))
    ensures forall x :: x in InsertByPriority(requests, id, q) <==> x == id || x in q
    ensures |InsertByPriority(requests, id, q)| == |q| + 1
  {
    if q != [] && Priority(requests, id) < Priority(requests, q[0]) {
      InsertMembers(requests, id, q[1..]);
      assert q == [q[0]] + q[1..];
      var rest := InsertByPriority(requests, id, q[1..]);
      assert q[0] !in q[1..];
      assert q[0] !in rest;
    }
  }

  /** Sorting only permutes a queue. */
  lemma {:induction false} SortMembers(requests: map<Id, Request>, q: seq<Id>)
    requires NoDup(q)
    ensures NoDup(ByPriority(requests, q))
    ensures forall x :: x in ByPriority(requests, q) <==> x in q
    ensures |ByPriority(requests, q)| == |q|
  {
    if q != [] {
      SortMembers(requests, q[1..]);
      assert q == [q[0]] + q[1..];
      assert q[0] !in q[1..];
      InsertMembers(requests, q[0], ByPriority(requests, q[1..]));
    }
  }

  lemma SortKeeps(s: Sched)
    requires SchedInv(s)
    ensures SchedInv(Sorted(s))
  {
    SortMembers(s.requests, s.decode);
    SortMembers(s.requests, s.prefill);
    SortKept(s, Sorted(s));
  }

  lemma SortKept(s: Sched, s': Sched)
    requires SchedInv(s) && s' == s.(decode := s'.decode, prefill := s'.prefill)
    requires NoDup(s'.decode) && NoDup(s'.prefill)
    requires forall x :: x in s'.decode <==> x in s.decode
    requires forall x :: x in s'.prefill <==> x in s.prefill
    ensures SchedInv(s')
  {
    hide PoolInv;
    hide RequestOk;
  }

  // ----- the two loops -----

  ghost predicate DecodeItemsOk(s: Sched, work: seq<DecodeWork>) {
    forall i :: 0 <= i < |work| ==> DecodeItemOk(s, work[i])
  }

  ghost predicate PrefillItemsOk(s: Sched, work: seq<PrefillWork>) {
    forall i :: 0 <= i < |work| ==> PrefillItemOk(s, work[i])
  }

  /** The first `n` turns of a queue have no work in flight. */
  ghost predicate Untouched(q: seq<Id>, n: nat, inflight: map<Id, Inflight>) {
    n <= |q| && forall i :: 0 <= i < n ==> q[i] !in inflight
  }

  lemma UntouchedRotated(s: Sched, s': Sched, q: seq<Id>, n: nat)
    requires NoDup(q) && 0 < n && Untouched(q, n, s.inflight) && OnlyIssued(s, s', q[0])
    ensures Untouched(Rotated(q), n - 1, s'.inflight)
  {
  }

  /** Items handed out before stay right while another request gets work. */
  lemma DecodeItemsKept(s: Sched, s': Sched, id: Id, done: seq<DecodeWork>)
    requires OnlyIssued(s, s', id) && id !in s.inflight && DecodeItemsOk(s, done)
    ensures DecodeItemsOk(s', done)
  {
    hide DecodeItemFits;
    forall i | 0 <= i < |done|
      ensures DecodeItemOk(s', done[i])
    {
      assert DecodeItemOk(s, done[i]);
    }
  }

  lemma PrefillItemsKept(s: Sched, s': Sched, id: Id, done: seq<PrefillWork>)
    requires OnlyIssued(s, s', id) && id !in s.inflight && PrefillItemsOk(s, done)
    ensures PrefillItemsOk(s', done)
  {
    hide PrefillItemFits;
    forall i | 0 <= i < |done|
      ensures PrefillItemOk(s', done[i])
    {
      assert PrefillItemOk(s, done[i]);
    }
  }

  /** The work in flight is exactly the work handed out. */
  ghost predicate Tracks(s: Sched, ids: seq<Id>) {
    forall id :: id in s.inflight <==> id in ids
  }

  lemma TracksStep(s: Sched, s': Sched, id: Id, ids: seq<Id>, ids': seq<Id>)
    requires OnlyIssued(s, s', id) && Tracks(s, ids)
    requires forall x :: x in ids' <==> x == id || x in ids
    ensures Tracks(s', ids')
  {
  }

  lemma QueuesNoDup(s: Sched)
    requires SchedInv(s)
    ensures NoDup(s.decode) && NoDup(s.prefill) && s.pool.blockSize > 0
  {
  }

  /** The queue after `n` turns, and the ids served by them. */
  ghost predicate Turned(q: seq<Id>, n: nat, q': seq<Id>, before: seq<Id>, after: seq<Id>) {
    n <= |q| && q' == q[n..] + q[..n] && after == before + q[..n]
  }

  lemma TurnedStep(q: seq<Id>, n: nat, q': seq<Id>, before: seq<Id>, after: seq<Id>)
    requires 0 < n <= |q| && Turned(Rotated(q), n - 1, q', before + [q[0]], after)
    ensures Turned(q, n, q', before, after)
  {
    assert Rotated(q)[..n - 1] == q[1..n];
    assert [q[0]] + q[1..n] == q[..n];
    assert before + [q[0]] + q[1..n] == before + ([q[0]] + q[1..n]);
    assert Rotated(q)[n - 1..] == q[n..] + [q[0]];
    assert q[n..] + [q[0]] + q[1..n] == q[n..] + ([q[0]] + q[1..n]);
  }

  lemma BlocksGrowOn(p: Pool, q: Pool, r: Pool)
    requires BlocksGrow(p, q) && BlocksGrow(q, r)
    ensures BlocksGrow(p, r)
  {
  }

  lemma NoGrowth(p: Pool)
    ensures BlocksGrow(p, p)
  {
  }

  lemma TurnedFirst(q: seq<Id>, n: nat, q': seq<Id>, ids: seq<Id>)
    requires Turned(q, n, q', [], ids)
    ensures n <= |q| && ids == q[..n] && |q'| == |q|
  {
  }

  lemma NoTurn(q: seq<Id>, ids: seq<Id>)
    ensures Turned(q, 0, q, ids, ids)
  {
  }

  /** The decode items so far are right, and are the only work in flight. */
  ghost predicate DecodeSoFar(s: Sched, done: seq<DecodeWork>) {
    SchedInv(s) && Sampled(s) && DecodeItemsOk(s, done) && Tracks(s, DecodeIds(done))
  }

  lemma DecodeTurn(s: Sched, visits: nat, done: seq<DecodeWork>) returns (s': Sched, w: DecodeWork)
    requires DecodeSoFar(s, done) && visits > 0 && Untouched(s.decode, visits, s.inflight)
    ensures VisitDecode(s) == (s', Returns([w]))
    ensures BlocksGrow(s.pool, s'.pool)
    ensures DecodeSoFar(s', done + [w]) && Untouched(s'.decode, visits - 1, s'.inflight)
    ensures DecodeIds(done + [w]) == DecodeIds(done) + [s.decode[0]]
    ensures s'.requests == s.requests && s'.prefill == s.prefill && s'.decode == Rotated(s.decode)
  {
    hide SchedInv;
    hide DecodeItemOk;
    QueuesNoDup(s);
    s', w := VisitDecodeIssues(s);
    UntouchedRotated(s, s', s.decode, visits);
    DecodeItemsKept(s, s', s.decode[0], done);
    assert DecodeIds(done + [w]) == DecodeIds(done) + [s.decode[0]];
    TracksStep(s, s', s.decode[0], DecodeIds(done), DecodeIds(done + [w]));
  }

  lemma {:induction false} PlanDecodeIssues(s: Sched, visits: nat, done: seq<DecodeWork>)
    returns (s': Sched, work: seq<DecodeWork>)
    requires DecodeSoFar(s, done) && Untouched(s.decode, visits, s.inflight)
    ensures PlanDecode(s, visits, done) == (s', Returns(work))
    ensures DecodeSoFar(s', work) && BlocksGrow(s.pool, s'.pool)
    ensures Turned(s.decode, visits, s'.decode, DecodeIds(done), DecodeIds(work))
    ensures s'.requests == s.requests && s'.prefill == s.prefill
    decreases visits
  {
    hide SchedInv;
    hide DecodeItemsOk;
    hide Sampled;
    hide Tracks;
    hide VisitDecode;
    hide Turned;
    QueuesNoDup(s);
    if visits == 0 {
      NoTurn(s.decode, DecodeIds(done));
      s', work := s, done;
    } else {
      var s1, w := DecodeTurn(s, visits, done);
      s', work := PlanDecodeIssues(s1, visits - 1, done + [w]);
      BlocksGrowOn(s.pool, s1.pool, s'.pool);
      TurnedStep(s.decode, visits, s'.decode, DecodeIds(done), DecodeIds(work));
    }
  }

  // ----- prefill -----

  /** The items so far are right, and are the only work in flight. */
  ghost predicate SoFar(s: Sched, decode: seq<DecodeWork>, prefill: seq<PrefillWork>) {
    && SchedInv(s) && DecodeItemsOk(s, decode) && PrefillItemsOk(s, prefill)
    && Tracks(s, DecodeIds(decode) + PrefillIds(prefill))
  }

  lemma PrefillTurn(s: Sched, visits: nat, chunkLimit: nat, budget: nat, decode: seq<DecodeWork>, done: seq<PrefillWork>)
    returns (s': Sched, w: PrefillWork)
    requires SoFar(s, decode, done) && visits > 0 && Untouched(s.prefill, visits, s.inflight)
    requires chunkLimit > 0 && budget > 0
    ensures VisitPrefill(s, chunkLimit, budget) == (s', Returns(Issued(w)))
    ensures BlocksGrow(s.pool, s'.pool)
    ensures SoFar(s', decode, done + [w]) && Untouched(s'.prefill, visits - 1, s'.inflight)
    ensures PrefillIds(done + [w]) == PrefillIds(done) + [s.prefill[0]]
    ensures LongestChunk(s.requests, w, chunkLimit, budget) && |w.tokens| <= Min2(chunkLimit, budget)
    ensures s'.requests == s.requests && s'.decode == s.decode && s'.prefill == Rotated(s.prefill)
  {
    hide SchedInv;
    hide DecodeItemsOk;
    hide PrefillItemOk;
    QueuesNoDup(s);
    s', w := VisitPrefillIssues(s, chunkLimit, budget);
    UntouchedRotated(s, s', s.prefill, visits);
    DecodeItemsKept(s, s', s.prefill[0], decode);
    PrefillItemsKept(s, s', s.prefill[0], done);
    assert PrefillIds(done + [w]) == PrefillIds(done) + [s.prefill[0]];
    TracksStep(s, s', s.prefill[0], DecodeIds(decode) + PrefillIds(done), DecodeIds(decode) + PrefillIds(done + [w]));
  }

  /** All prompt tokens of a plan. */
  function PlannedTokens(work: seq<PrefillWork>): nat {
    if work == [] then 0 else PlannedTokens(work[..|work| - 1]) + |work[|work| - 1].tokens|
  }

  /** Chunks of at most `chunkLimit` tokens, one turn each, until the budget is used up. */
  ghost predicate Chunked(done: seq<PrefillWork>, work: seq<PrefillWork>, chunkLimit: nat, budget: nat) {
    && done <= work
    && (forall i :: |done| <= i < |work| ==> |work[i].tokens| <= chunkLimit)
    && PlannedTokens(work) <= PlannedTokens(done) + budget
  }

  lemma ChunkedStep(done: seq<PrefillWork>, w: PrefillWork, work: seq<PrefillWork>, chunkLimit: nat, budget: nat)
    requires |w.tokens| <= chunkLimit && |w.tokens| <= budget
    requires Chunked(done + [w], work, chunkLimit, budget - |w.tokens|)
    ensures Chunked(done, work, chunkLimit, budget)
  {
    assert (done + [w])[..|done|] == done;
    assert work[|done|] == (done + [w])[|done|] == w;
  }

  lemma ChunkedNone(done: seq<PrefillWork>, chunkLimit: nat, budget: nat)
    ensures Chunked(done, done, chunkLimit, budget)
  {
  }

  /** Every chunk is as long as the prompt, the chunk limit and the budget left before it allow. */
  ghost predicate Greedy(requests: map<Id, Request>, done: seq<PrefillWork>, work: seq<PrefillWork>,
                         chunkLimit: nat, budget: nat)
  {
    && done <= work
    && (forall i :: |done| <= i < |work| ==> LongestChunk(requests, work[i], chunkLimit,
                                                          PlannedTokens(done) + budget - PlannedTokens(work[..i])))
  }

  ghost predicate LongestChunk(requests: map<Id, Request>, w: PrefillWork, chunkLimit: nat, left: int) {
    w.id in requests && |w.tokens| == Min2(Min2(requests[w.id].RemainingPrompt(), chunkLimit), left)
  }

  lemma GreedyStep(requests: map<Id, Request>, done: seq<PrefillWork>, w: PrefillWork, work: seq<PrefillWork>,
                   chunkLimit: nat, budget: nat)
    requires LongestChunk(requests, w, chunkLimit, budget) && |w.tokens| <= budget
    requires Greedy(requests, done + [w], work, chunkLimit, budget - |w.tokens|)
    ensures Greedy(requests, done, work, chunkLimit, budget)
  {
    hide LongestChunk;
    assert (done + [w])[..|done|] == done;
    assert work[|done|] == (done + [w])[|done|] == w;
    assert work[..|done|] == done;
    PlannedOneMore(done, w);
  }

  lemma GreedyNone(requests: map<Id, Request>, done: seq<PrefillWork>, chunkLimit: nat, budget: nat)
    ensures Greedy(requests, done, done, chunkLimit, budget)
  {
  }

  lemma PlannedOneMore(done: seq<PrefillWork>, w: PrefillWork)
    ensures PlannedTokens(done + [w]) == PlannedTokens(done) + |w.tokens|
  {
    assert (done + [w])[..|done|] == done;
  }

  lemma PlanPrefillEnds(s: Sched, visits: nat, chunkLimit: nat, done: seq<PrefillWork>)
    requires SchedInv(s) && visits <= |s.prefill|
    ensures PlanPrefill(s, visits, chunkLimit, 0, done) == (s, Returns(done))
  {
    hide PoolInv;
    hide RequestOk;
    if visits > 0 {
      assert s.prefill[0] in s.prefill;
    }
  }

  lemma {:induction false} PlanPrefillIssues(s: Sched, visits: nat, chunkLimit: nat, budget: nat,
                                             decode: seq<DecodeWork>, done: seq<PrefillWork>)
    returns (s': Sched, work: seq<PrefillWork>, turns: nat)
    requires SoFar(s, decode, done) && Untouched(s.prefill, visits, s.inflight) && chunkLimit > 0
    ensures PlanPrefill(s, visits, chunkLimit, budget, done) == (s', Returns(work))
    ensures SoFar(s', decode, work) && BlocksGrow(s.pool, s'.pool)
    ensures turns <= visits && Turned(s.prefill, turns, s'.prefill, PrefillIds(done), PrefillIds(work))
    ensures visits > 0 && budget > 0 ==> turns > 0
    ensures Chunked(done, work, chunkLimit, budget)
    ensures Greedy(s.requests, done, work, chunkLimit, budget)
    ensures turns < visits ==> PlannedTokens(work) == PlannedTokens(done) + budget
    ensures s'.requests == s.requests && s'.decode == s.decode
    decreases visits
  {
    hide SchedInv;
    hide DecodeItemsOk;
    hide PrefillItemsOk;
    hide Tracks;
    hide VisitPrefill;
    hide Turned;
    hide Chunked;
    hide Greedy;
    hide LongestChunk;
    hide PlannedTokens;
    hide BlocksGrow;
    hide NoDup;
    hide Rotated;
    QueuesNoDup(s);
    if visits == 0 || budget == 0 {
      s', work, turns := s, done, 0;
      if visits > 0 { PlanPrefillEnds(s, visits, chunkLimit, done); }
      NoTurn(s.prefill, PrefillIds(done));
      ChunkedNone(done, chunkLimit, budget);
      GreedyNone(s.requests, done, chunkLimit, budget);
      NoGrowth(s.pool);
    } else {
      var s1, w := PrefillTurn(s, visits, chunkLimit, budget, decode, done);
      var left: nat;
      s', work, left := PlanPrefillIssues(s1, visits - 1, chunkLimit, budget - |w.tokens|, decode, done + [w]);
      turns := left + 1;
      BlocksGrowOn(s.pool, s1.pool, s'.pool);
      TurnedStep(s.prefill, turns, s'.prefill, PrefillIds(done), PrefillIds(work));
      ChunkedStep(done, w, work, chunkLimit, budget);
      GreedyStep(s.requests, done, w, work, chunkLimit, budget);
      PlannedOneMore(done, w);
    }
  }

  // ----- the whole plan -----

  /** Nothing is in flight, and every decoding request has a token to feed. */
  ghost predicate PlanReady(s: Sched) {
    SchedInv(s) && Sampled(s) && s.inflight == map[]
  }

  lemma {:induction false} ExpireReady(s: Sched, now: real, ids: seq<Id>, expired: seq<Id>)
    requires PlanReady(s)
    ensures PlanReady(ExpireFrom(s, now, ids, expired).0)
    decreases |ids|
  {
    hide SchedInv;
    if ids != [] {
      if ids[0] in s.requests && Due(s.requests[ids[0]], now) {
        TerminateKeeps(s, ids[0], TIMED_OUT);
        ExpireReady(Terminate(s, ids[0], TIMED_OUT), now, ids[1..], expired + [ids[0]]);
      } else {
        ExpireReady(s, now, ids[1..], expired);
      }
    }
  }

  /** What a plan promises the engine. */
  ghost predicate PlanOk(l: Limits, s: Sched, plan: StepPlan) {
    && SoFar(s, plan.decode, plan.prefill) && Sampled(s)
    && NoDup(PlanIds(plan))
    && |plan.decode| + |plan.prefill| <= l.maxBatch
    && Chunked([], plan.prefill, ChunkLimit(l, plan.decode != []), l.maxPrefillTokens)
  }

  /** The turns a plan takes on the sorted queues. */
  ghost predicate PlanTurns(s: Sched, s': Sched, plan: StepPlan) {
    && s'.requests == s.requests && BlocksGrow(s.pool, s'.pool)
    && Turned(s.decode, |plan.decode|, s'.decode, [], DecodeIds(plan.decode))
    && Turned(s.prefill, |plan.prefill|, s'.prefill, [], PrefillIds(plan.prefill))
  }

  /** A plan leaves nothing out that its limits allow: decoding requests first, then prompts
      until every queued one had a turn, the batch is full or the token budget is used up. */
  ghost predicate PlanFull(l: Limits, s: Sched, plan: StepPlan) {
    && |plan.decode| == Min2(|s.decode|, l.maxBatch)
    && Greedy(s.requests, [], plan.prefill, ChunkLimit(l, plan.decode != []), l.maxPrefillTokens)
    && (|plan.prefill| < Min2(|s.prefill|, l.maxBatch - |plan.decode|)
        ==> PlannedTokens(plan.prefill) == l.maxPrefillTokens)
  }

  /** The two loops of a plan. */
  lemma PlanLoops(l: Limits, s: Sched)
    returns (s1: Sched, decode: seq<DecodeWork>, turns: nat, s2: Sched, prefill: seq<PrefillWork>)
    requires PlanReady(s) && l.Valid()
    ensures PlanDecode(s, Min2(|s.decode|, l.maxBatch), []) == (s1, Returns(decode))
    ensures |decode| == Min2(|s.decode|, l.maxBatch) && s1.prefill == s.prefill && s1.pool.blockSize > 0
    ensures turns == Min2(|s.prefill|, l.maxBatch - |decode|)
    ensures PlanPrefill(s1, turns, ChunkLimit(l, decode != []), l.maxPrefillTokens, []) == (s2, Returns(prefill))
    ensures SoFar(s2, decode, prefill) && s2.requests == s.requests && BlocksGrow(s.pool, s2.pool)
    ensures Turned(s.decode, |decode|, s2.decode, [], DecodeIds(decode))
    ensures |prefill| <= turns && Turned(s.prefill, |prefill|, s2.prefill, [], PrefillIds(prefill))
    ensures turns > 0 ==> prefill != []
    ensures Chunked([], prefill, ChunkLimit(l, decode != []), l.maxPrefillTokens)
    ensures Greedy(s.requests, [], prefill, ChunkLimit(l, decode != []), l.maxPrefillTokens)
    ensures |prefill| < turns ==> PlannedTokens(prefill) == l.maxPrefillTokens
  {
    hide SchedInv;
    hide DecodeItemsOk;
    hide PrefillItemsOk;
    hide Tracks;
    hide Sampled;
    hide Chunked;
    hide Greedy;
    QueuesNoDup(s);
    ReadyTurns(s, Min2(|s.decode|, l.maxBatch));
    s1, decode := PlanDecodeIssues(s, Min2(|s.decode|, l.maxBatch), []);
    QueuesNoDup(s1);
    assert |DecodeIds(decode)| == Min2(|s.decode|, l.maxBatch);
    turns := Min2(|s.prefill|, l.maxBatch - |decode|);
    FreshTurns(s1, decode, turns);
    var taken;
    s2, prefill, taken := PlanPrefillIssues(s1, turns, ChunkLimit(l, decode != []), l.maxPrefillTokens, decode, []);
    assert |PrefillIds(prefill)| == taken;
    BlocksGrowOn(s.pool, s1.pool, s2.pool);
  }

  lemma FullPlan(l: Limits, s: Sched, s': Sched, plan: StepPlan)
    requires s'.requests == s.requests && |s'.decode| == |s.decode| && |s'.prefill| == |s.prefill|
    requires |plan.decode| == Min2(|s.decode|, l.maxBatch)
    requires Greedy(s.requests, [], plan.prefill, ChunkLimit(l, plan.decode != []), l.maxPrefillTokens)
    requires |plan.prefill| < Min2(|s.prefill|, l.maxBatch - |plan.decode|)
             ==> PlannedTokens(plan.prefill) == l.maxPrefillTokens
    ensures PlanFull(l, s', plan)
  {
    hide Greedy;
  }

  /** The bucket of a plan is selected for its own decodes. */
  ghost predicate Bucketed(b: Buckets, s: Sched, plan: StepPlan) {
    if plan.decode == [] then plan.batch.None? && plan.sequence.None?
    else
      var bucket := Select(b, |plan.decode|, MaxLength(s.pool, plan.decode));
      if bucket.None? then plan.batch.None? && plan.sequence.None?
      else plan.batch == Some(bucket.value.0) && plan.sequence == Some(bucket.value.1)
  }

  /** A plan is what its two loops hand out, and the bucket chosen for the decodes. */
  lemma PlanSortedValue(l: Limits, b: Buckets, s: Sched, s1: Sched, decode: seq<DecodeWork>, turns: nat, s2: Sched,
                        prefill: seq<PrefillWork>)
    returns (plan: StepPlan)
    requires s.pool.blockSize > 0 && s1.pool.blockSize > 0
    requires PlanDecode(s, Min2(|s.decode|, l.maxBatch), []) == (s1, Returns(decode))
    requires turns == Min2(|s1.prefill|, l.maxBatch - |decode|)
    requires PlanPrefill(s1, turns, ChunkLimit(l, decode != []), l.maxPrefillTokens, []) == (s2, Returns(prefill))
    ensures PlanSorted(l, b, s) == (s2, Returns(plan))
    ensures plan.decode == decode && plan.prefill == prefill
    ensures plan.sequence.Some? ==> plan.sequence.value >= MaxLength(s2.pool, decode)
    ensures Bucketed(b, s2, plan)
  {
    hide PlanDecode;
    hide PlanPrefill;
    hide MaxLength;
    var bucket := if decode == [] then None else Select(b, |decode|, MaxLength(s2.pool, decode));
    plan := StepPlan(decode, prefill,
      if bucket.None? then None else Some(bucket.value.0), if bucket.None? then None else Some(bucket.value.1));
  }

  lemma PlanSortedIssues(l: Limits, b: Buckets, s: Sched) returns (s': Sched, plan: StepPlan)
    requires PlanReady(s) && l.Valid()
    ensures PlanSorted(l, b, s) == (s', Returns(plan))
    ensures PlanOk(l, s', plan) && PlanTurns(s, s', plan) && PlanFull(l, s', plan) && Bucketed(b, s', plan)
    ensures plan.decode == [] && plan.prefill == [] ==> s.decode == [] && s.prefill == []
    ensures plan.sequence.Some? ==> CoveredBy(s', plan.decode, plan.sequence.value)
  {
    hide SchedInv;
    hide DecodeItemsOk;
    hide PrefillItemsOk;
    hide Tracks;
    hide Sampled;
    hide Chunked;
    hide Greedy;
    hide PlanFull;
    hide PlanSorted;
    hide PlanDecode;
    hide PlanPrefill;
    hide CoveredBy;
    hide Bucketed;
    hide Turned;
    hide NoDup;
    hide BlocksGrow;
    hide ChunkLimit;
    QueuesNoDup(s);
    var s1, decode, turns, s2, prefill := PlanLoops(l, s);
    SampledSame(s, s2);
    s' := s2;
    plan := PlanSortedValue(l, b, s, s1, decode, turns, s2, prefill);
    TurnedFirst(s.decode, |decode|, s2.decode, DecodeIds(decode));
    TurnedFirst(s.prefill, |prefill|, s2.prefill, PrefillIds(prefill));
    PlanDistinct(s2, plan, s.decode, s.prefill);
    FullPlan(l, s, s2, plan);
    if plan.sequence.Some? { CoveredByMax(s2, decode, plan.sequence.value); }
  }

  /** No decoding request is longer than `n`. */
  ghost predicate CoveredBy(s: Sched, work: seq<DecodeWork>, n: nat) {
    forall w :: w in work ==> w.id in s.pool.requests && s.pool.requests[w.id].length <= n
  }

  lemma CoveredByMax(s: Sched, work: seq<DecodeWork>, n: nat)
    requires DecodeItemsOk(s, work) && n >= MaxLength(s.pool, work)
    ensures CoveredBy(s, work, n)
  {
    forall w | w in work
      ensures w.id in s.pool.requests
    {
      var i :| 0 <= i < |work| && work[i] == w;
      assert DecodeItemOk(s, work[i]);
    }
  }

  lemma SampledSame(s: Sched, s': Sched)
    requires Sampled(s) && s'.requests == s.requests
    ensures Sampled(s')
  {
  }

  /** Before the prefill turns only decoding requests have work in flight. */
  lemma FreshTurns(s: Sched, decode: seq<DecodeWork>, turns: nat)
    requires SchedInv(s) && DecodeItemsOk(s, decode) && Tracks(s, DecodeIds(decode)) && turns <= |s.prefill|
    ensures Untouched(s.prefill, turns, s.inflight)
    ensures SoFar(s, decode, [])
  {
    hide PoolInv;
    hide RequestOk;
    forall k | 0 <= k < |decode|
      ensures decode[k].id !in s.prefill
    {
      assert DecodeItemOk(s, decode[k]);
    }
    assert forall i :: 0 <= i < turns ==> s.prefill[i] in s.prefill;
    assert DecodeIds(decode) + PrefillIds([]) == DecodeIds(decode);
  }

  lemma ReadyTurns(s: Sched, turns: nat)
    requires PlanReady(s) && turns <= |s.decode|
    ensures DecodeSoFar(s, []) && Untouched(s.decode, turns, s.inflight)
  {
    hide SchedInv;
  }

  lemma PlanDistinct(s: Sched, plan: StepPlan, decode: seq<Id>, prefill: seq<Id>)
    requires SoFar(s, plan.decode, plan.prefill)
    requires NoDup(decode) && NoDup(prefill)
    requires |plan.decode| <= |decode| && DecodeIds(plan.decode) == decode[..|plan.decode|]
    requires |plan.prefill| <= |prefill| && PrefillIds(plan.prefill) == prefill[..|plan.prefill|]
    ensures NoDup(PlanIds(plan))
  {
    hide SchedInv;
    hide DecodeItemFits;
    hide PrefillItemFits;
    forall i, j | 0 <= i < |plan.decode| && 0 <= j < |plan.prefill|
      ensures DecodeIds(plan.decode)[i] != PrefillIds(plan.prefill)[j]
    {
      assert DecodeItemOk(s, plan.decode[i]) && PrefillItemOk(s, plan.prefill[j]);
    }
  }

  /** With nothing in flight `plan` never raises: no reservation runs out of blocks, no queue
      runs empty, no decoding request lacks a token. */
  lemma PlanNeverRaises(l: Limits, b: Buckets, s: Sched, now: real) returns (s': Sched, plan: StepPlan)
    requires PlanReady(s) && l.Valid()
    ensures s.pool.blockSize > 0
    ensures Plan(l, b, s, now) == (s', Returns(plan))
    ensures PlanOk(l, s', plan)
    ensures PlanTurns(Sorted(Expire(s, now).0), s', plan)
    ensures PlanFull(l, s', plan) && Bucketed(b, s', plan)
    ensures plan.sequence.Some? ==> CoveredBy(s', plan.decode, plan.sequence.value)
    ensures plan.decode == [] && plan.prefill == [] ==> s'.decode == [] && s'.prefill == []
  {
    hide SchedInv;
    QueuesNoDup(s);
    ExpireReady(s, now, s.order, []);
    var s1 := Expire(s, now).0;
    SortKeeps(s1);
    ExpireKeepsDimensions(s, now, s.order, []);
    s', plan := PlanSortedIssues(l, b, Sorted(s1));
  }
}
