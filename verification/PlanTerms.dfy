/** What a begun step plans, in terms of the requests and the configured limits alone: priorities
    first, everything the limits allow, the smallest graph bucket and its table width. */
module PlanTerms {
  import opened Basics
  import opened PagedKV
  import opened GraphBuckets
  import opened Scheduler
  import opened SchedulerInvariant
  import opened PlanInvariant
  import opened Executor
  import opened Engine
  import opened EngineInvariant
  import Refinement
  import opened ContinuousBatching
  import opened Evolution
  import opened Feeding
  import opened Fairness
  import opened Admission

  // ----- priorities -----

  /** A turn of the sorted queue comes after those of all requests with a higher priority. */
  lemma HigherBefore(requests: map<Id, Request>, q: seq<Id>, n: nat, turns: seq<Id>, i: nat, y: Id)
    requires SortedByPriority(requests, q) && n <= |q| && turns == q[..n] && i < n && y in q
    requires turns[i] in requests && y in requests && requests[y].priority > requests[turns[i]].priority
    ensures exists j :: 0 <= j < i && turns[j] == y
  {
    hide SortedByPriority;
    var k :| 0 <= k < |q| && q[k] == y;
    if i < k { SortedAt(requests, q, i, k); }
    assert k < i && turns[k] == y;
  }

  lemma SortedAt(requests: map<Id, Request>, q: seq<Id>, i: nat, k: nat)
    requires SortedByPriority(requests, q) && i < k < |q| && q[i] in requests && q[k] in requests
    ensures requests[q[i]].priority >= requests[q[k]].priority
  {
    assert Priority(requests, q[i]) >= Priority(requests, q[k]);
  }

  lemma TurnsAreFirst(q: seq<Id>, n: nat, q': seq<Id>, turns: seq<Id>)
    requires Turned(q, n, q', [], turns)
    ensures n <= |q| && turns == q[..n] && forall x :: x in q <==> x in q'
  {
    TurnedMembers(q, n, q', turns);
  }

  /** The requests that wait in the queue of a state are the ones in that state. */
  lemma QueueIsState(s: Sched, state: RequestState, y: Id)
    requires SchedInv(s) && (state == PREFILL || state == DECODE)
    ensures y in Queue(s, state) <==> y in s.requests && s.requests[y].state == state
    ensures NoDup(Queue(s, state))
  {
    hide PoolInv;
  }

  lemma TurnsByPriority(setup: Setup, e: Engine, now: real, planNow: real, plan: StepPlan, state: RequestState, i: nat, y: Id)
    requires EngineInv(e) && e.phase.Idle? && setup.limits.Valid() && (state == PREFILL || state == DECODE)
    ensures e.s.pool.blockSize > 0
    ensures var e' := BeginStep(setup, e, now, planNow);
      NewPlan(e, e') == Some(plan) && i < |Turns(plan, state)| && y in e'.s.requests && e'.s.requests[y].state == state ==>
        && Turns(plan, state)[i] in e'.s.requests
        && (e'.s.requests[y].priority > e'.s.requests[Turns(plan, state)[i]].priority ==>
              exists j :: 0 <= j < i && Turns(plan, state)[j] == y)
  {
    hide EngineInv;
    hide SchedInv;
    hide PlanOk;
    hide PlanFull;
    hide Bucketed;
    hide Plan;
    hide BeginStep;
    hide Queue;
    hide Turned;
    hide Turns;
    hide NewPlan;
    hide SortedByPriority;
    hide PlanTurns;
    EngineDimensions(e);
    var e' := BeginStep(setup, e, now, planNow);
    var s1, s2, plan' := BeginOutcome(setup, e, now, planNow);
    BegunPlan(setup, e, now, planNow, s1, s2, plan', e');
    if NewPlan(e, e') == Some(plan) && i < |Turns(plan, state)| && y in e'.s.requests && e'.s.requests[y].state == state {
      SortedTurns(setup, e, now, planNow, s1, s2, plan, e', state, i, y);
    }
  }

  lemma SortedTurns(setup: Setup, e: Engine, now: real, planNow: real, s1: Sched, s2: Sched, plan: StepPlan, e': Engine,
                    state: RequestState, i: nat, y: Id)
    requires Begun(setup, e, now, planNow, s1, s2, plan, e') && e'.s == s2 && (state == PREFILL || state == DECODE)
    requires i < |Turns(plan, state)| && y in s2.requests && s2.requests[y].state == state
    ensures Turns(plan, state)[i] in s2.requests
    ensures s2.requests[y].priority > s2.requests[Turns(plan, state)[i]].priority ==>
      exists j :: 0 <= j < i && Turns(plan, state)[j] == y
  {
    hide SchedInv;
    hide PlanOk;
    hide Plan;
    hide Queue;
    hide Turned;
    hide Turns;
    hide SortedByPriority;
    hide PlanTurns;
    hide PlanFull;
    hide Bucketed;
    ReadyInv(s1);
    ExpireReady(s1, planNow, s1.order, []);
    ReadyInv(Expire(s1, planNow).0);
    SoFarOwned(setup.limits, s2, plan);
    var q := BegunTurns(setup, e, now, planNow, s1, s2, plan, e', state);
    var turns := Turns(plan, state);
    TurnsAreFirst(q, |turns|, Queue(s2, state), turns);
    SortIsStable(Expire(s1, planNow).0.requests, Queue(Expire(s1, planNow).0, state));
    QueueIsState(s2, state, y);
    QueueIsState(s2, state, turns[i]);
    assert turns[i] == q[i] && q[i] in q;
    if s2.requests[y].priority > s2.requests[turns[i]].priority { HigherBefore(s2.requests, q, |turns|, turns, i, y); }
  }

  lemma ReadyInv(s: Sched)
    requires PlanReady(s)
    ensures SchedInv(s)
  {
  }

  /** Higher priorities first: a request that gets a decode turn comes after every decoding request
      with a higher priority, all of which get one too; and likewise for prefill chunks. */
  lemma HighestFirst(setup: Setup, e: Engine, now: real, planNow: real, plan: StepPlan, i: nat, y: Id)
    requires EngineInv(e) && e.phase.Idle? && setup.limits.Valid()
    ensures e.s.pool.blockSize > 0
    ensures var e' := BeginStep(setup, e, now, planNow);
      (e'.phase.DecodePending? || e'.phase.PrefillPending?) && e'.phase.plan == plan && y in e'.s.requests ==>
        && (i < |plan.decode| && e'.s.requests[y].state == DECODE ==>
              && plan.decode[i].id in e'.s.requests
              && (e'.s.requests[y].priority > e'.s.requests[plan.decode[i].id].priority ==>
                    exists j :: 0 <= j < i && plan.decode[j].id == y))
        && (i < |plan.prefill| && e'.s.requests[y].state == PREFILL ==>
              && plan.prefill[i].id in e'.s.requests
              && (e'.s.requests[y].priority > e'.s.requests[plan.prefill[i].id].priority ==>
                    exists j :: 0 <= j < i && plan.prefill[j].id == y))
  {
    hide EngineInv;
    hide BeginStep;
    EngineDimensions(e);
    var e' := BeginStep(setup, e, now, planNow);
    TurnsByPriority(setup, e, now, planNow, plan, DECODE, i, y);
    TurnsByPriority(setup, e, now, planNow, plan, PREFILL, i, y);
    if i < |plan.decode| { assert DecodeIds(plan.decode)[i] == plan.decode[i].id; }
    if i < |plan.prefill| { assert PrefillIds(plan.prefill)[i] == plan.prefill[i].id; }
  }

  // ----- limits -----

  lemma {:induction false} QueueSize(q: seq<Id>)
    requires NoDup(q)
    ensures |set x | x in q| == |q|
  {
    if q != [] {
      NoDupTail(q[0], q[1..]);
      assert q == [q[0]] + q[1..];
      QueueSize(q[1..]);
      assert (set x | x in q) == (set x | x in q[1..]) + {q[0]};
    }
  }

  /** How many requests are in a state. */
  ghost function InState(requests: map<Id, Request>, state: RequestState): nat {
    |set id | id in requests && requests[id].state == state|
  }

  lemma StateSize(s: Sched, state: RequestState)
    requires SchedInv(s) && (state == PREFILL || state == DECODE)
    ensures |Queue(s, state)| == InState(s.requests, state)
  {
    hide SchedInv;
    var q := Queue(s, state);
    QueueIsState(s, state, "");
    QueueSize(q);
    forall y
      ensures y in q <==> y in s.requests && s.requests[y].state == state
    {
      QueueIsState(s, state, y);
    }
    assert (set x | x in q) == set id | id in s.requests && s.requests[id].state == state;
  }

  /** The tokens of the first `n` chunks. */
  function ChunkTokens(work: seq<PrefillWork>, n: nat): nat
    requires n <= |work|
  {
    if n == 0 then 0 else ChunkTokens(work, n - 1) + |work[n - 1].tokens|
  }

  lemma {:induction false} TokensArePlanned(work: seq<PrefillWork>, n: nat)
    requires n <= |work|
    ensures ChunkTokens(work, n) == PlannedTokens(work[..n])
  {
    if n > 0 {
      TokensArePlanned(work, n - 1);
      assert work[..n][..n - 1] == work[..n - 1];
    }
  }

  /** A chunk takes all of the rest of its prompt that the chunk sizes and the budget allow. */
  ghost predicate ChunkIs(l: Limits, requests: map<Id, Request>, plan: StepPlan, i: nat)
    requires i < |plan.prefill|
  {
    var w := plan.prefill[i];
    && w.id in requests
    && var rest, left, n := |requests[w.id].prompt| - requests[w.id].cursor, l.maxPrefillTokens - ChunkTokens(plan.prefill, i), |w.tokens|;
       && 0 < n <= rest && n <= left && n <= l.prefillChunk && (plan.decode != [] ==> n <= l.decodePrefillChunk)
       && (n == rest || n == left || n == l.prefillChunk || (plan.decode != [] && n == l.decodePrefillChunk))
  }

  lemma ChunkInTerms(l: Limits, s: Sched, plan: StepPlan, i: nat)
    requires PlanOk(l, s, plan) && PlanFull(l, s, plan) && i < |plan.prefill|
    ensures ChunkIs(l, s.requests, plan, i)
  {
    hide SchedInv;
    hide DecodeItemsOk;
    hide Tracks;
    hide Sampled;
    hide Chunked;
    hide NoDup;
    hide PrefillItemOk;
    hide PlannedTokens;
    hide LongestChunk;
    var w := plan.prefill[i];
    assert PrefillItemOk(s, w);
    TokensArePlanned(plan.prefill, i);
    NothingPlanned();
    assert LongestChunk(s.requests, w, ChunkLimit(l, plan.decode != []),
                        PlannedTokens([]) + l.maxPrefillTokens - PlannedTokens(plan.prefill[..i]));
    LongestInTerms(l, s, plan.decode != [], w, l.maxPrefillTokens - ChunkTokens(plan.prefill, i));
  }

  lemma NothingPlanned()
    ensures PlannedTokens([]) == 0
  {
  }

  lemma LongestInTerms(l: Limits, s: Sched, decoding: bool, w: PrefillWork, left: int)
    requires PrefillItemOk(s, w) && LongestChunk(s.requests, w, ChunkLimit(l, decoding), left)
    ensures w.id in s.requests
    ensures var rest, n := |s.requests[w.id].prompt| - s.requests[w.id].cursor, |w.tokens|;
      && 0 < n <= rest && n <= left && n <= l.prefillChunk && (decoding ==> n <= l.decodePrefillChunk)
      && (n == rest || n == left || n == l.prefillChunk || (decoding && n == l.decodePrefillChunk))
  {
    hide SlotsAre;
  }

  /** A plan takes everything that the limits allow: every decoding request up to the batch size,
      then a chunk of every request in prefill, up to the batch size and the token budget. */
  lemma TakesAll(setup: Setup, e: Engine, now: real, planNow: real)
    requires EngineInv(e) && e.phase.Idle? && setup.limits.Valid()
    ensures e.s.pool.blockSize > 0
    ensures var l, e' := setup.limits, BeginStep(setup, e, now, planNow);
      e'.phase.DecodePending? || e'.phase.PrefillPending? ==>
        var plan, decoding, waiting := e'.phase.plan, InState(e'.s.requests, DECODE), InState(e'.s.requests, PREFILL);
        && |plan.decode| == (if decoding < l.maxBatch then decoding else l.maxBatch)
        && |plan.prefill| <= waiting && |plan.decode| + |plan.prefill| <= l.maxBatch
        && ChunkTokens(plan.prefill, |plan.prefill|) <= l.maxPrefillTokens
        && (|plan.prefill| == waiting || |plan.decode| + |plan.prefill| == l.maxBatch
            || ChunkTokens(plan.prefill, |plan.prefill|) == l.maxPrefillTokens)
        && forall i: nat :: i < |plan.prefill| ==> ChunkIs(l, e'.s.requests, plan, i)
  {
    hide EngineInv;
    hide SchedInv;
    hide PlanOk;
    hide PlanFull;
    hide PlanTurns;
    hide Bucketed;
    hide Plan;
    hide BeginStep;
    hide ChunkIs;
    hide NewPlan;
    EngineDimensions(e);
    var e' := BeginStep(setup, e, now, planNow);
    var s1, s2, plan := BeginOutcome(setup, e, now, planNow);
    BegunPlan(setup, e, now, planNow, s1, s2, plan, e');
    PlanOfPhase(e, e', plan);
    if e'.phase.DecodePending? || e'.phase.PrefillPending? {
      forall i: nat | i < |plan.prefill|
        ensures ChunkIs(setup.limits, s2.requests, plan, i)
      {
        ChunkInTerms(setup.limits, s2, plan, i);
      }
      SizesInTerms(setup.limits, Sorted(Expire(s1, planNow).0), s2, plan);
    }
  }

  lemma PlanOfPhase(e: Engine, e': Engine, plan: StepPlan)
    requires e.phase.Idle? && NewPlan(e, e') == (if plan.decode == [] && plan.prefill == [] then None else Some(plan))
    ensures e'.phase.DecodePending? || e'.phase.PrefillPending? ==> e'.phase.plan == plan
  {
  }

  lemma SizesInTerms(l: Limits, s: Sched, s': Sched, plan: StepPlan)
    requires PlanOk(l, s', plan) && PlanFull(l, s', plan) && PlanTurns(s, s', plan)
    ensures var decoding, waiting := InState(s'.requests, DECODE), InState(s'.requests, PREFILL);
      && |plan.decode| == (if decoding < l.maxBatch then decoding else l.maxBatch)
      && |plan.prefill| <= waiting && |plan.decode| + |plan.prefill| <= l.maxBatch
      && ChunkTokens(plan.prefill, |plan.prefill|) <= l.maxPrefillTokens
      && (|plan.prefill| == waiting || |plan.decode| + |plan.prefill| == l.maxBatch
          || ChunkTokens(plan.prefill, |plan.prefill|) == l.maxPrefillTokens)
  {
    hide SchedInv;
    hide DecodeItemsOk;
    hide PrefillItemsOk;
    hide Tracks;
    hide Sampled;
    hide Greedy;
    hide BlocksGrow;
    hide NoDup;
    hide InState;
    StateSize(s', DECODE);
    StateSize(s', PREFILL);
    TokensArePlanned(plan.prefill, |plan.prefill|);
    assert plan.prefill[..|plan.prefill|] == plan.prefill;
  }

  // ----- graph buckets and table widths -----

  /** `n` is the longest sequence of a decode batch, its new token included. */
  ghost predicate Longest(work: seq<DecodeWork>, n: nat) {
    && (exists i :: 0 <= i < |work| && work[i].position + 1 == n)
    && forall i :: 0 <= i < |work| ==> work[i].position + 1 <= n
  }

  lemma LongestIsMax(s: Sched, work: seq<DecodeWork>, n: nat)
    requires SchedInv(s) && DecodeItemsOk(s, work) && Longest(work, n)
    ensures MaxLength(s.pool, work) == n
  {
    hide SchedInv;
    hide DecodeItemOk;
    hide MaxLength;
    forall i | 0 <= i < |work|
      ensures work[i].id in s.pool.requests && s.pool.requests[work[i].id].length == work[i].position + 1
    {
      assert DecodeItemOk(s, work[i]);
      LengthOfItem(s, work[i]);
    }
    MaxLengthAttained(s.pool, work);
    var i :| 0 <= i < |work| && work[i].position + 1 == n;
    assert work[i] in work;
    assert MaxLength(s.pool, work) >= n by { MaxLengthBounds(s.pool, work, i); }
  }

  lemma MaxLengthBounds(p: Pool, work: seq<DecodeWork>, i: nat)
    requires i < |work| && work[i].id in p.requests
    ensures MaxLength(p, work) >= p.requests[work[i].id].length
  {
    assert work[i] in work;
  }

  lemma LengthOfItem(s: Sched, w: DecodeWork)
    requires SchedInv(s) && DecodeItemOk(s, w)
    ensures w.id in s.pool.requests && s.pool.requests[w.id].length == w.position + 1
  {
    hide PoolInv;
    PositionIsLast(s, w);
  }

  /** `x` is the smallest bucket that covers `n`, or there is none. */
  ghost predicate SmallestCover(q: seq<nat>, n: nat, x: Option<nat>) {
    if x.None? then forall y :: y in q ==> y < n
    else x.value in q && x.value >= n && forall y :: y in q && y >= n ==> x.value <= y
  }

  /** The graph bucket of a decode batch is the smallest one for the number of its rows and for
      its longest sequence; without a cover for both there is none. */
  lemma SmallestBucket(setup: Setup, e: Engine, now: real, planNow: real, longest: nat, batch: Option<nat>, sequence: Option<nat>)
    requires EngineInv(e) && e.phase.Idle? && setup.limits.Valid()
    requires Increasing(setup.buckets.batchSizes) && Increasing(setup.buckets.sequenceBuckets)
    ensures e.s.pool.blockSize > 0
    ensures var e' := BeginStep(setup, e, now, planNow);
      e'.phase.DecodePending? && Longest(e'.phase.plan.decode, longest)
      && SmallestCover(setup.buckets.batchSizes, |e'.phase.plan.decode|, batch)
      && SmallestCover(setup.buckets.sequenceBuckets, longest, sequence) ==>
        && e'.phase.plan.batch == (if sequence.Some? then batch else None)
        && e'.phase.plan.sequence == (if batch.Some? then sequence else None)
    ensures var e' := BeginStep(setup, e, now, planNow);
      e'.phase.PrefillPending? ==> e'.phase.plan.batch.None? && e'.phase.plan.sequence.None?
  {
    hide EngineInv;
    hide SchedInv;
    hide PlanOk;
    hide PlanFull;
    hide PlanTurns;
    hide Plan;
    hide BeginStep;
    hide NewPlan;
    hide Bucketed;
    hide MetadataFor;
    hide TableWidth;
    EngineDimensions(e);
    var e' := BeginStep(setup, e, now, planNow);
    var s1, s2, plan := BeginOutcome(setup, e, now, planNow);
    BegunPlan(setup, e, now, planNow, s1, s2, plan, e');
    PlanOfPhase(e, e', plan);
    BegunPhaseIs(setup, e, now, planNow, s1, s2, plan, e');
    if e'.phase.DecodePending? && Longest(plan.decode, longest) {
      BucketInTerms(setup.limits, setup.buckets, s2, plan, longest, batch, sequence);
    }
    if plan.decode == [] { NoBucket(setup.buckets, s2, plan); }
  }

  lemma BegunPhaseIs(setup: Setup, e: Engine, now: real, planNow: real, s1: Sched, s2: Sched, plan: StepPlan, e': Engine)
    requires Begun(setup, e, now, planNow, s1, s2, plan, e')
    ensures e'.phase.PrefillPending? ==> plan.decode == []
    ensures e'.phase.DecodePending? ==> plan.decode != []
  {
    hide SchedInv;
    hide PlanOk;
    hide PlanFull;
    hide PlanTurns;
    hide Plan;
    hide PlanReady;
    hide Bucketed;
    hide MetadataFor;
    hide TableWidth;
  }

  lemma NoBucket(b: Buckets, s: Sched, plan: StepPlan)
    requires Bucketed(b, s, plan) && plan.decode == []
    ensures plan.batch.None? && plan.sequence.None?
  {
  }

  lemma BucketInTerms(l: Limits, b: Buckets, s: Sched, plan: StepPlan, longest: nat, batch: Option<nat>, sequence: Option<nat>)
    requires PlanOk(l, s, plan) && Bucketed(b, s, plan) && plan.decode != [] && Longest(plan.decode, longest)
    requires Increasing(b.batchSizes) && Increasing(b.sequenceBuckets)
    ensures SmallestCover(b.batchSizes, |plan.decode|, batch) && SmallestCover(b.sequenceBuckets, longest, sequence) ==>
      plan.batch == (if sequence.Some? then batch else None) && plan.sequence == (if batch.Some? then sequence else None)
  {
    hide SchedInv;
    hide DecodeItemsOk;
    hide PrefillItemsOk;
    hide Tracks;
    hide Sampled;
    hide Chunked;
    hide Longest;
    hide NoDup;
    hide Select;
    LongestIsMax(s, plan.decode, longest);
    SelectIsSmallestCover(b, |plan.decode|, longest);
  }

  /** Every table row of a decode batch is as wide as the blocks that its sequence bucket needs, cut
      to the number of blocks there are; without a bucket, as its longest sequence needs. */
  lemma TableWidthIs(setup: Setup, e: Engine, now: real, planNow: real, longest: nat, cover: nat, i: nat)
    requires EngineInv(e) && e.phase.Idle? && setup.limits.Valid()
    ensures e.s.pool.blockSize > 0
    ensures var e' := BeginStep(setup, e, now, planNow);
      && e'.s.pool.blockSize == e.s.pool.blockSize && e'.s.pool.numBlocks == e.s.pool.numBlocks
      && (e'.phase.DecodePending? && Longest(e'.phase.plan.decode, longest) && i < |e'.phase.plan.decode|
          && LeastBlocks(cover, if e'.phase.plan.sequence.Some? then e'.phase.plan.sequence.value else longest, e.s.pool.blockSize) ==>
            && |e'.phase.meta.tables| == |e'.phase.plan.decode|
            && |e'.phase.meta.tables[i]| ==
                 if e'.phase.plan.sequence.Some? && cover > e.s.pool.numBlocks then e.s.pool.numBlocks else cover)
  {
    hide EngineInv;
    hide SchedInv;
    hide PlanOk;
    hide PlanFull;
    hide PlanTurns;
    hide Plan;
    hide PlanReady;
    hide Bucketed;
    hide MetadataFor;
    hide TableWidth;
    hide Longest;
    hide LeastBlocks;
    EngineDimensions(e);
    var e' := BeginStep(setup, e, now, planNow);
    var s1, s2, plan := BeginOutcome(setup, e, now, planNow);
    FinishKeepsPhase(e.(s := s1), Expire(e.s, now).1);
    Refinement.BegunDimensions(setup, e, now, planNow, s1, s2, plan, e');
    if e'.phase.DecodePending? && Longest(plan.decode, longest) && i < |plan.decode| {
      WidthInTerms(setup.limits, s2, plan, e'.phase.meta, longest, cover, i);
    }
  }

  lemma WidthInTerms(l: Limits, s: Sched, plan: StepPlan, meta: Metadata, longest: nat, cover: nat, i: nat)
    requires PlanOk(l, s, plan) && s.pool.blockSize > 0 && Longest(plan.decode, longest) && i < |plan.decode|
    requires MetadataFor(s.pool, DecodeIds(plan.decode), TableWidth(s.pool, plan)) == Returns(meta)
    ensures |meta.tables| == |plan.decode|
    ensures LeastBlocks(cover, if plan.sequence.Some? then plan.sequence.value else longest, s.pool.blockSize) ==>
      |meta.tables[i]| == if plan.sequence.Some? && cover > s.pool.numBlocks then s.pool.numBlocks else cover
  {
    hide SchedInv;
    hide PrefillItemsOk;
    hide Tracks;
    hide Sampled;
    hide Chunked;
    hide NoDup;
    hide DecodeItemOk;
    hide CeilDiv;
    hide LeastBlocks;
    hide UsedWidth;
    if LeastBlocks(cover, if plan.sequence.Some? then plan.sequence.value else longest, s.pool.blockSize) {
      LeastIsCeil(cover, if plan.sequence.Some? then plan.sequence.value else longest, s.pool.blockSize);
      UsedIsLongest(s, plan.decode, longest);
    }
  }

  lemma UsedIsLongest(s: Sched, work: seq<DecodeWork>, n: nat)
    requires SchedInv(s) && s.pool.blockSize > 0 && DecodeItemsOk(s, work) && Longest(work, n)
    ensures forall id :: id in DecodeIds(work) ==> id in s.pool.requests
    ensures UsedWidth(s.pool, DecodeIds(work)) == CeilDiv(n, s.pool.blockSize)
  {
    hide SchedInv;
    hide DecodeItemOk;
    hide CeilDiv;
    hide UsedWidth;
    hide DecodeItemsOk;
    hide Longest;
    var ids := DecodeIds(work);
    forall i: nat | i < |work|
      ensures ids[i] in s.pool.requests && |s.pool.requests[ids[i]].blocks| <= CeilDiv(n, s.pool.blockSize)
      ensures work[i].position + 1 == n ==> |s.pool.requests[ids[i]].blocks| == CeilDiv(n, s.pool.blockSize)
    {
      ItemBlocks(s, work, n, i);
    }
    LongestItem(work, n);
    var k :| 0 <= k < |work| && work[k].position + 1 == n;
    assert ids[k] in ids;
    var used := UsedWidth(s.pool, ids);
    if used > 0 {
      var id :| id in ids && |s.pool.requests[id].blocks| == used;
      var j :| 0 <= j < |ids| && ids[j] == id;
    }
  }

  lemma LongestItem(work: seq<DecodeWork>, n: nat)
    requires Longest(work, n)
    ensures exists k :: 0 <= k < |work| && work[k].position + 1 == n
  {
  }

  lemma ItemBlocks(s: Sched, work: seq<DecodeWork>, n: nat, i: nat)
    requires SchedInv(s) && s.pool.blockSize > 0 && DecodeItemsOk(s, work) && Longest(work, n) && i < |work|
    ensures work[i].id in s.pool.requests
    ensures |s.pool.requests[work[i].id].blocks| == CeilDiv(work[i].position + 1, s.pool.blockSize) <= CeilDiv(n, s.pool.blockSize)
  {
    hide SchedInv;
    hide DecodeItemOk;
    hide CeilDiv;
    assert DecodeItemOk(s, work[i]);
    LengthOfItem(s, work[i]);
    BlocksOfLength(s, work[i].id);
    CeilDivMonotone(work[i].position + 1, n, s.pool.blockSize);
  }

  lemma BlocksOfLength(s: Sched, id: Id)
    requires SchedInv(s) && id in s.pool.requests
    ensures s.pool.blockSize > 0 && |s.pool.requests[id].blocks| == CeilDiv(s.pool.requests[id].length, s.pool.blockSize)
  {
    hide OwnersOk;
    hide QueuesOk;
    hide RequestsOk;
    hide ReservedOk;
    hide PoolDisjoint;
    hide PoolCovers;
    hide PoolCount;
    assert AllocationOk(s.pool.numBlocks, s.pool.blockSize, s.pool.free, s.pool.requests[id]);
  }
}
