/** How requests end: exactly who times out when a step begins, who of them is told, and what
    every other action does to the requests that end. */
module Endings {
  import opened Basics
  import opened PagedKV
  import opened Scheduler
  import opened SchedulerInvariant
  import opened PlanInvariant
  import opened Executor
  import opened Engine
  import opened EngineInvariant
  import opened RefinementCommit
  import opened ContinuousBatching
  import opened Evolution

  // ----- the two expiries of a beginning step -----

  /** Not due when `step` expires requests, but due when `plan` does so once more. */
  predicate Missed(r: Request, now: real, planNow: real) {
    !Due(r, now) && Due(r, planNow)
  }

  function TimedOut(r: Request, now: real): Request {
    if Due(r, now) then r.(state := TIMED_OUT) else r
  }

  /** `expire` times out exactly the due requests, and returns exactly their ids. */
  lemma {:induction false} ExpireExact(s: Sched, now: real, ids: seq<Id>, expired: seq<Id>, id: Id)
    requires id in s.requests
    ensures var (s', after) := ExpireFrom(s, now, ids, expired);
      && id in s'.requests
      && s'.requests[id] == (if id in ids then TimedOut(s.requests[id], now) else s.requests[id])
      && (id in after <==> id in expired || (id in ids && Due(s.requests[id], now)))
    decreases |ids|
  {
    if ids != [] {
      assert id in ids <==> id == ids[0] || id in ids[1..];
      if ids[0] in s.requests && Due(s.requests[ids[0]], now) {
        ExpireExact(Terminate(s, ids[0], TIMED_OUT), now, ids[1..], expired + [ids[0]], id);
      } else {
        ExpireExact(s, now, ids[1..], expired, id);
      }
    }
  }

  /** Requests expire in the order of their submission. */
  lemma {:induction false} ExpireInOrder(s: Sched, now: real, ids: seq<Id>, expired: seq<Id>)
    ensures var after := ExpireFrom(s, now, ids, expired).1;
      && expired <= after
      && (forall i :: |expired| <= i < |after| ==> after[i] in ids)
      && forall i, j :: |expired| <= i < j < |after| ==> Before(ids, after[i], after[j])
    decreases |ids|
  {
    if ids != [] {
      var due := ids[0] in s.requests && Due(s.requests[ids[0]], now);
      var s1 := if due then Terminate(s, ids[0], TIMED_OUT) else s;
      var more := if due then expired + [ids[0]] else expired;
      ExpireInOrder(s1, now, ids[1..], more);
      var after := ExpireFrom(s, now, ids, expired).1;
      forall i | |expired| <= i < |after|
        ensures after[i] in ids
        ensures forall j :: i < j < |after| ==> Before(ids, after[i], after[j])
      {
        LaterInOrder(ids, after, |expired|, |more|, i);
      }
    }
  }

  lemma LaterInOrder(ids: seq<Id>, after: seq<Id>, n: nat, m: nat, i: nat)
    requires ids != [] && n <= i < |after| && (m == n || (m == n + 1 && after[n] == ids[0]))
    requires forall k :: m <= k < |after| ==> after[k] in ids[1..]
    requires forall k, j :: m <= k < j < |after| ==> Before(ids[1..], after[k], after[j])
    ensures after[i] in ids && forall j :: i < j < |after| ==> Before(ids, after[i], after[j])
  {
    if i >= m { assert after[i] in ids[1..]; }
    forall j | i < j < |after|
      ensures Before(ids, after[i], after[j])
    {
      if i < m {
        var k :| 0 <= k < |ids[1..]| && ids[1..][k] == after[j];
        assert ids[0] == after[i] && ids[k + 1] == after[j];
      } else {
        var a, b :| 0 <= a < b < |ids[1..]| && ids[1..][a] == after[i] && ids[1..][b] == after[j];
        assert ids[a + 1] == after[i] && ids[b + 1] == after[j];
      }
    }
  }

  /** Told requests lose their cache and hear of their end; nobody else notices. */
  lemma {:induction false} FinishExpiredExact(e: Engine, ids: seq<Id>, id: Id)
    ensures var e' := FinishExpired(e, ids);
      && (id in e'.caches <==> id in e.caches && id !in ids)
      && (id !in ids ==> EventsOf(e'.events, id) == EventsOf(e.events, id))
      && (id in ids && id in e.events ==> |EventsOf(e'.events, id)| > |EventsOf(e.events, id)|)
      && (id in e.events ==> id in e'.events && |EventsOf(e'.events, id)| >= |EventsOf(e.events, id)|)
    decreases |ids|
  {
    if ids != [] {
      assert id in ids <==> id == ids[0] || id in ids[1..];
      FinishExpiredExact(Finish(e.(metrics := e.metrics.(timedOut := e.metrics.timedOut + 1)), ids[0], Timeout), ids[1..], id);
    }
  }

  /** What the beginning of a step does to one request, its stream and its prefill cache. */
  ghost predicate BegunFor(e: Engine, e': Engine, now: real, planNow: real, id: Id)
    requires id in e.s.requests
  {
    var r := e.s.requests[id];
    && id in e'.s.requests
    && e'.s.requests[id] == TimedOut(TimedOut(r, now), planNow)
    && (id in e'.caches <==> id in e.caches && !Due(r, now))
    && (!Due(r, now) ==> EventsOf(e'.events, id) == EventsOf(e.events, id))
    && (Due(r, now) ==> |EventsOf(e'.events, id)| > |EventsOf(e.events, id)|)
  }

  lemma BeginFor(setup: Setup, e: Engine, now: real, planNow: real, id: Id)
    requires EngineInv(e) && e.phase.Idle? && setup.limits.Valid() && id in e.s.requests
    ensures e.s.pool.blockSize > 0
    ensures BegunFor(e, BeginStep(setup, e, now, planNow), now, planNow, id)
  {
    hide SchedInv;
    hide PlanOk;
    hide Turned;
    hide ExpireFrom;
    hide FinishExpired;
    hide Plan;
    hide Due;
    var s1, s2, plan := BeginOutcome(setup, e, now, planNow);
    ListedInOrder(e.s, id);
    ExpireExact(e.s, now, e.s.order, [], id);
    ListedInOrder(s1, id);
    ExpireExact(s1, planNow, s1.order, [], id);
    FinishExpiredExact(e.(s := s1), Expire(e.s, now).1, id);
    if Due(e.s.requests[id], now) { DueHasEvents(e, id, now); }
  }

  /** A step begins with the requests it finds. */
  lemma BeginFrame(setup: Setup, e: Engine, now: real, planNow: real)
    requires EngineInv(e) && e.phase.Idle? && setup.limits.Valid()
    ensures e.s.pool.blockSize > 0
    ensures BeginStep(setup, e, now, planNow).s.requests.Keys == e.s.requests.Keys
    ensures forall id :: id in e.s.requests ==> BegunFor(e, BeginStep(setup, e, now, planNow), now, planNow, id)
  {
    hide EngineInv;
    hide BegunFor;
    EngineDimensions(e);
    BeginKeys(setup, e, now, planNow);
    forall id | id in e.s.requests
      ensures BegunFor(e, BeginStep(setup, e, now, planNow), now, planNow, id)
    {
      BeginFor(setup, e, now, planNow, id);
    }
  }

  lemma BeginKeys(setup: Setup, e: Engine, now: real, planNow: real)
    requires EngineInv(e) && e.phase.Idle? && setup.limits.Valid()
    ensures e.s.pool.blockSize > 0
    ensures BeginStep(setup, e, now, planNow).s.requests.Keys == e.s.requests.Keys
  {
    hide SchedInv;
    hide KeysOk;
    hide PlanOk;
    hide PlanTurns;
    hide Plan;
    EngineDimensions(e);
    var s1, s2, plan := BeginOutcome(setup, e, now, planNow);
  }

  lemma ListedInOrder(s: Sched, id: Id)
    requires SchedInv(s) && id in s.requests
    ensures id in s.order
  {
    hide PoolInv;
  }

  lemma DueHasEvents(e: Engine, id: Id, now: real)
    requires KeysOk(e) && id in e.s.requests && Due(e.s.requests[id], now)
    ensures id in e.events
  {
  }

  // ----- every other action -----

  /** Whoever ends loses its prefill cache and does not time out; whoever had ended stays as it
      was, with its stream and its cache, if it has one. */
  ghost predicate Settled(e: Engine, e': Engine) {
    && e'.s.requests.Keys == e.s.requests.Keys && e'.caches.Keys <= e.caches.Keys
    && forall id :: id in e.s.requests ==> SettledFor(e, e', id)
  }

  ghost predicate SettledFor(e: Engine, e': Engine, id: Id)
    requires id in e.s.requests && id in e'.s.requests
  {
    if e.s.requests[id].Finished() then
      && e'.s.requests[id] == e.s.requests[id] && EventsOf(e'.events, id) == EventsOf(e.events, id)
      && (id in e'.caches <==> id in e.caches)
    else
      && SameTerms(e.s.requests[id], e'.s.requests[id])
      && (e'.s.requests[id].Finished() ==> e'.s.requests[id].state != TIMED_OUT && id !in e'.caches)
  }

  /** What a request was submitted with never changes. */
  predicate SameTerms(r: Request, r': Request) {
    && r'.prompt == r.prompt && r'.maxNew == r.maxNew && r'.sampling == r.sampling && r'.priority == r.priority
    && r'.timeout == r.timeout && r'.submittedAt == r.submittedAt
  }

  lemma SettledSame(e: Engine, e': Engine)
    requires e'.s.requests == e.s.requests && e'.events == e.events && e'.caches == e.caches
    ensures Settled(e, e')
  {
  }

  lemma SettledOn(e: Engine, e1: Engine, e2: Engine)
    requires Settled(e, e1) && Settled(e1, e2)
    ensures Settled(e, e2)
  {
    forall id | id in e.s.requests
      ensures SettledFor(e, e2, id)
    {
      assert SettledFor(e, e1, id) && SettledFor(e1, e2, id);
    }
  }

  /** Only the live request `id` changed. */
  lemma OneSettled(e: Engine, e': Engine, id: Id)
    requires id in e.s.requests && !e.s.requests[id].Finished()
    requires e'.s.requests.Keys == e.s.requests.Keys
    requires forall i :: i in e.s.requests && i != id ==> e'.s.requests[i] == e.s.requests[i]
    requires forall i :: i != id ==> EventsOf(e'.events, i) == EventsOf(e.events, i)
    requires e'.caches == e.caches || e'.caches == e.caches - {id}
    requires SameTerms(e.s.requests[id], e'.s.requests[id])
    requires e'.s.requests[id].Finished() ==> e'.s.requests[id].state != TIMED_OUT && id !in e'.caches
    ensures Settled(e, e')
  {
  }

  /** Recording a token releases a request that it finishes. */
  lemma RecordSettles(e: Engine, s: Sched, id: Id, sample: Sample)
    requires id in e.s.requests && Live(e.s.requests[id]) && id in e.samplers && id in e.events
    requires s.requests == e.s.requests[id := Appended(e.s.requests[id], sample.token, sample.stopped)]
    ensures Settled(e, Record(Drawn(e, id).(s := s), id, sample).0)
  {
    hide Settled;
    OneSettled(e, Record(Drawn(e, id).(s := s), id, sample).0, id);
  }

  lemma CommitDecodeSettles(m: Model, e: Engine, w: DecodeWork, logits: map<Id, Logits>)
    requires SchedInv(e.s) && KeysOk(e) && PendingDecode(e.s, w)
    ensures Settled(e, CommitDecodeItem(m, e, w, logits).0)
  {
    hide SchedInv;
    hide KeysOk;
    hide DecodeItemFits;
    hide Commit;
    hide Record;
    hide Draw;
    hide Settled;
    CommitDecodeOutcome(m, e, w, logits);
    var e' := CommitDecodeItem(m, e, w, logits).0;
    if w.id in e.s.inflight && w.id in logits {
      var r := e.s.requests[w.id];
      var sample := Draw(m, e, w.id, logits[w.id], r.prompt + r.generated);
      var s := e.s.(inflight := e.s.inflight - {w.id});
      CommitIsAppended(s, w.id, sample.token, sample.stopped);
      LiveHasEvents(e, w.id);
      RecordSettles(e, Commit(s, w.id, sample.token, sample.stopped), w.id, sample);
    } else {
      SettledSame(e, e');
    }
  }

  lemma LiveHasEvents(e: Engine, id: Id)
    requires KeysOk(e) && id in e.s.requests && Live(e.s.requests[id])
    ensures id in e.events
  {
  }

  lemma ChunkSettles(e: Engine, s: Sched, id: Id)
    requires id in e.s.requests && Live(e.s.requests[id]) && id in s.requests && Live(s.requests[id])
    requires s.requests == e.s.requests[id := s.requests[id]] && SameTerms(e.s.requests[id], s.requests[id])
    ensures Settled(e, e.(s := s))
  {
  }

  lemma CommitPrefillSettles(m: Model, e: Engine, w: PrefillWork, logits: map<Id, Logits>)
    requires SchedInv(e.s) && KeysOk(e) && PendingPrefill(e.s, w)
    ensures Settled(e, CommitPrefillItem(m, e, w, logits).0)
  {
    hide SchedInv;
    hide KeysOk;
    hide PrefillItemFits;
    hide CompletePrefill;
    hide Commit;
    hide Record;
    hide Draw;
    hide Settled;
    CommitPrefillOutcome(m, e, w, logits);
    if w.id in e.s.inflight {
      PrefillCompleted(e.s, w);
      CompletedRequests(e.s, w);
      var (s, last) := CompletePrefill(e.s, w.id, |w.tokens|);
      LiveHasEvents(e, w.id);
      ChunkSettles(e, s, w.id);
      if last.value && w.id in logits {
        var sample := Draw(m, e, w.id, logits[w.id], s.requests[w.id].prompt);
        CommitIsAppended(s, w.id, sample.token, sample.stopped);
        RecordSettles(e.(s := s), Commit(s, w.id, sample.token, sample.stopped), w.id, sample);
        SettledOn(e, e.(s := s), CommitPrefillItem(m, e, w, logits).0);
      }
    } else {
      SettledSame(e, e);
    }
  }

  lemma CompletedRequests(s: Sched, w: PrefillWork)
    requires CompletePrefill(s, w.id, |w.tokens|).1.Returns?
    ensures var s' := CompletePrefill(s, w.id, |w.tokens|).0;
      w.id in s.requests && w.id in s'.requests && s'.requests == s.requests[w.id := s'.requests[w.id]]
  {
  }

  lemma {:induction false} CommitDecodesSettle(m: Model, e: Engine, work: seq<DecodeWork>, prefill: seq<PrefillWork>, logits: map<Id, Logits>)
    requires SchedInv(e.s) && KeysOk(e) && Sampled(e.s) && Pending(e.s, work, prefill)
    ensures Settled(e, CommitDecodes(m, e, work, logits).0)
    decreases |work|
  {
    hide SchedInv;
    hide KeysOk;
    hide Sampled;
    hide OnlyCommitted;
    hide CommitDecodeItem;
    hide PendingDecode;
    hide PendingPrefill;
    hide Settled;
    if work != [] {
      assert PendingDecode(e.s, work[0]);
      CommitDecodeHead(m, e, work[0], logits);
      CommitDecodeSettles(m, e, work[0], logits);
      var (e1, r) := CommitDecodeItem(m, e, work[0], logits);
      if r.Returns? {
        PendingDecodeTail(e.s, e1.s, work, prefill);
        CommitDecodesSettle(m, e1, work[1..], prefill, logits);
        SettledOn(e, e1, CommitDecodes(m, e, work, logits).0);
      }
    } else {
      SettledSame(e, e);
    }
  }

  lemma {:induction false} CommitPrefillsSettle(m: Model, e: Engine, work: seq<PrefillWork>, logits: map<Id, Logits>)
    requires SchedInv(e.s) && KeysOk(e) && Sampled(e.s) && Pending(e.s, [], work)
    ensures Settled(e, CommitPrefills(m, e, work, logits).0)
    decreases |work|
  {
    hide SchedInv;
    hide KeysOk;
    hide Sampled;
    hide OnlyCommitted;
    hide CommitPrefillItem;
    hide PendingPrefill;
    hide Settled;
    if work != [] {
      assert PendingPrefill(e.s, work[0]);
      CommitPrefillHead(m, e, work[0], logits);
      CommitPrefillSettles(m, e, work[0], logits);
      var (e1, r) := CommitPrefillItem(m, e, work[0], logits);
      if r.Returns? {
        PendingPrefillTail(e.s, e1.s, work);
        CommitPrefillsSettle(m, e1, work[1..], logits);
        SettledOn(e, e1, CommitPrefills(m, e, work, logits).0);
      }
    } else {
      SettledSame(e, e);
    }
  }

  lemma EndSettles(e: Engine, id: Id, state: RequestState, reason: Reason, n: Metrics)
    requires id in e.s.requests && !e.s.requests[id].Finished() && state in {CANCELLED, FAILED}
    ensures Settled(e, Finish(e.(s := Terminate(e.s, id, state), metrics := n), id, reason))
  {
  }

  lemma {:induction false} FailAllSettles(e: Engine, ids: seq<Id>)
    ensures Settled(e, FailAll(e, ids))
    decreases |ids|
  {
    hide Settled;
    SettledSame(e, e);
    if ids != [] {
      if ids[0] in e.s.requests && !e.s.requests[ids[0]].Finished() {
        EndSettles(e, ids[0], FAILED, Failure, e.metrics.(failed := e.metrics.failed + 1));
      }
      FailAllSettles(FailOne(e, ids[0]), ids[1..]);
      SettledOn(e, FailOne(e, ids[0]), FailAll(e, ids));
    }
  }

  // ----- the order of failing -----

  predicate Ends(e: Engine, id: Id) {
    id in e.s.requests && !e.s.requests[id].Finished()
  }

  lemma {:induction false} RemoveCommutes(q: seq<Id>, a: Id, b: Id)
    ensures Remove(Remove(q, a), b) == Remove(Remove(q, b), a)
  {
    if q != [] && q[0] != a && q[0] != b {
      RemoveCommutes(q[1..], a, b);
      RemovePast(q, a, b);
      RemovePast(q, b, a);
    } else if q != [] {
      RemoveHead(q, a, b);
      RemoveHead(q, b, a);
    }
  }

  lemma RemovePast(q: seq<Id>, a: Id, b: Id)
    requires q != [] && q[0] != a && q[0] != b
    ensures Remove(Remove(q, a), b) == [q[0]] + Remove(Remove(q[1..], a), b)
  {
    assert ([q[0]] + Remove(q[1..], a))[1..] == Remove(q[1..], a);
  }

  lemma RemoveHead(q: seq<Id>, a: Id, b: Id)
    requires q != [] && (q[0] == a || q[0] == b)
    ensures a != b ==> Remove(Remove(q, a), b) == Remove(q[1..], if q[0] == a then b else a)
  {
    if q[0] != a { assert ([q[0]] + Remove(q[1..], a))[1..] == Remove(q[1..], a); }
  }

  lemma ReleaseCommutes(p: Pool, a: Id, b: Id)
    ensures Release(Release(p, a).0, b).0 == Release(Release(p, b).0, a).0
  {
    if a in p.requests && b in p.requests && a != b {
      var x, y := Elems(p.requests[a].blocks), Elems(p.requests[b].blocks);
      assert p.free + x + y == p.free + y + x;
      assert p.requests - {a} - {b} == p.requests - {b} - {a};
    }
  }

  lemma TerminateCommutes(s: Sched, a: Id, b: Id, state: RequestState)
    requires a in s.requests && b in s.requests && a != b
    ensures Terminate(Terminate(s, a, state), b, state) == Terminate(Terminate(s, b, state), a, state)
  {
    hide Remove;
    hide Release;
    RemoveCommutes(s.prefill, a, b);
    RemoveCommutes(s.decode, a, b);
    ReleaseCommutes(s.pool, a, b);
    var ra, rb := s.requests[a].(state := state), s.requests[b].(state := state);
    assert s.requests[a := ra][b := rb] == s.requests[b := rb][a := ra];
    assert s.inflight - {a} - {b} == s.inflight - {b} - {a};
    assert s.reserved - {a} - {b} == s.reserved - {b} - {a};
  }

  lemma TerminateOne(s: Sched, id: Id, state: RequestState)
    requires id in s.requests
    ensures Terminate(s, id, state).requests == s.requests[id := s.requests[id].(state := state)]
  {
  }

  /** Failing two requests commutes. */
  lemma FailCommutes(e: Engine, a: Id, b: Id)
    ensures FailOne(FailOne(e, a), b) == FailOne(FailOne(e, b), a)
  {
    hide FailOne;
    hide Ends;
    if a != b {
      FailOnce(e, a);
      FailOnce(e, b);
      if Ends(e, a) && Ends(e, b) {
        FailBoth(e, a, b);
      } else if Ends(e, a) {
        FailNone(e, b);
        FailNone(FailOne(e, a), b);
      } else {
        FailNone(e, a);
        FailNone(FailOne(e, b), a);
      }
    }
  }

  lemma FailNone(e: Engine, id: Id)
    requires !Ends(e, id)
    ensures FailOne(e, id) == e
  {
  }

  lemma FailBoth(e: Engine, a: Id, b: Id)
    requires a != b && Ends(e, a) && Ends(e, b)
    ensures FailOne(FailOne(e, a), b) == FailOne(FailOne(e, b), a)
  {
    hide Terminate;
    TerminateCommutes(e.s, a, b, FAILED);
    TerminateOne(e.s, a, FAILED);
    TerminateOne(e.s, b, FAILED);
    EventsCommute(e.events, a, b);
    assert e.caches - {a} - {b} == e.caches - {b} - {a};
  }

  function Told(events: map<Id, seq<Event>>, id: Id): map<Id, seq<Event>> {
    if id in events then events[id := events[id] + [FinishEvent(Failure)]] else events
  }

  lemma EventsCommute(events: map<Id, seq<Event>>, a: Id, b: Id)
    requires a != b
    ensures Told(Told(events, a), b) == Told(Told(events, b), a)
  {
  }

  lemma FailOnce(e: Engine, id: Id)
    ensures !Ends(FailOne(e, id), id)
    ensures FailOne(FailOne(e, id), id) == FailOne(e, id)
    ensures forall i :: i != id ==> (Ends(FailOne(e, id), i) <==> Ends(e, i))
  {
    if Ends(e, id) { TerminateOne(e.s, id, FAILED); }
  }

  lemma {:induction false} FailFirst(e: Engine, ids: seq<Id>, id: Id)
    requires id in ids
    ensures FailAll(e, ids) == FailAll(FailOne(e, id), ids)
    decreases |ids|
  {
    hide FailOne;
    if ids[0] == id {
      FailOnce(e, id);
    } else {
      FailFirst(FailOne(e, ids[0]), ids[1..], id);
      FailCommutes(e, ids[0], id);
    }
  }

  lemma {:induction false} NothingFails(e: Engine, ids: seq<Id>)
    requires forall id :: id in ids ==> !Ends(e, id)
    ensures FailAll(e, ids) == e
    decreases |ids|
  {
    if ids != [] {
      assert ids[0] in ids;
      NothingFails(e, ids[1..]);
    }
  }

  /** Which requests the cleanup of a failed step fails, and how, depends only on which of its ids
      are unfinished: not on their order, and not on how often one is listed. */
  lemma {:induction false} FailAnyOrder(e: Engine, a: seq<Id>, b: seq<Id>)
    requires forall id :: Ends(e, id) ==> (id in a <==> id in b)
    ensures FailAll(e, a) == FailAll(e, b)
    decreases |a|
  {
    hide FailOne;
    hide Ends;
    if a == [] {
      NothingFails(e, b);
    } else {
      var e1 := FailOne(e, a[0]);
      assert forall id :: id in a <==> id == a[0] || id in a[1..];
      FailOnce(e, a[0]);
      FailAnyOrder(e1, a[1..], b);
      if Ends(e, a[0]) {
        FailFirst(e, b, a[0]);
      } else {
        NothingFails(e, [a[0]]);
      }
    }
  }

  /** The cleanup of a failed step may take the ids of its plan in any order, as a set. */
  lemma CleanupAnyOrder(e: Engine, ids: seq<Id>)
    requires e.phase.Failing? && Elems(ids) == Elems(PlanIds(e.phase.plan))
    ensures CleanupStep(e) == FailAll(e, ids).(phase := Idle)
  {
    forall id
      ensures id in ids <==> id in PlanIds(e.phase.plan)
    {
      assert id in ids <==> id in Elems(ids);
      assert id in PlanIds(e.phase.plan) <==> id in Elems(PlanIds(e.phase.plan));
    }
    FailAnyOrder(e, PlanIds(e.phase.plan), ids);
  }

  /** Neither a new request nor an executor call: the requests that an action ends leave no
      cache behind and do not time out. */
  predicate Ordinary(e: Engine, a: Action) {
    Continues(e, a) && !a.DecodeExecAction? && !a.PrefillExecAction?
  }

  lemma StepSettles(setup: Setup, e: Engine, a: Action)
    requires EngineInv(e) && Ordinary(e, a)
    ensures e.s.pool.blockSize > 0 && Settled(e, Step(setup, e, a))
  {
    hide SchedInv;
    hide KeysOk;
    hide Pending;
    hide MetaOk;
    hide Settled;
    EngineDimensions(e);
    SettledSame(e, e);
    match a
    case CancelAction(id) =>
      if id in e.s.requests && !e.s.requests[id].Finished() {
        EndSettles(e, id, CANCELLED, CancelledBy, e.metrics.(cancelled := e.metrics.cancelled + 1));
      }
    case BeginAction(now, planNow) =>
    case DecodeCommitAction =>
      if e.phase.DecodeReturned? {
        CommitDecodesSettle(setup.model, e, e.phase.plan.decode, e.phase.plan.prefill, e.phase.logits);
        PhaseSettles(e, CommitDecodes(setup.model, e, e.phase.plan.decode, e.phase.logits).0, Step(setup, e, a));
      }
    case PrefillCommitAction =>
      if e.phase.PrefillReturned? {
        CommitPrefillsSettle(setup.model, e, e.phase.plan.prefill, e.phase.logits);
        PhaseSettles(e, CommitPrefills(setup.model, e, e.phase.plan.prefill, e.phase.logits).0, Step(setup, e, a));
      }
    case CleanupAction =>
      if e.phase.Failing? {
        FailAllSettles(e, PlanIds(e.phase.plan));
        PhaseSettles(e, FailAll(e, PlanIds(e.phase.plan)), Step(setup, e, a));
      }
  }

  lemma PhaseSettles(e: Engine, e1: Engine, e2: Engine)
    requires Settled(e, e1) && e2 == e1.(phase := e2.phase)
    ensures Settled(e, e2)
  {
  }

  ghost predicate Same(e: Engine, e': Engine, id: Id)
    requires id in e.s.requests
  {
    id in e'.s.requests && e'.s.requests[id] == e.s.requests[id] && EventsOf(e'.events, id) == EventsOf(e.events, id)
  }

  /** No action changes what a request was submitted with. */
  lemma StepKeepsTerms(setup: Setup, e: Engine, a: Action, id: Id)
    requires EngineInv(e) && setup.limits.Valid() && id in e.s.requests
    ensures e.s.pool.blockSize > 0
    ensures id in Step(setup, e, a).s.requests && SameTerms(e.s.requests[id], Step(setup, e, a).s.requests[id])
  {
    hide EngineInv;
    hide BeginStep;
    hide SubmitStep;
    EngineDimensions(e);
    if a.SubmitAction? {
      SubmitAdds(e, a.sub, a.now);
    } else if a.BeginAction? && e.phase.Idle? {
      BeginFor(setup, e, a.now, a.planNow, id);
    } else if Ordinary(e, a) {
      StepSettles(setup, e, a);
      assert SettledFor(e, Step(setup, e, a), id);
    }
  }

  lemma {:induction false} RunKeepsTerms(setup: Setup, e: Engine, actions: seq<Action>, k: nat, id: Id)
    requires EngineInv(e) && setup.limits.Valid() && k <= |actions|
    requires id in RunEngine(setup, e, actions[..k]).s.requests
    ensures id in RunEngine(setup, e, actions).s.requests
    ensures SameTerms(RunEngine(setup, e, actions[..k]).s.requests[id], RunEngine(setup, e, actions).s.requests[id])
    decreases |actions|
  {
    hide EngineInv;
    hide Step;
    hide SameTerms;
    if k == |actions| {
      assert actions[..k] == actions;
      SameAsBefore(RunEngine(setup, e, actions).s.requests[id]);
    } else {
      var n := |actions| - 1;
      assert actions[..n][..k] == actions[..k];
      RunKeepsTerms(setup, e, actions[..n], k, id);
      StepKeepsTerms(setup, RunEngine(setup, e, actions[..n]), actions[n], id);
      SameOn(RunEngine(setup, e, actions[..k]).s.requests[id], RunEngine(setup, e, actions[..n]).s.requests[id],
             RunEngine(setup, e, actions).s.requests[id]);
    }
  }

  lemma SameAsBefore(r: Request)
    ensures SameTerms(r, r)
  {
  }

  lemma SameOn(r: Request, r1: Request, r2: Request)
    requires SameTerms(r, r1) && SameTerms(r1, r2)
    ensures SameTerms(r, r2)
  {
  }

  /** A submit adds one request that has not timed out, with an empty stream and no cache. */
  lemma SubmitAdds(e: Engine, sub: Submission, now: real)
    requires EngineInv(e)
    ensures e.s.pool.blockSize > 0
    ensures var e' := SubmitStep(e, sub, now);
      && e'.caches == e.caches && e'.phase == e.phase
      && (forall id :: id in e.s.requests ==> Same(e, e', id))
      && (forall id :: id in e'.s.requests && id !in e.s.requests ==> e'.s.requests[id].state != TIMED_OUT && id !in e'.caches)
  {
    hide SchedInv;
    hide PhaseInv;
    hide Submit;
    EngineDimensions(e);
    SubmitOutcome(e.s, sub, now);
  }
}
