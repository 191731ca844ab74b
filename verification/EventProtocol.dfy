/** The events each client sees and the counters an operator sees: every stream is the
    generated tokens and then at most one terminal event, and the counters add up. */
module EventProtocol {
  import opened Basics
  import opened PagedKV
  import opened PagedStorage
  import opened Scheduler
  import opened SchedulerInvariant
  import opened PlanInvariant
  import opened Executor
  import opened Engine
  import opened EngineInvariant
  import opened RefinementCommit
  import opened ContinuousBatching
  import opened Evolution
  import opened Endings

  // ----- streams -----

  function TokenEvents(tokens: seq<Token>): (r: seq<Event>)
    ensures |r| == |tokens|
  {
    seq(|tokens|, i requires 0 <= i < |tokens| => TokenEvent(tokens[i]))
  }

  /** The terminal events a state may show. A request that expired inside `plan` shows none. */
  predicate EndingOk(r: Request, ending: seq<Event>) {
    match r.state
    case FINISHED => ending == [FinishEvent(Stop)] || (ending == [FinishEvent(Length)] && |r.generated| >= r.maxNew)
    case CANCELLED => ending == [FinishEvent(CancelledBy)]
    case FAILED => ending == [FinishEvent(Failure)]
    case TIMED_OUT => ending == [FinishEvent(Timeout)] || ending == []
    case _ => ending == []
  }

  /** A stream is one event per generated token, in order, and then the ending. */
  predicate StreamOk(r: Request, events: seq<Event>) {
    && |r.generated| <= |events|
    && events[..|r.generated|] == TokenEvents(r.generated)
    && EndingOk(r, events[|r.generated|..])
  }

  ghost predicate StreamsOk(requests: map<Id, Request>, events: map<Id, seq<Event>>) {
    forall id :: id in requests ==> StreamOk(requests[id], EventsOf(events, id))
  }

  // ----- counters -----

  type Weight = (Request, seq<Event>) -> nat

  ghost function Weights(requests: map<Id, Request>, events: map<Id, seq<Event>>, f: Weight): map<Id, nat> {
    map id | id in requests :: f(requests[id], EventsOf(events, id))
  }

  /** The sum of `f` over all requests and their streams. */
  ghost function Total(requests: map<Id, Request>, events: map<Id, seq<Event>>, f: Weight): nat {
    SumMap(Weights(requests, events, f))
  }

  function One(b: bool): nat {
    if b then 1 else 0
  }

  /** Timed out and not told so. */
  predicate Untold(r: Request, ev: seq<Event>) {
    r.state == TIMED_OUT && |ev| <= |r.generated|
  }

  const IsSubmitted: Weight := (r: Request, ev: seq<Event>) => One(r.state != REJECTED)
  const IsRejected: Weight := (r: Request, ev: seq<Event>) => One(r.state == REJECTED)
  const IsCompleted: Weight := (r: Request, ev: seq<Event>) => One(r.state == FINISHED)
  const IsCancelled: Weight := (r: Request, ev: seq<Event>) => One(r.state == CANCELLED)
  const IsFailed: Weight := (r: Request, ev: seq<Event>) => One(r.state == FAILED)
  /** Timed out and told so. */
  const IsTimedOut: Weight := (r: Request, ev: seq<Event>) => One(r.state == TIMED_OUT && |ev| > |r.generated|)
  const IsSilent: Weight := (r: Request, ev: seq<Event>) => One(Untold(r, ev))
  const IsActive: Weight := (r: Request, ev: seq<Event>) => One(!r.Finished())
  const PromptTokens: Weight := (r: Request, ev: seq<Event>) => if r.state == REJECTED then 0 else |r.prompt|
  const GeneratedTokens: Weight := (r: Request, ev: seq<Event>) => |r.generated|

  /** Every counter is a sum over the requests and their streams. */
  ghost predicate CountersOk(requests: map<Id, Request>, events: map<Id, seq<Event>>, n: Metrics) {
    && n.submitted == Total(requests, events, IsSubmitted)
    && n.rejected == Total(requests, events, IsRejected)
    && n.completed == Total(requests, events, IsCompleted)
    && n.cancelled == Total(requests, events, IsCancelled)
    && n.failed == Total(requests, events, IsFailed)
    && n.timedOut == Total(requests, events, IsTimedOut)
    && n.promptTokens == Total(requests, events, PromptTokens)
    && n.generatedTokens == Total(requests, events, GeneratedTokens)
  }

  /** The counters change by what one request's weights change. */
  ghost predicate Accounted(r: Request, ev: seq<Event>, n: Metrics, r': Request, ev': seq<Event>, n': Metrics) {
    && n'.submitted == n.submitted - IsSubmitted(r, ev) + IsSubmitted(r', ev')
    && n'.rejected == n.rejected - IsRejected(r, ev) + IsRejected(r', ev')
    && n'.completed == n.completed - IsCompleted(r, ev) + IsCompleted(r', ev')
    && n'.cancelled == n.cancelled - IsCancelled(r, ev) + IsCancelled(r', ev')
    && n'.failed == n.failed - IsFailed(r, ev) + IsFailed(r', ev')
    && n'.timedOut == n.timedOut - IsTimedOut(r, ev) + IsTimedOut(r', ev')
    && n'.promptTokens == n.promptTokens - PromptTokens(r, ev) + PromptTokens(r', ev')
    && n'.generatedTokens == n.generatedTokens - GeneratedTokens(r, ev) + GeneratedTokens(r', ev')
  }

  ghost predicate SameOthers(events: map<Id, seq<Event>>, events': map<Id, seq<Event>>, id: Id) {
    forall i :: i != id ==> EventsOf(events', i) == EventsOf(events, i)
  }

  lemma TotalPut(requests: map<Id, Request>, events: map<Id, seq<Event>>, id: Id, r: Request, events': map<Id, seq<Event>>, f: Weight)
    requires id in requests && SameOthers(events, events', id)
    ensures Total(requests[id := r], events', f) ==
      Total(requests, events, f) - f(requests[id], EventsOf(events, id)) + f(r, EventsOf(events', id))
  {
    var w := Weights(requests, events, f);
    var w' := Weights(requests[id := r], events', f);
    assert w' == w[id := f(r, EventsOf(events', id))];
    SumMapPut(w, id, f(r, EventsOf(events', id)));
    SumMapDrop(w, id);
  }

  lemma TotalAdd(requests: map<Id, Request>, events: map<Id, seq<Event>>, id: Id, r: Request, events': map<Id, seq<Event>>, f: Weight)
    requires id !in requests && SameOthers(events, events', id)
    ensures Total(requests[id := r], events', f) == Total(requests, events, f) + f(r, EventsOf(events', id))
  {
    var w := Weights(requests, events, f);
    var w' := Weights(requests[id := r], events', f);
    assert w' == w[id := f(r, EventsOf(events', id))];
    SumMapPut(w, id, f(r, EventsOf(events', id)));
    SumMapDrop(w, id);
  }

  /** The streams and counters agree with the requests. */
  ghost predicate BooksOk(requests: map<Id, Request>, events: map<Id, seq<Event>>, n: Metrics) {
    StreamsOk(requests, events) && CountersOk(requests, events, n)
  }

  lemma UpdateBooks(requests: map<Id, Request>, events: map<Id, seq<Event>>, n: Metrics, id: Id, r: Request,
                    events': map<Id, seq<Event>>, n': Metrics)
    requires BooksOk(requests, events, n) && id in requests && SameOthers(events, events', id)
    requires Accounted(requests[id], EventsOf(events, id), n, r, EventsOf(events', id), n')
    requires StreamOk(r, EventsOf(events', id))
    ensures BooksOk(requests[id := r], events', n')
  {
    hide StreamsOk;
    hide StreamOk;
    hide CountersOk;
    hide Accounted;
    hide SameOthers;
    UpdateCounters(requests, events, n, id, r, events', n');
    UpdateStreams(requests, events, id, r, events');
  }

  lemma UpdateStreams(requests: map<Id, Request>, events: map<Id, seq<Event>>, id: Id, r: Request, events': map<Id, seq<Event>>)
    requires StreamsOk(requests, events) && SameOthers(events, events', id) && StreamOk(r, EventsOf(events', id))
    ensures StreamsOk(requests[id := r], events')
  {
    hide StreamOk;
    forall i | i in requests[id := r]
      ensures StreamOk(requests[id := r][i], EventsOf(events', i))
    {
      if i != id { assert EventsOf(events', i) == EventsOf(events, i); }
    }
  }

  lemma UpdateCounters(requests: map<Id, Request>, events: map<Id, seq<Event>>, n: Metrics, id: Id, r: Request,
                       events': map<Id, seq<Event>>, n': Metrics)
    requires CountersOk(requests, events, n) && id in requests && SameOthers(events, events', id)
    requires Accounted(requests[id], EventsOf(events, id), n, r, EventsOf(events', id), n')
    ensures CountersOk(requests[id := r], events', n')
  {
    hide Total;
    hide SameOthers;
    TotalPut(requests, events, id, r, events', IsSubmitted);
    TotalPut(requests, events, id, r, events', IsRejected);
    TotalPut(requests, events, id, r, events', IsCompleted);
    TotalPut(requests, events, id, r, events', IsCancelled);
    TotalPut(requests, events, id, r, events', IsFailed);
    TotalPut(requests, events, id, r, events', IsTimedOut);
    TotalPut(requests, events, id, r, events', PromptTokens);
    TotalPut(requests, events, id, r, events', GeneratedTokens);
  }

  // ----- submit -----

  /** The counters change by the weights of a new request. */
  ghost predicate Entered(n: Metrics, r: Request, ev: seq<Event>, n': Metrics) {
    && n'.submitted == n.submitted + IsSubmitted(r, ev) && n'.rejected == n.rejected + IsRejected(r, ev)
    && n'.completed == n.completed + IsCompleted(r, ev) && n'.cancelled == n.cancelled + IsCancelled(r, ev)
    && n'.failed == n.failed + IsFailed(r, ev) && n'.timedOut == n.timedOut + IsTimedOut(r, ev)
    && n'.promptTokens == n.promptTokens + PromptTokens(r, ev)
    && n'.generatedTokens == n.generatedTokens + GeneratedTokens(r, ev)
  }

  lemma EnterBooks(requests: map<Id, Request>, events: map<Id, seq<Event>>, n: Metrics, id: Id, r: Request,
                   events': map<Id, seq<Event>>, n': Metrics)
    requires BooksOk(requests, events, n) && id !in requests && SameOthers(events, events', id)
    requires Entered(n, r, EventsOf(events', id), n') && StreamOk(r, EventsOf(events', id))
    ensures BooksOk(requests[id := r], events', n')
  {
    hide StreamOk;
    hide StreamsOk;
    hide Total;
    hide SameOthers;
    UpdateStreams(requests, events, id, r, events');
    TotalAdd(requests, events, id, r, events', IsSubmitted);
    TotalAdd(requests, events, id, r, events', IsRejected);
    TotalAdd(requests, events, id, r, events', IsCompleted);
    TotalAdd(requests, events, id, r, events', IsCancelled);
    TotalAdd(requests, events, id, r, events', IsFailed);
    TotalAdd(requests, events, id, r, events', IsTimedOut);
    TotalAdd(requests, events, id, r, events', PromptTokens);
    TotalAdd(requests, events, id, r, events', GeneratedTokens);
  }

  ghost predicate Books(e: Engine) {
    BooksOk(e.s.requests, e.events, e.metrics)
  }

  lemma SubmitBooks(e: Engine, sub: Submission, now: real)
    requires KeysOk(e) && Books(e) && e.s.pool.blockSize > 0
    ensures Books(SubmitStep(e, sub, now))
  {
    hide BooksOk;
    hide Submit;
    var (s, r) := Submit(e.s, sub, now);
    SubmitOutcome(e.s, sub, now);
    if r == Raises(AdmissionError) {
      RejectBooks(e, sub, now, SubmitStep(e, sub, now));
    } else if r.Returns? {
      AdmitBooks(e, sub, now, SubmitStep(e, sub, now));
    }
  }

  lemma RejectBooks(e: Engine, sub: Submission, now: real, e': Engine)
    requires KeysOk(e) && Books(e) && sub.id !in e.s.requests
    requires e'.s.requests == e.s.requests[sub.id := ToRequest(sub, REJECTED, now)] && e'.events == e.events
    requires e'.metrics == e.metrics.(rejected := e.metrics.rejected + 1)
    ensures Books(e')
  {
    hide BooksOk;
    EnterBooks(e.s.requests, e.events, e.metrics, sub.id, ToRequest(sub, REJECTED, now), e'.events, e'.metrics);
  }

  lemma AdmitBooks(e: Engine, sub: Submission, now: real, e': Engine)
    requires Books(e) && sub.id !in e.s.requests
    requires e'.s.requests == e.s.requests[sub.id := ToRequest(sub, PREFILL, now)] && e'.events == e.events[sub.id := []]
    requires e'.metrics == e.metrics.(submitted := e.metrics.submitted + 1, promptTokens := e.metrics.promptTokens + |sub.prompt|)
    ensures Books(e')
  {
    hide BooksOk;
    EnterBooks(e.s.requests, e.events, e.metrics, sub.id, ToRequest(sub, PREFILL, now), e'.events, e'.metrics);
  }

  // ----- endings -----

  /** A live request ends with a terminal event and its counter. */
  lemma EndBooks(e: Engine, id: Id, state: RequestState, reason: Reason, n: Metrics)
    requires KeysOk(e) && Books(e) && id in e.s.requests && Live(e.s.requests[id])
    requires (state == CANCELLED && reason == CancelledBy && n == e.metrics.(cancelled := e.metrics.cancelled + 1))
          || (state == FAILED && reason == Failure && n == e.metrics.(failed := e.metrics.failed + 1))
    ensures BooksOk(e.s.requests[id := e.s.requests[id].(state := state)], Finish(e, id, reason).events, n)
  {
    hide CountersOk;
    hide StreamOk;
    var r, ev := e.s.requests[id], EventsOf(e.events, id);
    assert StreamOk(r, ev);
    EndStream(r, state, ev, reason);
    EndUpdate(e, id, state, reason, n);
  }

  lemma EndStream(r: Request, state: RequestState, ev: seq<Event>, reason: Reason)
    requires Live(r) && StreamOk(r, ev)
    requires (state == CANCELLED && reason == CancelledBy) || (state == FAILED && reason == Failure)
    ensures StreamOk(r.(state := state), ev + [FinishEvent(reason)])
  {
    assert ev == TokenEvents(r.generated);
    assert (ev + [FinishEvent(reason)])[..|r.generated|] == ev;
    assert (ev + [FinishEvent(reason)])[|r.generated|..] == [FinishEvent(reason)];
  }

  lemma EndUpdate(e: Engine, id: Id, state: RequestState, reason: Reason, n: Metrics)
    requires KeysOk(e) && Books(e) && id in e.s.requests && Live(e.s.requests[id]) && id in e.events
    requires (state == CANCELLED && n == e.metrics.(cancelled := e.metrics.cancelled + 1))
          || (state == FAILED && n == e.metrics.(failed := e.metrics.failed + 1))
    requires StreamOk(e.s.requests[id].(state := state), e.events[id] + [FinishEvent(reason)])
    ensures BooksOk(e.s.requests[id := e.s.requests[id].(state := state)], Finish(e, id, reason).events, n)
  {
    hide BooksOk;
    hide StreamOk;
    UpdateBooks(e.s.requests, e.events, e.metrics, id, e.s.requests[id].(state := state), Finish(e, id, reason).events, n);
  }

  lemma CancelBooks(e: Engine, id: Id)
    requires EngineInv(e) && Books(e)
    ensures Books(CancelStep(e, id))
  {
    hide BooksOk;
    hide SchedInv;
    hide PhaseInv;
    hide KeysOk;
    if id in e.s.requests && !e.s.requests[id].Finished() {
      NotWaiting(e.s, id);
      EndBooks(e, id, CANCELLED, CancelledBy, e.metrics.(cancelled := e.metrics.cancelled + 1));
    }
  }

  lemma {:induction false} FailAllBooks(e: Engine, ids: seq<Id>)
    requires SchedInv(e.s) && KeysOk(e) && Books(e)
    ensures Books(FailAll(e, ids))
    decreases |ids|
  {
    hide BooksOk;
    hide SchedInv;
    hide KeysOk;
    if ids != [] {
      FailOneKeeps(e, ids[0]);
      if ids[0] in e.s.requests && !e.s.requests[ids[0]].Finished() {
        NotWaiting(e.s, ids[0]);
        EndBooks(e, ids[0], FAILED, Failure, e.metrics.(failed := e.metrics.failed + 1));
      }
      FailAllBooks(FailOne(e, ids[0]), ids[1..]);
    }
  }

  // ----- expiry -----

  /** A request that times out is silent until its event is sent. */
  ghost predicate Silent(requests: map<Id, Request>, events: map<Id, seq<Event>>, id: Id) {
    && id in requests && requests[id].state == TIMED_OUT && |EventsOf(events, id)| == |requests[id].generated|
  }

  lemma ExpireOneBooks(requests: map<Id, Request>, events: map<Id, seq<Event>>, n: Metrics, id: Id)
    requires BooksOk(requests, events, n) && id in requests && Live(requests[id])
    ensures BooksOk(requests[id := requests[id].(state := TIMED_OUT)], events, n)
    ensures Silent(requests[id := requests[id].(state := TIMED_OUT)], events, id)
  {
    hide CountersOk;
    assert StreamOk(requests[id], EventsOf(events, id));
    assert StreamOk(requests[id].(state := TIMED_OUT), EventsOf(events, id));
    ExpireUpdate(requests, events, n, id);
  }

  lemma ExpireUpdate(requests: map<Id, Request>, events: map<Id, seq<Event>>, n: Metrics, id: Id)
    requires BooksOk(requests, events, n) && id in requests && Live(requests[id])
    requires StreamOk(requests[id].(state := TIMED_OUT), EventsOf(events, id))
    requires |EventsOf(events, id)| == |requests[id].generated|
    ensures BooksOk(requests[id := requests[id].(state := TIMED_OUT)], events, n)
  {
    hide BooksOk;
    hide StreamOk;
    UpdateBooks(requests, events, n, id, requests[id].(state := TIMED_OUT), events, n);
  }

  /** The ids that a call of `expire` adds to its result. */
  ghost predicate Expired(s: Sched, s': Sched, events: map<Id, seq<Event>>, before: seq<Id>, after: seq<Id>) {
    && before <= after && NoDup(after[|before|..])
    && forall id :: id in after[|before|..] ==> id in s.requests && !s.requests[id].Finished() && Silent(s'.requests, events, id)
  }

  lemma {:induction false} ExpireBooks(s: Sched, now: real, ids: seq<Id>, expired: seq<Id>, events: map<Id, seq<Event>>, n: Metrics)
    requires SchedInv(s) && BooksOk(s.requests, events, n)
    ensures var (s', after) := ExpireFrom(s, now, ids, expired);
      BooksOk(s'.requests, events, n) && Expired(s, s', events, expired, after)
    decreases |ids|
  {
    hide BooksOk;
    hide SchedInv;
    if ids != [] {
      if ids[0] in s.requests && Due(s.requests[ids[0]], now) {
        NotWaiting(s, ids[0]);
        TerminateKeeps(s, ids[0], TIMED_OUT);
        ExpireOneBooks(s.requests, events, n, ids[0]);
        var s1 := Terminate(s, ids[0], TIMED_OUT);
        ExpireBooks(s1, now, ids[1..], expired + [ids[0]], events, n);
        ExpireOnlyExpires(s1, now, ids[1..], expired + [ids[0]]);
        var (s', after) := ExpireFrom(s, now, ids, expired);
        ExpiredStep(s, s1, s', events, expired, after, ids[0]);
      } else {
        ExpireBooks(s, now, ids[1..], expired, events, n);
      }
    }
  }

  lemma ExpiredStep(s: Sched, s1: Sched, s': Sched, events: map<Id, seq<Event>>, before: seq<Id>, after: seq<Id>, id: Id)
    requires Expired(s1, s', events, before + [id], after) && OnlyExpired(s1, s')
    requires id in s.requests && !s.requests[id].Finished() && s1.requests == s.requests[id := s.requests[id].(state := TIMED_OUT)]
    requires Silent(s1.requests, events, id)
    ensures Expired(s, s', events, before, after)
  {
    assert after[|before|..] == [id] + after[|before| + 1..];
  }

  lemma {:induction false} FinishExpiredBooks(e: Engine, ids: seq<Id>)
    requires KeysOk(e) && Books(e) && NoDup(ids)
    requires forall id :: id in ids ==> Silent(e.s.requests, e.events, id)
    ensures Books(FinishExpired(e, ids))
    decreases |ids|
  {
    hide BooksOk;
    if ids != [] {
      var id := ids[0];
      assert ids == [id] + ids[1..];
      NoDupTail(id, ids[1..]);
      var e1 := Finish(e.(metrics := e.metrics.(timedOut := e.metrics.timedOut + 1)), id, Timeout);
      assert Silent(e.s.requests, e.events, id);
      TimeoutBooks(e, id);
      FinishKeys(e, id);
      forall i | i in ids[1..]
        ensures Silent(e1.s.requests, e1.events, i)
      {
        assert i in ids && i != id;
        assert Silent(e.s.requests, e.events, i);
      }
      FinishExpiredBooks(e1, ids[1..]);
    }
  }

  lemma FinishKeys(e: Engine, id: Id)
    requires KeysOk(e)
    ensures KeysOk(Finish(e.(metrics := e.metrics.(timedOut := e.metrics.timedOut + 1)), id, Timeout))
  {
  }

  lemma TimeoutBooks(e: Engine, id: Id)
    requires KeysOk(e) && Books(e) && Silent(e.s.requests, e.events, id)
    ensures Books(Finish(e.(metrics := e.metrics.(timedOut := e.metrics.timedOut + 1)), id, Timeout))
  {
    hide CountersOk;
    var r, ev := e.s.requests[id], EventsOf(e.events, id);
    assert StreamOk(r, ev);
    assert (ev + [FinishEvent(Timeout)])[..|r.generated|] == ev[..|r.generated|];
    assert (ev + [FinishEvent(Timeout)])[|r.generated|..] == [FinishEvent(Timeout)];
    TimeoutUpdate(e, id);
  }

  lemma TimeoutUpdate(e: Engine, id: Id)
    requires KeysOk(e) && Books(e) && Silent(e.s.requests, e.events, id) && id in e.events
    requires StreamOk(e.s.requests[id], e.events[id] + [FinishEvent(Timeout)])
    ensures Books(Finish(e.(metrics := e.metrics.(timedOut := e.metrics.timedOut + 1)), id, Timeout))
  {
    hide BooksOk;
    hide StreamOk;
    var e1 := Finish(e.(metrics := e.metrics.(timedOut := e.metrics.timedOut + 1)), id, Timeout);
    UpdateBooks(e.s.requests, e.events, e.metrics, id, e.s.requests[id], e1.events, e1.metrics);
    assert e.s.requests[id := e.s.requests[id]] == e.s.requests;
  }

  // ----- tokens -----

  /** One more sampled token: its event, and the terminal event if it was the last. */
  lemma TokenBooks(e: Engine, s: Sched, id: Id, sample: Sample)
    requires KeysOk(e) && Books(e) && id in e.s.requests && Live(e.s.requests[id]) && id in e.samplers
    requires s.requests == e.s.requests[id := Appended(e.s.requests[id], sample.token, sample.stopped)]
    ensures Books(Record(Drawn(e, id).(s := s), id, sample).0)
  {
    hide CountersOk;
    hide StreamOk;
    var r, ev := e.s.requests[id], EventsOf(e.events, id);
    var r' := Appended(r, sample.token, sample.stopped);
    var e1 := Record(Drawn(e, id).(s := s), id, sample).0;
    assert StreamOk(r, ev);
    var ending := if r'.state == FINISHED then [FinishEvent(if sample.stopped then Stop else Length)] else [];
    assert e1.events[id] == ev + [TokenEvent(sample.token)] + ending;
    TokenStream(r, sample, ev, ending);
    TokenUpdate(e, s, id, sample, ev);
  }

  lemma TokenStream(r: Request, sample: Sample, ev: seq<Event>, ending: seq<Event>)
    requires Live(r) && StreamOk(r, ev)
    requires ending == if Appended(r, sample.token, sample.stopped).state == FINISHED
                       then [FinishEvent(if sample.stopped then Stop else Length)] else []
    ensures StreamOk(Appended(r, sample.token, sample.stopped), ev + [TokenEvent(sample.token)] + ending)
    ensures ev == TokenEvents(r.generated)
  {
    var r' := Appended(r, sample.token, sample.stopped);
    assert ev == TokenEvents(r.generated);
    assert ev + [TokenEvent(sample.token)] == TokenEvents(r'.generated);
    assert (ev + [TokenEvent(sample.token)] + ending)[..|r'.generated|] == TokenEvents(r'.generated);
    assert (ev + [TokenEvent(sample.token)] + ending)[|r'.generated|..] == ending;
  }

  lemma TokenUpdate(e: Engine, s: Sched, id: Id, sample: Sample, ev: seq<Event>)
    requires Books(e) && id in e.s.requests && Live(e.s.requests[id]) && id in e.samplers && id in e.events
    requires s.requests == e.s.requests[id := Appended(e.s.requests[id], sample.token, sample.stopped)]
    requires StreamOk(Appended(e.s.requests[id], sample.token, sample.stopped), EventsOf(Record(Drawn(e, id).(s := s), id, sample).0.events, id))
    ensures Books(Record(Drawn(e, id).(s := s), id, sample).0)
  {
    hide BooksOk;
    hide StreamOk;
    var e1 := Record(Drawn(e, id).(s := s), id, sample).0;
    UpdateBooks(e.s.requests, e.events, e.metrics, id, Appended(e.s.requests[id], sample.token, sample.stopped), e1.events, e1.metrics);
  }

  lemma CommitDecodeBooks(m: Model, e: Engine, w: DecodeWork, logits: map<Id, Logits>)
    requires SchedInv(e.s) && KeysOk(e) && PendingDecode(e.s, w) && Books(e)
    ensures Books(CommitDecodeItem(m, e, w, logits).0)
  {
    hide BooksOk;
    hide SchedInv;
    hide KeysOk;
    hide DecodeItemFits;
    hide Commit;
    hide Record;
    hide Draw;
    CommitDecodeOutcome(m, e, w, logits);
    if w.id in e.s.inflight && w.id in logits {
      var r := e.s.requests[w.id];
      var sample := Draw(m, e, w.id, logits[w.id], r.prompt + r.generated);
      var s := e.s.(inflight := e.s.inflight - {w.id});
      CommitIsAppended(s, w.id, sample.token, sample.stopped);
      TokenBooks(e, Commit(s, w.id, sample.token, sample.stopped), w.id, sample);
    }
  }

  lemma {:induction false} CommitDecodesBooks(m: Model, e: Engine, work: seq<DecodeWork>, prefill: seq<PrefillWork>, logits: map<Id, Logits>)
    requires SchedInv(e.s) && KeysOk(e) && Sampled(e.s) && Pending(e.s, work, prefill) && Books(e)
    ensures Books(CommitDecodes(m, e, work, logits).0)
    decreases |work|
  {
    hide BooksOk;
    hide SchedInv;
    hide KeysOk;
    hide Sampled;
    hide OnlyCommitted;
    hide CommitDecodeItem;
    hide PendingDecode;
    hide PendingPrefill;
    if work != [] {
      assert PendingDecode(e.s, work[0]);
      CommitDecodeHead(m, e, work[0], logits);
      CommitDecodeBooks(m, e, work[0], logits);
      var (e1, r) := CommitDecodeItem(m, e, work[0], logits);
      if r.Returns? {
        PendingDecodeTail(e.s, e1.s, work, prefill);
        CommitDecodesBooks(m, e1, work[1..], prefill, logits);
      }
    }
  }

  /** A chunk moves the cursor and shows nothing. */
  lemma ChunkBooks(requests: map<Id, Request>, events: map<Id, seq<Event>>, n: Metrics, id: Id, r: Request)
    requires BooksOk(requests, events, n) && id in requests && Live(requests[id]) && Live(r)
    requires r == requests[id].(cursor := r.cursor, state := r.state)
    ensures BooksOk(requests[id := r], events, n)
  {
    hide CountersOk;
    assert StreamOk(requests[id], EventsOf(events, id));
    assert StreamOk(r, EventsOf(events, id));
    ChunkUpdate(requests, events, n, id, r);
  }

  lemma ChunkUpdate(requests: map<Id, Request>, events: map<Id, seq<Event>>, n: Metrics, id: Id, r: Request)
    requires BooksOk(requests, events, n) && id in requests && Live(requests[id]) && Live(r)
    requires r == requests[id].(cursor := r.cursor, state := r.state) && StreamOk(r, EventsOf(events, id))
    ensures BooksOk(requests[id := r], events, n)
  {
    hide BooksOk;
    hide StreamOk;
    UpdateBooks(requests, events, n, id, r, events, n);
  }

  lemma CommitPrefillBooks(m: Model, e: Engine, w: PrefillWork, logits: map<Id, Logits>)
    requires SchedInv(e.s) && KeysOk(e) && PendingPrefill(e.s, w) && Books(e)
    ensures Books(CommitPrefillItem(m, e, w, logits).0)
  {
    hide BooksOk;
    hide SchedInv;
    hide KeysOk;
    hide PrefillItemFits;
    hide CompletePrefill;
    hide Commit;
    hide Record;
    hide Draw;
    CommitPrefillOutcome(m, e, w, logits);
    if w.id in e.s.inflight {
      PrefillCompleted(e.s, w);
      CompletedRequests(e.s, w);
      var (s, last) := CompletePrefill(e.s, w.id, |w.tokens|);
      ChunkBooks(e.s.requests, e.events, e.metrics, w.id, s.requests[w.id]);
      if last.value && w.id in logits {
        var sample := Draw(m, e, w.id, logits[w.id], s.requests[w.id].prompt);
        CommitIsAppended(s, w.id, sample.token, sample.stopped);
        KeysCommitted(e, s, w.id);
        TokenBooks(e.(s := s), Commit(s, w.id, sample.token, sample.stopped), w.id, sample);
      }
    }
  }

  lemma {:induction false} CommitPrefillsBooks(m: Model, e: Engine, work: seq<PrefillWork>, logits: map<Id, Logits>)
    requires SchedInv(e.s) && KeysOk(e) && Sampled(e.s) && Pending(e.s, [], work) && Books(e)
    ensures Books(CommitPrefills(m, e, work, logits).0)
    decreases |work|
  {
    hide BooksOk;
    hide SchedInv;
    hide KeysOk;
    hide Sampled;
    hide OnlyCommitted;
    hide CommitPrefillItem;
    hide PendingPrefill;
    if work != [] {
      assert PendingPrefill(e.s, work[0]);
      CommitPrefillHead(m, e, work[0], logits);
      CommitPrefillBooks(m, e, work[0], logits);
      var (e1, r) := CommitPrefillItem(m, e, work[0], logits);
      if r.Returns? {
        PendingPrefillTail(e.s, e1.s, work);
        CommitPrefillsBooks(m, e1, work[1..], logits);
      }
    }
  }

  // ----- beginning a step, every action, every run -----

  lemma BeginBooks(setup: Setup, e: Engine, now: real, planNow: real)
    requires EngineInv(e) && e.phase.Idle? && setup.limits.Valid() && Books(e)
    ensures e.s.pool.blockSize > 0 && Books(BeginStep(setup, e, now, planNow))
  {
    hide BooksOk;
    hide SchedInv;
    hide KeysOk;
    hide SoFar;
    hide PlanOk;
    hide PhaseInv;
    InflightOwned(e.s);
    var s1, s2, plan := BeginOutcome(setup, e, now, planNow);
    ExpireBooks(e.s, now, e.s.order, [], e.events, e.metrics);
    KeysExpired(e, s1);
    var expired := Expire(e.s, now).1;
    assert expired[0..] == expired;
    FinishExpiredBooks(e.(s := s1), expired);
    FinishKeepsPhase(e.(s := s1), expired);
    var e1 := FinishExpired(e.(s := s1), expired);
    ExpireBooks(s1, planNow, s1.order, [], e1.events, e1.metrics);
  }

  lemma StepBooks(setup: Setup, e: Engine, a: Action)
    requires EngineInv(e) && setup.limits.Valid() && Books(e)
    ensures e.s.pool.blockSize > 0 && Books(Step(setup, e, a))
  {
    hide BooksOk;
    hide SchedInv;
    hide KeysOk;
    hide Pending;
    hide MetaOk;
    EngineDimensions(e);
    match a
    case SubmitAction(sub, now) => SubmitBooks(e, sub, now);
    case CancelAction(id) => CancelBooks(e, id);
    case BeginAction(now, planNow) => if e.phase.Idle? { BeginBooks(setup, e, now, planNow); }
    case DecodeExecAction(fault, omit) =>
    case DecodeCommitAction =>
      if e.phase.DecodeReturned? { CommitDecodesBooks(setup.model, e, e.phase.plan.decode, e.phase.plan.prefill, e.phase.logits); }
    case PrefillExecAction(fail, junk, omit) =>
    case PrefillCommitAction =>
      if e.phase.PrefillReturned? { CommitPrefillsBooks(setup.model, e, e.phase.plan.prefill, e.phase.logits); }
    case CleanupAction => if e.phase.Failing? { FailAllBooks(e, PlanIds(e.phase.plan)); }
  }

  lemma {:induction false} RunBooks(setup: Setup, e: Engine, actions: seq<Action>)
    requires EngineInv(e) && setup.limits.Valid() && Books(e)
    ensures Books(RunEngine(setup, e, actions))
    decreases |actions|
  {
    hide EngineInv;
    hide BooksOk;
    if actions != [] {
      RunBooks(setup, e, actions[..|actions| - 1]);
      StepBooks(setup, RunEngine(setup, e, actions[..|actions| - 1]), actions[|actions| - 1]);
    }
  }

  // ----- conservation -----

  lemma TotalNone(events: map<Id, seq<Event>>, f: Weight)
    ensures Total(map[], events, f) == 0
  {
    assert Weights(map[], events, f) == map[];
  }

  ghost predicate AddUp(requests: map<Id, Request>, events: map<Id, seq<Event>>) {
    Total(requests, events, IsSubmitted) ==
      Total(requests, events, IsCompleted) + Total(requests, events, IsCancelled) + Total(requests, events, IsFailed)
      + Total(requests, events, IsTimedOut) + Total(requests, events, IsSilent) + Total(requests, events, IsActive)
  }

  /** A request counts in exactly one column. */
  lemma OneColumn(r: Request, ev: seq<Event>)
    requires r.state != WAITING
    ensures IsSubmitted(r, ev) ==
      IsCompleted(r, ev) + IsCancelled(r, ev) + IsFailed(r, ev) + IsTimedOut(r, ev) + IsSilent(r, ev) + IsActive(r, ev)
  {
  }

  lemma AddUpOne(requests: map<Id, Request>, events: map<Id, seq<Event>>, id: Id, r: Request)
    requires id !in requests && r.state != WAITING && AddUp(requests, events)
    ensures AddUp(requests[id := r], events)
  {
    hide Total;
    hide IsSubmitted;
    hide IsCompleted;
    hide IsCancelled;
    hide IsFailed;
    hide IsTimedOut;
    hide IsSilent;
    hide IsActive;
    OneColumn(r, EventsOf(events, id));
    TotalAdd(requests, events, id, r, events, IsSubmitted);
    TotalAdd(requests, events, id, r, events, IsCompleted);
    TotalAdd(requests, events, id, r, events, IsCancelled);
    TotalAdd(requests, events, id, r, events, IsFailed);
    TotalAdd(requests, events, id, r, events, IsTimedOut);
    TotalAdd(requests, events, id, r, events, IsSilent);
    TotalAdd(requests, events, id, r, events, IsActive);
  }

  lemma AddUpNone(events: map<Id, seq<Event>>)
    ensures AddUp(map[], events)
  {
    TotalNone(events, IsSubmitted);
    TotalNone(events, IsCompleted);
    TotalNone(events, IsCancelled);
    TotalNone(events, IsFailed);
    TotalNone(events, IsTimedOut);
    TotalNone(events, IsSilent);
    TotalNone(events, IsActive);
  }

  /** Each request counts in exactly one column. */
  lemma {:induction false} ColumnsAddUp(requests: map<Id, Request>, events: map<Id, seq<Event>>)
    requires forall id :: id in requests ==> requests[id].state != WAITING
    ensures AddUp(requests, events)
    decreases |requests|
  {
    hide AddUp;
    if requests == map[] {
      AddUpNone(events);
    } else {
      var id :| id in requests;
      var rest := requests - {id};
      ColumnsAddUp(rest, events);
      AddUpOne(rest, events, id, requests[id]);
      assert rest[id := requests[id]] == requests;
    }
  }

  lemma NoneWaiting(s: Sched)
    requires SchedInv(s)
    ensures forall id :: id in s.requests ==> s.requests[id].state != WAITING
  {
    hide PoolInv;
    hide OwnersOk;
    hide QueuesOk;
    hide ReservedOk;
  }

  // ----- who times out without being told -----

  /** The requests that timed out and whose stream has no terminal event. */
  ghost function Silenced(e: Engine): set<Id> {
    UntoldIds(e.s.requests, e.events)
  }

  ghost function UntoldIds(requests: map<Id, Request>, events: map<Id, seq<Event>>): set<Id> {
    set id | id in requests && Untold(requests[id], EventsOf(events, id))
  }

  /** The requests that an action times out behind the back of their clients: those that fall due
      between the two expiries of a beginning step. */
  ghost function NewlySilent(e: Engine, a: Action): set<Id> {
    if a.BeginAction? && e.phase.Idle?
    then set id | id in e.s.requests && Missed(e.s.requests[id], a.now, a.planNow)
    else {}
  }

  lemma SilentForBegin(e: Engine, e': Engine, now: real, planNow: real, id: Id)
    requires Books(e) && KeysOk(e) && id in e.s.requests && BegunFor(e, e', now, planNow, id)
    ensures Untold(e'.s.requests[id], EventsOf(e'.events, id)) <==>
      (Untold(e.s.requests[id], EventsOf(e.events, id)) || Missed(e.s.requests[id], now, planNow))
  {
    hide CountersOk;
    hide KeysOk;
    assert StreamOk(e.s.requests[id], EventsOf(e.events, id));
  }

  lemma SilentForSettled(e: Engine, e': Engine, id: Id)
    requires id in e.s.requests && id in e'.s.requests && SettledFor(e, e', id)
    ensures Untold(e'.s.requests[id], EventsOf(e'.events, id)) <==> Untold(e.s.requests[id], EventsOf(e.events, id))
  {
  }

  /** An action silences exactly the requests that fall due between the two expiries of a step:
      nothing else makes a request end without a terminal event, and nothing makes up for it. */
  lemma StepSilences(setup: Setup, e: Engine, a: Action)
    requires EngineInv(e) && setup.limits.Valid() && Books(e)
    ensures e.s.pool.blockSize > 0
    ensures Silenced(Step(setup, e, a)) == Silenced(e) + NewlySilent(e, a)
  {
    hide SchedInv;
    hide PhaseInv;
    hide BooksOk;
    hide KeysOk;
    hide SettledFor;
    hide BegunFor;
    hide Missed;
    hide Untold;
    EngineDimensions(e);
    var e' := Step(setup, e, a);
    if a.SubmitAction? {
      SubmitAdds(e, a.sub, a.now);
      SubmitSilences(e, e');
    } else if a.BeginAction? && e.phase.Idle? {
      BeginFrame(setup, e, a.now, a.planNow);
      forall id | id in e.s.requests {
        SilentForBegin(e, e', a.now, a.planNow, id);
      }
    } else if Ordinary(e, a) {
      StepSettles(setup, e, a);
      forall id | id in e.s.requests {
        SilentForSettled(e, e', id);
      }
    }
  }

  /** A live request times out in silence if and only if it was not due when `step` expired
      requests and was when `plan` did so once more. */
  lemma BeginSilences(setup: Setup, e: Engine, now: real, planNow: real, id: Id)
    requires EngineInv(e) && e.phase.Idle? && setup.limits.Valid() && Books(e)
    requires id in e.s.requests && !e.s.requests[id].Finished()
    ensures e.s.pool.blockSize > 0
    ensures var e' := BeginStep(setup, e, now, planNow);
      && id in e'.s.requests
      && (e'.s.requests[id].state == TIMED_OUT && EventsOf(e'.events, id) == TokenEvents(e.s.requests[id].generated)
          <==> !Due(e.s.requests[id], now) && Due(e.s.requests[id], planNow))
  {
    hide SchedInv;
    hide PhaseInv;
    hide CountersOk;
    EngineDimensions(e);
    BeginFor(setup, e, now, planNow, id);
    assert StreamOk(e.s.requests[id], EventsOf(e.events, id));
    StreamOfLive(e.s.requests[id], EventsOf(e.events, id));
  }

  lemma StreamOfLive(r: Request, ev: seq<Event>)
    requires StreamOk(r, ev) && !r.Finished()
    ensures ev == TokenEvents(r.generated)
  {
    assert ev == ev[..|r.generated|] + ev[|r.generated|..];
  }

  lemma SubmitSilences(e: Engine, e': Engine)
    requires forall id :: id in e.s.requests ==> Same(e, e', id)
    requires forall id :: id in e'.s.requests && id !in e.s.requests ==> e'.s.requests[id].state != TIMED_OUT
    ensures Silenced(e') == Silenced(e)
  {
  }

  /** The requests that some step of a run missed. */
  ghost function SilencedBy(setup: Setup, e: Engine, actions: seq<Action>): set<Id>
    requires EngineInv(e) && setup.limits.Valid()
    decreases |actions|
  {
    if actions == [] then {}
    else
      var earlier := actions[..|actions| - 1];
      SilencedBy(setup, e, earlier) + NewlySilent(RunEngine(setup, e, earlier), actions[|actions| - 1])
  }

  lemma {:induction false} RunSilences(setup: Setup, e: Engine, actions: seq<Action>)
    requires EngineInv(e) && setup.limits.Valid() && Books(e)
    ensures Silenced(RunEngine(setup, e, actions)) == Silenced(e) + SilencedBy(setup, e, actions)
    decreases |actions|
  {
    hide EngineInv;
    hide BooksOk;
    hide NewlySilent;
    hide Silenced;
    if actions != [] {
      var earlier := actions[..|actions| - 1];
      RunSilences(setup, e, earlier);
      RunBooks(setup, e, earlier);
      StepSilences(setup, RunEngine(setup, e, earlier), actions[|actions| - 1]);
    }
  }

  ghost predicate MissedAt(setup: Setup, e: Engine, actions: seq<Action>, k: nat, id: Id)
    requires EngineInv(e) && setup.limits.Valid() && k < |actions|
  {
    id in NewlySilent(RunEngine(setup, e, actions[..k]), actions[k])
  }

  /** A run misses a request if and only if one of its steps begins after the request's deadline
      for `plan` and before it for `step`. */
  lemma {:induction false} SilencedWhen(setup: Setup, e: Engine, actions: seq<Action>, id: Id)
    requires EngineInv(e) && setup.limits.Valid()
    ensures id in SilencedBy(setup, e, actions) <==>
      exists k :: 0 <= k < |actions| && MissedAt(setup, e, actions, k, id)
    decreases |actions|
  {
    hide EngineInv;
    hide NewlySilent;
    if actions != [] {
      var n := |actions| - 1;
      var earlier := actions[..n];
      SilencedWhen(setup, e, earlier, id);
      forall k | 0 <= k < n
        ensures MissedAt(setup, e, earlier, k, id) <==> MissedAt(setup, e, actions, k, id)
      {
        assert earlier[..k] == actions[..k];
      }
      assert id in SilencedBy(setup, e, actions) <==> id in SilencedBy(setup, e, earlier) || MissedAt(setup, e, actions, n, id);
    }
  }

  /** Nothing is missed while both expiries of each step read the same time. */
  lemma {:induction false} OneClockReading(setup: Setup, e: Engine, actions: seq<Action>)
    requires EngineInv(e) && setup.limits.Valid()
    requires forall k :: 0 <= k < |actions| && actions[k].BeginAction? ==> actions[k].planNow <= actions[k].now
    ensures SilencedBy(setup, e, actions) == {}
    decreases |actions|
  {
    hide EngineInv;
    if actions != [] {
      OneClockReading(setup, e, actions[..|actions| - 1]);
    }
  }

  lemma {:induction false} SilentCount(requests: map<Id, Request>, events: map<Id, seq<Event>>)
    ensures Total(requests, events, IsSilent) ==
      |UntoldIds(requests, events)|
    decreases |requests|
  {
    hide Total;
    if requests == map[] {
      TotalNone(events, IsSilent);
    } else {
      var id :| id in requests;
      var rest := requests - {id};
      SilentCount(rest, events);
      assert rest[id := requests[id]] == requests;
      TotalAdd(rest, events, id, requests[id], events, IsSilent);
      CountOne(requests, events, id);
    }
  }

  lemma CountOne(requests: map<Id, Request>, events: map<Id, seq<Event>>, id: Id)
    requires id in requests
    ensures |UntoldIds(requests, events)| == |UntoldIds(requests - {id}, events)| + IsSilent(requests[id], EventsOf(events, id))
  {
    hide Untold;
    var all, rest := UntoldIds(requests, events), UntoldIds(requests - {id}, events);
    if Untold(requests[id], EventsOf(events, id)) {
      assert all == rest + {id};
    } else {
      assert all == rest;
    }
  }

  /** In every run: each stream is the generated tokens in order and then at most one terminal
      event that tells the request's end; the requests without theirs are exactly those that a
      step missed; submitted requests are exactly the completed, cancelled, timed out, failed and
      active ones and the missed ones; and the token counter counts every generated token. */
  lemma EventsAndConservation(setup: Setup, numBlocks: nat, blockSize: nat, cells: Cells, actions: seq<Action>)
    requires setup.limits.Valid() && blockSize > 0
    ensures EngineInv(Start(numBlocks, blockSize, cells))
    ensures var e := RunEngine(setup, Start(numBlocks, blockSize, cells), actions);
      var missed := SilencedBy(setup, Start(numBlocks, blockSize, cells), actions);
      && StreamsOk(e.s.requests, e.events)
      && Silenced(e) == missed
      && e.metrics.submitted == e.metrics.completed + e.metrics.cancelled + e.metrics.timedOut + e.metrics.failed
           + Total(e.s.requests, e.events, IsActive) + |missed|
      && e.metrics.generatedTokens == Total(e.s.requests, e.events, GeneratedTokens)
  {
    hide PhaseInv;
    hide SchedInv;
    hide KeysOk;
    hide StreamsOk;
    hide Total;
    hide IsSilent;
    hide SilencedBy;
    StartInv(numBlocks, blockSize, cells);
    StartBooks(numBlocks, blockSize, cells);
    RunBooks(setup, Start(numBlocks, blockSize, cells), actions);
    RunSilences(setup, Start(numBlocks, blockSize, cells), actions);
    var e := RunEngine(setup, Start(numBlocks, blockSize, cells), actions);
    NoneWaiting(e.s);
    ColumnsAddUp(e.s.requests, e.events);
    SilentCount(e.s.requests, e.events);
  }

  lemma StartBooks(numBlocks: nat, blockSize: nat, cells: Cells)
    ensures Books(Start(numBlocks, blockSize, cells))
  {
    hide Total;
    TotalNone(map[], IsSubmitted);
    TotalNone(map[], IsRejected);
    TotalNone(map[], IsCompleted);
    TotalNone(map[], IsCancelled);
    TotalNone(map[], IsFailed);
    TotalNone(map[], IsTimedOut);
    TotalNone(map[], PromptTokens);
    TotalNone(map[], GeneratedTokens);
  }

  // ----- terminal states are absorbing -----

  /** What has ended stays as it is, and so does its stream. */
  ghost predicate Absorbed(e: Engine, e': Engine) {
    forall id :: id in e.s.requests && e.s.requests[id].Finished() ==>
      id in e'.s.requests && e'.s.requests[id] == e.s.requests[id] && EventsOf(e'.events, id) == EventsOf(e.events, id)
  }

  lemma AbsorbedOn(e: Engine, e1: Engine, e2: Engine)
    requires Absorbed(e, e1) && Absorbed(e1, e2)
    ensures Absorbed(e, e2)
  {
  }

  lemma {:induction false} FinishExpiredEvents(e: Engine, ids: seq<Id>, id: Id)
    ensures id !in ids ==> EventsOf(FinishExpired(e, ids).events, id) == EventsOf(e.events, id)
    decreases |ids|
  {
    if ids != [] {
      FinishExpiredEvents(Finish(e.(metrics := e.metrics.(timedOut := e.metrics.timedOut + 1)), ids[0], Timeout), ids[1..], id);
    }
  }

  lemma BeginAbsorbs(setup: Setup, e: Engine, now: real, planNow: real)
    requires EngineInv(e) && e.phase.Idle? && setup.limits.Valid() && Books(e)
    ensures e.s.pool.blockSize > 0 && Absorbed(e, BeginStep(setup, e, now, planNow))
  {
    hide BooksOk;
    hide SchedInv;
    hide KeysOk;
    hide SoFar;
    hide PlanOk;
    hide PhaseInv;
    InflightOwned(e.s);
    var s1, s2, plan := BeginOutcome(setup, e, now, planNow);
    ExpireBooks(e.s, now, e.s.order, [], e.events, e.metrics);
    var expired := Expire(e.s, now).1;
    assert expired[0..] == expired;
    forall id | id in e.s.requests && e.s.requests[id].Finished()
      ensures EventsOf(FinishExpired(e.(s := s1), expired).events, id) == EventsOf(e.events, id)
    {
      FinishExpiredEvents(e.(s := s1), expired, id);
    }
  }

  lemma EvolvedAbsorbs(e: Engine, e': Engine)
    requires Evolves(e, e')
    ensures Absorbed(e, e')
  {
    hide ToGo;
    forall id | id in e.s.requests && e.s.requests[id].Finished()
      ensures Unmoved(e, e', id)
    {
      assert Unmoved(e, e', id) || Moved(e.s.requests[id], e'.s.requests[id]);
    }
  }

  lemma SubmitAbsorbs(e: Engine, sub: Submission, now: real)
    requires e.s.pool.blockSize > 0
    ensures Absorbed(e, SubmitStep(e, sub, now))
  {
    hide Submit;
    SubmitOutcome(e.s, sub, now);
  }

  lemma StepAbsorbs(setup: Setup, e: Engine, a: Action)
    requires EngineInv(e) && setup.limits.Valid() && Books(e)
    ensures e.s.pool.blockSize > 0 && Absorbed(e, Step(setup, e, a))
  {
    hide EngineInv;
    hide BooksOk;
    hide Absorbed;
    hide Evolves;
    EngineDimensions(e);
    if a.SubmitAction? {
      SubmitAbsorbs(e, a.sub, a.now);
    } else if a.BeginAction? && e.phase.Idle? {
      BeginAbsorbs(setup, e, a.now, a.planNow);
    } else {
      StepEvolves(setup, e, a);
      EvolvedAbsorbs(e, Step(setup, e, a));
    }
  }

  /** Terminal states are absorbing: a finished request never changes again and its client
      hears nothing more, whatever happens later. */
  lemma {:induction false} TerminalIsFinal(setup: Setup, e: Engine, actions: seq<Action>)
    requires EngineInv(e) && setup.limits.Valid() && Books(e)
    ensures Absorbed(e, RunEngine(setup, e, actions))
    decreases |actions|
  {
    hide EngineInv;
    hide BooksOk;
    if actions != [] {
      var before := RunEngine(setup, e, actions[..|actions| - 1]);
      RunBooks(setup, e, actions[..|actions| - 1]);
      TerminalIsFinal(setup, e, actions[..|actions| - 1]);
      StepAbsorbs(setup, before, actions[|actions| - 1]);
      AbsorbedOn(e, before, RunEngine(setup, e, actions));
    }
  }
}
