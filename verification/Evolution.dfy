/** How requests evolve: what every phase of a step, and every cancel, may do to them. */
module Evolution {
  import opened Basics
  import opened PagedKV
  import opened PagedStorage
  import opened Scheduler
  import opened SchedulerInvariant
  import opened PlanInvariant
  import opened Executor
  import opened Engine
  import opened EngineInvariant
  import opened Alone
  import opened RefinementCommit
  import opened ContinuousBatching

  /** Prompt tokens to read and tokens to generate, at most. */
  function ToGo(r: Request): nat {
    if r.Finished() || |r.prompt| + r.maxNew < r.cursor + |r.generated| then 0
    else |r.prompt| - r.cursor + r.maxNew - |r.generated|
  }

  function EventsOf(events: map<Id, seq<Event>>, id: Id): seq<Event> {
    if id in events then events[id] else []
  }

  /** Prefill, decode, finished: a request never goes back. */
  function Stage(state: RequestState): nat {
    if state == WAITING then 0 else if state == PREFILL then 1 else if state == DECODE then 2 else 3
  }

  /** A live request moved on: the same tokens or more, and closer to its end. */
  ghost predicate Moved(r: Request, r': Request) {
    Live(r) && Tokens(r) <= Tokens(r') && ToGo(r') < ToGo(r) && Stage(r'.state) >= Stage(r.state) && r'.priority == r.priority
  }

  // ----- queue order -----

  ghost predicate Before(q: seq<Id>, a: Id, b: Id) {
    exists i, j :: 0 <= i < j < |q| && q[i] == a && q[j] == b
  }

  /** The queue of a state keeps its order; who leaves it has moved past the state. */
  ghost predicate QueueEvolves(state: RequestState, q: seq<Id>, q': seq<Id>, requests': map<Id, Request>) {
    && (forall a :: a in q && a !in q' ==> a in requests' && Stage(requests'[a].state) > Stage(state))
    && (forall a :: a in q' ==> a in requests' && requests'[a].state == state)
    && (forall a, b :: Before(q, a, b) && a in q' && b in q' ==> Before(q', a, b))
  }

  lemma BeforeIn(q: seq<Id>, a: Id, b: Id)
    requires Before(q, a, b)
    ensures a in q && b in q
  {
  }

  lemma QueueEvolvesOn(state: RequestState, q: seq<Id>, q1: seq<Id>, r1: map<Id, Request>, q2: seq<Id>, r2: map<Id, Request>)
    requires QueueEvolves(state, q, q1, r1) && QueueEvolves(state, q1, q2, r2)
    requires forall a :: a in r1 ==> a in r2 && Stage(r2[a].state) >= Stage(r1[a].state)
    ensures QueueEvolves(state, q, q2, r2)
  {
    hide Before;
    hide Stage;
    forall a, b | Before(q, a, b) && a in q2 && b in q2
      ensures Before(q2, a, b)
    {
      BeforeIn(q, a, b);
      assert a in q1 && b in q1;
      assert Before(q1, a, b);
    }
  }

  /** One request joined the end of a queue, or left it, or neither. */
  predicate QueueStep(q: seq<Id>, q': seq<Id>, id: Id) {
    q' == q || q' == Remove(q, id) || q' == q + [id]
  }

  lemma {:induction false} RemoveKeepsOrder(q: seq<Id>, id: Id, a: Id, b: Id)
    requires Before(q, a, b) && a != id && b != id
    ensures Before(Remove(q, id), a, b)
  {
    var i, j :| 0 <= i < j < |q| && q[i] == a && q[j] == b;
    RemoveAt(q, id, i);
    RemoveAt(q, id, j);
    RemoveShift(q, id, i, j);
  }

  /** Where an element moves when an earlier one leaves. */
  function Shift(q: seq<Id>, id: Id, i: nat): nat
    requires i < |q|
  {
    if q[0] == id then (if i == 0 then 0 else i - 1) else if i == 0 then 0 else 1 + Shift(q[1..], id, i - 1)
  }

  lemma {:induction false} RemoveAt(q: seq<Id>, id: Id, i: nat)
    requires i < |q| && q[i] != id
    ensures Shift(q, id, i) < |Remove(q, id)| && Remove(q, id)[Shift(q, id, i)] == q[i]
  {
    if q[0] != id && i > 0 { RemoveAt(q[1..], id, i - 1); }
  }

  lemma {:induction false} RemoveShift(q: seq<Id>, id: Id, i: nat, j: nat)
    requires i < j < |q| && q[i] != id && q[j] != id
    ensures Shift(q, id, i) < Shift(q, id, j)
  {
    if q[0] != id && i > 0 { RemoveShift(q[1..], id, i - 1, j - 1); }
  }

  lemma AppendKeepsOrder(q: seq<Id>, id: Id, a: Id, b: Id)
    requires Before(q, a, b)
    ensures Before(q + [id], a, b)
  {
    var i, j :| 0 <= i < j < |q| && q[i] == a && q[j] == b;
    assert (q + [id])[i] == a && (q + [id])[j] == b;
  }

  lemma QueueStepEvolves(state: RequestState, q: seq<Id>, q': seq<Id>, id: Id, r: map<Id, Request>, r': map<Id, Request>)
    requires QueueStep(q, q', id) && NoDup(q)
    requires forall a :: a in q ==> a in r && r[a].state == state
    requires forall a :: a in q' <==> a in r' && r'[a].state == state
    requires forall a :: a in r ==> a in r' && Stage(r'[a].state) >= Stage(r[a].state)
    requires state == PREFILL || state == DECODE
    ensures QueueEvolves(state, q, q', r')
  {
    hide Before;
    RemoveMembers(q, id);
    forall a, b | Before(q, a, b) && a in q' && b in q'
      ensures Before(q', a, b)
    {
      if q' == q + [id] {
        AppendKeepsOrder(q, id, a, b);
      } else if q' != q {
        RemoveKeepsOrder(q, id, a, b);
      }
    }
  }

  ghost predicate Unmoved(e: Engine, e': Engine, id: Id)
    requires id in e.s.requests && id in e'.s.requests
  {
    && e'.s.requests[id] == e.s.requests[id] && EventsOf(e'.events, id) == EventsOf(e.events, id)
    && (id in e.s.inflight ==> id in e'.s.inflight)
  }

  /** Each request moved on or stayed as it was, nobody got new blocks or new work, and the
      queues kept their order. */
  ghost predicate Evolves(e: Engine, e': Engine) {
    && e'.s.requests.Keys == e.s.requests.Keys && e'.s.inflight.Keys <= e.s.inflight.Keys
    && (forall id :: id in e'.s.pool.requests ==> id in e.s.pool.requests && e'.s.pool.requests[id] == e.s.pool.requests[id])
    && (forall id :: id in e.s.requests ==> Unmoved(e, e', id) || Moved(e.s.requests[id], e'.s.requests[id]))
    && QueueEvolves(PREFILL, e.s.prefill, e'.s.prefill, e'.s.requests)
    && QueueEvolves(DECODE, e.s.decode, e'.s.decode, e'.s.requests)
  }

  lemma EvolvesOn(e: Engine, e1: Engine, e2: Engine)
    requires Evolves(e, e1) && Evolves(e1, e2)
    ensures Evolves(e, e2)
  {
    hide ToGo;
    hide Tokens;
    hide QueueEvolves;
    forall id | id in e.s.requests
      ensures Unmoved(e, e2, id) || Moved(e.s.requests[id], e2.s.requests[id])
      ensures Stage(e2.s.requests[id].state) >= Stage(e1.s.requests[id].state)
    {
      assert Unmoved(e, e1, id) || Moved(e.s.requests[id], e1.s.requests[id]);
      assert Unmoved(e1, e2, id) || Moved(e1.s.requests[id], e2.s.requests[id]);
    }
    QueueEvolvesOn(PREFILL, e.s.prefill, e1.s.prefill, e1.s.requests, e2.s.prefill, e2.s.requests);
    QueueEvolvesOn(DECODE, e.s.decode, e1.s.decode, e1.s.requests, e2.s.decode, e2.s.requests);
  }

  lemma EvolvesSame(e: Engine, e': Engine)
    requires SchedInv(e.s) && e'.s == e.s && e'.events == e.events
    ensures Evolves(e, e')
  {
    hide PoolInv;
    hide OwnersOk;
    hide RequestsOk;
    hide ReservedOk;
  }

  /** One request moved and the others did not. */
  lemma OneMoved(e: Engine, e': Engine, id: Id)
    requires SchedInv(e.s) && SchedInv(e'.s)
    requires OnlyCommitted(e.s, e'.s, id) && id in e.s.requests && Moved(e.s.requests[id], e'.s.requests[id])
    requires forall i :: i != id ==> EventsOf(e'.events, i) == EventsOf(e.events, i)
    requires QueueStep(e.s.prefill, e'.s.prefill, id) && QueueStep(e.s.decode, e'.s.decode, id)
    ensures Evolves(e, e')
  {
    hide PoolInv;
    hide OwnersOk;
    hide RequestsOk;
    hide ReservedOk;
    hide QueueEvolves;
    hide QueueStep;
    hide ToGo;
    hide Tokens;
    forall i | i in e.s.requests && i != id
      ensures Unmoved(e, e', i)
    {
    }
    assert forall a :: a in e.s.requests ==> Stage(e'.s.requests[a].state) >= Stage(e.s.requests[a].state);
    QueueStepEvolves(PREFILL, e.s.prefill, e'.s.prefill, id, e.s.requests, e'.s.requests);
    QueueStepEvolves(DECODE, e.s.decode, e'.s.decode, id, e.s.requests, e'.s.requests);
  }

  lemma LiveLimits(s: Sched, id: Id)
    requires SchedInv(s) && id in s.requests && Live(s.requests[id])
    ensures s.requests[id].cursor <= |s.requests[id].prompt| && |s.requests[id].generated| < s.requests[id].maxNew
  {
    hide PoolInv;
    hide QueuesOk;
    hide ReservedOk;
    assert id in s.pool.requests;
    assert RequestOk(s.requests[id], s.pool.requests[id].length, Get(s.inflight, id));
  }

  lemma EndMoves(e: Engine, id: Id, state: RequestState, e': Engine)
    requires SchedInv(e.s) && id in e.s.requests && Live(e.s.requests[id]) && state in {CANCELLED, TIMED_OUT, FAILED}
    requires e'.s == Terminate(e.s, id, state)
    requires forall i :: i != id ==> EventsOf(e'.events, i) == EventsOf(e.events, i)
    ensures Evolves(e, e')
  {
    hide SchedInv;
    hide Evolves;
    LiveLimits(e.s, id);
    TerminateKeeps(e.s, id, state);
    OneMoved(e, e', id);
  }

  lemma AppendMoves(r: Request, token: Token, stopped: bool)
    requires Live(r) && r.cursor <= |r.prompt| && |r.generated| < r.maxNew
    ensures Moved(r, Appended(r, token, stopped))
  {
    var r' := Appended(r, token, stopped);
    assert Tokens(r') == Tokens(r) + [token];
    assert ToGo(r') < ToGo(r);
    if r'.state == FINISHED {
      assert Stage(r'.state) == 3;
    } else {
      assert r'.state == r.state;
    }
  }

  lemma ChunkMoves(r: Request, r': Request)
    requires r.state == PREFILL && Live(r') && r' == r.(cursor := r'.cursor, state := r'.state) && r.cursor < r'.cursor <= |r.prompt|
    requires |r.generated| < r.maxNew
    ensures Moved(r, r')
  {
  }

  lemma RecordEvents(e: Engine, s: Sched, id: Id, sample: Sample)
    requires id in e.samplers && id in s.requests
    ensures var e1 := Record(Drawn(e, id).(s := s), id, sample).0;
      e1.s == s && forall i :: i != id ==> EventsOf(e1.events, i) == EventsOf(e.events, i)
  {
  }

  lemma CommitQueues(s: Sched, id: Id, token: Token, stopped: bool)
    requires id in s.requests
    ensures QueueStep(s.prefill, Commit(s, id, token, stopped).prefill, id)
    ensures QueueStep(s.decode, Commit(s, id, token, stopped).decode, id)
  {
  }

  lemma CompleteQueues(s: Sched, id: Id, count: nat)
    ensures QueueStep(s.prefill, CompletePrefill(s, id, count).0.prefill, id)
    ensures QueueStep(s.decode, CompletePrefill(s, id, count).0.decode, id)
  {
  }

  lemma CommitDecodeEvolves(m: Model, e: Engine, w: DecodeWork, logits: map<Id, Logits>)
    requires SchedInv(e.s) && KeysOk(e) && PendingDecode(e.s, w)
    ensures Evolves(e, CommitDecodeItem(m, e, w, logits).0)
  {
    hide SchedInv;
    hide KeysOk;
    hide SlotIs;
    hide Commit;
    hide Record;
    hide Draw;
    hide Moved;
    hide Evolves;
    hide OnlyCommitted;
    hide QueueStep;
    CommitDecodeOutcome(m, e, w, logits);
    var e1 := CommitDecodeItem(m, e, w, logits).0;
    if w.id in e.s.inflight && w.id in logits {
      var r := e.s.requests[w.id];
      var sample := Draw(m, e, w.id, logits[w.id], r.prompt + r.generated);
      var s := e.s.(inflight := e.s.inflight - {w.id});
      CommitIsAppended(s, w.id, sample.token, sample.stopped);
      CommitOnly(e.s, w.id, sample.token, sample.stopped);
      LiveLimits(e.s, w.id);
      AppendMoves(r, sample.token, sample.stopped);
      RecordEvents(e, Commit(s, w.id, sample.token, sample.stopped), w.id, sample);
      CommitKeeps(e.s, w.id, sample.token, sample.stopped);
      CommitQueues(s, w.id, sample.token, sample.stopped);
      OneMoved(e, e1, w.id);
    } else {
      EvolvesSame(e, e1);
    }
  }

  lemma CommitPrefillEvolves(m: Model, e: Engine, w: PrefillWork, logits: map<Id, Logits>)
    requires SchedInv(e.s) && KeysOk(e) && PendingPrefill(e.s, w)
    ensures Evolves(e, CommitPrefillItem(m, e, w, logits).0)
  {
    hide SchedInv;
    hide KeysOk;
    hide SlotsAre;
    hide CompletePrefill;
    hide Commit;
    hide Record;
    hide Draw;
    hide Moved;
    hide Evolves;
    hide OnlyCommitted;
    hide QueueStep;
    CommitPrefillOutcome(m, e, w, logits);
    if w.id in e.s.inflight {
      PrefillCompleted(e.s, w);
      var (s, last) := CompletePrefill(e.s, w.id, |w.tokens|);
      LiveLimits(e.s, w.id);
      ChunkMoves(e.s.requests[w.id], s.requests[w.id]);
      CompletePrefillKeeps(e.s, w.id, |w.tokens|);
      CompleteQueues(e.s, w.id, |w.tokens|);
      OneMoved(e, e.(s := s), w.id);
      CommittedInflight(e.s, s, w.id);
      if last.value && w.id in logits {
        FirstTokenEvolves(m, e, s, w, logits[w.id]);
        EvolvesOn(e, e.(s := s), CommitPrefillItem(m, e, w, logits).0);
      }
    } else {
      EvolvesSame(e, CommitPrefillItem(m, e, w, logits).0);
    }
  }

  lemma FirstTokenEvolves(m: Model, e: Engine, s: Sched, w: PrefillWork, row: Logits)
    requires SchedInv(s) && w.id in e.samplers && w.id in s.requests && w.id !in s.inflight && w.id in s.pool.requests
    requires s.requests[w.id].state == DECODE && s.requests[w.id].generated == []
    requires s.requests[w.id].cursor <= |s.requests[w.id].prompt| && |s.requests[w.id].generated| < s.requests[w.id].maxNew
    ensures var sample := Draw(m, e, w.id, row, s.requests[w.id].prompt);
      Evolves(e.(s := s), Record(Drawn(e, w.id).(s := Commit(s, w.id, sample.token, sample.stopped)), w.id, sample).0)
  {
    hide SchedInv;
    hide QueueStep;
    hide Commit;
    hide Record;
    hide Draw;
    hide Moved;
    hide Evolves;
    hide OnlyCommitted;
    var sample := Draw(m, e, w.id, row, s.requests[w.id].prompt);
    CommitIsAppended(s, w.id, sample.token, sample.stopped);
    assert s.(inflight := s.inflight - {w.id}) == s;
    CommitOnly(s, w.id, sample.token, sample.stopped);
    AppendMoves(s.requests[w.id], sample.token, sample.stopped);
    RecordEvents(e, Commit(s, w.id, sample.token, sample.stopped), w.id, sample);
    CommitKeeps(s, w.id, sample.token, sample.stopped);
    CommitQueues(s, w.id, sample.token, sample.stopped);
    OneMoved(e.(s := s), Record(Drawn(e, w.id).(s := Commit(s, w.id, sample.token, sample.stopped)), w.id, sample).0, w.id);
  }

  lemma {:induction false} CommitDecodesEvolve(m: Model, e: Engine, work: seq<DecodeWork>, prefill: seq<PrefillWork>, logits: map<Id, Logits>)
    requires SchedInv(e.s) && KeysOk(e) && Sampled(e.s) && Pending(e.s, work, prefill)
    ensures Evolves(e, CommitDecodes(m, e, work, logits).0)
    decreases |work|
  {
    hide SchedInv;
    hide KeysOk;
    hide Sampled;
    hide OnlyCommitted;
    hide CommitDecodeItem;
    hide PendingDecode;
    hide PendingPrefill;
    hide Evolves;
    if work != [] {
      assert PendingDecode(e.s, work[0]);
      CommitDecodeHead(m, e, work[0], logits);
      CommitDecodeEvolves(m, e, work[0], logits);
      var (e1, r) := CommitDecodeItem(m, e, work[0], logits);
      if r.Returns? {
        PendingDecodeTail(e.s, e1.s, work, prefill);
        CommitDecodesEvolve(m, e1, work[1..], prefill, logits);
        EvolvesOn(e, e1, CommitDecodes(m, e, work, logits).0);
      }
    } else {
      EvolvesSame(e, e);
    }
  }

  lemma {:induction false} CommitPrefillsEvolve(m: Model, e: Engine, work: seq<PrefillWork>, logits: map<Id, Logits>)
    requires SchedInv(e.s) && KeysOk(e) && Sampled(e.s) && Pending(e.s, [], work)
    ensures Evolves(e, CommitPrefills(m, e, work, logits).0)
    decreases |work|
  {
    hide SchedInv;
    hide KeysOk;
    hide Sampled;
    hide OnlyCommitted;
    hide CommitPrefillItem;
    hide PendingPrefill;
    hide Evolves;
    if work != [] {
      assert PendingPrefill(e.s, work[0]);
      CommitPrefillHead(m, e, work[0], logits);
      CommitPrefillEvolves(m, e, work[0], logits);
      var (e1, r) := CommitPrefillItem(m, e, work[0], logits);
      if r.Returns? {
        PendingPrefillTail(e.s, e1.s, work);
        CommitPrefillsEvolve(m, e1, work[1..], logits);
        EvolvesOn(e, e1, CommitPrefills(m, e, work, logits).0);
      }
    } else {
      EvolvesSame(e, e);
    }
  }

  lemma {:induction false} FailAllEvolves(e: Engine, ids: seq<Id>)
    requires SchedInv(e.s) && KeysOk(e)
    ensures Evolves(e, FailAll(e, ids))
    decreases |ids|
  {
    hide SchedInv;
    hide KeysOk;
    hide Evolves;
    EvolvesSame(e, e);
    if ids != [] {
      FailOneKeeps(e, ids[0]);
      if ids[0] in e.s.requests && !e.s.requests[ids[0]].Finished() {
        NotWaiting(e.s, ids[0]);
        EndMoves(e, ids[0], FAILED, FailOne(e, ids[0]));
      }
      FailAllEvolves(FailOne(e, ids[0]), ids[1..]);
      EvolvesOn(e, FailOne(e, ids[0]), FailAll(e, ids));
    }
  }

  lemma CancelEvolves(e: Engine, id: Id)
    requires SchedInv(e.s)
    ensures Evolves(e, CancelStep(e, id))
  {
    hide SchedInv;
    hide Evolves;
    EvolvesSame(e, e);
    if id in e.s.requests && !e.s.requests[id].Finished() {
      NotWaiting(e.s, id);
      EndMoves(e, id, CANCELLED, CancelStep(e, id));
    }
  }

  /** Every action but a submit and the beginning of a step. */
  predicate Continues(e: Engine, a: Action) {
    !a.SubmitAction? && (a.BeginAction? ==> !e.phase.Idle?)
  }

  lemma StepEvolves(setup: Setup, e: Engine, a: Action)
    requires EngineInv(e) && setup.limits.Valid() && Continues(e, a)
    ensures e.s.pool.blockSize > 0 && Evolves(e, Step(setup, e, a))
    ensures e.phase.Idle? ==> Step(setup, e, a).phase.Idle?
  {
    hide SchedInv;
    hide KeysOk;
    hide Pending;
    hide MetaOk;
    hide Evolves;
    EngineDimensions(e);
    match a
    case CancelAction(id) => CancelEvolves(e, id);
    case BeginAction(now, planNow) => EvolvesSame(e, e);
    case DecodeExecAction(fault, omit) => EvolvesSame(e, Step(setup, e, a));
    case DecodeCommitAction =>
      EvolvesSame(e, e);
      if e.phase.DecodeReturned? {
        CommitDecodesEvolve(setup.model, e, e.phase.plan.decode, e.phase.plan.prefill, e.phase.logits);
        PhaseAside(e, CommitDecodes(setup.model, e, e.phase.plan.decode, e.phase.logits).0, Step(setup, e, a));
      }
    case PrefillExecAction(fail, junk, omit) => EvolvesSame(e, Step(setup, e, a));
    case PrefillCommitAction =>
      EvolvesSame(e, e);
      if e.phase.PrefillReturned? {
        CommitPrefillsEvolve(setup.model, e, e.phase.plan.prefill, e.phase.logits);
        PhaseAside(e, CommitPrefills(setup.model, e, e.phase.plan.prefill, e.phase.logits).0, Step(setup, e, a));
      }
    case CleanupAction =>
      EvolvesSame(e, e);
      if e.phase.Failing? {
        FailAllEvolves(e, PlanIds(e.phase.plan));
        PhaseAside(e, FailAll(e, PlanIds(e.phase.plan)), Step(setup, e, a));
      }
  }

  lemma PhaseAside(e: Engine, e1: Engine, e2: Engine)
    requires Evolves(e, e1) && e2.s == e1.s && e2.events == e1.events
    ensures Evolves(e, e2)
  {
    hide QueueEvolves;
    hide Moved;
    forall id | id in e.s.requests
      ensures Unmoved(e, e2, id) || Moved(e.s.requests[id], e2.s.requests[id])
    {
      assert Unmoved(e, e1, id) || Moved(e.s.requests[id], e1.s.requests[id]);
    }
  }
}
