/** How the stream of a finished request ends: with 'stop' if the sample that gave its last token
    was a stop in the generation it would have had alone, and with 'length' otherwise. */
module FinishReasons {
  import opened Basics
  import opened PagedKV
  import opened PagedStorage
  import opened Scheduler
  import opened SchedulerInvariant
  import opened PlanInvariant
  import opened Executor
  import opened Engine
  import opened EngineInvariant
  import opened Alone
  import opened Refinement
  import opened RefinementCommit
  import opened ContinuousBatching
  import opened Evolution
  import opened Endings
  import opened EventProtocol

  // ----- the commit of one item -----

  /** Nothing that belongs to other requests than those of `ids` changed. */
  ghost predicate OnlyThese(e: Engine, e': Engine, ids: seq<Id>) {
    && e'.s.requests.Keys == e.s.requests.Keys
    && forall i :: i in e.s.requests && i !in ids ==> Alike(e, e', i)
  }

  ghost predicate Alike(e: Engine, e': Engine, i: Id)
    requires i in e.s.requests && i in e'.s.requests
  {
    && e'.s.requests[i] == e.s.requests[i] && Get(e'.samplers, i) == Get(e.samplers, i)
    && EventsOf(e'.events, i) == EventsOf(e.events, i)
  }

  /** If a commit finishes the request it takes its sample from the given logits, and tells its
      client the token and the reason. */
  ghost predicate Tells(m: Model, e: Engine, e': Engine, logits: map<Id, Logits>, id: Id)
    requires id in e.s.requests && id in e'.s.requests
  {
    !e.s.requests[id].Finished() && e'.s.requests[id].state == FINISHED ==>
      && id in e.samplers && id in logits && id in e.s.inflight
      && var r := e.s.requests[id];
         var sample := m.sample(e.samplers[id].params, logits[id], r.prompt + r.generated, e.samplers[id].draws);
         && e'.s.requests[id].generated == r.generated + [sample.token]
         && EventsOf(e'.events, id) == EventsOf(e.events, id) + [TokenEvent(sample.token), FinishEvent(if sample.stopped then Stop else Length)]
  }

  lemma RecordTells(e: Engine, s: Sched, id: Id, sample: Sample)
    requires id in e.s.requests && Live(e.s.requests[id]) && id in e.samplers && id in e.events
    requires s.requests == e.s.requests[id := Appended(e.s.requests[id], sample.token, sample.stopped)]
    ensures var e' := Record(Drawn(e, id).(s := s), id, sample).0;
      && OnlyThese(e, e', [id])
      && e'.s.requests[id].generated == e.s.requests[id].generated + [sample.token]
      && (e'.s.requests[id].state == FINISHED ==>
            EventsOf(e'.events, id) == EventsOf(e.events, id) + [TokenEvent(sample.token), FinishEvent(if sample.stopped then Stop else Length)])
  {
    var ev := e.events[id];
    assert ev + [TokenEvent(sample.token)] + [FinishEvent(if sample.stopped then Stop else Length)] ==
      ev + [TokenEvent(sample.token), FinishEvent(if sample.stopped then Stop else Length)];
  }

  lemma NothingTold(m: Model, e: Engine, e': Engine, logits: map<Id, Logits>, id: Id)
    requires id in e.s.requests && e'.s.requests == e.s.requests && e'.events == e.events
    requires forall i :: i != id ==> Get(e'.samplers, i) == Get(e.samplers, i)
    ensures OnlyThese(e, e', [id]) && Tells(m, e, e', logits, id)
  {
  }

  lemma CommitDecodeTells(m: Model, e: Engine, w: DecodeWork, logits: map<Id, Logits>)
    requires SchedInv(e.s) && KeysOk(e) && PendingDecode(e.s, w)
    ensures w.id in CommitDecodeItem(m, e, w, logits).0.s.requests
    ensures OnlyThese(e, CommitDecodeItem(m, e, w, logits).0, [w.id])
    ensures Tells(m, e, CommitDecodeItem(m, e, w, logits).0, logits, w.id)
  {
    hide SchedInv;
    hide KeysOk;
    hide DecodeItemFits;
    hide Commit;
    hide Record;
    hide OnlyThese;
    CommitDecodeOutcome(m, e, w, logits);
    var e' := CommitDecodeItem(m, e, w, logits).0;
    if w.id in e.s.inflight && w.id in logits {
      RunningHasKeys(e, w.id);
      var r := e.s.requests[w.id];
      var sample := Draw(m, e, w.id, logits[w.id], r.prompt + r.generated);
      var s := e.s.(inflight := e.s.inflight - {w.id});
      CommitIsAppended(s, w.id, sample.token, sample.stopped);
      RecordTells(e, Commit(s, w.id, sample.token, sample.stopped), w.id, sample);
    } else {
      UntakenSamplers(m, e, w, logits);
      NothingTold(m, e, e', logits, w.id);
    }
  }

  lemma UntakenSamplers(m: Model, e: Engine, w: DecodeWork, logits: map<Id, Logits>)
    ensures forall i :: i != w.id ==> Get(CommitDecodeItem(m, e, w, logits).0.samplers, i) == Get(e.samplers, i)
  {
    hide CompleteDecode;
  }

  /** A prefill item that finishes its request was the last chunk of the prompt. */
  ghost predicate LastChunk(e: Engine, e': Engine, w: PrefillWork)
    requires w.id in e.s.requests && w.id in e'.s.requests
  {
    !e.s.requests[w.id].Finished() && e'.s.requests[w.id].state == FINISHED ==>
      e.s.requests[w.id].cursor + |w.tokens| == |e.s.requests[w.id].prompt| && e.s.requests[w.id].generated == []
  }

  lemma CommitPrefillTells(m: Model, e: Engine, w: PrefillWork, logits: map<Id, Logits>)
    requires SchedInv(e.s) && KeysOk(e) && PendingPrefill(e.s, w)
    ensures w.id in CommitPrefillItem(m, e, w, logits).0.s.requests
    ensures OnlyThese(e, CommitPrefillItem(m, e, w, logits).0, [w.id])
    ensures Tells(m, e, CommitPrefillItem(m, e, w, logits).0, logits, w.id)
    ensures LastChunk(e, CommitPrefillItem(m, e, w, logits).0, w)
  {
    hide SchedInv;
    hide KeysOk;
    hide PrefillItemFits;
    hide CompletePrefill;
    hide Commit;
    hide Record;
    hide OnlyThese;
    CommitPrefillOutcome(m, e, w, logits);
    var e' := CommitPrefillItem(m, e, w, logits).0;
    if w.id in e.s.inflight {
      RunningHasKeys(e, w.id);
      PrefillCompleted(e.s, w);
      CompletedRequests(e.s, w);
      var (s, last) := CompletePrefill(e.s, w.id, |w.tokens|);
      ChunkAlike(e, s, w.id);
      var r := e.s.requests[w.id];
      if last.value && w.id in logits {
        LastIsWhole(e.s, w);
        assert r.prompt + r.generated == r.prompt;
        var sample := Draw(m, e, w.id, logits[w.id], r.prompt);
        CommitIsAppended(s, w.id, sample.token, sample.stopped);
        RecordTells(e.(s := s), Commit(s, w.id, sample.token, sample.stopped), w.id, sample);
        OnlyTheseOn(e, e.(s := s), e', [w.id], [w.id], [w.id]);
      }
    } else {
      NothingTold(m, e, e', logits, w.id);
    }
  }

  lemma ChunkAlike(e: Engine, s: Sched, id: Id)
    requires id in e.s.requests && id in s.requests && s.requests == e.s.requests[id := s.requests[id]]
    ensures OnlyThese(e, e.(s := s), [id])
  {
  }

  lemma LastIsWhole(s: Sched, w: PrefillWork)
    requires CompletePrefill(s, w.id, |w.tokens|).1 == Returns(true)
    ensures w.id in s.requests && s.requests[w.id].cursor + |w.tokens| == |s.requests[w.id].prompt|
  {
  }

  lemma OnlyTheseOn(e: Engine, e1: Engine, e2: Engine, a: seq<Id>, b: seq<Id>, c: seq<Id>)
    requires OnlyThese(e, e1, a) && OnlyThese(e1, e2, b)
    requires forall i :: i in a || i in b ==> i in c
    ensures OnlyThese(e, e2, c)
  {
    hide Alike;
    forall i | i in e.s.requests && i !in c
      ensures Alike(e, e2, i)
    {
      assert Alike(e, e1, i) && Alike(e1, e2, i);
      AlikeOn(e, e1, e2, i);
    }
  }

  lemma AlikeOn(e: Engine, e1: Engine, e2: Engine, i: Id)
    requires i in e.s.requests && i in e1.s.requests && i in e2.s.requests && Alike(e, e1, i) && Alike(e1, e2, i)
    ensures Alike(e, e2, i)
  {
  }

  // ----- the commit loops -----

  /** What the other request's commit later in the loop says, it says of the state before. */
  lemma TellsEarlier(m: Model, e: Engine, e1: Engine, e2: Engine, logits: map<Id, Logits>, id: Id)
    requires id in e.s.requests && id in e1.s.requests && id in e2.s.requests
    requires Alike(e, e1, id) && (id in e1.s.inflight ==> id in e.s.inflight) && Tells(m, e1, e2, logits, id)
    ensures Tells(m, e, e2, logits, id)
  {
    assert id in e1.samplers <==> Get(e1.samplers, id).Some?;
    assert id in e.samplers <==> Get(e.samplers, id).Some?;
  }

  lemma TellsLater(m: Model, e: Engine, e1: Engine, e2: Engine, logits: map<Id, Logits>, id: Id)
    requires id in e.s.requests && id in e1.s.requests && id in e2.s.requests
    requires Tells(m, e, e1, logits, id) && Alike(e1, e2, id)
    ensures Tells(m, e, e2, logits, id)
  {
  }

  ghost predicate AllTell(m: Model, e: Engine, e': Engine, logits: map<Id, Logits>) {
    e'.s.requests.Keys == e.s.requests.Keys && forall id :: id in e.s.requests ==> Tells(m, e, e', logits, id)
  }

  lemma AllTellOn(m: Model, e: Engine, e1: Engine, e2: Engine, logits: map<Id, Logits>, id: Id, rest: seq<Id>)
    requires id in e.s.requests && id in e1.s.requests && OnlyThese(e, e1, [id]) && Tells(m, e, e1, logits, id)
    requires e1.s.inflight.Keys <= e.s.inflight.Keys && id !in rest
    requires OnlyThese(e1, e2, rest) && AllTell(m, e1, e2, logits)
    ensures AllTell(m, e, e2, logits)
  {
    hide Tells;
    hide Alike;
    forall i | i in e.s.requests
      ensures Tells(m, e, e2, logits, i)
    {
      if i == id {
        assert Alike(e1, e2, i);
        TellsLater(m, e, e1, e2, logits, i);
      } else {
        assert Alike(e, e1, i) && Tells(m, e1, e2, logits, i);
        TellsEarlier(m, e, e1, e2, logits, i);
      }
    }
  }

  lemma AllTellOne(m: Model, e: Engine, e1: Engine, logits: map<Id, Logits>, id: Id)
    requires id in e.s.requests && id in e1.s.requests && OnlyThese(e, e1, [id]) && Tells(m, e, e1, logits, id)
    ensures AllTell(m, e, e1, logits)
  {
    forall i | i in e.s.requests
      ensures Tells(m, e, e1, logits, i)
    {
      if i != id { assert Alike(e, e1, i); }
    }
  }

  lemma TellsSame(m: Model, e: Engine, logits: map<Id, Logits>)
    ensures OnlyThese(e, e, []) && AllTell(m, e, e, logits)
  {
  }

  lemma {:induction false} CommitDecodesTell(m: Model, e: Engine, work: seq<DecodeWork>, prefill: seq<PrefillWork>, logits: map<Id, Logits>)
    requires SchedInv(e.s) && KeysOk(e) && Sampled(e.s) && Pending(e.s, work, prefill)
    ensures OnlyThese(e, CommitDecodes(m, e, work, logits).0, DecodeIds(work))
    ensures AllTell(m, e, CommitDecodes(m, e, work, logits).0, logits)
    decreases |work|
  {
    hide SchedInv;
    hide KeysOk;
    hide Sampled;
    hide OnlyCommitted;
    hide CommitDecodeItem;
    hide PendingDecode;
    hide PendingPrefill;
    hide OnlyThese;
    hide Tells;
    hide AllTell;
    hide NoDup;
    TellsSame(m, e, logits);
    if work != [] {
      assert PendingDecode(e.s, work[0]);
      PendingKnown(e.s, work[0]);
      CommitDecodeHead(m, e, work[0], logits);
      CommitDecodeTells(m, e, work[0], logits);
      var (e1, r) := CommitDecodeItem(m, e, work[0], logits);
      var id, rest := work[0].id, DecodeIds(work[1..]);
      assert DecodeIds(work) == [id] + rest;
      if r.Returns? {
        PendingDecodeTail(e.s, e1.s, work, prefill);
        CommitDecodesTell(m, e1, work[1..], prefill, logits);
        var e2 := CommitDecodes(m, e1, work[1..], logits).0;
        NoDupParts(DecodeIds(work), PrefillIds(prefill));
        NoDupTail(id, rest);
        OnlyTheseOn(e, e1, e2, [id], rest, DecodeIds(work));
        AllTellOn(m, e, e1, e2, logits, id, rest);
      } else {
        OnlyTheseOn(e, e, e1, [], [id], DecodeIds(work));
        AllTellOne(m, e, e1, logits, id);
      }
    } else {
      assert DecodeIds(work) == [];
    }
  }

  lemma PendingKnown(s: Sched, w: DecodeWork)
    requires PendingDecode(s, w)
    ensures w.id in s.requests
  {
  }

  lemma PendingKnownPrefill(s: Sched, w: PrefillWork)
    requires PendingPrefill(s, w)
    ensures w.id in s.requests
  {
  }

  ghost predicate AllLast(e: Engine, e': Engine, work: seq<PrefillWork>) {
    forall i :: 0 <= i < |work| ==> work[i].id in e.s.requests && work[i].id in e'.s.requests && LastChunk(e, e', work[i])
  }

  lemma AllLastOn(e: Engine, e1: Engine, e2: Engine, work: seq<PrefillWork>)
    requires work != [] && NoDup(PrefillIds(work))
    requires work[0].id in e.s.requests && work[0].id in e1.s.requests && LastChunk(e, e1, work[0])
    requires OnlyThese(e, e1, [work[0].id]) && OnlyThese(e1, e2, PrefillIds(work[1..])) && AllLast(e1, e2, work[1..])
    ensures AllLast(e, e2, work)
  {
    hide OnlyThese;
    assert PrefillIds(work) == [work[0].id] + PrefillIds(work[1..]);
    NoDupTail(work[0].id, PrefillIds(work[1..]));
    forall i | 0 <= i < |work|
      ensures work[i].id in e.s.requests && work[i].id in e2.s.requests && LastChunk(e, e2, work[i])
    {
      if i == 0 {
        OneAlike(e1, e2, PrefillIds(work[1..]), work[0].id);
      } else {
        assert work[1..][i - 1] == work[i] && PrefillIds(work[1..])[i - 1] == work[i].id;
        SameIds(e, e1, [work[0].id]);
        OneAlike(e, e1, [work[0].id], work[i].id);
      }
    }
  }

  lemma SameIds(e: Engine, e': Engine, ids: seq<Id>)
    requires OnlyThese(e, e', ids)
    ensures e'.s.requests.Keys == e.s.requests.Keys
  {
  }

  lemma OneAlike(e: Engine, e': Engine, ids: seq<Id>, id: Id)
    requires OnlyThese(e, e', ids) && id in e.s.requests && id !in ids
    ensures id in e'.s.requests && Alike(e, e', id)
  {
  }

  lemma {:induction false} CommitPrefillsTell(m: Model, e: Engine, work: seq<PrefillWork>, logits: map<Id, Logits>)
    requires SchedInv(e.s) && KeysOk(e) && Sampled(e.s) && Pending(e.s, [], work)
    ensures OnlyThese(e, CommitPrefills(m, e, work, logits).0, PrefillIds(work))
    ensures AllTell(m, e, CommitPrefills(m, e, work, logits).0, logits)
    ensures AllLast(e, CommitPrefills(m, e, work, logits).0, work)
    decreases |work|
  {
    hide SchedInv;
    hide KeysOk;
    hide Sampled;
    hide OnlyCommitted;
    hide CommitPrefillItem;
    hide PendingPrefill;
    hide OnlyThese;
    hide Tells;
    hide AllTell;
    hide AllLast;
    hide LastChunk;
    hide NoDup;
    TellsSame(m, e, logits);
    if work != [] {
      assert PendingPrefill(e.s, work[0]);
      PendingKnownPrefill(e.s, work[0]);
      CommitPrefillHead(m, e, work[0], logits);
      CommitPrefillTells(m, e, work[0], logits);
      var (e1, r) := CommitPrefillItem(m, e, work[0], logits);
      var id, rest := work[0].id, PrefillIds(work[1..]);
      assert PrefillIds(work) == [id] + rest;
      NoDupParts(DecodeIds([]), PrefillIds(work));
      NoDupTail(id, rest);
      if r.Returns? {
        PendingPrefillTail(e.s, e1.s, work);
        CommitPrefillsTell(m, e1, work[1..], logits);
        var e2 := CommitPrefills(m, e1, work[1..], logits).0;
        OnlyTheseOn(e, e1, e2, [id], rest, PrefillIds(work));
        AllTellOn(m, e, e1, e2, logits, id, rest);
        AllLastOn(e, e1, e2, work);
      } else {
        OnlyTheseOn(e, e, e1, [], [id], PrefillIds(work));
        AllTellOne(m, e, e1, logits, id);
        PendingRest(e, e1, work);
        AllLastOn(e, e1, e1, work);
      }
    } else {
      assert PrefillIds(work) == [];
      NoneLast(e);
    }
  }

  lemma NoneLast(e: Engine)
    ensures AllLast(e, e, [])
  {
  }

  /** An item whose commit was not reached did not finish its request. */
  lemma PendingRest(e: Engine, e1: Engine, work: seq<PrefillWork>)
    requires work != [] && Pending(e.s, [], work) && OnlyThese(e, e1, [work[0].id])
    ensures OnlyThese(e1, e1, PrefillIds(work[1..])) && AllLast(e1, e1, work[1..])
  {
    hide PrefillItemFits;
    forall i | 0 <= i < |work[1..]|
      ensures work[1..][i].id in e1.s.requests
    {
      assert PendingPrefill(e.s, work[i + 1]);
    }
  }

  // ----- every action -----

  /** The sample that gave the last token of a request, in the generation of its prompt alone. */
  function LastSample(m: Model, r: Request): Sample
    requires r.prompt != [] && r.generated != []
  {
    var before := r.generated[..|r.generated| - 1];
    m.sample(r.sampling, LogitsAfter(m, r.prompt + before), r.prompt + before, |before|)
  }

  /** The stream of a finished request ends with the reason of its last sample. */
  ghost predicate ReasonOk(m: Model, r: Request, events: seq<Event>) {
    r.state == FINISHED ==>
      && r.prompt != [] && r.generated != []
      && r.generated[|r.generated| - 1] == LastSample(m, r).token
      && |events| == |r.generated| + 1
      && events[|r.generated|] == FinishEvent(if LastSample(m, r).stopped then Stop else Length)
  }

  ghost predicate ReasonsOk(m: Model, e: Engine) {
    forall id :: id in e.s.requests ==> ReasonOk(m, e.s.requests[id], EventsOf(e.events, id))
  }

  lemma ToldReason(m: Model, r: Request, r': Request, ev: seq<Event>, ev': seq<Event>, sample: Sample)
    requires StreamOk(r, ev) && !r.Finished() && r'.state == FINISHED && r.prompt != [] && SameTerms(r, r')
    requires r'.generated == r.generated + [sample.token]
    requires ev' == ev + [TokenEvent(sample.token), FinishEvent(if sample.stopped then Stop else Length)]
    requires sample == m.sample(r.sampling, LogitsAfter(m, Tokens(r)), Tokens(r), |r.generated|)
    ensures ReasonOk(m, r', ev')
  {
    hide TokenEvents;
    StreamOfLive(r, ev);
    assert r'.generated[..|r'.generated| - 1] == r.generated;
  }

  lemma DecodeReason(m: Model, e: Engine, e': Engine, id: Id)
    requires EngineInv(e) && e.phase.DecodeReturned? && Meaning(m, e) && Books(e) && Settled(e, e')
    requires id in e.s.requests && id in e'.s.requests && Tells(m, e, e', e.phase.logits, id)
    requires !e.s.requests[id].Finished() && e'.s.requests[id].state == FINISHED && id in DecodeIds(e.phase.plan.decode)
    ensures ReasonOk(m, e'.s.requests[id], EventsOf(e'.events, id))
  {
    hide SchedInv;
    hide KeysOk;
    hide CountersOk;
    hide CleanBut;
    hide Holds;
    hide Context;
    hide StreamOk;
    hide GeneratedAll;
    hide TokenEvents;
    hide ReasonOk;
    hide LogitsAfter;
    var plan, r := e.phase.plan, e.s.requests[id];
    var i :| 0 <= i < |plan.decode| && DecodeIds(plan.decode)[i] == id;
    assert DecodeDone(m, e.s, e.cells, e.phase.logits, plan.decode[i]);
    assert StreamOk(r, EventsOf(e.events, id));
    assert SettledFor(e, e', id);
    NotWaiting(e.s, id);
    PromptThere(m, e.s, id);
    var sample := m.sample(r.sampling, LogitsAfter(m, Tokens(r)), Tokens(r), |r.generated|);
    ToldReason(m, r, e'.s.requests[id], EventsOf(e.events, id), EventsOf(e'.events, id), sample);
  }

  lemma PromptThere(m: Model, s: Sched, id: Id)
    requires GeneratedAll(m, s) && id in s.requests && Live(s.requests[id])
    ensures s.requests[id].prompt != []
  {
    assert GeneratedOk(m, s.requests[id]);
  }

  lemma PrefillReason(m: Model, e: Engine, e': Engine, id: Id)
    requires EngineInv(e) && e.phase.PrefillReturned? && Meaning(m, e) && Books(e) && Settled(e, e')
    requires id in e.s.requests && id in e'.s.requests && Tells(m, e, e', e.phase.logits, id) && AllLast(e, e', e.phase.plan.prefill)
    requires !e.s.requests[id].Finished() && e'.s.requests[id].state == FINISHED && id in PrefillIds(e.phase.plan.prefill)
    ensures ReasonOk(m, e'.s.requests[id], EventsOf(e'.events, id))
  {
    hide SchedInv;
    hide KeysOk;
    hide CountersOk;
    hide CleanBut;
    hide Holds;
    hide Context;
    hide StreamOk;
    hide GeneratedAll;
    hide TokenEvents;
    hide ReasonOk;
    hide LogitsAfter;
    var plan, r := e.phase.plan, e.s.requests[id];
    var i :| 0 <= i < |plan.prefill| && PrefillIds(plan.prefill)[i] == id;
    assert PrefillDone(m, e.s, e.cells, e.caches, e.phase.logits, plan.prefill[i]);
    assert LastChunk(e, e', plan.prefill[i]);
    assert StreamOk(r, EventsOf(e.events, id));
    assert SettledFor(e, e', id);
    NotWaiting(e.s, id);
    PromptThere(m, e.s, id);
    assert r.prompt[..|r.prompt|] == r.prompt && Tokens(r) == r.prompt;
    var sample := m.sample(r.sampling, LogitsAfter(m, Tokens(r)), Tokens(r), |r.generated|);
    ToldReason(m, r, e'.s.requests[id], EventsOf(e.events, id), EventsOf(e'.events, id), sample);
  }

  lemma DecodeCommitReasons(setup: Setup, e: Engine)
    requires EngineInv(e) && setup.limits.Valid() && e.phase.DecodeReturned?
    requires Meaning(setup.model, e) && Books(e) && ReasonsOk(setup.model, e)
    ensures ReasonsOk(setup.model, DecodeCommitStep(setup, e))
  {
    hide EngineInv;
    hide SchedInv;
    hide KeysOk;
    hide Sampled;
    hide Pending;
    hide OnlyThese;
    hide AllTell;
    hide ReasonsOk;
    hide Settled;
    hide CommitDecodes;
    hide DecodeCommitStep;
    hide Meaning;
    hide BooksOk;
    hide ReasonOk;
    hide Tells;
    hide Alike;
    hide SettledFor;
    var m, plan, e' := setup.model, e.phase.plan, DecodeCommitStep(setup, e);
    EngineDimensions(e);
    StepSettles(setup, e, DecodeCommitAction);
    DecodeReady(e);
    CommitDecodesTell(m, e, plan.decode, plan.prefill, e.phase.logits);
    var e1 := CommitDecodes(m, e, plan.decode, e.phase.logits).0;
    DecodeStepIs(setup, e);
    SettledIds(e, e');
    forall id | id in e'.s.requests
      ensures ReasonOk(m, e'.s.requests[id], EventsOf(e'.events, id))
    {
      CommitKeepsReason(m, e, e', id);
      if !e.s.requests[id].Finished() && e'.s.requests[id].state == FINISHED {
        DecodeTold(m, e, e1, e', id);
        DecodeReason(m, e, e', id);
      }
    }
    ReasonsFrom(m, e');
  }

  lemma DecodeTold(m: Model, e: Engine, e1: Engine, e2: Engine, id: Id)
    requires e.phase.DecodeReturned? && OnlyThese(e, e1, DecodeIds(e.phase.plan.decode)) && AllTell(m, e, e1, e.phase.logits)
    requires e2 == e1.(phase := e2.phase) && id in e.s.requests && id in e2.s.requests
    requires !e.s.requests[id].Finished() && e2.s.requests[id].state == FINISHED
    ensures Tells(m, e, e2, e.phase.logits, id) && id in DecodeIds(e.phase.plan.decode)
  {
    hide OnlyThese;
    hide Tells;
    if id !in DecodeIds(e.phase.plan.decode) { AlikeUnfinished(e, e1, DecodeIds(e.phase.plan.decode), id); }
    assert Tells(m, e, e1, e.phase.logits, id);
    TellsPhase(m, e, e1, e2, e.phase.logits, id);
  }

  lemma ReasonsFrom(m: Model, e: Engine)
    requires forall id :: id in e.s.requests ==> ReasonOk(m, e.s.requests[id], EventsOf(e.events, id))
    ensures ReasonsOk(m, e)
  {
  }

  lemma SettledIds(e: Engine, e': Engine)
    requires Settled(e, e')
    ensures e'.s.requests.Keys == e.s.requests.Keys
  {
  }

  lemma DecodeStepIs(setup: Setup, e: Engine)
    requires e.phase.DecodeReturned?
    ensures var e', e1 := DecodeCommitStep(setup, e), CommitDecodes(setup.model, e, e.phase.plan.decode, e.phase.logits).0;
      e' == e1.(phase := e'.phase)
  {
  }

  lemma PrefillStepIs(setup: Setup, e: Engine)
    requires e.phase.PrefillReturned?
    ensures var e', e1 := PrefillCommitStep(setup, e), CommitPrefills(setup.model, e, e.phase.plan.prefill, e.phase.logits).0;
      e' == e1.(phase := e'.phase)
  {
  }

  lemma DecodeReady(e: Engine)
    requires EngineInv(e) && e.phase.DecodeReturned?
    ensures SchedInv(e.s) && KeysOk(e) && Sampled(e.s) && Pending(e.s, e.phase.plan.decode, e.phase.plan.prefill)
  {
  }

  lemma PrefillReady(e: Engine)
    requires EngineInv(e) && e.phase.PrefillReturned?
    ensures SchedInv(e.s) && KeysOk(e) && Sampled(e.s) && Pending(e.s, [], e.phase.plan.prefill)
  {
  }

  lemma AlikeUnfinished(e: Engine, e1: Engine, ids: seq<Id>, id: Id)
    requires OnlyThese(e, e1, ids) && id in e.s.requests && id !in ids
    ensures id in e1.s.requests && e1.s.requests[id] == e.s.requests[id]
  {
  }

  lemma TellsPhase(m: Model, e: Engine, e1: Engine, e2: Engine, logits: map<Id, Logits>, id: Id)
    requires id in e.s.requests && id in e1.s.requests && Tells(m, e, e1, logits, id) && e2 == e1.(phase := e2.phase)
    ensures Tells(m, e, e2, logits, id)
  {
  }

  /** A request that had finished keeps its reason, and one that has not finished needs none. */
  lemma CommitKeepsReason(m: Model, e: Engine, e': Engine, id: Id)
    requires Settled(e, e') && id in e'.s.requests && ReasonsOk(m, e)
    ensures id in e.s.requests
    ensures e.s.requests[id].Finished() || e'.s.requests[id].state != FINISHED ==> ReasonOk(m, e'.s.requests[id], EventsOf(e'.events, id))
  {
    assert SettledFor(e, e', id);
    assert ReasonOk(m, e.s.requests[id], EventsOf(e.events, id));
  }

  lemma PrefillCommitReasons(setup: Setup, e: Engine)
    requires EngineInv(e) && setup.limits.Valid() && e.phase.PrefillReturned?
    requires Meaning(setup.model, e) && Books(e) && ReasonsOk(setup.model, e)
    ensures ReasonsOk(setup.model, PrefillCommitStep(setup, e))
  {
    hide EngineInv;
    hide SchedInv;
    hide KeysOk;
    hide Sampled;
    hide Pending;
    hide OnlyThese;
    hide AllTell;
    hide ReasonsOk;
    hide Settled;
    hide CommitPrefills;
    hide PrefillCommitStep;
    hide Meaning;
    hide BooksOk;
    hide ReasonOk;
    hide Tells;
    hide Alike;
    hide SettledFor;
    hide AllLast;
    var m, plan, e' := setup.model, e.phase.plan, PrefillCommitStep(setup, e);
    EngineDimensions(e);
    StepSettles(setup, e, PrefillCommitAction);
    PrefillReady(e);
    CommitPrefillsTell(m, e, plan.prefill, e.phase.logits);
    var e1 := CommitPrefills(m, e, plan.prefill, e.phase.logits).0;
    PrefillStepIs(setup, e);
    LastPhase(e, e1, e', plan.prefill);
    SettledIds(e, e');
    forall id | id in e'.s.requests
      ensures ReasonOk(m, e'.s.requests[id], EventsOf(e'.events, id))
    {
      CommitKeepsReason(m, e, e', id);
      if !e.s.requests[id].Finished() && e'.s.requests[id].state == FINISHED {
        PrefillTold(m, e, e1, e', id);
        PrefillReason(m, e, e', id);
      }
    }
    ReasonsFrom(m, e');
  }

  lemma PrefillTold(m: Model, e: Engine, e1: Engine, e2: Engine, id: Id)
    requires e.phase.PrefillReturned? && OnlyThese(e, e1, PrefillIds(e.phase.plan.prefill)) && AllTell(m, e, e1, e.phase.logits)
    requires e2 == e1.(phase := e2.phase) && id in e.s.requests && id in e2.s.requests
    requires !e.s.requests[id].Finished() && e2.s.requests[id].state == FINISHED
    ensures Tells(m, e, e2, e.phase.logits, id) && id in PrefillIds(e.phase.plan.prefill)
  {
    hide OnlyThese;
    hide Tells;
    if id !in PrefillIds(e.phase.plan.prefill) { AlikeUnfinished(e, e1, PrefillIds(e.phase.plan.prefill), id); }
    assert Tells(m, e, e1, e.phase.logits, id);
    TellsPhase(m, e, e1, e2, e.phase.logits, id);
  }

  lemma LastPhase(e: Engine, e1: Engine, e2: Engine, work: seq<PrefillWork>)
    requires AllLast(e, e1, work) && e2 == e1.(phase := e2.phase)
    ensures AllLast(e, e2, work)
  {
    hide LastChunk;
    forall i | 0 <= i < |work|
      ensures work[i].id in e.s.requests && work[i].id in e2.s.requests && LastChunk(e, e2, work[i])
    {
      SameLast(e, e1, e2, work[i]);
    }
  }

  lemma SameLast(e: Engine, e1: Engine, e2: Engine, w: PrefillWork)
    requires w.id in e.s.requests && w.id in e1.s.requests && LastChunk(e, e1, w) && e2 == e1.(phase := e2.phase)
    ensures LastChunk(e, e2, w)
  {
  }

  /** Nobody else finishes a request. */
  lemma {:induction false} FailAllFinishesNone(e: Engine, ids: seq<Id>, id: Id)
    requires id in e.s.requests && !e.s.requests[id].Finished()
    ensures id in FailAll(e, ids).s.requests && FailAll(e, ids).s.requests[id].state != FINISHED
    decreases |ids|
  {
    hide Cleanup;
    if ids != [] {
      FailOneFinishesNone(e, ids[0], id);
      var e1 := FailOne(e, ids[0]);
      if e1.s.requests[id].Finished() {
        FailAllSettles(e1, ids[1..]);
        assert SettledFor(e1, FailAll(e1, ids[1..]), id);
      } else {
        FailAllFinishesNone(e1, ids[1..], id);
      }
    }
  }

  lemma FailOneFinishesNone(e: Engine, x: Id, id: Id)
    requires id in e.s.requests && !e.s.requests[id].Finished()
    ensures id in FailOne(e, x).s.requests && FailOne(e, x).s.requests[id].state != FINISHED
  {
    if Ends(e, x) { TerminateOne(e.s, x, FAILED); }
  }

  lemma CancelFinishesNone(e: Engine, x: Id, id: Id)
    requires id in e.s.requests && !e.s.requests[id].Finished()
    ensures id in CancelStep(e, x).s.requests && CancelStep(e, x).s.requests[id].state != FINISHED
  {
    if Ends(e, x) { TerminateOne(e.s, x, CANCELLED); }
  }

  lemma QuietReasons(setup: Setup, e: Engine, a: Action, id: Id)
    requires EngineInv(e) && setup.limits.Valid() && ReasonsOk(setup.model, e)
    requires !(a.DecodeCommitAction? && e.phase.DecodeReturned?) && !(a.PrefillCommitAction? && e.phase.PrefillReturned?)
    ensures e.s.pool.blockSize > 0
    ensures id in Step(setup, e, a).s.requests ==>
      ReasonOk(setup.model, Step(setup, e, a).s.requests[id], EventsOf(Step(setup, e, a).events, id))
  {
    hide EngineInv;
    hide ReasonOk;
    hide BeginStep;
    hide SubmitStep;
    hide CancelStep;
    hide FailAll;
    hide SettledFor;
    EngineDimensions(e);
    var e' := Step(setup, e, a);
    if a.SubmitAction? {
      SubmitReason(setup.model, e, a.sub, a.now, id);
    } else if a.BeginAction? && e.phase.Idle? {
      BeginReason(setup, e, a.now, a.planNow, id);
    } else if Ordinary(e, a) && id in e'.s.requests {
      StepSettles(setup, e, a);
      CommitKeepsReason(setup.model, e, e', id);
      if !e.s.requests[id].Finished() {
        if a.CancelAction? {
          CancelFinishesNone(e, a.id, id);
        } else if a.CleanupAction? && e.phase.Failing? {
          FailAllFinishesNone(e, PlanIds(e.phase.plan), id);
        }
      }
    }
  }

  lemma SubmitReason(m: Model, e: Engine, sub: Submission, now: real, id: Id)
    requires EngineInv(e) && ReasonsOk(m, e)
    ensures e.s.pool.blockSize > 0
    ensures id in SubmitStep(e, sub, now).s.requests ==>
      ReasonOk(m, SubmitStep(e, sub, now).s.requests[id], EventsOf(SubmitStep(e, sub, now).events, id))
  {
    hide EngineInv;
    hide Submit;
    hide ReasonOk;
    EngineDimensions(e);
    SubmitAdds(e, sub, now);
    SubmitOutcome(e.s, sub, now);
    var e' := SubmitStep(e, sub, now);
    if id in e'.s.requests && id !in e.s.requests { NoReason(m, e'.s.requests[id], EventsOf(e'.events, id)); }
  }

  lemma NoReason(m: Model, r: Request, events: seq<Event>)
    requires r.state != FINISHED
    ensures ReasonOk(m, r, events)
  {
  }

  lemma BeginReason(setup: Setup, e: Engine, now: real, planNow: real, id: Id)
    requires EngineInv(e) && setup.limits.Valid() && e.phase.Idle? && ReasonsOk(setup.model, e)
    ensures e.s.pool.blockSize > 0
    ensures id in BeginStep(setup, e, now, planNow).s.requests ==>
      ReasonOk(setup.model, BeginStep(setup, e, now, planNow).s.requests[id], EventsOf(BeginStep(setup, e, now, planNow).events, id))
  {
    hide EngineInv;
    hide BeginStep;
    hide ReasonOk;
    BeginKeys(setup, e, now, planNow);
    var e' := BeginStep(setup, e, now, planNow);
    if id in e'.s.requests {
      BeginFor(setup, e, now, planNow, id);
      assert ReasonOk(setup.model, e.s.requests[id], EventsOf(e.events, id));
      if e'.s.requests[id].state != FINISHED { NoReason(setup.model, e'.s.requests[id], EventsOf(e'.events, id)); }
    }
  }

  lemma StepReasons(setup: Setup, e: Engine, a: Action)
    requires EngineInv(e) && setup.limits.Valid() && Meaning(setup.model, e) && Books(e) && ReasonsOk(setup.model, e)
    ensures e.s.pool.blockSize > 0 && ReasonsOk(setup.model, Step(setup, e, a))
  {
    hide EngineInv;
    hide Meaning;
    hide BooksOk;
    hide ReasonOk;
    hide DecodeCommitStep;
    hide PrefillCommitStep;
    EngineDimensions(e);
    if a.DecodeCommitAction? && e.phase.DecodeReturned? {
      DecodeCommitReasons(setup, e);
    } else if a.PrefillCommitAction? && e.phase.PrefillReturned? {
      PrefillCommitReasons(setup, e);
    } else {
      forall id { QuietReasons(setup, e, a, id); }
    }
  }

  lemma {:induction false} RunReasons(setup: Setup, e: Engine, actions: seq<Action>)
    requires EngineInv(e) && setup.limits.Valid() && Meaning(setup.model, e) && Books(e) && ReasonsOk(setup.model, e)
    ensures ReasonsOk(setup.model, RunEngine(setup, e, actions))
    decreases |actions|
  {
    hide EngineInv;
    hide Meaning;
    hide BooksOk;
    hide ReasonsOk;
    if actions != [] {
      var earlier := actions[..|actions| - 1];
      RunReasons(setup, e, earlier);
      RunMeaning(setup, e, earlier);
      RunBooks(setup, e, earlier);
      StepReasons(setup, RunEngine(setup, e, earlier), actions[|actions| - 1]);
    }
  }

  /** In every run the stream of a finished request is its tokens and then the reason: 'stop' if the
      sample that gave its last token in the generation of its prompt alone was a stop, and
      'length' otherwise. */
  lemma StopOrLength(setup: Setup, numBlocks: nat, blockSize: nat, cells: Cells, actions: seq<Action>, id: Id)
    requires setup.limits.Valid() && blockSize > 0 && StorageOk(EmptyPool(numBlocks, blockSize), cells)
    ensures EngineInv(Start(numBlocks, blockSize, cells))
    ensures var e := RunEngine(setup, Start(numBlocks, blockSize, cells), actions);
      id in e.s.requests && e.s.requests[id].state == FINISHED ==>
        var r := e.s.requests[id];
        && r.prompt != [] && r.generated != [] && id in e.events
        && var before := r.generated[..|r.generated| - 1];
           var last := setup.model.sample(r.sampling, LogitsAfter(setup.model, r.prompt + before), r.prompt + before, |before|);
           && r.generated == before + [last.token]
           && e.events[id] == TokenEvents(r.generated) + [FinishEvent(if last.stopped then Stop else Length)]
           && (last.stopped || |r.generated| >= r.maxNew)
  {
    hide EngineInv;
    hide Meaning;
    hide BooksOk;
    hide ReasonsOk;
    StartInv(numBlocks, blockSize, cells);
    StartMeaning(setup.model, numBlocks, blockSize, cells);
    StartBooks(numBlocks, blockSize, cells);
    NoReasons(setup.model, numBlocks, blockSize, cells);
    RunReasons(setup, Start(numBlocks, blockSize, cells), actions);
    RunBooks(setup, Start(numBlocks, blockSize, cells), actions);
    var e := RunEngine(setup, Start(numBlocks, blockSize, cells), actions);
    if id in e.s.requests && e.s.requests[id].state == FINISHED { ReasonInStream(setup.model, e, id); }
  }

  lemma NoReasons(m: Model, numBlocks: nat, blockSize: nat, cells: Cells)
    ensures ReasonsOk(m, Start(numBlocks, blockSize, cells))
  {
  }

  lemma ReasonInStream(m: Model, e: Engine, id: Id)
    requires ReasonsOk(m, e) && Books(e) && id in e.s.requests && e.s.requests[id].state == FINISHED
    ensures var r := e.s.requests[id];
      && r.prompt != [] && r.generated != [] && id in e.events
      && r.generated == r.generated[..|r.generated| - 1] + [LastSample(m, r).token]
      && e.events[id] == TokenEvents(r.generated) + [FinishEvent(if LastSample(m, r).stopped then Stop else Length)]
      && (LastSample(m, r).stopped || |r.generated| >= r.maxNew)
  {
    hide CountersOk;
    hide TokenEvents;
    hide LastSample;
    var r, ev := e.s.requests[id], EventsOf(e.events, id);
    assert ReasonOk(m, r, ev) && StreamOk(r, ev);
    assert ev == ev[..|r.generated|] + ev[|r.generated|..];
    assert ev[|r.generated|..] == [ev[|r.generated|]];
  }
}
