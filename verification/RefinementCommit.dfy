/** Committing samples keeps every request on the path it would take alone. */
module RefinementCommit {
  import opened Basics
  import opened PagedKV
  import opened PagedStorage
  import opened Scheduler
  import opened SchedulerInvariant
  import opened PlanInvariant
  import opened Executor
  import opened Engine
  import opened EngineInvariant
  import opened Alone
  import opened Refinement
  import opened RefinementExec
  import opened RefinementPrefill

  // ----- one token -----

  /** The request after its next token. */
  function Appended(r: Request, token: Token, stopped: bool): Request {
    var r' := r.(generated := r.generated + [token]);
    if stopped || |r'.generated| >= r.maxNew then r'.(state := FINISHED) else r'
  }

  lemma CommitIsAppended(s: Sched, id: Id, token: Token, stopped: bool)
    requires id in s.requests
    ensures Commit(s, id, token, stopped).requests == s.requests[id := Appended(s.requests[id], token, stopped)]
    ensures Commit(s, id, token, stopped).pool == s.pool || (Commit(s, id, token, stopped).pool == Release(s.pool, id).0 && !Live(Appended(s.requests[id], token, stopped)))
  {
    var r := s.requests[id].(generated := s.requests[id].generated + [token]);
    assert s.requests[id := r][id := r.(state := FINISHED)] == s.requests[id := r.(state := FINISHED)];
  }

  /** Sampling from the right logits, with the right history and count, takes the step the
      request would take alone. */
  lemma NextAlone(m: Model, r: Request, sample: Sample)
    requires Live(r) && GeneratedOk(m, r) && |r.generated| < r.maxNew
    requires Tokens(r) != [] && sample == m.sample(r.sampling, LogitsAfter(m, Tokens(r)), Tokens(r), |r.generated|)
    ensures GeneratedOk(m, Appended(r, sample.token, sample.stopped))
  {
    hide Context;
    var next := r.generated + [sample.token];
    var r' := Appended(r, sample.token, sample.stopped);
    assert RunAlone(m, r') == RunAlone(m, r);
    assert next <= RunAlone(m, r);
  }

  /** After its token was appended a request's committed rows are the ones just read. */
  lemma AppendedClean(m: Model, blockSize: nat, a: Allocation, cells: Cells, tokens: seq<Token>, token: Token)
    requires blockSize > 0 && Holds(m, blockSize, a, cells, tokens, |tokens|)
    ensures Holds(m, blockSize, a, cells, tokens + [token], |tokens|)
  {
    hide Context;
    hide CellAt;
    ContextPrefix(m, tokens, [token]);
    var long := Context(m, tokens + [token]);
    assert forall p :: 0 <= p < |tokens| ==> long[..|tokens|][p] == long[p];
  }

  // ----- requests that did not commit -----

  /** `e'` differs from `e` at most in what belongs to `id`. */
  ghost predicate OnlyChanged(e: Engine, e': Engine, id: Id) {
    && e'.cells == e.cells && e'.s.pool.blockSize == e.s.pool.blockSize && e'.s.pool.numBlocks == e.s.pool.numBlocks
    && (forall i :: i in e'.s.requests && i != id ==> i in e.s.requests && e'.s.requests[i] == e.s.requests[i])
    && (forall i :: i in e'.s.pool.requests ==> i in e.s.pool.requests && e'.s.pool.requests[i] == e.s.pool.requests[i])
    && (forall i :: i in e'.s.inflight ==> i in e.s.inflight && i in e'.s.pool.requests)
    && (forall i :: i != id ==> Get(e'.samplers, i) == Get(e.samplers, i) && Get(e'.caches, i) == Get(e.caches, i))
  }

  lemma ChangedGenerated(m: Model, e: Engine, e': Engine, id: Id)
    requires OnlyChanged(e, e', id) && GeneratedAll(m, e.s)
    requires id in e'.s.requests ==> GeneratedOk(m, e'.s.requests[id])
    ensures GeneratedAll(m, e'.s)
  {
    hide GeneratedOk;
  }

  lemma ChangedSamplers(e: Engine, e': Engine, id: Id)
    requires OnlyChanged(e, e', id) && SamplersOk(e.s, e.samplers)
    requires id in e'.s.requests && Live(e'.s.requests[id]) ==>
      Get(e'.samplers, id) == Some(Sampler(e'.s.requests[id].sampling, |e'.s.requests[id].generated|))
    ensures SamplersOk(e'.s, e'.samplers)
  {
    forall i | i in e'.s.requests && Live(e'.s.requests[i])
      ensures i in e'.samplers && e'.samplers[i] == Sampler(e'.s.requests[i].sampling, |e'.s.requests[i].generated|)
    {
      if i != id { assert Get(e'.samplers, i) == Get(e.samplers, i); }
    }
  }

  /** The cleanliness of the others; `ids` may shrink by `id`. */
  lemma ChangedClean(m: Model, e: Engine, e': Engine, id: Id, ids: seq<Id>, ids': seq<Id>)
    requires OnlyChanged(e, e', id) && CleanBut(m, e.s, e.cells, e.caches, ids)
    requires forall i :: i in ids ==> i in ids' || i == id
    requires forall i :: i in e'.s.pool.requests ==> i in e'.s.requests
    requires id in e'.s.pool.requests && id !in ids' ==> e'.s.pool.blockSize > 0 && Clean(m, e'.s, e'.cells, e'.caches, id)
    ensures CleanBut(m, e'.s, e'.cells, e'.caches, ids')
  {
    hide Holds;
    hide Context;
    forall i | i in e'.s.pool.requests && i !in ids'
      ensures Clean(m, e'.s, e'.cells, e'.caches, i)
    {
      if i != id {
        assert Clean(m, e.s, e.cells, e.caches, i);
        assert Get(e'.caches, i) == Get(e.caches, i);
      }
    }
  }

  lemma ChangedDecodeDone(m: Model, e: Engine, e': Engine, id: Id, logits: map<Id, Logits>, w: DecodeWork)
    requires OnlyChanged(e, e', id) && w.id != id && DecodeDone(m, e.s, e.cells, logits, w)
    requires forall i :: i in e'.s.pool.requests ==> i in e'.s.requests
    ensures DecodeDone(m, e'.s, e'.cells, logits, w)
  {
    hide Holds;
    hide Context;
  }

  lemma ChangedPrefillDone(m: Model, e: Engine, e': Engine, id: Id, logits: map<Id, Logits>, w: PrefillWork)
    requires OnlyChanged(e, e', id) && w.id != id && PrefillDone(m, e.s, e.cells, e.caches, logits, w)
    requires forall i :: i in e'.s.pool.requests ==> i in e'.s.requests
    ensures PrefillDone(m, e'.s, e'.cells, e'.caches, logits, w)
  {
    hide Holds;
    hide Context;
    assert Get(e'.caches, w.id) == Get(e.caches, w.id);
  }

  lemma StoredKeys(s: Sched)
    requires SchedInv(s)
    ensures s.pool.blockSize > 0
    ensures forall i :: i in s.pool.requests ==>
      i in s.requests && Live(s.requests[i]) && s.requests[i].prompt != [] && s.requests[i].maxNew > 0
    ensures forall i :: i in s.inflight ==> i in s.pool.requests
    ensures forall i :: i in s.requests && Live(s.requests[i]) ==> i in s.pool.requests
  {
    hide PoolInv;
    hide QueuesOk;
    hide ReservedOk;
    InflightOwned(s);
    forall i | i in s.pool.requests
      ensures s.requests[i].prompt != [] && s.requests[i].maxNew > 0
    {
      assert RequestOk(s.requests[i], s.pool.requests[i].length, Get(s.inflight, i));
    }
  }

  lemma RecordChanges(e: Engine, id: Id, sample: Sample)
    requires id in e.s.requests && (forall i :: i in e.s.inflight ==> i in e.s.pool.requests)
    ensures OnlyChanged(e, Record(e, id, sample).0, id)
    ensures Record(e, id, sample).0.s == e.s && Record(e, id, sample).0.samplers == e.samplers
    ensures !e.s.requests[id].Finished() ==> Record(e, id, sample).0.caches == e.caches
  {
  }

  lemma CommitChanges(e: Engine, id: Id, s: Sched, token: Token, stopped: bool)
    requires id in e.samplers && id in s.requests
    requires OnlyCommitted(e.s, s, id) && s.pool == e.s.pool && (forall i :: i in e.s.inflight ==> i in e.s.pool.requests)
    requires id !in s.inflight
    ensures OnlyChanged(e, Drawn(e, id).(s := Commit(s, id, token, stopped)), id)
  {
    CommitIsAppended(s, id, token, stopped);
  }

  lemma OnlyChangedOn(e: Engine, e1: Engine, e2: Engine, id: Id)
    requires OnlyChanged(e, e1, id) && OnlyChanged(e1, e2, id)
    ensures OnlyChanged(e, e2, id)
  {
    forall i | i != id
      ensures Get(e2.samplers, i) == Get(e.samplers, i) && Get(e2.caches, i) == Get(e.caches, i)
    {
      assert Get(e2.samplers, i) == Get(e1.samplers, i) && Get(e2.caches, i) == Get(e1.caches, i);
    }
  }

  // ----- the commit loops -----

  /** What the commit loops keep of the meaning. */
  ghost predicate Sound(m: Model, e: Engine, ids: seq<Id>) {
    GeneratedAll(m, e.s) && SamplersOk(e.s, e.samplers) && StorageOk(e.s.pool, e.cells) && CleanBut(m, e.s, e.cells, e.caches, ids)
  }

  lemma SoundAfter(m: Model, e: Engine, e': Engine, id: Id, ids: seq<Id>, ids': seq<Id>)
    requires Sound(m, e, ids) && OnlyChanged(e, e', id)
    requires forall i :: i in ids ==> i in ids' || i == id
    requires forall i :: i in e'.s.pool.requests ==> i in e'.s.requests
    requires id in e'.s.requests && GeneratedOk(m, e'.s.requests[id])
    requires Live(e'.s.requests[id]) ==>
      Get(e'.samplers, id) == Some(Sampler(e'.s.requests[id].sampling, |e'.s.requests[id].generated|))
    requires id in e'.s.pool.requests && id !in ids' ==> e'.s.pool.blockSize > 0 && Clean(m, e'.s, e'.cells, e'.caches, id)
    ensures Sound(m, e', ids')
  {
    hide GeneratedAll;
    hide GeneratedOk;
    hide SamplersOk;
    hide CleanBut;
    hide Clean;
    ChangedGenerated(m, e, e', id);
    ChangedSamplers(e, e', id);
    ChangedClean(m, e, e', id, ids, ids');
  }

  lemma DecodingLimit(s: Sched, id: Id)
    requires SchedInv(s) && id in s.pool.requests && id in s.requests && s.requests[id].state == DECODE
    ensures |s.requests[id].generated| < s.requests[id].maxNew && s.requests[id].prompt != []
  {
    hide PoolInv;
    hide QueuesOk;
    hide OwnersOk;
    hide ReservedOk;
    assert RequestOk(s.requests[id], s.pool.requests[id].length, Get(s.inflight, id));
  }

  lemma CommitDecodeSound(m: Model, e: Engine, w: DecodeWork, logits: map<Id, Logits>)
    requires SchedInv(e.s) && KeysOk(e) && PendingDecode(e.s, w) && Sound(m, e, []) && DecodeDone(m, e.s, e.cells, logits, w)
    ensures var (e1, r) := CommitDecodeItem(m, e, w, logits);
      Sound(m, e1, []) && OnlyChanged(e, e1, w.id)
  {
    hide SchedInv;
    hide KeysOk;
    hide CleanBut;
    hide GeneratedAll;
    hide DecodeItemFits;
    hide Commit;
    hide Record;
    hide Holds;
    hide Context;
    CommitDecodeOutcome(m, e, w, logits);
    StoredKeys(e.s);
    if w.id in e.s.inflight && w.id in logits {
      CommitTakenSound(m, e, w, logits[w.id]);
    } else {
      UntakenSound(m, e, CommitDecodeItem(m, e, w, logits).0, w.id);
    }
  }

  /** A commit that raises changes at most the sampler of a request that is not live, or nothing. */
  lemma UntakenSound(m: Model, e: Engine, e1: Engine, id: Id)
    requires SchedInv(e.s) && Sound(m, e, []) && e1 == e.(samplers := e1.samplers)
    requires forall i :: i != id ==> Get(e1.samplers, i) == Get(e.samplers, i)
    requires e1 == e || (id in e.s.requests && !Live(e.s.requests[id]))
    ensures Sound(m, e1, []) && OnlyChanged(e, e1, id)
  {
    hide GeneratedAll;
    hide CleanBut;
    hide SchedInv;
    StoredKeys(e.s);
    forall i | i in e1.s.requests && Live(e1.s.requests[i])
      ensures i in e1.samplers && e1.samplers[i] == Sampler(e1.s.requests[i].sampling, |e1.s.requests[i].generated|)
    {
      if i != id { assert Get(e1.samplers, i) == Get(e.samplers, i); }
    }
  }

  lemma CommitTakenSound(m: Model, e: Engine, w: DecodeWork, row: Logits)
    requires SchedInv(e.s) && Sound(m, e, []) && DecodeItemOk(e.s, w) && w.id in e.samplers
    requires e.s.pool.blockSize > 0 && Tokens(e.s.requests[w.id]) != [] && row == LogitsAfter(m, Tokens(e.s.requests[w.id]))
    requires Holds(m, e.s.pool.blockSize, e.s.pool.requests[w.id], e.cells, Tokens(e.s.requests[w.id]), |Tokens(e.s.requests[w.id])|)
    ensures var r := e.s.requests[w.id];
      var sample := Draw(m, e, w.id, row, r.prompt + r.generated);
      var e1 := Record(Drawn(e, w.id).(s := Commit(e.s.(inflight := e.s.inflight - {w.id}), w.id, sample.token, sample.stopped)), w.id, sample).0;
      Sound(m, e1, []) && OnlyChanged(e, e1, w.id)
  {
    hide SchedInv;
    hide CleanBut;
    hide DecodeItemFits;
    hide Commit;
    hide Record;
    hide Holds;
    hide Context;
    var r := e.s.requests[w.id];
    var sample := Draw(m, e, w.id, row, r.prompt + r.generated);
    var s := e.s.(inflight := e.s.inflight - {w.id});
    StoredKeys(e.s);
    DecodingLimit(e.s, w.id);
    CommitIsAppended(s, w.id, sample.token, sample.stopped);
    CommitOnly(e.s, w.id, sample.token, sample.stopped);
    InflightRemoved(e.s, w.id);
    AppendMeaning(m, e, s, w.id, sample, [], []);
  }

  lemma InflightRemoved(s: Sched, id: Id)
    requires id in s.requests
    ensures OnlyCommitted(s, s.(inflight := s.inflight - {id}), id)
  {
  }

  /** The next token of `id`, drawn after its whole token sequence was read. `s` is the
      scheduler without the work in flight. */
  lemma AppendMeaning(m: Model, e: Engine, s: Sched, id: Id, sample: Sample, ids: seq<Id>, ids': seq<Id>)
    requires Sound(m, e, ids) && forall i :: i in ids ==> i in ids' || i == id
    requires OnlyCommitted(e.s, s, id) && s.pool == e.s.pool && id !in s.inflight && s.pool.blockSize > 0
    requires forall i :: i in e.s.inflight ==> i in e.s.pool.requests
    requires forall i :: i in e.s.pool.requests ==> i in e.s.requests
    requires id in e.samplers && id in s.requests && id in s.pool.requests && s.requests[id].state == DECODE
    requires var r := s.requests[id];
      && GeneratedOk(m, r) && |r.generated| < r.maxNew && Tokens(r) != []
      && e.samplers[id] == Sampler(r.sampling, |r.generated|)
      && sample == m.sample(r.sampling, LogitsAfter(m, Tokens(r)), Tokens(r), |r.generated|)
      && Holds(m, s.pool.blockSize, s.pool.requests[id], e.cells, Tokens(r), |Tokens(r)|)
    ensures var e1 := Record(Drawn(e, id).(s := Commit(s, id, sample.token, sample.stopped)), id, sample).0;
      Sound(m, e1, ids') && OnlyChanged(e, e1, id)
  {
    hide Sound;
    hide Commit;
    hide Record;
    hide Holds;
    hide Context;
    hide GeneratedOk;
    hide OnlyChanged;
    var r := s.requests[id];
    CommitIsAppended(s, id, sample.token, sample.stopped);
    CommitChanges(e, id, s, sample.token, sample.stopped);
    var e0 := Drawn(e, id).(s := Commit(s, id, sample.token, sample.stopped));
    CommitInflight(s, id, sample.token, sample.stopped);
    RecordChanges(e0, id, sample);
    var e1 := Record(e0, id, sample).0;
    OnlyChangedOn(e, e0, e1, id);
    NextAlone(m, r, sample);
    AppendedClean(m, s.pool.blockSize, s.pool.requests[id], e.cells, Tokens(r), sample.token);
    var r' := Appended(r, sample.token, sample.stopped);
    assert Tokens(r') == Tokens(r) + [sample.token];
    SameCellsChanged(e, e1, id);
    SoundAfter(m, e, e1, id, ids, ids');
  }

  lemma SameCellsChanged(e: Engine, e1: Engine, id: Id)
    requires OnlyChanged(e, e1, id)
    ensures e1.cells == e.cells && e1.s.pool.blockSize == e.s.pool.blockSize
    ensures id in e1.s.pool.requests ==> id in e.s.pool.requests && e1.s.pool.requests[id] == e.s.pool.requests[id]
  {
  }

  lemma CommitInflight(s: Sched, id: Id, token: Token, stopped: bool)
    requires id in s.requests && id !in s.inflight && (forall i :: i in s.inflight ==> i in s.pool.requests)
    ensures var s' := Commit(s, id, token, stopped);
      && (forall i :: i in s'.inflight ==> i in s'.pool.requests)
      && (forall i :: i in s'.pool.requests ==> i in s.pool.requests)
      && s'.requests.Keys == s.requests.Keys
  {
  }

  ghost predicate AllDecodeDone(m: Model, e: Engine, logits: map<Id, Logits>, work: seq<DecodeWork>) {
    forall i :: 0 <= i < |work| ==> DecodeDone(m, e.s, e.cells, logits, work[i])
  }

  lemma DecodeDoneTail(m: Model, e: Engine, e1: Engine, logits: map<Id, Logits>, work: seq<DecodeWork>, prefill: seq<PrefillWork>)
    requires work != [] && AllDecodeDone(m, e, logits, work) && OnlyChanged(e, e1, work[0].id)
    requires Pending(e.s, work, prefill)
    requires forall i :: i in e1.s.pool.requests ==> i in e1.s.requests
    ensures AllDecodeDone(m, e1, logits, work[1..])
  {
    hide PendingDecode;
    hide PendingPrefill;
    hide OnlyChanged;
    hide DecodeDone;
    var ids := DecodeIds(work) + PrefillIds(prefill);
    forall i | 0 <= i < |work[1..]|
      ensures DecodeDone(m, e1.s, e1.cells, logits, work[1..][i])
    {
      assert ids[0] == work[0].id && ids[i + 1] == work[i + 1].id;
      assert DecodeDone(m, e.s, e.cells, logits, work[i + 1]);
      ChangedDecodeDone(m, e, e1, work[0].id, logits, work[i + 1]);
    }
  }

  lemma {:induction false} CommitDecodesSound(m: Model, e: Engine, work: seq<DecodeWork>, prefill: seq<PrefillWork>, logits: map<Id, Logits>)
    requires SchedInv(e.s) && KeysOk(e) && Sampled(e.s) && Pending(e.s, work, prefill)
    requires Sound(m, e, []) && AllDecodeDone(m, e, logits, work)
    ensures Sound(m, CommitDecodes(m, e, work, logits).0, [])
    decreases |work|
  {
    hide SchedInv;
    hide KeysOk;
    hide Sampled;
    hide Sound;
    hide OnlyChanged;
    hide OnlyCommitted;
    hide CommitDecodeItem;
    hide PendingDecode;
    hide PendingPrefill;
    hide DecodeDone;
    if work != [] {
      assert PendingDecode(e.s, work[0]);
      CommitDecodeHead(m, e, work[0], logits);
      CommitDecodeSound(m, e, work[0], logits);
      var (e1, r) := CommitDecodeItem(m, e, work[0], logits);
      if r.Returns? {
        PendingDecodeTail(e.s, e1.s, work, prefill);
        StoredKeys(e1.s);
        DecodeDoneTail(m, e, e1, logits, work, prefill);
        CommitDecodesSound(m, e1, work[1..], prefill, logits);
      }
    }
  }

  lemma DecodeCommitMeaning(setup: Setup, e: Engine)
    requires EngineInv(e) && e.phase.DecodeReturned? && Meaning(setup.model, e)
    ensures Meaning(setup.model, DecodeCommitStep(setup, e))
  {
    hide SchedInv;
    hide KeysOk;
    hide Clean;
    hide Pending;
    hide GeneratedAll;
    hide SamplersOk;
    hide DecodeDone;
    var plan := e.phase.plan;
    CommitDecodesSound(setup.model, e, plan.decode, plan.prefill, e.phase.logits);
    var e1 := CommitDecodes(setup.model, e, plan.decode, e.phase.logits).0;
    CleanButMore(setup.model, e1, PlanIds(plan));
  }

  // ----- prefill commits -----

  lemma HeldTokens(m: Model, blockSize: nat, a: Allocation, cells: Cells, r: Request, n: nat)
    requires blockSize > 0 && r.generated == [] && Holds(m, blockSize, a, cells, r.prompt, n)
    ensures Holds(m, blockSize, a, cells, Tokens(r), n)
  {
    assert Tokens(r) == r.prompt;
  }

  /** The request after its chunk: the same tokens, further along. */
  lemma ChunkCommitted(m: Model, e: Engine, w: PrefillWork, logits: map<Id, Logits>)
    requires SchedInv(e.s) && KeysOk(e) && PendingPrefill(e.s, w) && w.id in e.s.inflight
    requires PrefillDone(m, e.s, e.cells, e.caches, logits, w) && GeneratedAll(m, e.s) && SamplersOk(e.s, e.samplers)
    ensures var (s, last) := CompletePrefill(e.s, w.id, |w.tokens|);
      && last.Returns? && OnlyChanged(e, e.(s := s), w.id) && s.pool == e.s.pool && w.id in s.requests && w.id in s.pool.requests
      && s.pool.blockSize > 0 && w.id !in s.inflight && OnlyCommitted(e.s, s, w.id)
      && var r := s.requests[w.id];
         && GeneratedOk(m, r) && Live(r) && r.generated == [] && r.prompt != [] && r.maxNew > 0
         && Get(e.samplers, w.id) == Some(Sampler(r.sampling, 0))
         && (!last.value ==> Clean(m, s, e.cells, e.caches, w.id))
         && (last.value ==> r.state == DECODE && Holds(m, s.pool.blockSize, s.pool.requests[w.id], e.cells, Tokens(r), |Tokens(r)|))
         && (last.value && w.id in logits ==> logits[w.id] == LogitsAfter(m, Tokens(r)))
  {
    hide SchedInv;
    hide KeysOk;
    hide PrefillItemFits;
    hide Holds;
    hide Context;
    hide RunAlone;
    hide CompletePrefill;
    hide OnlyChanged;
    hide OnlyCommitted;
    hide SamplersOk;
    hide GeneratedAll;
    PrefillCompleted(e.s, w);
    CompletedShape(e.s, w.id, |w.tokens|);
    StoredKeys(e.s);
    var (s, last) := CompletePrefill(e.s, w.id, |w.tokens|);
    var r, r' := e.s.requests[w.id], s.requests[w.id];
    var n := r.cursor + |w.tokens|;
    CommittedChanges(e, s, w.id);
    StillFresh(m, e, w.id);
    assert r'.prompt[..n] == r.prompt[..n];
    HeldTokens(m, e.s.pool.blockSize, e.s.pool.requests[w.id], e.cells, r', n);
    assert RunAlone(m, r') == RunAlone(m, r) by { SameAlone(m, r, r'); }
    assert Tokens(r') == r.prompt;
    if last.value { assert r.prompt[..n] == r.prompt; }
  }

  lemma CommittedChanges(e: Engine, s: Sched, id: Id)
    requires OnlyCommitted(e.s, s, id) && s.pool == e.s.pool
    requires forall i :: i in e.s.inflight ==> i in e.s.pool.requests
    ensures OnlyChanged(e, e.(s := s), id) && id !in s.inflight
  {
  }

  lemma StillFresh(m: Model, e: Engine, id: Id)
    requires GeneratedAll(m, e.s) && SamplersOk(e.s, e.samplers) && id in e.s.requests && e.s.requests[id].state != REJECTED
    ensures GeneratedOk(m, e.s.requests[id])
    ensures Live(e.s.requests[id]) && e.s.requests[id].generated == [] ==>
      Get(e.samplers, id) == Some(Sampler(e.s.requests[id].sampling, 0))
  {
  }

  lemma SameAlone(m: Model, r: Request, r': Request)
    requires r.prompt != [] && r'.prompt == r.prompt && r'.sampling == r.sampling && r'.maxNew == r.maxNew
    ensures RunAlone(m, r') == RunAlone(m, r)
  {
  }

  lemma SoundMore(m: Model, e: Engine, ids: seq<Id>, ids': seq<Id>)
    requires Sound(m, e, ids) && forall i :: i in ids ==> i in ids'
    ensures Sound(m, e, ids')
  {
    hide Clean;
    hide GeneratedOk;
  }

  lemma CommitPrefillSound(m: Model, e: Engine, w: PrefillWork, logits: map<Id, Logits>, ids: seq<Id>, rest: seq<Id>)
    requires SchedInv(e.s) && KeysOk(e) && PendingPrefill(e.s, w) && ids == [w.id] + rest
    requires Sound(m, e, ids) && PrefillDone(m, e.s, e.cells, e.caches, logits, w)
    ensures var (e1, r) := CommitPrefillItem(m, e, w, logits);
      && OnlyChanged(e, e1, w.id) && Sound(m, e1, ids) && (r.Returns? ==> Sound(m, e1, rest))
  {
    hide SchedInv;
    hide KeysOk;
    hide PendingPrefill;
    hide PrefillDone;
    hide CleanBut;
    hide GeneratedAll;
    hide GeneratedOk;
    hide SamplersOk;
    hide Clean;
    hide CompletePrefill;
    hide Commit;
    hide Record;
    hide Draw;
    hide Holds;
    hide OnlyChanged;
    CommitPrefillOutcome(m, e, w, logits);
    StoredKeys(e.s);
    if w.id in e.s.inflight {
      ChunkCommitted(m, e, w, logits);
      var (s, last) := CompletePrefill(e.s, w.id, |w.tokens|);
      if !last.value || w.id !in logits {
        ChunkSound(m, e, s, w.id, ids, rest, last.value);
      } else {
        FirstTokenSound(m, e, s, w.id, logits[w.id], ids, rest);
      }
    } else {
      SameChanged(e, w.id);
    }
  }

  lemma SameChanged(e: Engine, id: Id)
    requires forall i :: i in e.s.inflight ==> i in e.s.pool.requests
    ensures OnlyChanged(e, e, id)
  {
  }

  lemma ChunkSound(m: Model, e: Engine, s: Sched, id: Id, ids: seq<Id>, rest: seq<Id>, last: bool)
    requires Sound(m, e, ids) && ids == [id] + rest
    requires OnlyChanged(e, e.(s := s), id) && s.pool == e.s.pool && s.requests.Keys == e.s.requests.Keys
    requires forall i :: i in e.s.pool.requests ==> i in e.s.requests
    requires id in s.requests && id in s.pool.requests && s.pool.blockSize > 0 && s.requests[id].generated == []
    requires GeneratedOk(m, s.requests[id]) && Get(e.samplers, id) == Some(Sampler(s.requests[id].sampling, 0))
    requires !last ==> Clean(m, s, e.cells, e.caches, id)
    ensures Sound(m, e.(s := s), ids)
    ensures !last ==> Sound(m, e.(s := s), rest)
  {
    hide CleanBut;
    hide GeneratedAll;
    hide GeneratedOk;
    hide SamplersOk;
    hide Clean;
    hide OnlyChanged;
    hide Sound;
    assert forall i :: i in ids ==> i in rest || i == id;
    assert id in ids;
    SoundAfter(m, e, e.(s := s), id, ids, ids);
    if !last { SoundAfter(m, e, e.(s := s), id, ids, rest); }
  }

  lemma FirstTokenSound(m: Model, e: Engine, s: Sched, id: Id, row: Logits, ids: seq<Id>, rest: seq<Id>)
    requires Sound(m, e, ids) && ids == [id] + rest
    requires OnlyCommitted(e.s, s, id) && s.pool == e.s.pool && id !in s.inflight && s.pool.blockSize > 0
    requires forall i :: i in e.s.inflight ==> i in e.s.pool.requests
    requires forall i :: i in e.s.pool.requests ==> i in e.s.requests
    requires id in s.requests && id in s.pool.requests && s.requests[id].state == DECODE && id in e.samplers
    requires var r := s.requests[id];
      && GeneratedOk(m, r) && r.generated == [] && r.prompt != [] && 0 < r.maxNew
      && e.samplers[id] == Sampler(r.sampling, 0) && row == LogitsAfter(m, Tokens(r))
      && Holds(m, s.pool.blockSize, s.pool.requests[id], e.cells, Tokens(r), |Tokens(r)|)
    ensures var sample := Draw(m, e, id, row, s.requests[id].prompt);
      var e1 := Record(Drawn(e, id).(s := Commit(s, id, sample.token, sample.stopped)), id, sample).0;
      Sound(m, e1, ids) && Sound(m, e1, rest) && OnlyChanged(e, e1, id)
  {
    hide Sound;
    hide Commit;
    hide Record;
    hide Holds;
    hide Context;
    hide GeneratedOk;
    hide OnlyChanged;
    hide OnlyCommitted;
    var sample := Draw(m, e, id, row, s.requests[id].prompt);
    assert Tokens(s.requests[id]) == s.requests[id].prompt;
    assert forall i :: i in ids ==> i in rest || i == id;
    AppendMeaning(m, e, s, id, sample, ids, rest);
    CommitIsAppended(s, id, sample.token, sample.stopped);
    SoundMore(m, Record(Drawn(e, id).(s := Commit(s, id, sample.token, sample.stopped)), id, sample).0, rest, ids);
  }

  ghost predicate AllPrefillDone(m: Model, e: Engine, logits: map<Id, Logits>, work: seq<PrefillWork>) {
    forall i :: 0 <= i < |work| ==> PrefillDone(m, e.s, e.cells, e.caches, logits, work[i])
  }

  lemma PrefillDoneTail(m: Model, e: Engine, e1: Engine, logits: map<Id, Logits>, work: seq<PrefillWork>)
    requires work != [] && AllPrefillDone(m, e, logits, work) && OnlyChanged(e, e1, work[0].id)
    requires NoDup(PrefillIds(work))
    requires forall i :: i in e1.s.pool.requests ==> i in e1.s.requests
    ensures AllPrefillDone(m, e1, logits, work[1..])
  {
    hide OnlyChanged;
    hide PrefillDone;
    forall i | 0 <= i < |work[1..]|
      ensures PrefillDone(m, e1.s, e1.cells, e1.caches, logits, work[1..][i])
    {
      assert PrefillIds(work)[0] == work[0].id && PrefillIds(work)[i + 1] == work[i + 1].id;
      assert PrefillDone(m, e.s, e.cells, e.caches, logits, work[i + 1]);
      ChangedPrefillDone(m, e, e1, work[0].id, logits, work[i + 1]);
    }
  }

  lemma {:induction false} CommitPrefillsSound(m: Model, e: Engine, work: seq<PrefillWork>, logits: map<Id, Logits>)
    requires SchedInv(e.s) && KeysOk(e) && Sampled(e.s) && Pending(e.s, [], work)
    requires Sound(m, e, PrefillIds(work)) && AllPrefillDone(m, e, logits, work)
    ensures var (e', r) := CommitPrefills(m, e, work, logits);
      Sound(m, e', PrefillIds(work)) && (r.Returns? ==> Sound(m, e', []))
    decreases |work|
  {
    hide SchedInv;
    hide KeysOk;
    hide Sampled;
    hide Sound;
    hide OnlyChanged;
    hide OnlyCommitted;
    hide CommitPrefillItem;
    hide PendingPrefill;
    hide PrefillDone;
    if work != [] {
      assert PendingPrefill(e.s, work[0]);
      var ids, rest := PrefillIds(work), PrefillIds(work[1..]);
      assert ids == [work[0].id] + rest;
      assert DecodeIds([]) + ids == ids;
      CommitPrefillHead(m, e, work[0], logits);
      CommitPrefillSound(m, e, work[0], logits, ids, rest);
      var (e1, r) := CommitPrefillItem(m, e, work[0], logits);
      if r.Returns? {
        PendingPrefillTail(e.s, e1.s, work);
        StoredKeys(e1.s);
        PrefillDoneTail(m, e, e1, logits, work);
        CommitPrefillsSound(m, e1, work[1..], logits);
        SoundMore(m, CommitPrefills(m, e1, work[1..], logits).0, rest, ids);
      }
    } else {
      assert PrefillIds(work) == [];
    }
  }

  lemma PrefillCommitMeaning(setup: Setup, e: Engine)
    requires EngineInv(e) && e.phase.PrefillReturned? && Meaning(setup.model, e)
    ensures Meaning(setup.model, PrefillCommitStep(setup, e))
  {
    hide SchedInv;
    hide KeysOk;
    hide CleanBut;
    hide Pending;
    hide GeneratedAll;
    hide SamplersOk;
    hide PrefillDone;
    var plan := e.phase.plan;
    CommitPrefillsSound(setup.model, e, plan.prefill, e.phase.logits);
    SoundMore(setup.model, CommitPrefills(setup.model, e, plan.prefill, e.phase.logits).0, PrefillIds(plan.prefill), PlanIds(plan));
  }

  // ----- cleanup -----

  lemma {:induction false} FailAllMeaning(m: Model, e: Engine, ids: seq<Id>, plan: seq<Id>)
    requires SchedInv(e.s) && KeysOk(e) && Sound(m, e, plan)
    ensures Sound(m, FailAll(e, ids), plan)
    ensures FailAll(e, ids).s.pool.requests.Keys <= e.s.pool.requests.Keys
    ensures forall id :: id in ids ==> id !in FailAll(e, ids).s.pool.requests
    decreases |ids|
  {
    hide SchedInv;
    hide KeysOk;
    hide Sound;
    if ids != [] {
      FailOneKeeps(e, ids[0]);
      FailOneMeaning(m, e, ids[0], plan);
      FailAllMeaning(m, FailOne(e, ids[0]), ids[1..], plan);
    }
  }

  lemma FailOneMeaning(m: Model, e: Engine, id: Id, plan: seq<Id>)
    requires SchedInv(e.s) && Sound(m, e, plan)
    ensures Sound(m, FailOne(e, id), plan)
    ensures FailOne(e, id).s.pool.requests.Keys <= e.s.pool.requests.Keys && id !in FailOne(e, id).s.pool.requests
  {
    hide SchedInv;
    hide GeneratedAll;
    hide SamplersOk;
    hide CleanBut;
    InflightOwned(e.s);
    StoredKeys(e.s);
    if id in e.s.requests && !e.s.requests[id].Finished() {
      NotWaiting(e.s, id);
      var e1 := FailOne(e, id);
      RetiredQuiet(e.(phase := Idle), id, FAILED, e1.(phase := Idle));
      QuietClean(m, e.(phase := Idle), e1.(phase := Idle), plan);
      RetiredGenerated(m, e.s, id, FAILED);
      RetiredSamplers(e, id, FAILED, e1);
    }
  }

  lemma CleanupMeaning(m: Model, e: Engine)
    requires EngineInv(e) && e.phase.Failing? && Meaning(m, e)
    ensures Meaning(m, CleanupStep(e))
  {
    hide SchedInv;
    hide KeysOk;
    hide GeneratedAll;
    hide SamplersOk;
    hide Clean;
    FailAllMeaning(m, e, PlanIds(e.phase.plan), PlanIds(e.phase.plan));
  }
}
