/** serving/scheduler.py as functions on values: requests, queues, reservations, in-flight
    work, and the plan of one step. */
module Scheduler {
  import opened Basics
  import opened PagedKV
  import opened GraphBuckets

  type Token = int
  /** `SamplingParams`, as one unknown value. */
  type Sampling = int

  datatype RequestState = WAITING | PREFILL | DECODE | FINISHED | CANCELLED | TIMED_OUT | REJECTED | FAILED

  /** What a caller submits. */
  datatype Submission = Submission(id: Id, prompt: seq<Token>, maxNew: int, sampling: Sampling,
                                   priority: int, timeout: Option<real>)

  datatype Request = Request(prompt: seq<Token>, maxNew: int, sampling: Sampling, priority: int,
                             timeout: Option<real>, state: RequestState, cursor: nat,
                             generated: seq<Token>, submittedAt: real)
  {
    predicate Finished() {
      state in {FINISHED, CANCELLED, TIMED_OUT, REJECTED, FAILED}
    }

    function RemainingPrompt(): int {
      |prompt| - cursor
    }
  }

  datatype Inflight = InPrefill(count: nat) | InDecode

  datatype DecodeWork = DecodeWork(id: Id, token: Token, position: nat, slot: Slot)
  datatype PrefillWork = PrefillWork(id: Id, tokens: seq<Token>, start: nat, slots: seq<Slot>)
  datatype StepPlan = StepPlan(decode: seq<DecodeWork>, prefill: seq<PrefillWork>,
                               batch: Option<nat>, sequence: Option<nat>)

  datatype Limits = Limits(maxBatch: nat, prefillChunk: nat, maxPrefillTokens: nat, decodePrefillChunk: nat)
  {
    predicate Valid() {
      maxBatch > 0 && prefillChunk > 0 && maxPrefillTokens > 0 && decodePrefillChunk > 0
    }
  }

  /** `order` is the insertion order of the `requests` dict. */
  datatype Sched = Sched(requests: map<Id, Request>, order: seq<Id>, prefill: seq<Id>, decode: seq<Id>,
                         inflight: map<Id, Inflight>, reserved: map<Id, nat>, pool: Pool)

  function Min2(a: int, b: int): int {
    if a < b then a else b
  }

  // ----- submit, cancel, fail, expire -----

  function ToRequest(sub: Submission, state: RequestState, now: real): Request {
    Request(sub.prompt, sub.maxNew, sub.sampling, sub.priority, sub.timeout, state, 0, [], now)
  }

  /** The blocks a request may come to need. */
  function Reserve(blockSize: nat, sub: Submission): nat
    requires blockSize > 0 && sub.maxNew >= 0
  {
    CeilDiv(|sub.prompt| + sub.maxNew, blockSize)
  }

  ghost function Submit(s: Sched, sub: Submission, now: real): (Sched, Outcome<()>)
    requires s.pool.blockSize > 0
  {
    if sub.id == "" || sub.id in s.requests then (s, Raises(ValueError))
    else if sub.prompt == [] || sub.maxNew <= 0 then (s, Raises(ValueError))
    else if sub.timeout.Some? && sub.timeout.value <= 0.0 then (s, Raises(ValueError))
    else if Reserve(s.pool.blockSize, sub) > s.pool.numBlocks - SumMap(s.reserved) then
      (s.(requests := s.requests[sub.id := ToRequest(sub, REJECTED, now)], order := s.order + [sub.id]),
       Raises(AdmissionError))
    else
      var (pool, created) := Create(s.pool, sub.id);
      if created.Raises? then (s, Raises(created.error))
      else (Admitted(s, sub, now).(pool := pool), Returns(()))
  }

  ghost function Admitted(s: Sched, sub: Submission, now: real): Sched
    requires s.pool.blockSize > 0 && sub.maxNew >= 0
  {
    s.(requests := s.requests[sub.id := ToRequest(sub, PREFILL, now)], order := s.order + [sub.id],
       reserved := s.reserved[sub.id := Reserve(s.pool.blockSize, sub)], prefill := s.prefill + [sub.id])
  }

  ghost function Cleanup(s: Sched, id: Id): Sched {
    s.(inflight := s.inflight - {id}, reserved := s.reserved - {id},
       prefill := Remove(s.prefill, id), decode := Remove(s.decode, id), pool := Release(s.pool, id).0)
  }

  /** A request reaches a terminal state and gives everything back. */
  ghost function Terminate(s: Sched, id: Id, state: RequestState): Sched
    requires id in s.requests
  {
    Cleanup(s.(requests := s.requests[id := s.requests[id].(state := state)]), id)
  }

  ghost function Cancel(s: Sched, id: Id): (Sched, Outcome<bool>) {
    if id !in s.requests then (s, Raises(KeyError))
    else if s.requests[id].Finished() then (s, Returns(false))
    else (Terminate(s, id, CANCELLED), Returns(true))
  }

  ghost function Fail(s: Sched, id: Id): (Sched, Outcome<()>) {
    if id !in s.requests then (s, Raises(KeyError)) else (Terminate(s, id, FAILED), Returns(()))
  }

  predicate Due(r: Request, now: real) {
    !r.Finished() && r.timeout.Some? && now - r.submittedAt >= r.timeout.value
  }

  ghost function ExpireFrom(s: Sched, now: real, ids: seq<Id>, expired: seq<Id>): (Sched, seq<Id>)
    decreases |ids|
  {
    if ids == [] then (s, expired)
    else if ids[0] in s.requests && Due(s.requests[ids[0]], now)
    then ExpireFrom(Terminate(s, ids[0], TIMED_OUT), now, ids[1..], expired + [ids[0]])
    else ExpireFrom(s, now, ids[1..], expired)
  }

  ghost function Expire(s: Sched, now: real): (Sched, seq<Id>) {
    ExpireFrom(s, now, s.order, [])
  }

  // ----- plan -----

  function Priority(requests: map<Id, Request>, id: Id): int {
    if id in requests then requests[id].priority else 0
  }

  function InsertByPriority(requests: map<Id, Request>, id: Id, q: seq<Id>): seq<Id> {
    if q == [] || Priority(requests, id) >= Priority(requests, q[0]) then [id] + q
    else [q[0]] + InsertByPriority(requests, id, q[1..])
  }

  /** `sorted(q, key=lambda i: -priority)`, Python's stable sort. */
  function ByPriority(requests: map<Id, Request>, q: seq<Id>): seq<Id> {
    if q == [] then [] else InsertByPriority(requests, q[0], ByPriority(requests, q[1..]))
  }

  /** One turn of the decode queue. */
  ghost function VisitDecode(s: Sched): (Sched, Outcome<seq<DecodeWork>>)
    requires s.pool.blockSize > 0
  {
    if s.decode == [] then (s, Raises(IndexError))
    else
      var id := s.decode[0];
      var s1 := s.(decode := s.decode[1..]);
      if id !in s.requests then (s1, Raises(KeyError))
      else if s.requests[id].state != DECODE then (s1, Returns([]))
      else if id !in s.pool.requests then (s1, Raises(KeyError))
      else
        var position := s.pool.requests[id].length;
        var (pool, slots) := AppendSlots(s.pool, id, 1);
        if slots.Raises? then (s1.(pool := pool), Raises(slots.error))
        else if s.requests[id].generated == [] then (s1.(pool := pool), Raises(RuntimeError))
        else
          var generated := s.requests[id].generated;
          (s1.(pool := pool, inflight := s.inflight[id := InDecode], decode := s1.decode + [id]),
           Returns([DecodeWork(id, generated[|generated| - 1], position, FirstSlot(slots.value))]))
  }

  function FirstSlot(slots: seq<Slot>): Slot {
    if slots == [] then (0, 0) else slots[0]
  }

  ghost function PlanDecode(s: Sched, visits: nat, done: seq<DecodeWork>): (Sched, Outcome<seq<DecodeWork>>)
    requires s.pool.blockSize > 0
    decreases visits
  {
    if visits == 0 then (s, Returns(done))
    else
      var (s1, work) := VisitDecode(s);
      if work.Raises? then (s1, work)
      else PlanDecode(s1, visits - 1, done + work.value)
  }

  datatype Visit = Skipped | Exhausted | Issued(work: PrefillWork)

  /** One turn of the prefill queue: at most one chunk. */
  ghost function VisitPrefill(s: Sched, chunkLimit: nat, budget: nat): (Sched, Outcome<Visit>)
    requires s.pool.blockSize > 0
  {
    if s.prefill == [] then (s, Raises(IndexError))
    else
      var id := s.prefill[0];
      var s1 := s.(prefill := s.prefill[1..]);
      if id !in s.requests then (s1, Raises(KeyError))
      else if s.requests[id].state != PREFILL then (s1, Returns(Skipped))
      else
        var r := s.requests[id];
        var count := Min2(Min2(r.RemainingPrompt(), chunkLimit), budget);
        if count <= 0 then (s, Returns(Exhausted))
        else
          var (pool, slots) := AppendSlots(s.pool, id, count);
          if slots.Raises? then (s1.(pool := pool), Raises(slots.error))
          else
            (s1.(pool := pool, inflight := s.inflight[id := InPrefill(count)], prefill := s1.prefill + [id]),
             Returns(Issued(PrefillWork(id, r.prompt[r.cursor..r.cursor + count], r.cursor, slots.value))))
  }

  ghost function PlanPrefill(s: Sched, visits: nat, chunkLimit: nat, budget: nat, done: seq<PrefillWork>): (Sched, Outcome<seq<PrefillWork>>)
    requires s.pool.blockSize > 0
    decreases visits
  {
    if visits == 0 then (s, Returns(done))
    else
      var (s1, visit) := VisitPrefill(s, chunkLimit, budget);
      if visit.Raises? then (s1, Raises(visit.error))
      else match visit.value
        case Exhausted => (s1, Returns(done))
        case Skipped => PlanPrefill(s1, visits - 1, chunkLimit, budget, done)
        case Issued(work) =>
          PlanPrefill(s1, visits - 1, chunkLimit, if budget > |work.tokens| then budget - |work.tokens| else 0, done + [work])
  }

  function ChunkLimit(l: Limits, decoding: bool): nat {
    if decoding then Min2(l.prefillChunk, l.decodePrefillChunk) else l.prefillChunk
  }

  function MaxLength(p: Pool, work: seq<DecodeWork>): (n: nat)
    ensures forall w :: w in work && w.id in p.requests ==> p.requests[w.id].length <= n
  {
    if work == [] then 0
    else
      var n := MaxLength(p, work[1..]);
      assert forall w :: w in work <==> w == work[0] || w in work[1..];
      if work[0].id in p.requests && p.requests[work[0].id].length > n then p.requests[work[0].id].length else n
  }

  /** The bucket is asked for the length of a real decode item, not for a bound above all of them. */
  lemma {:induction false} MaxLengthAttained(p: Pool, work: seq<DecodeWork>)
    ensures MaxLength(p, work) == 0
      || exists i :: 0 <= i < |work| && work[i].id in p.requests && p.requests[work[i].id].length == MaxLength(p, work)
  {
    if work != [] && MaxLength(p, work) == MaxLength(p, work[1..]) && MaxLength(p, work) > 0 {
      MaxLengthAttained(p, work[1..]);
      var i :| 0 <= i < |work[1..]| && work[1..][i].id in p.requests
        && p.requests[work[1..][i].id].length == MaxLength(p, work[1..]);
      assert work[i + 1] == work[1..][i];
    }
  }

  ghost function Sorted(s: Sched): Sched {
    s.(decode := ByPriority(s.requests, s.decode), prefill := ByPriority(s.requests, s.prefill))
  }

  ghost function Plan(l: Limits, b: Buckets, s: Sched, now: real): (Sched, Outcome<StepPlan>)
    requires s.pool.blockSize > 0
  {
    if s.inflight != map[] then (s, Raises(RuntimeError))
    else
      ExpireKeepsDimensions(s, now, s.order, []);
      PlanSorted(l, b, Sorted(Expire(s, now).0))
  }

  ghost function PlanSorted(l: Limits, b: Buckets, s: Sched): (Sched, Outcome<StepPlan>)
    requires s.pool.blockSize > 0
  {
    var (s1, decode) := PlanDecode(s, Min2(|s.decode|, l.maxBatch), []);
    if decode.Raises? then (s1, Raises(decode.error))
    else
      PlanDecodeKeepsDimensions(s, Min2(|s.decode|, l.maxBatch), []);
      var visits := Min2(|s1.prefill|, l.maxBatch - |decode.value|);
      var (s2, prefill) :=
        PlanPrefill(s1, if visits < 0 then 0 else visits, ChunkLimit(l, decode.value != []), l.maxPrefillTokens, []);
      if prefill.Raises? then (s2, Raises(prefill.error))
      else
        var bucket := if decode.value == [] then None
                      else Select(b, |decode.value|, MaxLength(s2.pool, decode.value));
        (s2, Returns(StepPlan(decode.value, prefill.value,
           if bucket.None? then None else Some(bucket.value.0),
           if bucket.None? then None else Some(bucket.value.1))))
  }

  lemma ExpireKeepsDimensions(s: Sched, now: real, ids: seq<Id>, expired: seq<Id>)
    ensures ExpireFrom(s, now, ids, expired).0.pool.blockSize == s.pool.blockSize
    ensures ExpireFrom(s, now, ids, expired).0.pool.numBlocks == s.pool.numBlocks
    decreases |ids|
  {
  }

  lemma PlanDecodeKeepsDimensions(s: Sched, visits: nat, done: seq<DecodeWork>)
    requires s.pool.blockSize > 0
    ensures PlanDecode(s, visits, done).0.pool.blockSize == s.pool.blockSize
    ensures PlanDecode(s, visits, done).0.pool.numBlocks == s.pool.numBlocks
    decreases visits
  {
  }

  // ----- ids -----

  function DecodeIds(work: seq<DecodeWork>): (r: seq<Id>)
    ensures |r| == |work| && forall i :: 0 <= i < |work| ==> r[i] == work[i].id
  {
    seq(|work|, i requires 0 <= i < |work| => work[i].id)
  }

  function PrefillIds(work: seq<PrefillWork>): (r: seq<Id>)
    ensures |r| == |work| && forall i :: 0 <= i < |work| ==> r[i] == work[i].id
  {
    seq(|work|, i requires 0 <= i < |work| => work[i].id)
  }

  function PlanIds(plan: StepPlan): seq<Id> {
    DecodeIds(plan.decode) + PrefillIds(plan.prefill)
  }

  // ----- completion -----

  ghost function CompletePrefill(s: Sched, id: Id, count: nat): (Sched, Outcome<bool>) {
    if id !in s.requests then (s, Raises(KeyError))
    else
      var r := s.requests[id];
      if Get(s.inflight, id) != Some(InPrefill(count)) || r.state != PREFILL || count <= 0 || count > r.RemainingPrompt()
      then (s, Raises(ValueError))
      else
        var r1 := r.(cursor := r.cursor + count);
        var s1 := s.(inflight := s.inflight - {id});
        if r1.RemainingPrompt() == 0
        then (s1.(requests := s.requests[id := r1.(state := DECODE)],
                  prefill := Remove(s.prefill, id), decode := s.decode + [id]), Returns(true))
        else (s1.(requests := s.requests[id := r1]), Returns(false))
  }

  /** Append a sampled token; the last one finishes the request. */
  ghost function Commit(s: Sched, id: Id, token: Token, stopped: bool): (s': Sched)
    requires id in s.requests
    ensures s'.requests.Keys == s.requests.Keys
  {
    var r := s.requests[id].(generated := s.requests[id].generated + [token]);
    var s1 := s.(requests := s.requests[id := r]);
    if stopped || |r.generated| >= r.maxNew then Terminate(s1, id, FINISHED) else s1
  }

  ghost function CompletePrefillSample(s: Sched, id: Id, token: Token, stopped: bool): (Sched, Outcome<()>) {
    if id !in s.requests then (s, Raises(KeyError))
    else if s.requests[id].state != DECODE || s.requests[id].generated != [] || id in s.inflight
    then (s, Raises(ValueError))
    else (Commit(s, id, token, stopped), Returns(()))
  }

  ghost function CompleteDecode(s: Sched, id: Id, token: Token, stopped: bool): (Sched, Outcome<()>) {
    if id !in s.requests then (s, Raises(KeyError))
    else if Get(s.inflight, id) != Some(InDecode) || s.requests[id].state != DECODE then (s, Raises(ValueError))
    else (Commit(s.(inflight := s.inflight - {id}), id, token, stopped), Returns(()))
  }
}
