/** What every scheduler call keeps: the queues, reservations, block counts and lengths
    agree with the requests, so admission is sufficient and `plan` never raises. */
module SchedulerInvariant {
  import opened Basics
  import opened PagedKV
  import opened GraphBuckets
  import opened Scheduler

  predicate Live(r: Request) {
    r.state == PREFILL || r.state == DECODE
  }

  ghost predicate SchedInv(s: Sched) {
    PoolInv(s.pool) && OwnersOk(s) && QueuesOk(s) && RequestsOk(s) && ReservedOk(s)
  }

  /** Exactly the live requests have an allocation and a reservation. */
  ghost predicate OwnersOk(s: Sched) {
    && (forall id :: id in s.pool.requests <==> id in s.requests && Live(s.requests[id]))
    && s.reserved.Keys == s.pool.requests.Keys
    && s.inflight.Keys <= s.pool.requests.Keys
    && (forall id :: id in s.order <==> id in s.requests)
  }

  /** Each live request sits once in the queue of its state. */
  ghost predicate QueuesOk(s: Sched) {
    && NoDup(s.prefill) && NoDup(s.decode)
    && (forall id :: id in s.prefill <==> id in s.requests && s.requests[id].state == PREFILL)
    && (forall id :: id in s.decode <==> id in s.requests && s.requests[id].state == DECODE)
  }

  ghost predicate RequestsOk(s: Sched) {
    forall id :: id in s.requests ==>
      && s.requests[id].state != WAITING
      && (id in s.pool.requests ==>
            RequestOk(s.requests[id], s.pool.requests[id].length, Get(s.inflight, id)))
  }

  /** Stored positions of a live request: its cursor or its tokens but the last, and the
      positions of the work in flight. */
  ghost predicate RequestOk(r: Request, length: nat, work: Option<Inflight>) {
    && |r.prompt| > 0 && r.maxNew > 0 && r.cursor <= |r.prompt|
    && (r.state == PREFILL ==>
          && r.generated == [] && r.cursor < |r.prompt|
          && (work.None? ==> length == r.cursor)
          && (work.Some? ==> work.value.InPrefill? && 0 < work.value.count <= |r.prompt| - r.cursor
                             && length == r.cursor + work.value.count))
    && (r.state == DECODE ==>
          && r.cursor == |r.prompt| && |r.generated| < r.maxNew
          && (work.None? ==> length == |r.prompt| + (if r.generated == [] then 0 else |r.generated| - 1))
          && (work.Some? ==> work.value.InDecode? && r.generated != [] && length == |r.prompt| + |r.generated|))
  }

  ghost predicate ReservedOk(s: Sched) {
    && s.pool.blockSize > 0
    && SumMap(s.reserved) <= s.pool.numBlocks
    && forall id :: id in s.reserved ==>
         id in s.requests && s.requests[id].maxNew >= 0 &&
         s.reserved[id] == CeilDiv(|s.requests[id].prompt| + s.requests[id].maxNew, s.pool.blockSize)
  }

  ghost function EmptySched(numBlocks: nat, blockSize: nat): Sched {
    Sched(map[], [], [], [], map[], map[], EmptyPool(numBlocks, blockSize))
  }

  lemma EmptySchedInv(numBlocks: nat, blockSize: nat)
    requires blockSize > 0
    ensures SchedInv(EmptySched(numBlocks, blockSize))
  {
    EmptyPoolInv(numBlocks, blockSize);
  }

  // ----- submit -----

  /** What a submit does to the requests. */
  lemma SubmitOutcome(s: Sched, sub: Submission, now: real)
    requires s.pool.blockSize > 0
    ensures var (s', r) := Submit(s, sub, now);
      if r == Raises(AdmissionError) then sub.id !in s.requests && s'.requests == s.requests[sub.id := ToRequest(sub, REJECTED, now)]
      else if r.Returns? then sub.id !in s.requests && s'.requests == s.requests[sub.id := ToRequest(sub, PREFILL, now)]
      else s' == s
  {
    hide SumMap;
    hide CeilDiv;
  }

  lemma SubmitKeeps(s: Sched, sub: Submission, now: real)
    requires SchedInv(s)
    ensures SchedInv(Submit(s, sub, now).0)
  {
    var (s', r) := Submit(s, sub, now);
    if r == Raises(AdmissionError) {
      RejectKeeps(s, sub, now, s');
    } else if r.Returns? {
      AdmitKeeps(s, sub, now, s');
    }
  }

  lemma RejectKeeps(s: Sched, sub: Submission, now: real, s': Sched)
    requires SchedInv(s) && sub.id !in s.requests
    requires s' == s.(requests := s.requests[sub.id := ToRequest(sub, REJECTED, now)], order := s.order + [sub.id])
    ensures SchedInv(s')
  {
    hide PoolInv;
    hide OwnersOk;
    hide QueuesOk;
    hide RequestsOk;
    hide ReservedOk;
    RejectOwners(s, sub.id, ToRequest(sub, REJECTED, now), s');
    RejectRequests(s, sub.id, ToRequest(sub, REJECTED, now), s');
  }

  lemma RejectOwners(s: Sched, id: Id, r: Request, s': Sched)
    requires OwnersOk(s) && id !in s.requests && r.state == REJECTED
    requires s' == s.(requests := s.requests[id := r], order := s.order + [id])
    ensures OwnersOk(s')
  {
  }

  lemma RejectRequests(s: Sched, id: Id, r: Request, s': Sched)
    requires QueuesOk(s) && RequestsOk(s) && ReservedOk(s) && OwnersOk(s) && id !in s.requests && r.state == REJECTED
    requires s' == s.(requests := s.requests[id := r], order := s.order + [id])
    ensures QueuesOk(s') && RequestsOk(s') && ReservedOk(s')
  {
    hide RequestOk;
    hide NoDup;
    hide CeilDiv;
    hide QueuesOk;
    hide ReservedOk;
    assert id !in s.pool.requests && id !in s.reserved;
    RejectQueues(s, id, r, s');
    RejectReserved(s, id, r, s');
  }

  lemma RejectQueues(s: Sched, id: Id, r: Request, s': Sched)
    requires QueuesOk(s) && id !in s.requests && r.state == REJECTED
    requires s' == s.(requests := s.requests[id := r], order := s.order + [id])
    ensures QueuesOk(s')
  {
    hide NoDup;
  }

  lemma RejectReserved(s: Sched, id: Id, r: Request, s': Sched)
    requires ReservedOk(s) && id !in s.requests
    requires s' == s.(requests := s.requests[id := r], order := s.order + [id])
    ensures ReservedOk(s')
  {
    hide CeilDiv;
  }

  lemma AdmitKeeps(s: Sched, sub: Submission, now: real, s': Sched)
    requires SchedInv(s) && sub.id != "" && sub.id !in s.requests && sub.prompt != [] && sub.maxNew > 0
    requires Reserve(s.pool.blockSize, sub) <= s.pool.numBlocks - SumMap(s.reserved)
    requires s' == Admitted(s, sub, now).(pool := Create(s.pool, sub.id).0)
    ensures SchedInv(s')
  {
    CreateKeeps(s.pool, sub.id);
    hide PoolInv;
    assert sub.id !in s.pool.requests;
    AdmitOwners(s, sub, now, s');
    AdmitQueues(s, sub, now, s');
    AdmitRequests(s, sub, now, s');
    AdmitReserved(s, sub, now, s');
  }

  lemma AdmitOwners(s: Sched, sub: Submission, now: real, s': Sched)
    requires s.pool.blockSize > 0 && sub.maxNew > 0 && sub.id != ""
    requires OwnersOk(s) && sub.id !in s.requests && sub.id !in s.pool.requests
    requires s' == Admitted(s, sub, now).(pool := Create(s.pool, sub.id).0)
    ensures OwnersOk(s')
  {
  }

  lemma AdmitQueues(s: Sched, sub: Submission, now: real, s': Sched)
    requires s.pool.blockSize > 0 && sub.maxNew > 0
    requires QueuesOk(s) && sub.id !in s.requests
    requires s' == Admitted(s, sub, now).(pool := Create(s.pool, sub.id).0)
    ensures QueuesOk(s')
  {
  }

  lemma AdmitRequests(s: Sched, sub: Submission, now: real, s': Sched)
    requires s.pool.blockSize > 0 && sub.maxNew > 0 && sub.id != "" && sub.prompt != []
    requires OwnersOk(s) && RequestsOk(s) && sub.id !in s.requests && sub.id !in s.pool.requests
    requires s' == Admitted(s, sub, now).(pool := Create(s.pool, sub.id).0)
    ensures RequestsOk(s')
  {
  }

  lemma AdmitReserved(s: Sched, sub: Submission, now: real, s': Sched)
    requires sub.maxNew > 0
    requires ReservedOk(s) && sub.id !in s.requests
    requires Reserve(s.pool.blockSize, sub) <= s.pool.numBlocks - SumMap(s.reserved)
    requires s' == Admitted(s, sub, now).(pool := Create(s.pool, sub.id).0)
    ensures ReservedOk(s')
  {
    assert sub.id !in s.reserved;
    SumMapPut(s.reserved, sub.id, Reserve(s.pool.blockSize, sub));
    SumMapDrop(s.reserved, sub.id);
  }

  // ----- termination -----

  /** The scheduler after `id` became the finished request `r`. */
  ghost function Retired(s: Sched, id: Id, r: Request): Sched {
    Cleanup(s.(requests := s.requests[id := r]), id)
  }

  lemma TerminateKeeps(s: Sched, id: Id, state: RequestState)
    requires SchedInv(s) && id in s.requests && state in {FINISHED, CANCELLED, TIMED_OUT, FAILED}
    ensures SchedInv(Terminate(s, id, state))
  {
    hide SchedInv;
    RetireKeeps(s, id, s.requests[id].(state := state));
  }

  lemma RetireKeeps(s: Sched, id: Id, r: Request)
    requires SchedInv(s) && id in s.requests && r.Finished()
    ensures SchedInv(Retired(s, id, r))
  {
    hide PoolInv;
    hide OwnersOk;
    hide QueuesOk;
    hide RequestsOk;
    hide ReservedOk;
    ReleaseKeeps(s.pool, id);
    RetireOwners(s, id, r);
    RetireQueues(s, id, r);
    RetireRequests(s, id, r);
    RetireReserved(s, id, r);
  }

  lemma RetireOwners(s: Sched, id: Id, r: Request)
    requires OwnersOk(s) && id in s.requests && !Live(r)
    ensures OwnersOk(Retired(s, id, r))
  {
  }

  lemma RetireQueues(s: Sched, id: Id, r: Request)
    requires QueuesOk(s) && id in s.requests && !Live(r)
    ensures QueuesOk(Retired(s, id, r))
  {
    RemoveMembers(s.prefill, id);
    RemoveMembers(s.decode, id);
  }

  lemma RetireRequests(s: Sched, id: Id, r: Request)
    requires OwnersOk(s) && RequestsOk(s) && id in s.requests && r.Finished()
    ensures RequestsOk(Retired(s, id, r))
  {
    hide RequestOk;
    var s' := Retired(s, id, r);
    forall i | i in s'.pool.requests
      ensures i in s.pool.requests && s'.pool.requests[i] == s.pool.requests[i] && Get(s'.inflight, i) == Get(s.inflight, i)
    {
    }
  }

  lemma RetireReserved(s: Sched, id: Id, r: Request)
    requires ReservedOk(s) && id in s.requests
    ensures ReservedOk(Retired(s, id, r))
  {
    hide CeilDiv;
    hide Remove;
    SumMapDrop(s.reserved, id);
  }

  lemma {:induction false} ExpireKeeps(s: Sched, now: real, ids: seq<Id>, expired: seq<Id>)
    requires SchedInv(s)
    ensures SchedInv(ExpireFrom(s, now, ids, expired).0)
    ensures ExpireFrom(s, now, ids, expired).0.inflight.Keys <= s.inflight.Keys
    decreases |ids|
  {
    if ids != [] {
      if ids[0] in s.requests && Due(s.requests[ids[0]], now) {
        TerminateKeeps(s, ids[0], TIMED_OUT);
        ExpireKeeps(Terminate(s, ids[0], TIMED_OUT), now, ids[1..], expired + [ids[0]]);
      } else {
        ExpireKeeps(s, now, ids[1..], expired);
      }
    }
  }

  // ----- admission is sufficient -----

  /** Blocks held never exceed blocks reserved. */
  lemma HeldBelowReserved(s: Sched, id: Id)
    requires PoolShape(s.pool) && OwnersOk(s) && RequestsOk(s) && ReservedOk(s) && id in s.pool.requests
    ensures id in s.reserved && |s.pool.requests[id].blocks| <= s.reserved[id]
  {
    hide CeilDiv;
    hide NoDup;
    var r, a := s.requests[id], s.pool.requests[id];
    assert AllocationOk(s.pool.numBlocks, s.pool.blockSize, s.pool.free, a);
    assert RequestOk(r, a.length, Get(s.inflight, id));
    CeilDivMonotone(a.length, |r.prompt| + r.maxNew, s.pool.blockSize);
  }

  /** Whatever the other requests hold, a request can always grow to its full length. */
  lemma AdmissionIsSufficient(s: Sched, id: Id, count: nat)
    requires SchedInv(s) && id in s.pool.requests
    requires s.pool.requests[id].length + count <= |s.requests[id].prompt| + s.requests[id].maxNew
    ensures Additional(s.pool, id, count) <= |s.pool.free|
    ensures AppendSlots(s.pool, id, count).1.Returns?
  {
    AdditionalFits(s, id, count);
    var taken := AppendShape(s.pool, id, count);
  }

  lemma AdditionalFits(s: Sched, id: Id, count: nat)
    requires PoolShape(s.pool) && PoolCount(s.pool) && OwnersOk(s) && RequestsOk(s) && ReservedOk(s)
    requires id in s.pool.requests
    requires s.pool.requests[id].length + count <= |s.requests[id].prompt| + s.requests[id].maxNew
    ensures Additional(s.pool, id, count) <= |s.pool.free|
  {
    hide RequestsOk;
    hide ReservedOk;
    hide OwnersOk;
    hide PoolShape;
    hide CeilDiv;
    ReservedTotal(s);
    forall i | i in s.pool.requests
      ensures i in s.reserved && BlockCounts(s.pool)[i] <= s.reserved[i]
    {
      HeldBelowReserved(s, i);
    }
    ReservedForAll(s, id);
    var need := CeilDiv(s.pool.requests[id].length + count, s.pool.blockSize);
    CeilDivMonotone(s.pool.requests[id].length + count, |s.requests[id].prompt| + s.requests[id].maxNew, s.pool.blockSize);
    RoomLeft(BlockCounts(s.pool), s.reserved, id, |s.pool.free|, s.pool.numBlocks, need);
  }

  lemma ReservedTotal(s: Sched)
    requires PoolShape(s.pool) && OwnersOk(s) && ReservedOk(s)
    ensures s.pool.blockSize > 0 && s.reserved.Keys == s.pool.requests.Keys && SumMap(s.reserved) <= s.pool.numBlocks
    ensures forall i :: i in s.pool.requests ==> i in s.requests
  {
  }

  lemma ReservedForAll(s: Sched, id: Id)
    requires OwnersOk(s) && ReservedOk(s) && id in s.pool.requests && s.pool.blockSize > 0
    ensures id in s.requests && id in s.reserved && |s.requests[id].prompt| + s.requests[id].maxNew >= 0
    ensures s.reserved[id] == CeilDiv(|s.requests[id].prompt| + s.requests[id].maxNew, s.pool.blockSize)
  {
  }

  lemma RoomLeft(held: map<Id, nat>, reserved: map<Id, nat>, id: Id, free: nat, total: nat, need: nat)
    requires held.Keys == reserved.Keys && id in held
    requires forall i :: i in held ==> held[i] <= reserved[i]
    requires SumMap(held) + free == total && SumMap(reserved) <= total
    requires need <= reserved[id]
    ensures need - held[id] <= free
  {
    SumMapTake(held, id);
    SumMapTake(reserved, id);
    SumMapBelow(held - {id}, reserved - {id});
  }

  // ----- issuing work -----

  /** A decode item carries the last sampled token, its position, and that position's slot. */
  ghost predicate DecodeItemOk(s: Sched, w: DecodeWork) {
    && w.id in s.requests && w.id in s.pool.requests && Get(s.inflight, w.id) == Some(InDecode)
    && s.requests[w.id].state == DECODE
    && DecodeItemFits(s.requests[w.id], s.pool.requests[w.id], s.pool.blockSize, w)
  }

  ghost predicate DecodeItemFits(r: Request, a: Allocation, blockSize: nat, w: DecodeWork) {
    && blockSize > 0
    && r.generated != [] && w.token == r.generated[|r.generated| - 1]
    && w.position == |r.prompt| + |r.generated| - 1
    && SlotIs(w.slot, a.blocks, blockSize, w.position)
  }

  /** A prefill item carries the next prompt chunk and the slots of its positions. */
  ghost predicate PrefillItemOk(s: Sched, w: PrefillWork) {
    && w.id in s.requests && w.id in s.pool.requests && Get(s.inflight, w.id) == Some(InPrefill(|w.tokens|))
    && s.requests[w.id].state == PREFILL
    && PrefillItemFits(s.requests[w.id], s.pool.requests[w.id], s.pool.blockSize, w)
  }

  ghost predicate PrefillItemFits(r: Request, a: Allocation, blockSize: nat, w: PrefillWork) {
    && w.start == r.cursor && 0 < |w.tokens| <= |r.prompt| - r.cursor
    && w.tokens == r.prompt[r.cursor..r.cursor + |w.tokens|]
    && |w.slots| == |w.tokens| && SlotsAre(w.slots, a, blockSize, w.start)
  }

  /** Every request in DECODE has a sampled token to feed. */
  ghost predicate Sampled(s: Sched) {
    forall id :: id in s.requests && s.requests[id].state == DECODE ==> s.requests[id].generated != []
  }

  /** The scheduler after `work` was handed to `id`, whose pool grew to `pool`. */
  ghost function Handed(s: Sched, id: Id, pool: Pool, work: Inflight, prefill: seq<Id>, decode: seq<Id>): Sched {
    s.(pool := pool, inflight := s.inflight[id := work], prefill := prefill, decode := decode)
  }

  function Count(work: Inflight): nat {
    if work.InPrefill? then work.count else 1
  }

  /** Handing work to one request keeps the invariant. */
  lemma IssueKeeps(s: Sched, id: Id, pool: Pool, work: Inflight, prefill: seq<Id>, decode: seq<Id>)
    requires SchedInv(s) && PoolInv(pool) && id in s.pool.requests
    requires Extended(s.pool, pool, id, Count(work))
    requires RequestOk(s.requests[id], pool.requests[id].length, Some(work))
    requires QueuesOk(Handed(s, id, pool, work, prefill, decode))
    ensures SchedInv(Handed(s, id, pool, work, prefill, decode))
    ensures OnlyIssued(s, Handed(s, id, pool, work, prefill, decode), id)
  {
    hide PoolInv;
    hide RequestOk;
    hide RequestsOk;
    hide OwnersOk;
    hide QueuesOk;
    hide ReservedOk;
    hide Extended;
    hide OnlyIssued;
    var s' := Handed(s, id, pool, work, prefill, decode);
    OwnedKnown(s, id);
    IssueRequests(s, id, pool, work, s');
    IssueOwners(s, id, pool, work, s');
    IssueReserved(s, id, pool, Count(work), s');
    IssueOnly(s, id, pool, work, s');
  }

  lemma OwnedKnown(s: Sched, id: Id)
    requires OwnersOk(s) && id in s.pool.requests
    ensures id in s.requests
  {
  }

  lemma IssueReserved(s: Sched, id: Id, pool: Pool, count: nat, s': Sched)
    requires ReservedOk(s) && id in s.pool.requests && Extended(s.pool, pool, id, count)
    requires s'.requests == s.requests && s'.reserved == s.reserved && s'.pool == pool
    ensures ReservedOk(s')
  {
  }

  lemma IssueOnly(s: Sched, id: Id, pool: Pool, work: Inflight, s': Sched)
    requires id in s.pool.requests && Extended(s.pool, pool, id, Count(work))
    requires s' == s.(pool := pool, inflight := s.inflight[id := work], prefill := s'.prefill, decode := s'.decode)
    ensures OnlyIssued(s, s', id)
  {
  }

  lemma IssueOwners(s: Sched, id: Id, pool: Pool, work: Inflight, s': Sched)
    requires OwnersOk(s) && id in s.pool.requests
    requires Extended(s.pool, pool, id, Count(work))
    requires s'.requests == s.requests && s'.order == s.order && s'.reserved == s.reserved
    requires s'.pool == pool && s'.inflight == s.inflight[id := work]
    ensures OwnersOk(s')
  {
  }

  lemma IssueRequests(s: Sched, id: Id, pool: Pool, work: Inflight, s': Sched)
    requires RequestsOk(s) && id in s.pool.requests && id in s.requests
    requires Extended(s.pool, pool, id, Count(work))
    requires RequestOk(s.requests[id], pool.requests[id].length, Some(work))
    requires s'.requests == s.requests && s'.pool == pool && s'.inflight == s.inflight[id := work]
    ensures RequestsOk(s')
  {
    forall i | i in s'.pool.requests && i in s'.requests && i != id
      ensures RequestOk(s'.requests[i], s'.pool.requests[i].length, Get(s'.inflight, i))
    {
      assert RequestOk(s.requests[i], s.pool.requests[i].length, Get(s.inflight, i));
    }
  }

  function Rotated(q: seq<Id>): seq<Id>
    requires q != []
  {
    q[1..] + [q[0]]
  }

  lemma RotateDecodeOk(s: Sched, s': Sched)
    requires QueuesOk(s) && s.decode != []
    requires s'.requests == s.requests && s'.prefill == s.prefill && s'.decode == Rotated(s.decode)
    ensures QueuesOk(s')
  {
    RotateMembers(s.decode);
  }

  lemma RotatePrefillOk(s: Sched, s': Sched)
    requires QueuesOk(s) && s.prefill != []
    requires s'.requests == s.requests && s'.decode == s.decode && s'.prefill == Rotated(s.prefill)
    ensures QueuesOk(s')
  {
    RotateMembers(s.prefill);
  }

  /** What one issued item leaves alone. */
  ghost predicate OnlyIssued(s: Sched, s': Sched, id: Id) {
    && s'.requests == s.requests && s'.order == s.order && s'.reserved == s.reserved
    && s'.inflight.Keys == s.inflight.Keys + {id}
    && s'.pool.blockSize == s.pool.blockSize && s'.pool.numBlocks == s.pool.numBlocks
    && s'.pool.requests.Keys == s.pool.requests.Keys
    && BlocksGrow(s.pool, s'.pool)
    && forall i :: i in s.pool.requests && i != id ==>
         s'.pool.requests[i] == s.pool.requests[i] && Get(s'.inflight, i) == Get(s.inflight, i)
  }

  /** The requests that stay keep their blocks in place. */
  ghost predicate BlocksGrow(p: Pool, q: Pool) {
    forall i :: i in q.requests ==> i in p.requests && p.requests[i].blocks <= q.requests[i].blocks
  }

  lemma DecodeHead(s: Sched)
    requires OwnersOk(s) && QueuesOk(s) && RequestsOk(s) && Sampled(s) && s.decode != [] && s.decode[0] !in s.inflight
    ensures s.decode[0] in s.requests && s.decode[0] in s.pool.requests
    ensures DecodeReady(s.requests[s.decode[0]], s.pool.requests[s.decode[0]].length)
  {
    assert s.decode[0] in s.decode;
    assert RequestOk(s.requests[s.decode[0]], s.pool.requests[s.decode[0]].length, Get(s.inflight, s.decode[0]));
  }

  ghost predicate DecodeReady(r: Request, length: nat) {
    && r.state == DECODE && r.generated != [] && |r.generated| < r.maxNew && |r.prompt| > 0
    && length == |r.prompt| + |r.generated| - 1
    && RequestOk(r, length + 1, Some(InDecode))
  }

  /** A turn of the decode queue issues exactly one item. */
  lemma VisitDecodeIssues(s: Sched) returns (s': Sched, w: DecodeWork)
    requires SchedInv(s) && Sampled(s) && s.decode != [] && s.decode[0] !in s.inflight
    ensures VisitDecode(s) == (s', Returns([w]))
    ensures SchedInv(s') && OnlyIssued(s, s', s.decode[0])
    ensures w.id == s.decode[0] && DecodeItemOk(s', w)
    ensures s'.decode == Rotated(s.decode) && s'.prefill == s.prefill
  {
    hide PoolInv;
    var id := s.decode[0];
    DecodeHead(s);
    AdmissionIsSufficient(s, id, 1);
    var pool, slots := AppendOutcome(s.pool, id, 1);
    s' := Handed(s, id, pool, InDecode, s.prefill, Rotated(s.decode));
    RotateDecodeOk(s, s');
    IssueKeeps(s, id, pool, InDecode, s.prefill, Rotated(s.decode));
    w := VisitDecodeValue(s, pool, slots);
  }

  lemma VisitDecodeValue(s: Sched, pool: Pool, slots: seq<Slot>) returns (w: DecodeWork)
    requires s.pool.blockSize > 0 && s.decode != []
    requires s.decode[0] in s.requests && s.decode[0] in s.pool.requests
    requires DecodeReady(s.requests[s.decode[0]], s.pool.requests[s.decode[0]].length)
    requires AppendSlots(s.pool, s.decode[0], 1) == (pool, Returns(slots)) && |slots| == 1
    requires s.decode[0] in pool.requests && pool.blockSize == s.pool.blockSize
    requires SlotsAre(slots, pool.requests[s.decode[0]], pool.blockSize, s.pool.requests[s.decode[0]].length)
    ensures VisitDecode(s) == (Handed(s, s.decode[0], pool, InDecode, s.prefill, Rotated(s.decode)), Returns([w]))
    ensures w.id == s.decode[0]
    ensures DecodeItemOk(Handed(s, s.decode[0], pool, InDecode, s.prefill, Rotated(s.decode)), w)
  {
    hide AppendSlots;
    hide RequestOk;
    var id := s.decode[0];
    var generated := s.requests[id].generated;
    w := DecodeWork(id, generated[|generated| - 1], s.pool.requests[id].length, slots[0]);
    assert SlotIs(slots[0], pool.requests[id].blocks, pool.blockSize, s.pool.requests[id].length + 0);
  }

  lemma PrefillHead(s: Sched)
    requires OwnersOk(s) && QueuesOk(s) && RequestsOk(s) && s.prefill != [] && s.prefill[0] !in s.inflight
    ensures s.prefill[0] in s.requests && s.prefill[0] in s.pool.requests
    ensures PrefillReady(s.requests[s.prefill[0]], s.pool.requests[s.prefill[0]].length)
  {
    assert s.prefill[0] in s.prefill;
    assert RequestOk(s.requests[s.prefill[0]], s.pool.requests[s.prefill[0]].length, Get(s.inflight, s.prefill[0]));
  }

  ghost predicate PrefillReady(r: Request, length: nat) {
    && r.state == PREFILL && r.cursor < |r.prompt| && r.maxNew > 0 && length == r.cursor
    && (forall n :: 0 < n <= |r.prompt| - r.cursor ==> RequestOk(r, length + n, Some(InPrefill(n))))
  }

  /** A turn of the prefill queue with budget left issues exactly one chunk. */
  lemma VisitPrefillIssues(s: Sched, chunkLimit: nat, budget: nat) returns (s': Sched, w: PrefillWork)
    requires SchedInv(s) && s.prefill != [] && s.prefill[0] !in s.inflight && chunkLimit > 0 && budget > 0
    ensures VisitPrefill(s, chunkLimit, budget) == (s', Returns(Issued(w)))
    ensures SchedInv(s') && OnlyIssued(s, s', s.prefill[0])
    ensures w.id == s.prefill[0] && PrefillItemOk(s', w)
    ensures s.prefill[0] in s.requests
    ensures |w.tokens| == Min2(Min2(s.requests[s.prefill[0]].RemainingPrompt(), chunkLimit), budget)
    ensures s'.prefill == Rotated(s.prefill) && s'.decode == s.decode
  {
    hide PoolInv;
    var id := s.prefill[0];
    PrefillHead(s);
    var r := s.requests[id];
    var count := Min2(Min2(r.RemainingPrompt(), chunkLimit), budget);
    assert RequestOk(r, s.pool.requests[id].length + count, Some(InPrefill(count)));
    AdmissionIsSufficient(s, id, count);
    var pool, slots := AppendOutcome(s.pool, id, count);
    s' := Handed(s, id, pool, InPrefill(count), Rotated(s.prefill), s.decode);
    RotatePrefillOk(s, s');
    IssueKeeps(s, id, pool, InPrefill(count), Rotated(s.prefill), s.decode);
    w := VisitPrefillValue(s, chunkLimit, budget, count, pool, slots);
  }

  lemma VisitPrefillValue(s: Sched, chunkLimit: nat, budget: nat, count: nat, pool: Pool, slots: seq<Slot>)
    returns (w: PrefillWork)
    requires s.pool.blockSize > 0 && s.prefill != [] && count > 0
    requires s.prefill[0] in s.requests && s.prefill[0] in s.pool.requests
    requires PrefillReady(s.requests[s.prefill[0]], s.pool.requests[s.prefill[0]].length)
    requires count == Min2(Min2(s.requests[s.prefill[0]].RemainingPrompt(), chunkLimit), budget)
    requires AppendSlots(s.pool, s.prefill[0], count) == (pool, Returns(slots)) && |slots| == count
    requires s.prefill[0] in pool.requests && pool.blockSize == s.pool.blockSize
    requires SlotsAre(slots, pool.requests[s.prefill[0]], pool.blockSize, s.pool.requests[s.prefill[0]].length)
    ensures VisitPrefill(s, chunkLimit, budget) ==
      (Handed(s, s.prefill[0], pool, InPrefill(count), Rotated(s.prefill), s.decode), Returns(Issued(w)))
    ensures w.id == s.prefill[0] && |w.tokens| == count
    ensures PrefillItemOk(Handed(s, s.prefill[0], pool, InPrefill(count), Rotated(s.prefill), s.decode), w)
  {
    hide AppendSlots;
    hide RequestOk;
    var id := s.prefill[0];
    var r := s.requests[id];
    w := PrefillWork(id, r.prompt[r.cursor..r.cursor + count], r.cursor, slots);
  }

  // ----- completion -----

  lemma CompletePrefillKeeps(s: Sched, id: Id, count: nat)
    requires SchedInv(s)
    ensures SchedInv(CompletePrefill(s, id, count).0)
  {
    hide PoolInv;
    hide QueuesOk;
    hide RequestsOk;
    hide ReservedOk;
    hide OwnersOk;
    hide CompletePrefill;
    var (s', r) := CompletePrefill(s, id, count);
    CompletedShape(s, id, count);
    if r.Returns? {
      PrefillCommitted(s, id, count, s');
      PrefillQueues(s, id, count, s');
      CompletedOwners(s, id, count, s');
      ReservedSame(s, s');
    }
  }

  lemma CompletedShape(s: Sched, id: Id, count: nat)
    ensures var (s', r) := CompletePrefill(s, id, count);
      && s'.pool == s.pool && s'.reserved == s.reserved && s'.requests.Keys == s.requests.Keys
      && (r.Raises? ==> s' == s)
      && (r.Returns? ==> id in s.requests && (r.value <==> s.requests[id].cursor + count == |s.requests[id].prompt|))
      && (forall i :: i in s.requests ==> s'.requests[i].prompt == s.requests[i].prompt && s'.requests[i].maxNew == s.requests[i].maxNew)
  {
  }

  lemma CompletedOwners(s: Sched, id: Id, count: nat, s': Sched)
    requires OwnersOk(s) && CompletePrefill(s, id, count).1.Returns? && s' == CompletePrefill(s, id, count).0
    ensures OwnersOk(s')
  {
  }

  lemma PrefillQueues(s: Sched, id: Id, count: nat, s': Sched)
    requires QueuesOk(s) && CompletePrefill(s, id, count).1.Returns?
    requires s' == CompletePrefill(s, id, count).0
    ensures QueuesOk(s')
  {
    assert id in s.prefill && id !in s.decode;
    RemoveMembers(s.prefill, id);
  }

  lemma InflightKnown(s: Sched, id: Id)
    requires OwnersOk(s)
    ensures id in s.inflight ==> id in s.pool.requests && id in s.requests
  {
  }

  lemma PrefillCommitted(s: Sched, id: Id, count: nat, s': Sched)
    requires OwnersOk(s) && RequestsOk(s) && CompletePrefill(s, id, count).1.Returns?
    requires s' == CompletePrefill(s, id, count).0
    ensures RequestsOk(s')
  {
    hide OwnersOk;
    InflightKnown(s, id);
    assert RequestOk(s.requests[id], s.pool.requests[id].length, Some(InPrefill(count)));
    assert RequestOk(s'.requests[id], s'.pool.requests[id].length, Get(s'.inflight, id));
    forall i | i in s'.pool.requests && i in s'.requests && i != id
      ensures RequestOk(s'.requests[i], s'.pool.requests[i].length, Get(s'.inflight, i))
    {
      assert RequestOk(s.requests[i], s.pool.requests[i].length, Get(s.inflight, i));
    }
  }

  lemma ReservedSame(s: Sched, s': Sched)
    requires ReservedOk(s) && s'.reserved == s.reserved && s'.pool == s.pool
    requires s'.requests.Keys == s.requests.Keys
    requires forall i :: i in s.requests ==> s'.requests[i].prompt == s.requests[i].prompt && s'.requests[i].maxNew == s.requests[i].maxNew
    ensures ReservedOk(s')
  {
  }

  /** A request took its next token: the last one retires it, an earlier one leaves it decoding. */
  lemma CommitKeeps(s: Sched, id: Id, token: Token, stopped: bool)
    requires SchedInv(s) && id in s.requests && id in s.pool.requests && s.requests[id].state == DECODE
    requires id in s.inflight <==> s.requests[id].generated != []
    ensures SchedInv(Commit(s.(inflight := s.inflight - {id}), id, token, stopped))
  {
    hide SchedInv;
    var r := s.requests[id].(generated := s.requests[id].generated + [token]);
    var s0 := s.(inflight := s.inflight - {id});
    if stopped || |r.generated| >= r.maxNew {
      RetireKeeps(s, id, r.(state := FINISHED));
      assert s0.(requests := s0.requests[id := r]).requests[id := r.(state := FINISHED)] == s.requests[id := r.(state := FINISHED)];
      assert Commit(s0, id, token, stopped) == Retired(s, id, r.(state := FINISHED));
    } else {
      TokenKeeps(s, id, r, s0.(requests := s.requests[id := r]));
    }
  }

  lemma TokenKeeps(s: Sched, id: Id, r: Request, s': Sched)
    requires SchedInv(s) && id in s.requests && id in s.pool.requests && s.requests[id].state == DECODE
    requires id in s.inflight <==> s.requests[id].generated != []
    requires |r.generated| == |s.requests[id].generated| + 1 && |r.generated| < r.maxNew
    requires r == s.requests[id].(generated := r.generated)
    requires s' == s.(inflight := s.inflight - {id}, requests := s.requests[id := r])
    ensures SchedInv(s')
  {
    hide PoolInv;
    hide OwnersOk;
    hide QueuesOk;
    hide ReservedOk;
    hide RequestsOk;
    TokenOwners(s, id, r, s');
    TokenQueues(s, id, r, s');
    TokenRequests(s, id, r, s');
    ReservedSame(s, s');
  }

  lemma TokenOwners(s: Sched, id: Id, r: Request, s': Sched)
    requires OwnersOk(s) && id in s.requests && r.state == s.requests[id].state
    requires s' == s.(inflight := s.inflight - {id}, requests := s.requests[id := r])
    ensures OwnersOk(s')
  {
  }

  lemma TokenQueues(s: Sched, id: Id, r: Request, s': Sched)
    requires QueuesOk(s) && id in s.requests && r.state == s.requests[id].state
    requires s' == s.(inflight := s.inflight - {id}, requests := s.requests[id := r])
    ensures QueuesOk(s')
  {
    hide NoDup;
  }

  lemma TokenRequests(s: Sched, id: Id, r: Request, s': Sched)
    requires RequestsOk(s) && id in s.pool.requests && id in s.requests && s.requests[id].state == DECODE
    requires id in s.inflight <==> s.requests[id].generated != []
    requires |r.generated| == |s.requests[id].generated| + 1 && |r.generated| < r.maxNew
    requires r == s.requests[id].(generated := r.generated)
    requires s' == s.(inflight := s.inflight - {id}, requests := s.requests[id := r])
    ensures RequestsOk(s')
  {
    assert RequestOk(s.requests[id], s.pool.requests[id].length, Get(s.inflight, id));
    assert RequestOk(r, s.pool.requests[id].length, None);
    forall i | i in s'.pool.requests && i in s'.requests && i != id
      ensures RequestOk(s'.requests[i], s'.pool.requests[i].length, Get(s'.inflight, i))
    {
      assert RequestOk(s.requests[i], s.pool.requests[i].length, Get(s.inflight, i));
    }
  }
}
