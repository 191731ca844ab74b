/** What single calls of the scheduler and the allocator accept, what they refuse and with which
    error, in terms of requests, queues, work in flight and blocks alone. */
module Calls {
  import opened Basics
  import opened PagedKV
  import opened PagedStorage
  import opened GraphBuckets
  import opened Scheduler
  import opened SchedulerInvariant
  import opened PlanInvariant
  import opened Admission
  import opened Executor

  // ----- ending a request -----

  /** `q'` is `q` without the place of `id`. */
  ghost predicate Without(q: seq<Id>, q': seq<Id>, id: Id) {
    if id in q then exists i :: LeftOut(q, q', id, i) else q' == q
  }

  predicate LeftOut(q: seq<Id>, q': seq<Id>, id: Id, i: int) {
    0 <= i < |q| && q[i] == id && q' == q[..i] + q[i + 1..]
  }

  lemma {:induction false} RemoveIsWithout(q: seq<Id>, id: Id)
    ensures Without(q, Remove(q, id), id)
  {
    if q != [] && q[0] == id {
      assert LeftOut(q, Remove(q, id), id, 0);
    } else if id in q {
      RemoveIsWithout(q[1..], id);
      assert q == [q[0]] + q[1..];
      var i :| LeftOut(q[1..], Remove(q[1..], id), id, i);
      LeftOutLater(q, id, i);
    } else if q != [] {
      RemoveIsWithout(q[1..], id);
    }
  }

  lemma LeftOutLater(q: seq<Id>, id: Id, i: int)
    requires q != [] && q[0] != id && LeftOut(q[1..], Remove(q[1..], id), id, i)
    ensures LeftOut(q, Remove(q, id), id, i + 1)
  {
    assert [q[0]] + q[1..][..i] == q[..i + 1];
    assert q[1..][i + 1..] == q[i + 2..];
  }

  /** `id` has ended as `r`: no queue, reservation or work in flight knows it any more, its blocks
      are free again, and nothing else changed. */
  ghost predicate Ended(s: Sched, s': Sched, id: Id, r: Request) {
    && s'.requests == s.requests[id := r] && s'.order == s.order
    && s'.inflight == s.inflight - {id} && s'.reserved == s.reserved - {id}
    && Without(s.prefill, s'.prefill, id) && Without(s.decode, s'.decode, id)
    && Freed(s.pool, s'.pool, id)
  }

  ghost predicate Freed(p: Pool, p': Pool, id: Id) {
    && p'.numBlocks == p.numBlocks && p'.blockSize == p.blockSize && p'.requests == p.requests - {id}
    && forall b :: b in p'.free <==> b in p.free || (id in p.requests && b in p.requests[id].blocks)
  }

  lemma ReleaseFrees(p: Pool, id: Id)
    ensures Release(p, id).1 <==> id in p.requests
    ensures Freed(p, Release(p, id).0, id)
  {
  }

  lemma TerminateEnds(s: Sched, id: Id, state: RequestState)
    requires id in s.requests
    ensures Ended(s, Terminate(s, id, state), id, s.requests[id].(state := state))
  {
    hide Remove;
    hide Release;
    hide Without;
    hide Freed;
    RemoveIsWithout(s.prefill, id);
    RemoveIsWithout(s.decode, id);
    ReleaseFrees(s.pool, id);
  }

  /** A cancel returns true exactly for the requests that wait in a queue, and ends them. */
  lemma CancelWhen(s: Sched, id: Id)
    requires SchedInv(s)
    ensures var (s', r) := Cancel(s, id);
      && (r == Returns(true) <==> id in s.prefill || id in s.decode)
      && (r == Returns(false) <==> id in s.requests && id !in s.prefill && id !in s.decode)
      && (r.Raises? ==> r.error == KeyError)
      && (r == Returns(true) ==> id in s.requests && Ended(s, s', id, s.requests[id].(state := CANCELLED)))
      && (r != Returns(true) ==> s' == s)
  {
    hide PoolInv;
    hide ReservedOk;
    hide Terminate;
    hide Ended;
    hide RequestOk;
    hide NoDup;
    if id in s.requests { TerminateEnds(s, id, CANCELLED); }
  }

  /** A failure ends any known request, also one that had ended. */
  lemma FailWhen(s: Sched, id: Id)
    ensures var (s', r) := Fail(s, id);
      if id in s.requests then r.Returns? && Ended(s, s', id, s.requests[id].(state := FAILED))
      else r == Raises(KeyError) && s' == s
  {
    hide Terminate;
    hide Ended;
    if id in s.requests { TerminateEnds(s, id, FAILED); }
  }

  // ----- plan and completion -----

  /** A plan is refused exactly while work is in flight, and then nothing changes. */
  lemma PlanWhen(l: Limits, b: Buckets, s: Sched, now: real)
    requires SchedInv(s) && l.Valid() && Sampled(s)
    ensures s.pool.blockSize > 0
    ensures var (s', r) := Plan(l, b, s, now);
      && (r.Raises? <==> exists id :: id in s.inflight)
      && (r.Raises? ==> r.error == RuntimeError && s' == s)
  {
    hide SchedInv;
    hide PlanOk;
    hide PlanTurns;
    hide PlanFull;
    hide Bucketed;
    hide PlanSorted;
    hide Sampled;
    PositiveBlocks(s);
    if s.inflight == map[] {
      var s', plan := PlanNeverRaises(l, b, s, now);
    } else {
      var id :| id in s.inflight;
    }
  }

  lemma PositiveBlocks(s: Sched)
    requires SchedInv(s)
    ensures s.pool.blockSize > 0
  {
  }

  /** A prefill completion is accepted if and only if exactly that chunk is in flight; it returns
      true, and the request moves to the end of the decode queue, when its prompt is used up. */
  lemma CompletePrefillWhen(s: Sched, id: Id, count: nat)
    requires SchedInv(s)
    ensures var (s', r) := CompletePrefill(s, id, count);
      && (r.Returns? <==> id in s.inflight && s.inflight[id] == InPrefill(count))
      && (r.Raises? ==> s' == s && r.error == if id in s.requests then ValueError else KeyError)
      && (r.Returns? ==>
            && id in s.requests && s'.order == s.order && s'.pool == s.pool && s'.reserved == s.reserved
            && s'.inflight == s.inflight - {id}
            && var q := s.requests[id];
              if |q.prompt| == q.cursor + count
              then r.value && s'.requests == s.requests[id := q.(cursor := |q.prompt|, state := DECODE)]
                   && Without(s.prefill, s'.prefill, id) && s'.decode == s.decode + [id]
              else !r.value && s'.requests == s.requests[id := q.(cursor := q.cursor + count)]
                   && s'.prefill == s.prefill && s'.decode == s.decode)
  {
    hide PoolInv;
    hide QueuesOk;
    hide ReservedOk;
    hide Remove;
    hide Without;
    RemoveIsWithout(s.prefill, id);
    if id in s.inflight {
      assert id in s.pool.requests && id in s.requests;
      assert RequestOk(s.requests[id], s.pool.requests[id].length, Get(s.inflight, id));
    }
  }

  /** A request that got `token`: it ends if the sample was a stop or its limit is reached, and
      otherwise it stays as it was but for the token. */
  ghost predicate TokenAdded(s: Sched, s': Sched, id: Id, token: Token, stopped: bool)
    requires id in s.requests
  {
    var r := s.requests[id].(generated := s.requests[id].generated + [token]);
    if stopped || |r.generated| == r.maxNew then Ended(s, s', id, r.(state := FINISHED))
    else s' == s.(requests := s.requests[id := r], inflight := s.inflight - {id})
  }

  lemma CommitAdds(s: Sched, id: Id, token: Token, stopped: bool)
    requires id in s.requests && |s.requests[id].generated| < s.requests[id].maxNew
    ensures TokenAdded(s, Commit(s.(inflight := s.inflight - {id}), id, token, stopped), id, token, stopped)
  {
    hide Terminate;
    hide Ended;
    var r := s.requests[id].(generated := s.requests[id].generated + [token]);
    var s1 := s.(inflight := s.inflight - {id}, requests := s.requests[id := r]);
    TerminateEnds(s1, id, FINISHED);
    EndedSince(s, s1, Terminate(s1, id, FINISHED), id, r);
  }

  lemma EndedSince(s: Sched, s1: Sched, s': Sched, id: Id, r: Request)
    requires s1 == s.(inflight := s.inflight - {id}, requests := s.requests[id := r])
    requires Ended(s1, s', id, r.(state := FINISHED))
    ensures Ended(s, s', id, r.(state := FINISHED))
  {
    hide Without;
    hide Freed;
    assert s1.requests[id := r.(state := FINISHED)] == s.requests[id := r.(state := FINISHED)];
    assert s.inflight - {id} - {id} == s.inflight - {id};
  }

  /** A decode completion is accepted if and only if a decode of that request is in flight. */
  lemma CompleteDecodeWhen(s: Sched, id: Id, token: Token, stopped: bool)
    requires SchedInv(s)
    ensures var (s', r) := CompleteDecode(s, id, token, stopped);
      && (r.Returns? <==> id in s.inflight && s.inflight[id] == InDecode)
      && (r.Raises? ==> s' == s && r.error == if id in s.requests then ValueError else KeyError)
      && (r.Returns? ==> id in s.requests && TokenAdded(s, s', id, token, stopped))
  {
    hide PoolInv;
    hide QueuesOk;
    hide ReservedOk;
    hide Commit;
    hide TokenAdded;
    if id in s.inflight {
      assert id in s.pool.requests && id in s.requests;
      assert RequestOk(s.requests[id], s.pool.requests[id].length, Get(s.inflight, id));
      CommitAdds(s, id, token, stopped);
    }
  }

  /** A first token is accepted if and only if the whole prompt is stored, no token was sampled and
      nothing is in flight. */
  lemma CompleteSampleWhen(s: Sched, id: Id, token: Token, stopped: bool)
    requires SchedInv(s)
    ensures var (s', r) := CompletePrefillSample(s, id, token, stopped);
      && (r.Returns? <==>
            && id in s.requests && id in s.pool.requests && id !in s.inflight
            && s.requests[id].generated == [] && s.pool.requests[id].length == |s.requests[id].prompt|)
      && (r.Raises? ==> s' == s && r.error == if id in s.requests then ValueError else KeyError)
      && (r.Returns? ==> TokenAdded(s, s', id, token, stopped))
  {
    hide PoolInv;
    hide QueuesOk;
    hide ReservedOk;
    hide Commit;
    hide TokenAdded;
    if id in s.requests && id in s.pool.requests && id !in s.inflight {
      assert RequestOk(s.requests[id], s.pool.requests[id].length, Get(s.inflight, id));
      assert s.(inflight := s.inflight - {id}) == s;
      if s.requests[id].state == DECODE { CommitAdds(s, id, token, stopped); }
    }
  }

  // ----- the allocator -----

  /** `blocks` are the least blocks that hold what each request has stored. */
  ghost predicate StoredNeeds(p: Pool, blocks: map<Id, nat>) {
    && blocks.Keys == p.requests.Keys
    && forall id :: id in blocks ==> LeastBlocks(blocks[id], p.requests[id].length, p.blockSize)
  }

  lemma NeedsAreOwned(p: Pool, blocks: map<Id, nat>)
    requires PoolInv(p) && StoredNeeds(p, blocks)
    ensures blocks == BlockCounts(p)
  {
    hide PoolDisjoint;
    hide PoolCovers;
    hide PoolCount;
    hide LeastBlocks;
    hide NoDup;
    hide CeilDiv;
    forall id | id in blocks
      ensures id in p.requests && blocks[id] == |p.requests[id].blocks|
    {
      assert AllocationOk(p.numBlocks, p.blockSize, p.free, p.requests[id]);
      LeastIsCeil(blocks[id], p.requests[id].length, p.blockSize);
    }
  }

  /** A reservation succeeds if and only if its count is not negative, the request exists, and the
      least blocks that it then needs, with those of all other requests, are no more than the pool
      has. Every refusal leaves the pool as it was. */
  lemma AppendWhen(p: Pool, id: Id, count: int, need: nat, blocks: map<Id, nat>)
    requires PoolInv(p) && StoredNeeds(p, blocks)
    requires id in p.requests && count >= 0 ==> LeastBlocks(need, p.requests[id].length + count, p.blockSize)
    ensures p.blockSize > 0
    ensures var (p', r) := AppendSlots(p, id, count);
      && (r.Returns? <==> count >= 0 && id in p.requests && need + SumMap(blocks - {id}) <= p.numBlocks)
      && (r.Raises? ==> p' == p && r.error == if count < 0 then ValueError else if id !in p.requests then KeyError else MemoryError)
  {
    hide PoolShape;
    hide PoolDisjoint;
    hide PoolCovers;
    hide LeastBlocks;
    hide CeilDiv;
    hide Lowest;
    hide SlotRange;
    hide StoredNeeds;
    ShapeOfPool(p);
    NeedsAreOwned(p, blocks);
    if count >= 0 && id in p.requests {
      LeastIsCeil(need, p.requests[id].length + count, p.blockSize);
      SumMapDrop(blocks, id);
    }
  }

  lemma WidthOfPool(p: Pool, ids: seq<Id>, used: nat, width: int)
    requires (forall id :: id in ids ==> id in p.requests) && used == UsedWidth(p, ids)
    ensures width >= used <==> width >= 0 && forall id :: id in ids ==> |p.requests[id].blocks| <= width
  {
  }

  lemma {:induction false} WriteFromWhen(blockSize: nat, a: Allocation, cells: Cells, positions: seq<int>, rows: seq<KV>)
    requires blockSize > 0 && |positions| == |rows| && |a.blocks| == CeilDiv(a.length, blockSize)
    ensures var r := WriteFrom(blockSize, a, cells, positions, rows).1;
      && (r.Returns? <==> forall x :: x in positions ==> 0 <= x < a.length)
      && (r.Raises? ==> r.error == IndexError)
    decreases |positions|
  {
    if positions != [] && 0 <= positions[0] < a.length {
      PositionInBlocks(positions[0], a.length, blockSize);
      WriteFromWhen(blockSize, a, cells[SlotAt(a.blocks, blockSize, positions[0]) := rows[0]], positions[1..], rows[1..]);
      assert forall x :: x in positions <==> x == positions[0] || x in positions[1..];
    } else if positions != [] {
      assert positions[0] in positions;
    }
  }

  /** A write returns if and only if the request exists, there is one row per position, and all
      positions are reserved. */
  lemma WriteWhen(p: Pool, cells: Cells, id: Id, positions: seq<int>, rows: seq<KV>)
    requires PoolInv(p)
    ensures var r := Write(p, cells, id, positions, rows).1;
      && (r.Returns? <==>
            && id in p.requests && |positions| == |rows|
            && forall x :: x in positions ==> 0 <= x < p.requests[id].length)
      && (r.Raises? ==>
            r.error == if id !in p.requests then KeyError else if |positions| != |rows| then ValueError else IndexError)
  {
    hide PoolDisjoint;
    hide PoolCovers;
    hide PoolCount;
    if id in p.requests && |positions| == |rows| {
      assert AllocationOk(p.numBlocks, p.blockSize, p.free, p.requests[id]);
      WriteFromWhen(p.blockSize, p.requests[id], cells, positions, rows);
    }
  }

  /** `n` is the greatest number of blocks of the requests `ids`. */
  ghost predicate LongestRow(p: Pool, ids: seq<Id>, n: nat) {
    && (forall id :: id in ids && id in p.requests ==> |p.requests[id].blocks| <= n)
    && exists id :: id in ids && id in p.requests && |p.requests[id].blocks| == n
  }

  /** Metadata is refused exactly for an unknown request, or a width that is negative, smaller than
      one of the rows or greater than the pool; without a width the longest row decides. */
  lemma MetadataWhen(p: Pool, ids: seq<Id>, width: Option<int>)
    ensures var r := MetadataFor(p, ids, width);
      && (r == Raises(KeyError) <==> exists id :: id in ids && id !in p.requests)
      && (r == Raises(ValueError) <==>
            && (forall id :: id in ids ==> id in p.requests) && width.Some?
            && (width.value < 0 || width.value > p.numBlocks || exists id :: id in ids && |p.requests[id].blocks| > width.value))
      && (r.Raises? ==> r.error == KeyError || r.error == ValueError)
      && (r.Returns? ==> r.value.ids == ids && |r.value.tables| == |ids|)
      && (r.Returns? && width.Some? ==> forall i :: 0 <= i < |ids| ==> |r.value.tables[i]| == width.value)
      && (r.Returns? && width.None? ==>
            forall i :: 0 <= i < |ids| ==> LongestRow(p, ids, |r.value.tables[i]|))
  {
    if forall id :: id in ids ==> id in p.requests {
      var used := UsedWidth(p, ids);
      if width.Some? { WidthOfPool(p, ids, used, width.value); }
      if width.None? && ids != [] { assert ids[0] in ids; }
    }
  }

  // ----- the decode call -----

  /** Row `i` of a decode call has a host length, and it counts the new position and no more. */
  predicate LengthFits(work: seq<DecodeWork>, lengths: seq<nat>, i: nat) {
    i < |work| && i < |lengths| && lengths[i] == work[i].position + 1
  }

  /** A decode call drops the prefill caches of its rows up to the first that lacks a fitting host
      length, that one included, and raises there; without host lengths it drops all. */
  lemma {:induction false} DropsUntil(caches: Caches, work: seq<DecodeWork>, lengths: seq<nat>, k: nat)
    requires k <= |work| && (forall i: nat :: i < k ==> LengthFits(work, lengths, i))
    requires k < |work| ==> !LengthFits(work, lengths, k)
    ensures var (c, misfit) := CheckEach(caches, work, lengths);
      && (forall id :: id in c <==> id in caches && !AmongRows(work, k, id))
      && (forall id :: id in c ==> c[id] == caches[id])
      && misfit == if k == |work| then None else Some(if k < |lengths| then ValueError else IndexError)
    decreases |work|
  {
    if k > 0 {
      assert LengthFits(work, lengths, 0);
      forall i: nat | i < k - 1
        ensures LengthFits(work[1..], lengths[1..], i)
      {
        assert LengthFits(work, lengths, i + 1);
      }
      assert k < |work| ==> !LengthFits(work[1..], lengths[1..], k - 1);
      DropsUntil(caches - {work[0].id}, work[1..], lengths[1..], k - 1);
      AmongLater(work, k);
    }
  }

  /** `id` is that of one of the rows `0..k`. */
  predicate AmongRows(work: seq<DecodeWork>, k: nat, id: Id) {
    exists i :: 0 <= i < |work| && i <= k && work[i].id == id
  }

  lemma AmongLater(work: seq<DecodeWork>, k: nat)
    requires work != [] && k > 0
    ensures forall id :: AmongRows(work, k, id) <==> id == work[0].id || AmongRows(work[1..], k - 1, id)
  {
    forall id | AmongRows(work, k, id)
      ensures id == work[0].id || AmongRows(work[1..], k - 1, id)
    {
      var i :| 0 <= i < |work| && i <= k && work[i].id == id;
      if i > 0 { assert work[1..][i - 1].id == id; }
    }
    forall id | AmongRows(work[1..], k - 1, id)
      ensures AmongRows(work, k, id)
    {
      var i :| 0 <= i < |work[1..]| && i <= k - 1 && work[1..][i].id == id;
      assert work[i + 1].id == id;
    }
  }

  lemma DropsAll(caches: Caches, work: seq<DecodeWork>)
    ensures var (c, misfit) := DropAndCheck(caches, work, []);
      && misfit.None? && (forall id :: id in c <==> id in caches && !exists i :: 0 <= i < |work| && work[i].id == id)
      && forall id :: id in c ==> c[id] == caches[id]
  {
    var ids := DecodeIds(work);
    assert forall id :: id in Elems(ids) <==> exists i :: 0 <= i < |work| && work[i].id == id;
  }

  /** The slot of a decode row is the one of its position in the blocks of its request. */
  predicate SlotFits(p: Pool, w: DecodeWork)
    requires p.blockSize > 0
  {
    && w.id in p.requests && w.position / p.blockSize < |p.requests[w.id].blocks|
    && w.slot == (p.requests[w.id].blocks[w.position / p.blockSize], w.position % p.blockSize)
  }

  /** The first row with a wrong slot decides the error of the call. */
  lemma {:induction false} SlotsUntil(p: Pool, work: seq<DecodeWork>, k: nat)
    requires p.blockSize > 0 && k <= |work| && (forall i :: 0 <= i < k ==> SlotFits(p, work[i]))
    requires k < |work| ==> !SlotFits(p, work[k])
    ensures SlotError(p, work) ==
      if k == |work| then None else Some(if work[k].id in p.requests then ValueError else KeyError)
    decreases |work|
  {
    if k > 0 {
      assert SlotFits(p, work[0]);
      SlotsUntil(p, work[1..], k - 1);
    }
  }

  /** A call that raises leaves any values it likes in the slots of its work, and all other cells
      as they were. */
  lemma FaultLeaves(cells: Cells, junk: map<Slot, KV>, slots: set<Slot>, slot: Slot)
    ensures Get(Smudge(cells, junk, slots), slot) ==
      if slot in junk && slot in slots then Some(junk[slot]) else Get(cells, slot)
  {
  }
}
