/** serving/scheduler.py, in place: `ContinuousBatchScheduler` with its dicts and deques. Every
    method does to its fields and to the allocator what the function of the same name in
    module Scheduler does to the values. */
module BatchScheduler {
  import opened Basics
  import PagedKV
  import Bits
  import opened GraphBuckets
  import opened Scheduler
  import opened Allocator

  type Id = PagedKV.Id

  class ContinuousBatchScheduler {
    const allocator: PagedKVAllocator
    const buckets: Buckets
    const limits: Limits
    var requests: map<Id, Request>
    /** The insertion order of the dict `requests`. */
    var order: seq<Id>
    var prefill: seq<Id>
    var decode: seq<Id>
    var inflight: map<Id, Inflight>
    var reserved: map<Id, nat>

    ghost predicate Valid()
      reads this, allocator
    {
      allocator.Valid() && limits.Valid() && PoolPositive()
    }

    ghost predicate PoolPositive()
      reads this, allocator
    {
      State().pool.blockSize > 0
    }

    function State(): Sched
      reads this, allocator
    {
      Sched(requests, order, prefill, decode, inflight, reserved, allocator.State())
    }

    constructor (allocator: PagedKVAllocator, buckets: Buckets, limits: Limits)
      requires allocator.Valid() && limits.Valid() && allocator.blockSize > 0
      ensures Valid() && this.allocator == allocator && this.buckets == buckets && this.limits == limits
      ensures State() == Sched(map[], [], [], [], map[], map[], allocator.State())
    {
      this.allocator := allocator;
      this.buckets := buckets;
      this.limits := limits;
      requests, order, prefill, decode := map[], [], [], [];
      inflight, reserved := map[], map[];
    }

    /** `sum(self._reserved_blocks.values())` */
    method AdmittedBlocks() returns (total: nat)
      ensures total == SumMap(reserved)
    {
      total := 0;
      var rest := reserved;
      while rest != map[]
        invariant total + SumMap(rest) == SumMap(reserved)
        decreases |rest|
      {
        var id :| id in rest;
        SumMapTake(rest, id);
        total := total + rest[id];
        rest := rest - {id};
      }
    }

    method Submit(sub: Submission, now: real) returns (r: Outcome<()>)
      requires Valid()
      modifies this, allocator
      ensures Valid() && (State(), r) == Scheduler.Submit(old(State()), sub, now)
    {
      hide PagedKV.PoolInv;
      if sub.id == "" || sub.id in requests { return Raises(ValueError); }
      if sub.prompt == [] || sub.maxNew <= 0 { return Raises(ValueError); }
      if sub.timeout.Some? && sub.timeout.value <= 0.0 { return Raises(ValueError); }
      var reserve := allocator.BlocksForTokens(|sub.prompt| + sub.maxNew);
      var admitted := AdmittedBlocks();
      if reserve.value > allocator.numBlocks - admitted {
        requests := requests[sub.id := ToRequest(sub, REJECTED, now)];
        order := order + [sub.id];
        return Raises(AdmissionError);
      }
      r := allocator.Create(sub.id);
      if r.Raises? { return; }
      requests := requests[sub.id := ToRequest(sub, PREFILL, now)];
      order := order + [sub.id];
      reserved := reserved[sub.id := reserve.value];
      prefill := prefill + [sub.id];
    }

    /** `_cleanup` */
    method Cleanup(id: Id)
      requires Valid()
      modifies this, allocator
      ensures Valid() && State() == Scheduler.Cleanup(old(State()), id)
    {
      hide PagedKV.PoolInv;
      inflight := inflight - {id};
      reserved := reserved - {id};
      prefill := Remove(prefill, id);
      decode := Remove(decode, id);
      var released := allocator.Release(id);
    }

    /** A terminal state, and everything given back. */
    method Terminate(id: Id, state: RequestState)
      requires Valid() && id in requests
      modifies this, allocator
      ensures Valid() && State() == Scheduler.Terminate(old(State()), id, state)
    {
      hide PagedKV.PoolInv;
      hide Scheduler.Cleanup;
      requests := requests[id := requests[id].(state := state)];
      Cleanup(id);
    }

    method Cancel(id: Id) returns (r: Outcome<bool>)
      requires Valid()
      modifies this, allocator
      ensures Valid() && (State(), r) == Scheduler.Cancel(old(State()), id)
    {
      hide Scheduler.Terminate;
      if id !in requests { return Raises(KeyError); }
      if requests[id].Finished() { return Returns(false); }
      Terminate(id, CANCELLED);
      r := Returns(true);
    }

    method Fail(id: Id) returns (r: Outcome<()>)
      requires Valid()
      modifies this, allocator
      ensures Valid() && (State(), r) == Scheduler.Fail(old(State()), id)
    {
      hide Scheduler.Terminate;
      if id !in requests { return Raises(KeyError); }
      Terminate(id, FAILED);
      r := Returns(());
    }

    /** The dict is copied before the sweep. */
    method Expire(now: real) returns (expired: seq<Id>)
      requires Valid()
      modifies this, allocator
      ensures Valid() && (State(), expired) == Scheduler.Expire(old(State()), now)
    {
      hide Scheduler.Terminate;
      hide PagedKV.PoolInv;
      expired := [];
      var ids := order;
      for i := 0 to |ids|
        invariant Valid()
        invariant ExpireFrom(State(), now, ids[i..], expired) == ExpireFrom(old(State()), now, ids, [])
      {
        var id := ids[i];
        assert ids[i..][0] == id && ids[i..][1..] == ids[i + 1..];
        if id in requests && Due(requests[id], now) {
          Terminate(id, TIMED_OUT);
          expired := expired + [id];
        }
      }
    }

    /** One turn of the decode loop. */
    method VisitDecode() returns (r: Outcome<seq<DecodeWork>>)
      requires Valid()
      modifies this, allocator
      ensures Valid() && (State(), r) == Scheduler.VisitDecode(old(State()))
    {
      hide PagedKV.PoolInv;
      hide PagedKV.AppendSlots;
      if decode == [] { return Raises(IndexError); }
      var id := decode[0];
      decode := decode[1..];
      if id !in requests { return Raises(KeyError); }
      var request := requests[id];
      if request.state != DECODE { return Returns([]); }
      var position := allocator.Length(id);
      if position.Raises? { return Raises(position.error); }
      var slots := allocator.AppendSlots(id, 1);
      if slots.Raises? { return Raises(slots.error); }
      if request.generated == [] { return Raises(RuntimeError); }
      inflight := inflight[id := InDecode];
      decode := decode + [id];
      r := Returns([DecodeWork(id, request.generated[|request.generated| - 1], position.value, FirstSlot(slots.value))]);
    }

    method PlanDecode(visits: nat) returns (r: Outcome<seq<DecodeWork>>)
      requires Valid()
      modifies this, allocator
      ensures Valid() && (State(), r) == Scheduler.PlanDecode(old(State()), visits, [])
    {
      hide PagedKV.PoolInv;
      hide Scheduler.VisitDecode;
      var work := [];
      for i := 0 to visits
        invariant Valid()
        invariant Scheduler.PlanDecode(State(), visits - i, work) == Scheduler.PlanDecode(old(State()), visits, [])
      {
        r := VisitDecode();
        if r.Raises? { return; }
        work := work + r.value;
      }
      r := Returns(work);
    }

    /** One turn of the prefill loop; `Exhausted` is its `break`. */
    method VisitPrefill(chunkLimit: nat, budget: nat) returns (r: Outcome<Visit>)
      requires Valid()
      modifies this, allocator
      ensures Valid() && (State(), r) == Scheduler.VisitPrefill(old(State()), chunkLimit, budget)
    {
      hide PagedKV.PoolInv;
      hide PagedKV.AppendSlots;
      if prefill == [] { return Raises(IndexError); }
      var id := prefill[0];
      prefill := prefill[1..];
      if id !in requests { return Raises(KeyError); }
      var request := requests[id];
      if request.state != PREFILL { return Returns(Skipped); }
      var count := Min2(Min2(request.RemainingPrompt(), chunkLimit), budget);
      if count <= 0 {
        prefill := [id] + prefill;
        assert prefill == old(prefill);
        return Returns(Exhausted);
      }
      var start := request.cursor;
      var slots := allocator.AppendSlots(id, count);
      if slots.Raises? { return Raises(slots.error); }
      inflight := inflight[id := InPrefill(count)];
      prefill := prefill + [id];
      r := Returns(Issued(PrefillWork(id, request.prompt[start..start + count], start, slots.value)));
    }

    method PlanPrefill(visits: nat, chunkLimit: nat, tokenBudget: nat) returns (r: Outcome<seq<PrefillWork>>)
      requires Valid()
      modifies this, allocator
      ensures Valid() && (State(), r) == Scheduler.PlanPrefill(old(State()), visits, chunkLimit, tokenBudget, [])
    {
      hide PagedKV.PoolInv;
      hide Scheduler.VisitPrefill;
      var work: seq<PrefillWork> := [];
      var budget: nat := tokenBudget;
      for i := 0 to visits
        invariant Valid()
        invariant Scheduler.PlanPrefill(State(), visits - i, chunkLimit, budget, work) ==
          Scheduler.PlanPrefill(old(State()), visits, chunkLimit, tokenBudget, [])
      {
        var visit := VisitPrefill(chunkLimit, budget);
        if visit.Raises? { return Raises(visit.error); }
        match visit.value
        case Skipped =>
        case Exhausted => return Returns(work);
        case Issued(item) =>
          budget := if budget > |item.tokens| then budget - |item.tokens| else 0;
          work := work + [item];
      }
      r := Returns(work);
    }

    method Plan(now: real) returns (r: Outcome<StepPlan>)
      requires Valid()
      modifies this, allocator
      ensures Valid() && (State(), r) == Scheduler.Plan(limits, buckets, old(State()), now)
    {
      hide PagedKV.PoolInv;
      hide Scheduler.Expire;
      hide PlanSorted;
      if inflight != map[] { return Raises(RuntimeError); }
      var expired := Expire(now);
      decode := ByPriority(requests, decode);
      prefill := ByPriority(requests, prefill);
      r := PlanQueues();
    }

    /** `plan` after its sorts. */
    method PlanQueues() returns (r: Outcome<StepPlan>)
      requires Valid()
      modifies this, allocator
      ensures Valid() && (State(), r) == PlanSorted(limits, buckets, old(State()))
    {
      hide PagedKV.PoolInv;
      hide Scheduler.PlanDecode;
      hide Scheduler.PlanPrefill;
      var work := PlanDecode(Min2(|decode|, limits.maxBatch));
      if work.Raises? { return Raises(work.error); }
      var visits := Min2(|prefill|, limits.maxBatch - |work.value|);
      var chunks := PlanPrefill(if visits < 0 then 0 else visits, ChunkLimit(limits, work.value != []), limits.maxPrefillTokens);
      if chunks.Raises? { return Raises(chunks.error); }
      var bucket := None;
      if work.value != [] {
        bucket := Select(buckets, |work.value|, MaxLength(allocator.State(), work.value));
      }
      r := Returns(StepPlan(work.value, chunks.value,
        if bucket.None? then None else Some(bucket.value.0),
        if bucket.None? then None else Some(bucket.value.1)));
    }

    method CompletePrefill(id: Id, count: nat) returns (r: Outcome<bool>)
      requires Valid()
      modifies this
      ensures Valid() && (State(), r) == Scheduler.CompletePrefill(old(State()), id, count)
    {
      hide PagedKV.PoolInv;
      hide Bits.PowerOfTwo;
      if id !in requests { return Raises(KeyError); }
      var request := requests[id];
      if Get(inflight, id) != Some(InPrefill(count)) || request.state != PREFILL || count <= 0 || count > request.RemainingPrompt() {
        return Raises(ValueError);
      }
      inflight := inflight - {id};
      request := request.(cursor := request.cursor + count);
      if request.RemainingPrompt() == 0 {
        request := request.(state := DECODE);
        prefill := Remove(prefill, id);
        decode := decode + [id];
      }
      requests := requests[id := request];
      r := Returns(request.RemainingPrompt() == 0);
    }

    /** The last three lines of both sample commits. */
    method Commit(id: Id, token: Token, stopped: bool)
      requires Valid() && id in requests
      modifies this, allocator
      ensures Valid() && State() == Scheduler.Commit(old(State()), id, token, stopped)
    {
      hide PagedKV.PoolInv;
      hide Scheduler.Terminate;
      var request := requests[id];
      request := request.(generated := request.generated + [token]);
      requests := requests[id := request];
      if stopped || |request.generated| >= request.maxNew {
        Terminate(id, FINISHED);
      }
    }

    method CompletePrefillSample(id: Id, token: Token, stopped: bool) returns (r: Outcome<()>)
      requires Valid()
      modifies this, allocator
      ensures Valid() && (State(), r) == Scheduler.CompletePrefillSample(old(State()), id, token, stopped)
    {
      hide Scheduler.Commit;
      if id !in requests { return Raises(KeyError); }
      if requests[id].state != DECODE || requests[id].generated != [] || id in inflight { return Raises(ValueError); }
      Commit(id, token, stopped);
      r := Returns(());
    }

    method CompleteDecode(id: Id, token: Token, stopped: bool) returns (r: Outcome<()>)
      requires Valid()
      modifies this, allocator
      ensures Valid() && (State(), r) == Scheduler.CompleteDecode(old(State()), id, token, stopped)
    {
      hide PagedKV.PoolInv;
      hide Scheduler.Commit;
      if id !in requests { return Raises(KeyError); }
      if Get(inflight, id) != Some(InDecode) || requests[id].state != DECODE { return Raises(ValueError); }
      inflight := inflight - {id};
      Commit(id, token, stopped);
      r := Returns(());
    }
  }
}
