/** When a submit is admitted, in terms of the prompts and limits of the live requests. */
module Admission {
  import opened Basics
  import opened PagedKV
  import opened Scheduler
  import opened SchedulerInvariant

  /** `n` is the least number of blocks that hold `tokens` positions. */
  predicate LeastBlocks(n: nat, tokens: int, blockSize: nat) {
    n * blockSize >= tokens && (n > 0 ==> (n - 1) * blockSize < tokens)
  }

  lemma LeastIsCeil(n: nat, tokens: nat, blockSize: nat)
    requires blockSize > 0 && LeastBlocks(n, tokens, blockSize)
    ensures n == CeilDiv(tokens, blockSize)
  {
    var q := CeilDiv(tokens, blockSize);
    CeilDivBounds(tokens, blockSize);
    if n < q {
      MulMonotone(n, q - 1, blockSize);
    } else if n > q {
      MulMonotone(q, n - 1, blockSize);
    }
  }

  /** What a submit must bring along. */
  predicate WellFormed(s: Sched, sub: Submission) {
    && sub.id != "" && sub.id !in s.requests && |sub.prompt| > 0 && sub.maxNew > 0
    && (sub.timeout.Some? ==> sub.timeout.value > 0.0)
  }

  /** `blocks` are the blocks that each live request may come to need, by its own prompt and limit. */
  ghost predicate LiveNeeds(s: Sched, blocks: map<Id, nat>) {
    && (forall id :: id in blocks <==> id in s.requests && s.requests[id].state in {PREFILL, DECODE})
    && forall id :: id in blocks ==> LeastBlocks(blocks[id], |s.requests[id].prompt| + s.requests[id].maxNew, s.pool.blockSize)
  }

  lemma NeedsAreReserved(s: Sched, blocks: map<Id, nat>)
    requires SchedInv(s) && LiveNeeds(s, blocks)
    ensures blocks == s.reserved
  {
    hide PoolInv;
    hide QueuesOk;
    hide RequestsOk;
    hide CeilDiv;
    hide LeastBlocks;
    forall id | id in blocks
      ensures id in s.reserved && blocks[id] == s.reserved[id]
    {
      LeastIsCeil(blocks[id], |s.requests[id].prompt| + s.requests[id].maxNew, s.pool.blockSize);
    }
  }

  /** A well-formed submit is admitted if and only if the blocks that it and all live requests may
      come to need are no more than there are; then it waits last in the prefill queue, and
      otherwise it is recorded as rejected. A submit that is not well formed changes nothing. */
  lemma AdmittedWhen(s: Sched, sub: Submission, now: real, need: nat, blocks: map<Id, nat>)
    requires SchedInv(s) && LiveNeeds(s, blocks)
    requires sub.maxNew > 0 ==> LeastBlocks(need, |sub.prompt| + sub.maxNew, s.pool.blockSize)
    ensures s.pool.blockSize > 0
    ensures var (s', r) := Submit(s, sub, now);
      && (r.Returns? <==> WellFormed(s, sub) && need + SumMap(blocks) <= s.pool.numBlocks)
      && (r.Raises? ==> r.error == if WellFormed(s, sub) then AdmissionError else ValueError)
      && (!WellFormed(s, sub) ==> s' == s)
      && (r == Raises(AdmissionError) ==>
            s' == s.(requests := s.requests[sub.id :=
                    Request(sub.prompt, sub.maxNew, sub.sampling, sub.priority, sub.timeout, REJECTED, 0, [], now)], order := s.order + [sub.id]))
      && (r.Returns? ==>
            && s'.requests == s.requests[sub.id :=
                    Request(sub.prompt, sub.maxNew, sub.sampling, sub.priority, sub.timeout, PREFILL, 0, [], now)] && s'.order == s.order + [sub.id]
            && s'.prefill == s.prefill + [sub.id] && s'.decode == s.decode && s'.inflight == s.inflight
            && s'.pool == s.pool.(requests := s.pool.requests[sub.id := Allocation([], 0)])
            && s'.reserved == s.reserved[sub.id := need])
  {
    hide PoolInv;
    hide QueuesOk;
    hide RequestsOk;
    hide CeilDiv;
    hide LeastBlocks;
    NeedsAreReserved(s, blocks);
    if sub.maxNew > 0 { LeastIsCeil(need, |sub.prompt| + sub.maxNew, s.pool.blockSize); }
  }
}
