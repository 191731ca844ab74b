/** serving/engine.py, in place: `ServingEngine` and the phases that its `step` has between
    awaits. Every phase does to the objects what the function in module Engine does to the
    values, and keeps the engine invariant. */
module ServingEngine {
  import opened Basics
  import PagedKV
  import PagedStorage
  import Bits
  import opened Scheduler
  import opened Executor
  import E = Engine
  import SchedulerInvariant
  import Inv = EngineInvariant
  import opened BatchScheduler
  import opened PagedExecutor

  type Id = PagedKV.Id
  type Slot = PagedKV.Slot
  type KV = PagedKV.KV

  class ServingEngine {
    const scheduler: ContinuousBatchScheduler
    const executor: QwenPagedExecutor
    var samplers: map<Id, E.Sampler>
    var events: map<Id, seq<E.Event>>
    var metrics: E.Metrics
    var phase: E.Phase

    ghost predicate Wired()
      reads this, scheduler, scheduler.allocator
    {
      scheduler.Valid() && executor.allocator == scheduler.allocator
    }

    ghost function State(): E.Engine
      reads this, scheduler, scheduler.allocator, scheduler.allocator.keys, executor
    {
      E.Engine(scheduler.State(), scheduler.allocator.Cells(), executor.caches, samplers, events, metrics, phase)
    }

    ghost function Parts(): E.Setup {
      E.Setup(scheduler.limits, scheduler.buckets, executor.model)
    }

    ghost predicate Valid()
      reads this, scheduler, scheduler.allocator, scheduler.allocator.keys, executor
    {
      Wired() && Inv.EngineInv(State())
    }

    /** A fresh engine around a fresh scheduler. */
    constructor (scheduler: ContinuousBatchScheduler, executor: QwenPagedExecutor)
      requires scheduler.Valid() && executor.allocator == scheduler.allocator && executor.caches == map[]
      requires scheduler.State() == SchedulerInvariant.EmptySched(scheduler.allocator.numBlocks, scheduler.allocator.blockSize)
      ensures Valid() && this.scheduler == scheduler && this.executor == executor
      ensures State() ==
        Inv.Start(scheduler.allocator.numBlocks, scheduler.allocator.blockSize, scheduler.allocator.Cells())
    {
      this.scheduler := scheduler;
      this.executor := executor;
      samplers, events := map[], map[];
      metrics, phase := E.Metrics(0, 0, 0, 0, 0, 0, 0, 0), E.Idle;
      new;
      Inv.StartInv(scheduler.allocator.numBlocks, scheduler.allocator.blockSize, scheduler.allocator.Cells());
    }

    // ----- submit and cancel -----

    method Submit(sub: Submission, now: real) returns (r: Outcome<()>)
      requires Valid()
      modifies this, scheduler, scheduler.allocator, executor
      ensures Valid() && State() == E.SubmitStep(old(State()), sub, now)
      ensures r == Scheduler.Submit(old(scheduler.State()), sub, now).1
    {
      hide Inv.EngineInv;
      hide Scheduler.Submit;
      hide PagedKV.PoolInv;
      hide Bits.PowerOfTwo;
      SchedulerInvariant.SubmitOutcome(scheduler.State(), sub, now);
      Inv.StepKeeps(Parts(), State(), E.SubmitAction(sub, now));
      r := scheduler.Submit(sub, now);
      if r == Raises(AdmissionError) {
        metrics := metrics.(rejected := metrics.rejected + 1);
      } else if r.Returns? {
        events := events[sub.id := []];
        samplers := samplers[sub.id := E.Sampler(sub.sampling, 0)];
        metrics := metrics.(submitted := metrics.submitted + 1, promptTokens := metrics.promptTokens + |sub.prompt|);
      }
    }

    /** `_finish_event` */
    method FinishEvent(id: Id, reason: E.Reason)
      requires Wired()
      modifies this, executor
      ensures Wired() && State() == E.Finish(old(State()), id, reason)
    {
      hide PagedKV.PoolInv;
      executor.Release(id);
      if id in events { events := events[id := events[id] + [E.FinishEvent(reason)]]; }
    }

    method Cancel(id: Id) returns (r: Outcome<bool>)
      requires Valid()
      modifies this, scheduler, scheduler.allocator, executor
      ensures Valid() && State() == E.CancelStep(old(State()), id)
      ensures r == Scheduler.Cancel(old(scheduler.State()), id).1
    {
      hide Inv.EngineInv;
      hide Terminate;
      hide PagedKV.PoolInv;
      Inv.StepKeeps(Parts(), State(), E.CancelAction(id));
      r := scheduler.Cancel(id);
      if r == Returns(true) {
        metrics := metrics.(cancelled := metrics.cancelled + 1);
        FinishEvent(id, E.CancelledBy);
      }
    }

    // ----- step: expire, plan, metadata -----

    method FinishExpired(expired: seq<Id>)
      requires Wired()
      modifies this, executor
      ensures Wired() && State() == E.FinishExpired(old(State()), expired)
    {
      hide PagedKV.PoolInv;
      hide E.Finish;
      for i := 0 to |expired|
        invariant Wired()
        invariant E.FinishExpired(State(), expired[i..]) == E.FinishExpired(old(State()), expired)
      {
        assert expired[i..][1..] == expired[i + 1..];
        metrics := metrics.(timedOut := metrics.timedOut + 1);
        FinishEvent(expired[i], E.Timeout);
      }
    }

    /** What follows the plan without an await: nothing, or the call that comes first. */
    method Dispatch(plan: StepPlan)
      requires Wired()
      modifies this`phase
      ensures scheduler.State().pool.blockSize > 0
      ensures State() == old(State()).(phase := E.AfterPlan(old(State()), plan))
    {
      hide PagedKV.PoolInv;
      hide PagedKV.MetadataFor;
      if plan.decode == [] {
        phase := if plan.prefill == [] then E.Idle else E.PrefillPending(plan);
      } else {
        var width := E.TableWidth(scheduler.allocator.State(), plan);
        var meta := scheduler.allocator.GetMetadata(DecodeIds(plan.decode), width);
        phase := if meta.Raises? then E.Failing(plan) else E.DecodePending(plan, meta.value);
      }
    }

    method BeginStep(now: real, planNow: real)
      requires Valid() && phase.Idle?
      modifies this, scheduler, scheduler.allocator, executor
      ensures Valid() && State() == E.BeginStep(Parts(), old(State()), now, planNow)
    {
      hide Inv.EngineInv;
      hide PagedKV.PoolInv;
      hide Scheduler.Expire;
      hide Scheduler.Plan;
      hide E.FinishExpired;
      hide E.AfterPlan;
      Inv.StepKeeps(Parts(), State(), E.BeginAction(now, planNow));
      var expired := scheduler.Expire(now);
      FinishExpired(expired);
      var plan := scheduler.Plan(planNow);
      if plan.Raises? {
        phase := E.Crashed;
      } else {
        Dispatch(plan.value);
      }
    }

    // ----- step: decode -----

    method ExecuteDecode(fault: Option<map<Slot, KV>>, omit: set<Id>)
      requires Valid() && phase.DecodePending?
      modifies this, executor, scheduler.allocator.keys
      ensures Valid() && State() == E.DecodeExecStep(Parts(), old(State()), fault, omit)
    {
      hide Inv.EngineInv;
      hide PagedKV.PoolInv;
      hide DecodeExec;
      Inv.StepKeeps(Parts(), State(), E.DecodeExecAction(fault, omit));
      var r := executor.Decode(phase.plan.decode, phase.meta, fault);
      phase := if r.Raises? then E.Failing(phase.plan) else E.DecodeReturned(phase.plan, r.value - omit);
    }

    /** `_record_token` */
    method RecordToken(id: Id, sample: Sample) returns (r: Outcome<()>)
      requires Wired() && id in scheduler.requests
      modifies this, executor
      ensures Wired() && (State(), r) == E.Record(old(State()), id, sample)
    {
      hide PagedKV.PoolInv;
      hide E.Finish;
      metrics := metrics.(generatedTokens := metrics.generatedTokens + 1);
      if id !in events { return Raises(KeyError); }
      events := events[id := events[id] + [E.TokenEvent(sample.token)]];
      if scheduler.requests[id].Finished() {
        metrics := metrics.(completed := metrics.completed + 1);
        FinishEvent(id, if sample.stopped then E.Stop else E.Length);
      }
      r := Returns(());
    }

    /** The sampler draws the next token of a request. */
    method DrawToken(id: Id, logits: Logits, history: seq<Token>) returns (sample: Sample)
      requires Wired() && id in samplers
      modifies this
      ensures Wired() && State() == E.Drawn(old(State()), id)
      ensures sample == E.Draw(executor.model, old(State()), id, logits, history)
    {
      hide PagedKV.PoolInv;
      var sampler := samplers[id];
      sample := executor.model.sample(sampler.params, logits, history, sampler.draws);
      samplers := samplers[id := sampler.(draws := sampler.draws + 1)];
    }

    method CommitDecode(w: DecodeWork, logits: map<Id, Logits>) returns (r: Outcome<()>)
      requires Wired()
      modifies this, scheduler, scheduler.allocator, executor
      ensures Wired() && (State(), r) == E.CommitDecodeItem(executor.model, old(State()), w, logits)
    {
      hide PagedKV.PoolInv;
      hide E.Record;
      if w.id !in scheduler.requests || w.id !in samplers || w.id !in logits { return Raises(KeyError); }
      var request := scheduler.requests[w.id];
      var sample := DrawToken(w.id, logits[w.id], request.prompt + request.generated);
      r := scheduler.CompleteDecode(w.id, sample.token, sample.stopped);
      if r.Raises? { return; }
      r := RecordToken(w.id, sample);
    }

    method CommitDecodes()
      requires Valid() && phase.DecodeReturned?
      modifies this, scheduler, scheduler.allocator, executor
      ensures Valid() && State() == E.DecodeCommitStep(Parts(), old(State()))
    {
      hide Inv.EngineInv;
      hide PagedKV.PoolInv;
      hide E.CommitDecodeItem;
      Inv.StepKeeps(Parts(), State(), E.DecodeCommitAction);
      var plan, logits := phase.plan, phase.logits;
      for i := 0 to |plan.decode|
        invariant Wired()
        invariant E.CommitDecodes(executor.model, State(), plan.decode[i..], logits) ==
          E.CommitDecodes(executor.model, old(State()), plan.decode, logits)
      {
        assert plan.decode[i..][1..] == plan.decode[i + 1..];
        var r := CommitDecode(plan.decode[i], logits);
        if r.Raises? {
          phase := E.Failing(plan);
          return;
        }
      }
      phase := if plan.prefill != [] then E.PrefillPending(plan) else E.Idle;
    }

    // ----- step: prefill -----

    method ExecutePrefill(fail: Option<nat>, junk: map<Slot, KV>, omit: set<Id>)
      requires Valid() && phase.PrefillPending?
      modifies this, executor, scheduler.allocator.keys
      ensures Valid() && State() == E.PrefillExecStep(Parts(), old(State()), fail, junk, omit)
    {
      hide Inv.EngineInv;
      hide PagedKV.PoolInv;
      hide PrefillExec;
      PlannedInPages();
      Inv.StepKeeps(Parts(), State(), E.PrefillExecAction(fail, junk, omit));
      var r := executor.Prefill(phase.plan.prefill, fail, junk);
      phase := if r.Raises? then E.Failing(phase.plan) else E.PrefillReturned(phase.plan, r.value - omit);
    }

    /** Every slot of the pending prefill work lies in the pages. */
    lemma PlannedInPages()
      requires Valid() && phase.PrefillPending?
      ensures forall i :: 0 <= i < |phase.plan.prefill| ==> executor.InPages(phase.plan.prefill[i].slots)
    {
      hide Inv.KeysOk;
      var s := scheduler.State();
      forall i | 0 <= i < |phase.plan.prefill|
        ensures executor.InPages(phase.plan.prefill[i].slots)
      {
        assert Inv.PendingPrefill(s, phase.plan.prefill[i]);
        ItemInPages(phase.plan.prefill[i]);
      }
    }

    lemma ItemInPages(w: PrefillWork)
      requires Wired() && PagedKV.PoolShape(scheduler.State().pool) && Inv.PendingPrefill(scheduler.State(), w)
      ensures executor.InPages(w.slots)
    {
      hide PagedKV.PoolInv;
      hide PagedKV.AllocationOk;
      hide PagedKV.SlotIs;
      var p := scheduler.State().pool;
      forall i | 0 <= i < |w.slots|
        ensures w.slots[i].0 < p.numBlocks && w.slots[i].1 < p.blockSize
      {
        if w.id in scheduler.inflight {
          PagedStorage.SlotInPages(p, w.id, w.slots[i], w.start + i);
        }
      }
    }

    static lemma CommitKnown(s: Sched, id: Id, token: Token, stopped: bool)
      requires id in s.requests
      ensures id in Scheduler.Commit(s, id, token, stopped).requests
    {
    }

    static lemma CompletedKnown(s: Sched, id: Id, count: nat)
      ensures Scheduler.CompletePrefill(s, id, count).1.Returns? ==> id in Scheduler.CompletePrefill(s, id, count).0.requests
      ensures Scheduler.CompletePrefill(s, id, count).1.Raises? ==> Scheduler.CompletePrefill(s, id, count).0 == s
    {
    }

    static lemma SampledKnown(s: Sched, id: Id, token: Token, stopped: bool)
      ensures Scheduler.CompletePrefillSample(s, id, token, stopped).1.Returns? ==>
        id in Scheduler.CompletePrefillSample(s, id, token, stopped).0.requests
      ensures Scheduler.CompletePrefillSample(s, id, token, stopped).1.Raises? ==>
        Scheduler.CompletePrefillSample(s, id, token, stopped).0 == s
    {
      hide Scheduler.Commit;
      if id in s.requests { CommitKnown(s, id, token, stopped); }
    }

    method CommitPrefill(w: PrefillWork, logits: map<Id, Logits>) returns (r: Outcome<()>)
      requires Wired()
      modifies this, scheduler, scheduler.allocator, executor
      ensures Wired() && (State(), r) == E.CommitPrefillItem(executor.model, old(State()), w, logits)
    {
      hide PagedKV.PoolInv;
      hide E.Record;
      hide Scheduler.CompletePrefill;
      hide Scheduler.CompletePrefillSample;
      CompletedKnown(scheduler.State(), w.id, |w.tokens|);
      var last := scheduler.CompletePrefill(w.id, |w.tokens|);
      if last.Raises? { return Raises(last.error); }
      if !last.value { return Returns(()); }
      if w.id !in logits { return Raises(RuntimeError); }
      if w.id !in samplers { return Raises(KeyError); }
      var sample := DrawToken(w.id, logits[w.id], scheduler.requests[w.id].prompt);
      SampledKnown(scheduler.State(), w.id, sample.token, sample.stopped);
      r := scheduler.CompletePrefillSample(w.id, sample.token, sample.stopped);
      if r.Raises? { return; }
      r := RecordToken(w.id, sample);
    }

    method CommitPrefills()
      requires Valid() && phase.PrefillReturned?
      modifies this, scheduler, scheduler.allocator, executor
      ensures Valid() && State() == E.PrefillCommitStep(Parts(), old(State()))
    {
      hide Inv.EngineInv;
      hide PagedKV.PoolInv;
      hide E.CommitPrefillItem;
      Inv.StepKeeps(Parts(), State(), E.PrefillCommitAction);
      var plan, logits := phase.plan, phase.logits;
      for i := 0 to |plan.prefill|
        invariant Wired()
        invariant E.CommitPrefills(executor.model, State(), plan.prefill[i..], logits) ==
          E.CommitPrefills(executor.model, old(State()), plan.prefill, logits)
      {
        assert plan.prefill[i..][1..] == plan.prefill[i + 1..];
        var r := CommitPrefill(plan.prefill[i], logits);
        if r.Raises? {
          phase := E.Failing(plan);
          return;
        }
      }
      phase := E.Idle;
    }

    // ----- step: errors -----

    method FailOne(id: Id)
      requires Wired()
      modifies this, scheduler, scheduler.allocator, executor
      ensures Wired() && State() == E.FailOne(old(State()), id)
    {
      hide PagedKV.PoolInv;
      hide Terminate;
      hide E.Finish;
      if id in scheduler.requests && !scheduler.requests[id].Finished() {
        var failed := scheduler.Fail(id);
        metrics := metrics.(failed := metrics.failed + 1);
        FinishEvent(id, E.Failure);
      }
    }

    method FailStep()
      requires Valid() && phase.Failing?
      modifies this, scheduler, scheduler.allocator, executor
      ensures Valid() && State() == E.CleanupStep(old(State()))
    {
      hide Inv.EngineInv;
      hide PagedKV.PoolInv;
      hide E.FailOne;
      Inv.StepKeeps(Parts(), State(), E.CleanupAction);
      var ids := PlanIds(phase.plan);
      for i := 0 to |ids|
        invariant Wired()
        invariant E.FailAll(State(), ids[i..]) == E.FailAll(old(State()), ids)
      {
        assert ids[i..][1..] == ids[i + 1..];
        FailOne(ids[i]);
      }
      phase := E.Idle;
    }
  }
}
