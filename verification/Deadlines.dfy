/** When a request times out, in terms of its submission: no definition of the scheduler is used
    to say when that is. */
module Deadlines {
  import opened Basics
  import opened PagedKV
  import opened PagedStorage
  import opened Scheduler
  import opened SchedulerInvariant
  import opened Executor
  import opened Engine
  import opened EngineInvariant
  import opened ContinuousBatching
  import opened Evolution
  import opened Endings
  import opened EventProtocol

  /** The engine before action `k` of a run from the start. */
  ghost function Before(setup: Setup, numBlocks: nat, blockSize: nat, cells: Cells, actions: seq<Action>, k: nat): (e: Engine)
    requires setup.limits.Valid() && blockSize > 0 && k <= |actions|
    ensures EngineInv(e)
  {
    StartInv(numBlocks, blockSize, cells);
    RunEngine(setup, Start(numBlocks, blockSize, cells), actions[..k])
  }

  lemma Next(setup: Setup, numBlocks: nat, blockSize: nat, cells: Cells, actions: seq<Action>, k: nat)
    requires setup.limits.Valid() && blockSize > 0 && k < |actions|
    ensures var e := Before(setup, numBlocks, blockSize, cells, actions, k);
      e.s.pool.blockSize > 0 && Before(setup, numBlocks, blockSize, cells, actions, k + 1) == Step(setup, e, actions[k])
  {
    hide EngineInv;
    hide Step;
    EngineDimensions(Before(setup, numBlocks, blockSize, cells, actions, k));
    assert actions[..k + 1][..k] == actions[..k];
  }

  lemma BooksBefore(setup: Setup, numBlocks: nat, blockSize: nat, cells: Cells, actions: seq<Action>, k: nat)
    requires setup.limits.Valid() && blockSize > 0 && k <= |actions|
    ensures Books(Before(setup, numBlocks, blockSize, cells, actions, k))
  {
    hide EngineInv;
    hide BooksOk;
    StartInv(numBlocks, blockSize, cells);
    StartBooks(numBlocks, blockSize, cells);
    RunBooks(setup, Start(numBlocks, blockSize, cells), actions[..k]);
  }

  lemma TermsBefore(setup: Setup, numBlocks: nat, blockSize: nat, cells: Cells, actions: seq<Action>, i: nat, k: nat, id: Id)
    requires setup.limits.Valid() && blockSize > 0 && i <= k <= |actions|
    requires id in Before(setup, numBlocks, blockSize, cells, actions, i).s.requests
    ensures id in Before(setup, numBlocks, blockSize, cells, actions, k).s.requests
    ensures SameTerms(Before(setup, numBlocks, blockSize, cells, actions, i).s.requests[id],
                      Before(setup, numBlocks, blockSize, cells, actions, k).s.requests[id])
  {
    hide EngineInv;
    hide SameTerms;
    StartInv(numBlocks, blockSize, cells);
    assert actions[..k][..i] == actions[..i];
    RunKeepsTerms(setup, Start(numBlocks, blockSize, cells), actions[..k], i, id);
  }

  /** An accepted or rejected submit records the time and the timeout it came with. */
  lemma SubmitRecords(e: Engine, sub: Submission, now: real)
    requires e.s.pool.blockSize > 0 && sub.id !in e.s.requests && sub.id in SubmitStep(e, sub, now).s.requests
    ensures SubmitStep(e, sub, now).s.requests[sub.id].submittedAt == now
    ensures SubmitStep(e, sub, now).s.requests[sub.id].timeout == sub.timeout
  {
    hide Submit;
    SubmitOutcome(e.s, sub, now);
  }

  /** Over every run: a request that is live when a step begins times out in it if and only if its
      timeout has passed since its submission at one of the two readings of the clock, and its
      client is told so if and only if it had passed at the first one. */
  lemma TimesOutWhen(setup: Setup, numBlocks: nat, blockSize: nat, cells: Cells, actions: seq<Action>, i: nat, k: nat,
                     sub: Submission, t: real, now: real, planNow: real)
    requires setup.limits.Valid() && blockSize > 0 && i < k < |actions|
    requires actions[i] == SubmitAction(sub, t) && actions[k] == BeginAction(now, planNow)
    requires sub.id !in Before(setup, numBlocks, blockSize, cells, actions, i).s.requests
    requires sub.id in Before(setup, numBlocks, blockSize, cells, actions, i + 1).s.requests
    requires var idle := Before(setup, numBlocks, blockSize, cells, actions, k);
      idle.phase.Idle? && sub.id in idle.s.requests && idle.s.requests[sub.id].state in {PREFILL, DECODE}
    ensures var idle := Before(setup, numBlocks, blockSize, cells, actions, k);
      var begun := Before(setup, numBlocks, blockSize, cells, actions, k + 1);
      && sub.id in begun.s.requests
      && (begun.s.requests[sub.id].state == TIMED_OUT <==>
            sub.timeout.Some? && (now - t >= sub.timeout.value || planNow - t >= sub.timeout.value))
      && (begun.s.requests[sub.id].state != TIMED_OUT ==> begun.s.requests[sub.id] == idle.s.requests[sub.id])
      && sub.id in begun.events
      && begun.events[sub.id] == TokenEvents(idle.s.requests[sub.id].generated) +
           if sub.timeout.Some? && now - t >= sub.timeout.value then [FinishEvent(Timeout)] else []
  {
    hide EngineInv;
    hide Before;
    hide BooksOk;
    hide Step;
    hide EventsOf;
    var id := sub.id;
    var first, idle := Before(setup, numBlocks, blockSize, cells, actions, i), Before(setup, numBlocks, blockSize, cells, actions, k);
    var begun := Before(setup, numBlocks, blockSize, cells, actions, k + 1);
    Next(setup, numBlocks, blockSize, cells, actions, i);
    StepIsSubmit(setup, first, sub, t);
    SubmitRecords(first, sub, t);
    TermsBefore(setup, numBlocks, blockSize, cells, actions, i + 1, k, id);
    Next(setup, numBlocks, blockSize, cells, actions, k);
    BooksBefore(setup, numBlocks, blockSize, cells, actions, k);
    BooksBefore(setup, numBlocks, blockSize, cells, actions, k + 1);
    StepIsBegin(setup, idle, now, planNow);
    BeginFor(setup, idle, now, planNow, id);
    ToldWhenDue(idle, begun, now, planNow, id);
  }

  lemma StepIsSubmit(setup: Setup, e: Engine, sub: Submission, now: real)
    requires e.s.pool.blockSize > 0
    ensures Step(setup, e, SubmitAction(sub, now)) == SubmitStep(e, sub, now)
  {
  }

  lemma StepIsBegin(setup: Setup, e: Engine, now: real, planNow: real)
    requires e.s.pool.blockSize > 0 && e.phase.Idle?
    ensures Step(setup, e, BeginAction(now, planNow)) == BeginStep(setup, e, now, planNow)
  {
  }

  lemma ToldWhenDue(e: Engine, e': Engine, now: real, planNow: real, id: Id)
    requires EngineInv(e) && EngineInv(e') && Books(e) && Books(e')
    requires id in e.s.requests && !e.s.requests[id].Finished() && BegunFor(e, e', now, planNow, id)
    ensures id in e'.events
    ensures e'.events[id] == TokenEvents(e.s.requests[id].generated) + if Due(e.s.requests[id], now) then [FinishEvent(Timeout)] else []
  {
    hide SchedInv;
    hide PhaseInv;
    hide CountersOk;
    hide StreamOk;
    hide Due;
    hide TokenEvents;
    var r, r' := e.s.requests[id], e'.s.requests[id];
    var ev, ev' := EventsOf(e.events, id), EventsOf(e'.events, id);
    assert StreamOk(r, ev) && StreamOk(r', ev');
    ToldStream(r, r', ev, ev', Due(r, now));
  }

  lemma ToldStream(r: Request, r': Request, ev: seq<Event>, ev': seq<Event>, due: bool)
    requires StreamOk(r, ev) && StreamOk(r', ev') && !r.Finished() && r'.generated == r.generated
    requires if due then r'.state == TIMED_OUT && |ev'| > |ev| else ev' == ev
    ensures ev' == TokenEvents(r.generated) + if due then [FinishEvent(Timeout)] else []
  {
    hide TokenEvents;
    StreamOfLive(r, ev);
    assert ev' == ev'[..|r.generated|] + ev'[|r.generated|..];
  }
}
