/** The main theorems of the serving control plane, over every run: any sequence of submits,
    cancels, step phases, executor failures and clock readings. */
module ContinuousBatching {
  import opened Basics
  import opened PagedKV
  import opened PagedStorage
  import opened Scheduler
  import opened SchedulerInvariant
  import opened PlanInvariant
  import opened Executor
  import opened Engine
  import opened EngineInvariant
  import opened Alone
  import opened Refinement
  import opened RefinementExec
  import opened RefinementPrefill
  import opened RefinementCommit

  /** The engine after a run. */
  ghost function RunEngine(setup: Setup, e: Engine, actions: seq<Action>): (r: Engine)
    requires EngineInv(e) && setup.limits.Valid()
    ensures EngineInv(r)
    decreases |actions|
  {
    if actions == [] then e
    else
      var before := RunEngine(setup, e, actions[..|actions| - 1]);
      StepKeeps(setup, before, actions[|actions| - 1]);
      Step(setup, before, actions[|actions| - 1])
  }

  lemma StepMeaning(setup: Setup, e: Engine, a: Action)
    requires EngineInv(e) && setup.limits.Valid() && Meaning(setup.model, e)
    ensures e.s.pool.blockSize > 0 && Meaning(setup.model, Step(setup, e, a))
  {
    hide EngineInv;
    hide Meaning;
    EngineDimensions(e);
    match a
    case SubmitAction(sub, now) => SubmitMeaning(setup.model, e, sub, now);
    case CancelAction(id) => CancelMeaning(setup.model, e, id);
    case BeginAction(now, planNow) => if e.phase.Idle? { BeginMeaning(setup, e, now, planNow); }
    case DecodeExecAction(fault, omit) => if e.phase.DecodePending? { DecodeExecMeaning(setup, e, fault, omit); }
    case DecodeCommitAction => if e.phase.DecodeReturned? { DecodeCommitMeaning(setup, e); }
    case PrefillExecAction(fail, junk, omit) => if e.phase.PrefillPending? { PrefillExecMeaning(setup, e, fail, junk, omit); }
    case PrefillCommitAction => if e.phase.PrefillReturned? { PrefillCommitMeaning(setup, e); }
    case CleanupAction => if e.phase.Failing? { CleanupMeaning(setup.model, e); }
  }

  lemma EngineDimensions(e: Engine)
    requires EngineInv(e)
    ensures e.s.pool.blockSize > 0
  {
    InflightOwned(e.s);
  }

  lemma StartMeaning(m: Model, numBlocks: nat, blockSize: nat, cells: Cells)
    requires blockSize > 0 && StorageOk(EmptyPool(numBlocks, blockSize), cells)
    ensures Meaning(m, Start(numBlocks, blockSize, cells))
  {
  }

  lemma {:induction false} RunMeaning(setup: Setup, e: Engine, actions: seq<Action>)
    requires EngineInv(e) && setup.limits.Valid() && Meaning(setup.model, e)
    ensures Meaning(setup.model, RunEngine(setup, e, actions))
    decreases |actions|
  {
    hide EngineInv;
    hide Meaning;
    if actions != [] {
      RunMeaning(setup, e, actions[..|actions| - 1]);
      StepMeaning(setup, RunEngine(setup, e, actions[..|actions| - 1]), actions[|actions| - 1]);
    }
  }

  /** Continuous batching refines serving alone. In every run, however requests are batched,
      chunked, prioritised, cancelled or failed around it, a finished request generated exactly
      what it would have generated alone, and any other request a prefix of that. */
  lemma FinishedAsAlone(setup: Setup, numBlocks: nat, blockSize: nat, cells: Cells, actions: seq<Action>, id: Id)
    requires setup.limits.Valid() && blockSize > 0 && StorageOk(EmptyPool(numBlocks, blockSize), cells)
    ensures EngineInv(Start(numBlocks, blockSize, cells))
    ensures var e := RunEngine(setup, Start(numBlocks, blockSize, cells), actions);
      id in e.s.requests && e.s.requests[id].state != REJECTED ==>
        var r := e.s.requests[id];
        && r.prompt != []
        && r.generated <= RunAlone(setup.model, r)
        && (r.state == FINISHED ==> r.generated == RunAlone(setup.model, r))
  {
    hide EngineInv;
    hide PhaseMeaning;
    hide SamplersOk;
    hide RunAlone;
    StartInv(numBlocks, blockSize, cells);
    StartMeaning(setup.model, numBlocks, blockSize, cells);
    RunMeaning(setup, Start(numBlocks, blockSize, cells), actions);
    var e := RunEngine(setup, Start(numBlocks, blockSize, cells), actions);
    if id in e.s.requests { assert GeneratedOk(setup.model, e.s.requests[id]); }
  }
}
