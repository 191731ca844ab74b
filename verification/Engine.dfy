/** serving/engine.py as a state machine. `step` is cut at its awaits into atomic phases;
    `submit` and `cancel` may run between any two of them. */
module Engine {
  import opened Basics
  import opened PagedKV
  import opened PagedStorage
  import opened GraphBuckets
  import opened Scheduler
  import opened Executor

  datatype Reason = Stop | Length | CancelledBy | Timeout | Failure
  datatype Event = TokenEvent(token: Token) | FinishEvent(reason: Reason)

  /** The per-request sampler: its parameters and how often it was used. */
  datatype Sampler = Sampler(params: Sampling, draws: nat)

  datatype Metrics = Metrics(submitted: nat, rejected: nat, completed: nat, cancelled: nat, timedOut: nat,
                             failed: nat, promptTokens: nat, generatedTokens: nat)

  /** Where `step` stands. */
  datatype Phase =
    | Idle
    | DecodePending(plan: StepPlan, meta: Metadata)
    | DecodeReturned(plan: StepPlan, logits: map<Id, Logits>)
    | PrefillPending(plan: StepPlan)
    | PrefillReturned(plan: StepPlan, logits: map<Id, Logits>)
    | Failing(plan: StepPlan)
    | Crashed

  datatype Engine = Engine(s: Sched, cells: Cells, caches: Caches, samplers: map<Id, Sampler>,
                           events: map<Id, seq<Event>>, metrics: Metrics, phase: Phase)

  datatype Setup = Setup(limits: Limits, buckets: Buckets, model: Model)

  /** `fault`, `fail` and `junk` are an executor call that raises and what it leaves in its slots;
      `omit` are the ids that its result lacks, or whose sampler will raise: either way the commit
      raises at them and commits nothing more. */
  datatype Action =
    | SubmitAction(sub: Submission, now: real)
    | CancelAction(id: Id)
    | BeginAction(now: real, planNow: real)
    | DecodeExecAction(fault: Option<map<Slot, KV>>, omit: set<Id>)
    | DecodeCommitAction
    | PrefillExecAction(fail: Option<nat>, junk: map<Slot, KV>, omit: set<Id>)
    | PrefillCommitAction
    | CleanupAction

  // ----- submit and cancel -----

  ghost function SubmitStep(e: Engine, sub: Submission, now: real): Engine
    requires e.s.pool.blockSize > 0
  {
    var (s, r) := Submit(e.s, sub, now);
    if r == Raises(AdmissionError) then e.(s := s, metrics := e.metrics.(rejected := e.metrics.rejected + 1))
    else if r.Raises? then e
    else e.(s := s, events := e.events[sub.id := []], samplers := e.samplers[sub.id := Sampler(sub.sampling, 0)],
            metrics := e.metrics.(submitted := e.metrics.submitted + 1, promptTokens := e.metrics.promptTokens + |sub.prompt|))
  }

  /** `_finish_event` */
  function Finish(e: Engine, id: Id, reason: Reason): Engine {
    e.(caches := e.caches - {id},
       events := if id in e.events then e.events[id := e.events[id] + [FinishEvent(reason)]] else e.events)
  }

  ghost function CancelStep(e: Engine, id: Id): Engine {
    var (s, r) := Cancel(e.s, id);
    if r == Returns(true)
    then Finish(e.(s := s, metrics := e.metrics.(cancelled := e.metrics.cancelled + 1)), id, CancelledBy)
    else e
  }

  // ----- begin: expire, plan, metadata -----

  function FinishExpired(e: Engine, ids: seq<Id>): Engine
    decreases |ids|
  {
    if ids == [] then e
    else FinishExpired(Finish(e.(metrics := e.metrics.(timedOut := e.metrics.timedOut + 1)), ids[0], Timeout), ids[1..])
  }

  function TableWidth(p: Pool, plan: StepPlan): Option<int>
    requires p.blockSize > 0
  {
    if plan.sequence.None? then None else Some(Min2(p.numBlocks, CeilDiv(plan.sequence.value, p.blockSize)))
  }

  ghost function AfterPlan(e: Engine, plan: StepPlan): Phase
    requires e.s.pool.blockSize > 0
  {
    if plan.decode == [] && plan.prefill == [] then Idle
    else if plan.decode == [] then PrefillPending(plan)
    else
      var meta := MetadataFor(e.s.pool, DecodeIds(plan.decode), TableWidth(e.s.pool, plan));
      if meta.Raises? then Failing(plan) else DecodePending(plan, meta.value)
  }

  ghost function BeginStep(setup: Setup, e: Engine, now: real, planNow: real): Engine
    requires e.s.pool.blockSize > 0
  {
    var (s, expired) := Expire(e.s, now);
    ExpireKeepsDimensions(e.s, now, e.s.order, []);
    var e1 := FinishExpired(e.(s := s), expired);
    var (s2, plan) := Plan(setup.limits, setup.buckets, s, planNow);
    if plan.Raises? || s2.pool.blockSize == 0 then e1.(s := s2, phase := Crashed)
    else
      var e2 := e1.(s := s2);
      e2.(phase := AfterPlan(e2, plan.value))
  }

  // ----- executor calls -----

  ghost function DecodeExecStep(setup: Setup, e: Engine, fault: Option<map<Slot, KV>>, omit: set<Id>): Engine
    requires e.s.pool.blockSize > 0 && e.phase.DecodePending?
  {
    var (cells, caches, r) :=
      DecodeExec(setup.model, e.s.pool, e.cells, e.caches, e.phase.plan.decode, e.phase.meta, fault);
    e.(cells := cells, caches := caches,
       phase := if r.Raises? then Failing(e.phase.plan) else DecodeReturned(e.phase.plan, r.value - omit))
  }

  ghost function PrefillExecStep(setup: Setup, e: Engine, fail: Option<nat>, junk: map<Slot, KV>, omit: set<Id>): Engine
    requires e.phase.PrefillPending?
  {
    var (cells, caches, r) := PrefillExec(setup.model, e.cells, e.caches, map[], e.phase.plan.prefill, fail, junk);
    e.(cells := cells, caches := caches,
       phase := if r.Raises? then Failing(e.phase.plan) else PrefillReturned(e.phase.plan, r.value - omit))
  }

  // ----- commits -----

  /** `_record_token` */
  ghost function Record(e: Engine, id: Id, sample: Sample): (Engine, Outcome<()>)
    requires id in e.s.requests
  {
    var e1 := e.(metrics := e.metrics.(generatedTokens := e.metrics.generatedTokens + 1));
    if id !in e.events then (e1, Raises(KeyError))
    else
      var e2 := e1.(events := e.events[id := e.events[id] + [TokenEvent(sample.token)]]);
      if !e.s.requests[id].Finished() then (e2, Returns(()))
      else (Finish(e2.(metrics := e2.metrics.(completed := e2.metrics.completed + 1)), id,
                   if sample.stopped then Stop else Length), Returns(()))
  }

  /** The sample a request draws from `logits`. */
  function Draw(m: Model, e: Engine, id: Id, logits: Logits, history: seq<Token>): Sample
    requires id in e.samplers
  {
    m.sample(e.samplers[id].params, logits, history, e.samplers[id].draws)
  }

  function Drawn(e: Engine, id: Id): Engine
    requires id in e.samplers
  {
    e.(samplers := e.samplers[id := e.samplers[id].(draws := e.samplers[id].draws + 1)])
  }

  ghost function CommitDecodeItem(m: Model, e: Engine, w: DecodeWork, logits: map<Id, Logits>): (Engine, Outcome<()>) {
    if w.id !in e.s.requests || w.id !in e.samplers || w.id !in logits then (e, Raises(KeyError))
    else
      var r := e.s.requests[w.id];
      var sample := Draw(m, e, w.id, logits[w.id], r.prompt + r.generated);
      var (s, done) := CompleteDecode(e.s, w.id, sample.token, sample.stopped);
      if done.Raises? then (Drawn(e, w.id), done) else Record(Drawn(e, w.id).(s := s), w.id, sample)
  }

  ghost function CommitDecodes(m: Model, e: Engine, work: seq<DecodeWork>, logits: map<Id, Logits>): (Engine, Outcome<()>)
    decreases |work|
  {
    if work == [] then (e, Returns(()))
    else
      var (e1, r) := CommitDecodeItem(m, e, work[0], logits);
      if r.Raises? then (e1, r) else CommitDecodes(m, e1, work[1..], logits)
  }

  ghost function CommitPrefillItem(m: Model, e: Engine, w: PrefillWork, logits: map<Id, Logits>): (Engine, Outcome<()>) {
    var (s, last) := CompletePrefill(e.s, w.id, |w.tokens|);
    if last.Raises? then (e, Raises(last.error))
    else if !last.value then (e.(s := s), Returns(()))
    else if w.id !in logits then (e.(s := s), Raises(RuntimeError))
    else if w.id !in e.samplers then (e.(s := s), Raises(KeyError))
    else
      var sample := Draw(m, e, w.id, logits[w.id], s.requests[w.id].prompt);
      var (s2, done) := CompletePrefillSample(s, w.id, sample.token, sample.stopped);
      if done.Raises? then (Drawn(e, w.id).(s := s), done) else Record(Drawn(e, w.id).(s := s2), w.id, sample)
  }

  ghost function CommitPrefills(m: Model, e: Engine, work: seq<PrefillWork>, logits: map<Id, Logits>): (Engine, Outcome<()>)
    decreases |work|
  {
    if work == [] then (e, Returns(()))
    else
      var (e1, r) := CommitPrefillItem(m, e, work[0], logits);
      if r.Raises? then (e1, r) else CommitPrefills(m, e1, work[1..], logits)
  }

  ghost function DecodeCommitStep(setup: Setup, e: Engine): Engine
    requires e.phase.DecodeReturned?
  {
    var (e1, r) := CommitDecodes(setup.model, e, e.phase.plan.decode, e.phase.logits);
    e1.(phase := if r.Raises? then Failing(e.phase.plan)
                 else if e.phase.plan.prefill != [] then PrefillPending(e.phase.plan) else Idle)
  }

  ghost function PrefillCommitStep(setup: Setup, e: Engine): Engine
    requires e.phase.PrefillReturned?
  {
    var (e1, r) := CommitPrefills(setup.model, e, e.phase.plan.prefill, e.phase.logits);
    e1.(phase := if r.Raises? then Failing(e.phase.plan) else Idle)
  }

  // ----- error cleanup -----

  ghost function FailOne(e: Engine, id: Id): Engine {
    if id in e.s.requests && !e.s.requests[id].Finished()
    then Finish(e.(s := Terminate(e.s, id, FAILED), metrics := e.metrics.(failed := e.metrics.failed + 1)), id, Failure)
    else e
  }

  ghost function FailAll(e: Engine, ids: seq<Id>): Engine
    decreases |ids|
  {
    if ids == [] then e else FailAll(FailOne(e, ids[0]), ids[1..])
  }

  ghost function CleanupStep(e: Engine): Engine
    requires e.phase.Failing?
  {
    FailAll(e, PlanIds(e.phase.plan)).(phase := Idle)
  }

  // ----- the machine -----

  /** An action that its phase does not allow changes nothing. */
  ghost function Step(setup: Setup, e: Engine, a: Action): Engine
    requires e.s.pool.blockSize > 0
  {
    match a
    case SubmitAction(sub, now) => SubmitStep(e, sub, now)
    case CancelAction(id) => CancelStep(e, id)
    case BeginAction(now, planNow) => if e.phase.Idle? then BeginStep(setup, e, now, planNow) else e
    case DecodeExecAction(fault, omit) => if e.phase.DecodePending? then DecodeExecStep(setup, e, fault, omit) else e
    case DecodeCommitAction => if e.phase.DecodeReturned? then DecodeCommitStep(setup, e) else e
    case PrefillExecAction(fail, junk, omit) =>
      if e.phase.PrefillPending? then PrefillExecStep(setup, e, fail, junk, omit) else e
    case PrefillCommitAction => if e.phase.PrefillReturned? then PrefillCommitStep(setup, e) else e
    case CleanupAction => if e.phase.Failing? then CleanupStep(e) else e
  }
}
