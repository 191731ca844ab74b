/** Round-robin fairness: between two turns of one request, every request of the same priority
    that waits in the same queue gets a turn. */
module Fairness {
  import opened Basics
  import opened PagedKV
  import opened PagedStorage
  import opened Scheduler
  import opened SchedulerInvariant
  import opened PlanInvariant
  import opened Executor
  import opened Engine
  import opened EngineInvariant
  import opened Refinement
  import opened ContinuousBatching
  import opened Evolution
  import opened Feeding

  // ----- the stable sort -----

  ghost predicate SortedByPriority(requests: map<Id, Request>, q: seq<Id>) {
    forall i, j :: 0 <= i < j < |q| ==> Priority(requests, q[i]) >= Priority(requests, q[j])
  }

  lemma {:induction false} InsertSorted(requests: map<Id, Request>, id: Id, q: seq<Id>)
    requires SortedByPriority(requests, q)
    ensures SortedByPriority(requests, InsertByPriority(requests, id, q))
    ensures forall x :: x in InsertByPriority(requests, id, q) <==> x == id || x in q
  {
    if q != [] && Priority(requests, id) < Priority(requests, q[0]) {
      InsertSorted(requests, id, q[1..]);
      var rest := InsertByPriority(requests, id, q[1..]);
      assert q == [q[0]] + q[1..];
      forall j | 0 <= j < |rest|
        ensures Priority(requests, q[0]) >= Priority(requests, rest[j])
      {
        assert rest[j] in rest;
        if rest[j] != id { assert exists k :: 0 <= k < |q[1..]| && q[1..][k] == rest[j]; }
      }
    }
  }

  lemma {:induction false} InsertKeepsOrder(requests: map<Id, Request>, id: Id, q: seq<Id>, a: Id, b: Id)
    requires Before(q, a, b)
    ensures Before(InsertByPriority(requests, id, q), a, b)
  {
    var i, j :| 0 <= i < j < |q| && q[i] == a && q[j] == b;
    var r := InsertByPriority(requests, id, q);
    if Priority(requests, id) >= Priority(requests, q[0]) {
      assert r[i + 1] == a && r[j + 1] == b;
    } else {
      var rest := InsertByPriority(requests, id, q[1..]);
      InsertHas(requests, id, q[1..], b, j - 1);
      var k :| 0 <= k < |rest| && rest[k] == b;
      if i == 0 {
        assert r[0] == a && r[k + 1] == b;
      } else {
        assert q[1..][i - 1] == a && q[1..][j - 1] == b;
        InsertKeepsOrder(requests, id, q[1..], a, b);
        var i', j' :| 0 <= i' < j' < |rest| && rest[i'] == a && rest[j'] == b;
        assert r[i' + 1] == a && r[j' + 1] == b;
      }
    }
  }

  lemma {:induction false} InsertHas(requests: map<Id, Request>, id: Id, q: seq<Id>, x: Id, i: nat)
    requires i < |q| && q[i] == x
    ensures exists k :: 0 <= k < |InsertByPriority(requests, id, q)| && InsertByPriority(requests, id, q)[k] == x
  {
    var r := InsertByPriority(requests, id, q);
    if Priority(requests, id) >= Priority(requests, q[0]) {
      assert r[i + 1] == x;
    } else if i == 0 {
      assert r[0] == x;
    } else {
      InsertHas(requests, id, q[1..], x, i - 1);
      var rest := InsertByPriority(requests, id, q[1..]);
      var k :| 0 <= k < |rest| && rest[k] == x;
      assert r[k + 1] == x;
    }
  }

  lemma {:induction false} InsertGoesFirst(requests: map<Id, Request>, id: Id, q: seq<Id>, x: Id)
    requires x in q && Priority(requests, id) >= Priority(requests, x) && SortedByPriority(requests, q)
    ensures Before(InsertByPriority(requests, id, q), id, x)
  {
    var i :| 0 <= i < |q| && q[i] == x;
    var r := InsertByPriority(requests, id, q);
    if Priority(requests, id) >= Priority(requests, q[0]) {
      assert r[0] == id && r[i + 1] == x;
    } else {
      assert i > 0;
      assert q[1..][i - 1] == x;
      InsertGoesFirst(requests, id, q[1..], x);
      var rest := InsertByPriority(requests, id, q[1..]);
      var i', j' :| 0 <= i' < j' < |rest| && rest[i'] == id && rest[j'] == x;
      assert r[i' + 1] == id && r[j' + 1] == x;
    }
  }

  /** The sort puts higher priorities first, and never swaps two requests unless the later one
      has the higher priority. */
  lemma {:induction false} SortIsStable(requests: map<Id, Request>, q: seq<Id>)
    ensures SortedByPriority(requests, ByPriority(requests, q))
    ensures forall x :: x in ByPriority(requests, q) <==> x in q
    ensures forall a, b :: Before(q, a, b) && Priority(requests, a) >= Priority(requests, b) ==> Before(ByPriority(requests, q), a, b)
  {
    hide Priority;
    if q != [] {
      var rest := ByPriority(requests, q[1..]);
      SortIsStable(requests, q[1..]);
      InsertSorted(requests, q[0], rest);
      assert q == [q[0]] + q[1..];
      forall a, b | Before(q, a, b) && Priority(requests, a) >= Priority(requests, b)
        ensures Before(ByPriority(requests, q), a, b)
      {
        SortStep(requests, q, rest, a, b);
      }
    }
  }

  lemma SortStep(requests: map<Id, Request>, q: seq<Id>, rest: seq<Id>, a: Id, b: Id)
    requires q != [] && Before(q, a, b) && Priority(requests, a) >= Priority(requests, b)
    requires SortedByPriority(requests, rest) && (forall x :: x in rest <==> x in q[1..])
    requires Before(q[1..], a, b) ==> Before(rest, a, b)
    ensures Before(InsertByPriority(requests, q[0], rest), a, b)
  {
    var i, j :| 0 <= i < j < |q| && q[i] == a && q[j] == b;
    if i == 0 {
      assert q[1..][j - 1] == b;
      InsertGoesFirst(requests, q[0], rest, b);
    } else {
      assert q[1..][i - 1] == a && q[1..][j - 1] == b;
      InsertKeepsOrder(requests, q[0], rest, a, b);
    }
  }

  // ----- one step -----

  /** The queue of PREFILL or of DECODE, and the turns a plan took from it. */
  function Queue(s: Sched, state: RequestState): seq<Id> {
    if state == PREFILL then s.prefill else s.decode
  }

  function Turns(plan: StepPlan, state: RequestState): seq<Id> {
    if state == PREFILL then PrefillIds(plan.prefill) else DecodeIds(plan.decode)
  }

  lemma {:induction false} ExpireOrder(s: Sched, now: real, ids: seq<Id>, expired: seq<Id>, state: RequestState, a: Id, b: Id)
    requires SchedInv(s)
    ensures a in Queue(ExpireFrom(s, now, ids, expired).0, state) ==> a in Queue(s, state)
    ensures var q' := Queue(ExpireFrom(s, now, ids, expired).0, state);
      Before(Queue(s, state), a, b) && a in q' && b in q' ==> Before(q', a, b)
    decreases |ids|
  {
    hide SchedInv;
    hide Before;
    if ids != [] {
      if ids[0] in s.requests && Due(s.requests[ids[0]], now) {
        var s1 := Terminate(s, ids[0], TIMED_OUT);
        TerminateKeeps(s, ids[0], TIMED_OUT);
        ExpireOrder(s1, now, ids[1..], expired + [ids[0]], state, a, b);
        ExpireOrder(s1, now, ids[1..], expired + [ids[0]], state, b, a);
        QueuesNoDup(s);
        RemoveMembers(Queue(s, state), ids[0]);
        assert Queue(s1, state) == Remove(Queue(s, state), ids[0]);
        if Before(Queue(s, state), a, b) && a != ids[0] && b != ids[0] {
          RemoveKeepsOrder(Queue(s, state), ids[0], a, b);
        }
      } else {
        ExpireOrder(s, now, ids[1..], expired, state, a, b);
      }
    }
  }

  lemma TurnedSplit(q: seq<Id>, n: nat, q': seq<Id>, ids: seq<Id>, k: nat)
    requires Turned(q, n, q', [], ids) && NoDup(q) && k < |q|
    ensures n <= |q| && ids == q[..n] && |q'| == |q|
    ensures q[k] in ids <==> k < n
    ensures if k < n then q'[|q| - n + k] == q[k] else q'[k - n] == q[k]
  {
    hide NoDup;
    assert ids == q[..n];
    if k < n {
      assert ids[k] == q[k];
      assert q'[|q| - n + k] == q[..n][k];
    } else {
      assert q'[k - n] == q[n..][k - n];
    }
    if q[k] in ids {
      var x :| 0 <= x < |ids| && ids[x] == q[k];
      SamePlace(q, x, k);
    }
  }

  lemma SamePlace(q: seq<Id>, x: nat, k: nat)
    requires NoDup(q) && x < |q| && k < |q| && q[x] == q[k]
    ensures x == k
  {
  }

  lemma TurnedFacts(q: seq<Id>, n: nat, q': seq<Id>, ids: seq<Id>, a: Id, b: Id)
    requires Turned(q, n, q', [], ids) && NoDup(q) && Before(q, a, b)
    ensures b in ids ==> Before(ids, a, b)
    ensures a !in ids && b !in ids ==> Before(q', a, b)
    ensures a in ids && b !in ids ==> Before(q', b, a)
  {
    hide Turned;
    hide NoDup;
    var i, j :| 0 <= i < j < |q| && q[i] == a && q[j] == b;
    TurnedSplit(q, n, q', ids, i);
    TurnedSplit(q, n, q', ids, j);
    if b in ids {
      assert ids[i] == a && ids[j] == b;
    } else if a in ids {
      assert q'[j - n] == b && q'[|q| - n + i] == a;
    } else {
      assert q'[i - n] == a && q'[j - n] == b;
    }
  }

  lemma OneComesFirst(q: seq<Id>, a: Id, b: Id)
    requires a in q && b in q && a != b
    ensures Before(q, a, b) || Before(q, b, a)
  {
    var i :| 0 <= i < |q| && q[i] == a;
    var j :| 0 <= j < |q| && q[j] == b;
  }

  lemma BegunTurns(setup: Setup, e: Engine, now: real, planNow: real, s1: Sched, s2: Sched, plan: StepPlan, e': Engine,
                   state: RequestState) returns (q: seq<Id>)
    requires Begun(setup, e, now, planNow, s1, s2, plan, e') && SchedInv(s1) && SchedInv(Expire(s1, planNow).0)
    requires state == PREFILL || state == DECODE
    ensures q == ByPriority(Expire(s1, planNow).0.requests, Queue(Expire(s1, planNow).0, state))
    ensures Turned(q, |Turns(plan, state)|, Queue(s2, state), [], Turns(plan, state)) && NoDup(q)
    ensures s2.requests == Expire(s1, planNow).0.requests
  {
    hide SchedInv;
    hide PlanOk;
    hide Plan;
    hide PlanReady;
    hide Turned;
    var s3 := Expire(s1, planNow).0;
    QueuesNoDup(s3);
    q := ByPriority(s3.requests, Queue(s3, state));
    SortMembers(s3.requests, Queue(s3, state));
  }

  /** Order before the turns of a begun step: as in the queue, for requests that stay and of
      which the first has no lower priority. */
  lemma BegunOrder(setup: Setup, e: Engine, now: real, planNow: real, s1: Sched, s2: Sched, plan: StepPlan, e': Engine,
                   state: RequestState, q: seq<Id>, a: Id, b: Id)
    requires Begun(setup, e, now, planNow, s1, s2, plan, e') && SchedInv(e.s) && SchedInv(s1)
    requires state == PREFILL || state == DECODE
    requires q == ByPriority(Expire(s1, planNow).0.requests, Queue(Expire(s1, planNow).0, state))
    requires Before(Queue(e.s, state), a, b) && a in q && b in q
    requires Priority(Expire(s1, planNow).0.requests, a) >= Priority(Expire(s1, planNow).0.requests, b)
    ensures Before(q, a, b)
  {
    hide SchedInv;
    hide PlanOk;
    hide Plan;
    hide PlanReady;
    hide PlanTurns;
    hide Before;
    hide Priority;
    var s3 := Expire(s1, planNow).0;
    SortIsStable(s3.requests, Queue(s3, state));
    ExpireOrder(s1, planNow, s1.order, [], state, a, b);
    ExpireOrder(s1, planNow, s1.order, [], state, b, a);
    ExpireOrder(e.s, now, e.s.order, [], state, a, b);
  }

  /** The turns one action hands out, in order. */
  function NewTurns(e: Engine, e': Engine, state: RequestState): seq<Id> {
    if NewPlan(e, e').None? then [] else Turns(NewPlan(e, e').value, state)
  }

  lemma TurnedMembers(q: seq<Id>, n: nat, q': seq<Id>, ids: seq<Id>)
    requires Turned(q, n, q', [], ids)
    ensures forall x :: x in q <==> x in q'
    ensures forall x :: x in ids ==> x in q
  {
    assert q == q[..n] + q[n..];
  }

  /** What the turns taken from a queue `q` do to two of its requests. */
  ghost predicate PairTurned(q: seq<Id>, turns: seq<Id>, q': seq<Id>, y: Id, x: Id) {
    && (x in turns ==> Before(turns, x, y) || Before(q', y, x))
    && (Before(q, y, x) ==>
          && (x in turns ==> Before(turns, y, x))
          && (x !in turns && y !in turns ==> Before(q', y, x)))
  }

  lemma TurnPair(q: seq<Id>, n: nat, q': seq<Id>, turns: seq<Id>, y: Id, x: Id)
    requires Turned(q, n, q', [], turns) && NoDup(q) && y != x && y in q && x in q
    ensures PairTurned(q, turns, q', y, x)
  {
    hide Before;
    hide Turned;
    OneComesFirst(q, y, x);
    if Before(q, y, x) {
      TurnedFacts(q, n, q', turns, y, x);
      if x in turns { BeforeBoth(q, n, q', turns, y, x); }
    } else {
      TurnedFacts(q, n, q', turns, x, y);
    }
  }

  /** Two requests that both had their turn keep their order behind the others. */
  lemma BeforeBoth(q: seq<Id>, n: nat, q': seq<Id>, turns: seq<Id>, y: Id, x: Id)
    requires Turned(q, n, q', [], turns) && Before(turns, y, x)
    ensures Before(q', y, x)
  {
    hide Turned;
    var i, j :| 0 <= i < j < |turns| && turns[i] == y && turns[j] == x;
    TurnedBehind(q, n, q', turns, i);
    TurnedBehind(q, n, q', turns, j);
    assert q'[|q| - n + i] == y && q'[|q| - n + j] == x;
  }

  lemma TurnedBehind(q: seq<Id>, n: nat, q': seq<Id>, turns: seq<Id>, i: nat)
    requires Turned(q, n, q', [], turns) && i < |turns|
    ensures n <= |q| && |turns| == n && |q'| == |q| && q'[|q| - n + i] == turns[i]
  {
    assert turns == q[..n];
  }

  /** What one begun step does to two requests of one queue that stay there. */
  ghost predicate StepTurned(q: seq<Id>, turns: seq<Id>, q': seq<Id>, noLower: bool, y: Id, x: Id) {
    y in q' && x in q' ==>
      && (x in turns ==> Before(turns, x, y) || Before(q', y, x))
      && (Before(q, y, x) && noLower ==>
            && (x in turns ==> Before(turns, y, x))
            && (x !in turns && y !in turns ==> Before(q', y, x)))
  }

  ghost predicate NoLower(e: Engine, y: Id, x: Id) {
    y in e.s.requests && x in e.s.requests && e.s.requests[y].priority >= e.s.requests[x].priority
  }

  lemma NoLowerSorts(e: Engine, y: Id, x: Id)
    requires NoLower(e, y, x)
    ensures Priority(e.s.requests, y) >= Priority(e.s.requests, x)
  {
  }

  /** A beginning step serves each queue in order, as far as priorities do not say otherwise: who
      waits earlier and has no lower priority gets its turn earlier, and stays ahead of who gets
      none either; and whoever had a turn then waits behind all who had none or had theirs before. */
  lemma BeginTurns(setup: Setup, e: Engine, now: real, planNow: real, state: RequestState, y: Id, x: Id)
    requires EngineInv(e) && e.phase.Idle? && setup.limits.Valid() && (state == PREFILL || state == DECODE)
    requires y != x
    ensures e.s.pool.blockSize > 0
    ensures var e' := BeginStep(setup, e, now, planNow);
      StepTurned(Queue(e.s, state), NewTurns(e, e', state), Queue(e'.s, state),
                 NoLower(e', y, x), y, x)
  {
    hide SchedInv;
    hide KeysOk;
    hide Begun;
    hide Before;
    hide Turned;
    hide Priority;
    hide NoLower;
    hide PlanOk;
    InflightOwned(e.s);
    var s1, s2, plan := BeginOutcome(setup, e, now, planNow);
    var e' := BeginStep(setup, e, now, planNow);
    BegunPlan(setup, e, now, planNow, s1, s2, plan, e');
    BegunReady(setup, e, now, planNow, s1, s2, plan, e');
    var q := BegunTurns(setup, e, now, planNow, s1, s2, plan, e', state);
    TurnsShown(e, e', plan, state);
    TurnedMembers(q, |Turns(plan, state)|, Queue(s2, state), Turns(plan, state));
    if y in Queue(s2, state) && x in Queue(s2, state) {
      TurnPair(q, |Turns(plan, state)|, Queue(s2, state), Turns(plan, state), y, x);
      if Before(Queue(e.s, state), y, x) && NoLower(e', y, x) {
        NoLowerSorts(e', y, x);
        BegunOrder(setup, e, now, planNow, s1, s2, plan, e', state, q, y, x);
      }
    }
  }

  lemma BegunReady(setup: Setup, e: Engine, now: real, planNow: real, s1: Sched, s2: Sched, plan: StepPlan, e': Engine)
    requires Begun(setup, e, now, planNow, s1, s2, plan, e')
    ensures SchedInv(s1) && SchedInv(Expire(s1, planNow).0)
  {
    hide SoFar;
    hide PlanOk;
    hide Plan;
    ExpireReady(s1, planNow, s1.order, []);
  }

  lemma TurnsShown(e: Engine, e': Engine, plan: StepPlan, state: RequestState)
    requires NewPlan(e, e') == if plan.decode == [] && plan.prefill == [] then None else Some(plan)
    ensures NewTurns(e, e', state) == Turns(plan, state)
  {
  }

  // ----- priorities and stages never go back -----

  ghost predicate Onward(e: Engine, e': Engine) {
    forall id :: id in e.s.requests ==>
      && id in e'.s.requests && e'.s.requests[id].priority == e.s.requests[id].priority
      && Stage(e'.s.requests[id].state) >= Stage(e.s.requests[id].state)
  }

  lemma StepOnward(setup: Setup, e: Engine, a: Action)
    requires EngineInv(e) && setup.limits.Valid()
    ensures e.s.pool.blockSize > 0 && Onward(e, Step(setup, e, a))
  {
    hide EngineInv;
    hide Onward;
    EngineDimensions(e);
    if a.SubmitAction? {
      SubmitOnward(e, a.sub, a.now);
    } else if a.BeginAction? && e.phase.Idle? {
      BeginOnward(setup, e, a.now, a.planNow);
    } else {
      StepEvolves(setup, e, a);
      EvolvesOnward(e, Step(setup, e, a));
    }
  }

  lemma EvolvesOnward(e: Engine, e': Engine)
    requires Evolves(e, e')
    ensures Onward(e, e')
  {
    hide ToGo;
    hide QueueEvolves;
    forall id | id in e.s.requests
      ensures id in e'.s.requests && e'.s.requests[id].priority == e.s.requests[id].priority
      ensures Stage(e'.s.requests[id].state) >= Stage(e.s.requests[id].state)
    {
      assert Unmoved(e, e', id) || Moved(e.s.requests[id], e'.s.requests[id]);
    }
  }

  lemma SubmitOnward(e: Engine, sub: Submission, now: real)
    requires e.s.pool.blockSize > 0
    ensures Onward(e, SubmitStep(e, sub, now))
  {
  }

  lemma BeginOnward(setup: Setup, e: Engine, now: real, planNow: real)
    requires EngineInv(e) && e.phase.Idle? && setup.limits.Valid()
    ensures e.s.pool.blockSize > 0 && Onward(e, BeginStep(setup, e, now, planNow))
  {
    hide EngineInv;
    hide Begun;
    hide BeginStep;
    hide Onward;
    hide OnlyExpired;
    hide PlanOk;
    EngineDimensions(e);
    var s1, s2, plan := BeginOutcome(setup, e, now, planNow);
    BegunPlan(setup, e, now, planNow, s1, s2, plan, BeginStep(setup, e, now, planNow));
    BegunRequests(setup, e, now, planNow, s1, s2, plan, BeginStep(setup, e, now, planNow));
    ExpiredOnward(e, BeginStep(setup, e, now, planNow));
  }

  lemma ExpiredOnward(e: Engine, e': Engine)
    requires OnlyExpired(e.s, e'.s)
    ensures Onward(e, e')
  {
  }

  lemma IdleEngine(e: Engine)
    requires EngineInv(e)
    ensures SchedInv(e.s)
  {
  }

  // ----- whole runs -----

  /** The engine after the first `k` actions, and the turns action `k` hands out. */
  ghost function At(setup: Setup, e0: Engine, actions: seq<Action>, k: nat): (e: Engine)
    requires EngineInv(e0) && setup.limits.Valid() && k <= |actions|
    ensures EngineInv(e)
  {
    RunEngine(setup, e0, actions[..k])
  }

  ghost function TurnsAt(setup: Setup, e0: Engine, actions: seq<Action>, k: nat, state: RequestState): seq<Id>
    requires EngineInv(e0) && setup.limits.Valid() && k < |actions|
  {
    NewTurns(At(setup, e0, actions, k), At(setup, e0, actions, k + 1), state)
  }

  lemma AtNext(setup: Setup, e0: Engine, actions: seq<Action>, k: nat)
    requires EngineInv(e0) && setup.limits.Valid() && k < |actions|
    ensures At(setup, e0, actions, k).s.pool.blockSize > 0
    ensures At(setup, e0, actions, k + 1) == Step(setup, At(setup, e0, actions, k), actions[k])
  {
    hide EngineInv;
    EngineDimensions(At(setup, e0, actions, k));
    assert actions[..k + 1][..k] == actions[..k];
  }

  /** `id` waits in the queue from after action `i` until after action `j`. */
  ghost predicate Waits(setup: Setup, e0: Engine, actions: seq<Action>, state: RequestState, id: Id, i: nat, j: nat)
    requires EngineInv(e0) && setup.limits.Valid() && i <= j < |actions|
  {
    forall k :: i < k <= j + 1 ==> id in Queue(At(setup, e0, actions, k).s, state)
  }

  /** One action of a run, seen by a waiting pair: turns only when a step begins, and otherwise
      the order stays. */
  lemma PairStep(setup: Setup, e: Engine, a: Action, state: RequestState, y: Id, x: Id)
    requires EngineInv(e) && setup.limits.Valid() && (state == PREFILL || state == DECODE) && y != x
    ensures e.s.pool.blockSize > 0
    ensures var e' := Step(setup, e, a);
      StepTurned(Queue(e.s, state), NewTurns(e, e', state), Queue(e'.s, state),
                 NoLower(e', y, x), y, x)
  {
    hide EngineInv;
    hide Before;
    hide NoLower;
    hide Evolves;
    EngineDimensions(e);
    if a.BeginAction? && e.phase.Idle? {
      BeginTurns(setup, e, a.now, a.planNow, state, y, x);
    } else if a.SubmitAction? {
      SubmitQueues(e, a.sub, a.now, state, y, x);
    } else {
      StepEvolves(setup, e, a);
      EvolvedQueues(e, Step(setup, e, a), state, y, x);
    }
  }

  lemma SubmitQueues(e: Engine, sub: Submission, now: real, state: RequestState, y: Id, x: Id)
    requires e.s.pool.blockSize > 0
    ensures NewTurns(e, SubmitStep(e, sub, now), state) == []
    ensures Before(Queue(e.s, state), y, x) ==> Before(Queue(SubmitStep(e, sub, now).s, state), y, x)
  {
    hide Before;
    if Before(Queue(e.s, state), y, x) { AppendKeepsOrder(Queue(e.s, state), sub.id, y, x); }
  }

  lemma EvolvedQueues(e: Engine, e': Engine, state: RequestState, y: Id, x: Id)
    requires Evolves(e, e') && (e.phase.Idle? ==> e'.phase.Idle?) && (state == PREFILL || state == DECODE)
    ensures NewTurns(e, e', state) == []
    ensures Before(Queue(e.s, state), y, x) && y in Queue(e'.s, state) && x in Queue(e'.s, state) ==>
      Before(Queue(e'.s, state), y, x)
  {
    hide Before;
    hide Moved;
  }

  /** While `y` is ahead of `x`, `x` gets no turn before `y` does. */
  lemma {:induction false} AheadIsServed(setup: Setup, e0: Engine, actions: seq<Action>, state: RequestState, y: Id, x: Id, i: nat, j: nat)
    returns (k: nat)
    requires EngineInv(e0) && setup.limits.Valid() && (state == PREFILL || state == DECODE) && y != x
    requires i < j < |actions| && Waits(setup, e0, actions, state, y, i, j) && Waits(setup, e0, actions, state, x, i, j)
    requires forall n :: i < n <= j + 1 ==> SamePriority(At(setup, e0, actions, n), y, x)
    requires Before(Queue(At(setup, e0, actions, i + 1).s, state), y, x)
    requires x in TurnsAt(setup, e0, actions, j, state)
    requires forall n :: i < n < j ==> x !in TurnsAt(setup, e0, actions, n, state)
    ensures i < k <= j && y in TurnsAt(setup, e0, actions, k, state)
    ensures k == j ==> Before(TurnsAt(setup, e0, actions, k, state), y, x)
    decreases j - i
  {
    hide EngineInv;
    hide Before;
    hide At;
    hide Queue;
    hide NewTurns;
    var n := i + 1;
    AtNext(setup, e0, actions, n);
    PairStep(setup, At(setup, e0, actions, n), actions[n], state, y, x);
    assert SamePriority(At(setup, e0, actions, n + 1), y, x);
    if n == j {
      k := j;
      BeforeIn(TurnsAt(setup, e0, actions, j, state), y, x);
    } else if y in TurnsAt(setup, e0, actions, n, state) {
      k := n;
    } else {
      k := AheadIsServed(setup, e0, actions, state, y, x, n, j);
    }
  }

  ghost predicate SamePriority(e: Engine, y: Id, x: Id) {
    y in e.s.requests && x in e.s.requests && e.s.requests[y].priority == e.s.requests[x].priority
  }

  /** `y` gets turn `k`, after `x` if it is the turn `i` and before `x` if it is the turn `j`. */
  ghost predicate ServedBetween(setup: Setup, e0: Engine, actions: seq<Action>, state: RequestState, y: Id, x: Id, i: nat, j: nat, k: nat)
    requires EngineInv(e0) && setup.limits.Valid() && i < j < |actions|
  {
    && i <= k <= j && y in TurnsAt(setup, e0, actions, k, state)
    && (k == i ==> Before(TurnsAt(setup, e0, actions, i, state), x, y))
    && (k == j ==> Before(TurnsAt(setup, e0, actions, j, state), y, x))
  }

  /** Round-robin fairness over whole runs, for prefill chunks (`state` PREFILL) and decode turns
      (`state` DECODE): between two consecutive turns of `x`, every request `y` of the same
      priority that waits in the same queue all along gets a turn. */
  lemma RoundRobin(setup: Setup, e0: Engine, actions: seq<Action>, state: RequestState, y: Id, x: Id, i: nat, j: nat)
    requires EngineInv(e0) && setup.limits.Valid() && (state == PREFILL || state == DECODE) && y != x
    requires i < j < |actions| && Waits(setup, e0, actions, state, y, i, j)
    requires SamePriority(At(setup, e0, actions, i + 1), y, x)
    requires x in TurnsAt(setup, e0, actions, i, state) && x in TurnsAt(setup, e0, actions, j, state)
    requires forall n :: i < n < j ==> x !in TurnsAt(setup, e0, actions, n, state)
    ensures exists k :: ServedBetween(setup, e0, actions, state, y, x, i, j, k)
  {
    hide EngineInv;
    hide Before;
    hide At;
    AtNext(setup, e0, actions, i);
    TurnsWait(setup, e0, actions, state, x, i, j);
    PairStep(setup, At(setup, e0, actions, i), actions[i], state, y, x);
    var k: nat;
    if Before(TurnsAt(setup, e0, actions, i, state), x, y) {
      k := i;
      BeforeIn(TurnsAt(setup, e0, actions, i, state), x, y);
    } else {
      PrioritiesStay(setup, e0, actions, state, y, x, i, j);
      k := AheadIsServed(setup, e0, actions, state, y, x, i, j);
    }
    assert ServedBetween(setup, e0, actions, state, y, x, i, j, k);
  }

  // ----- a request that gets turns waits in between -----

  lemma TurnTaken(setup: Setup, e: Engine, a: Action, state: RequestState, x: Id)
    requires EngineInv(e) && setup.limits.Valid() && (state == PREFILL || state == DECODE)
    requires e.s.pool.blockSize > 0 && x in NewTurns(e, Step(setup, e, a), state)
    ensures x in Queue(Step(setup, e, a).s, state)
  {
    hide EngineInv;
    hide Evolves;
    hide Begun;
    hide PlanOk;
    hide Turned;
    EngineDimensions(e);
    if a.BeginAction? && e.phase.Idle? {
      IdleEngine(e);
      var s1, s2, plan := BeginOutcome(setup, e, a.now, a.planNow);
      var e' := Step(setup, e, a);
      BegunPlan(setup, e, a.now, a.planNow, s1, s2, plan, e');
      BegunReady(setup, e, a.now, a.planNow, s1, s2, plan, e');
      var q := BegunTurns(setup, e, a.now, a.planNow, s1, s2, plan, e', state);
      TurnsShown(e, e', plan, state);
      TurnedMembers(q, |Turns(plan, state)|, Queue(s2, state), Turns(plan, state));
    } else if a.SubmitAction? {
      SubmitQueues(e, a.sub, a.now, state, x, x);
    } else {
      StepEvolves(setup, e, a);
      EvolvedQueues(e, Step(setup, e, a), state, x, x);
    }
  }

  lemma {:induction false} OnwardRun(setup: Setup, e0: Engine, actions: seq<Action>, a: nat, b: nat, id: Id)
    requires EngineInv(e0) && setup.limits.Valid() && a <= b <= |actions| && id in At(setup, e0, actions, a).s.requests
    ensures id in At(setup, e0, actions, b).s.requests
    ensures Stage(At(setup, e0, actions, b).s.requests[id].state) >= Stage(At(setup, e0, actions, a).s.requests[id].state)
    decreases b - a
  {
    hide EngineInv;
    hide At;
    hide Stage;
    if a < b {
      OnwardRun(setup, e0, actions, a, b - 1, id);
      AtNext(setup, e0, actions, b - 1);
      StepOnward(setup, At(setup, e0, actions, b - 1), actions[b - 1]);
    }
  }

  lemma QueuedAfterTurn(setup: Setup, e0: Engine, actions: seq<Action>, state: RequestState, x: Id, i: nat)
    requires EngineInv(e0) && setup.limits.Valid() && (state == PREFILL || state == DECODE) && i < |actions|
    requires x in TurnsAt(setup, e0, actions, i, state)
    ensures x in Queue(At(setup, e0, actions, i + 1).s, state)
  {
    hide EngineInv;
    hide At;
    hide Queue;
    hide NewTurns;
    hide Step;
    AtNext(setup, e0, actions, i);
    TurnTaken(setup, At(setup, e0, actions, i), actions[i], state, x);
  }

  lemma TurnsWait(setup: Setup, e0: Engine, actions: seq<Action>, state: RequestState, x: Id, i: nat, j: nat)
    requires EngineInv(e0) && setup.limits.Valid() && (state == PREFILL || state == DECODE) && i < j < |actions|
    requires x in TurnsAt(setup, e0, actions, i, state) && x in TurnsAt(setup, e0, actions, j, state)
    ensures Waits(setup, e0, actions, state, x, i, j)
  {
    hide EngineInv;
    hide At;
    hide TurnsAt;
    hide Queue;
    QueuedAfterTurn(setup, e0, actions, state, x, i);
    QueuedAfterTurn(setup, e0, actions, state, x, j);
    forall k | i < k <= j + 1
      ensures x in Queue(At(setup, e0, actions, k).s, state)
    {
      WaitsAt(setup, e0, actions, state, x, i + 1, k, j + 1);
    }
  }

  lemma WaitsAt(setup: Setup, e0: Engine, actions: seq<Action>, state: RequestState, x: Id, a: nat, k: nat, b: nat)
    requires EngineInv(e0) && setup.limits.Valid() && (state == PREFILL || state == DECODE) && a <= k <= b <= |actions|
    requires x in Queue(At(setup, e0, actions, a).s, state) && x in Queue(At(setup, e0, actions, b).s, state)
    ensures x in Queue(At(setup, e0, actions, k).s, state)
  {
    hide EngineInv;
    hide At;
    hide Queue;
    QueuedState(At(setup, e0, actions, a), state, x);
    QueuedState(At(setup, e0, actions, b), state, x);
    QueuedState(At(setup, e0, actions, k), state, x);
    OnwardRun(setup, e0, actions, a, k, x);
    OnwardRun(setup, e0, actions, k, b, x);
    StageIsState(At(setup, e0, actions, k).s.requests[x].state, state);
  }

  lemma StageIsState(s: RequestState, state: RequestState)
    requires Stage(s) == Stage(state) && (state == PREFILL || state == DECODE)
    ensures s == state
  {
  }

  lemma QueuedState(e: Engine, state: RequestState, id: Id)
    requires EngineInv(e) && (state == PREFILL || state == DECODE)
    ensures id in Queue(e.s, state) <==> id in e.s.requests && e.s.requests[id].state == state
  {
    hide PoolInv;
    hide RequestsOk;
    hide ReservedOk;
    hide OwnersOk;
    hide PhaseInv;
    hide KeysOk;
  }

  lemma PrioritiesStay(setup: Setup, e0: Engine, actions: seq<Action>, state: RequestState, y: Id, x: Id, i: nat, j: nat)
    requires EngineInv(e0) && setup.limits.Valid() && (state == PREFILL || state == DECODE)
    requires i <= j < |actions| && Waits(setup, e0, actions, state, y, i, j) && Waits(setup, e0, actions, state, x, i, j)
    requires SamePriority(At(setup, e0, actions, i + 1), y, x)
    ensures forall n :: i < n <= j + 1 ==> SamePriority(At(setup, e0, actions, n), y, x)
    decreases j
  {
    hide EngineInv;
    hide At;
    hide SamePriority;
    hide Queue;
    hide Step;
    if i < j {
      PrioritiesStay(setup, e0, actions, state, y, x, i, j - 1);
      AtNext(setup, e0, actions, j);
      StepPriorities(setup, At(setup, e0, actions, j), actions[j], state, y, x);
    }
  }

  lemma StepPriorities(setup: Setup, e: Engine, a: Action, state: RequestState, y: Id, x: Id)
    requires EngineInv(e) && setup.limits.Valid() && (state == PREFILL || state == DECODE)
    requires y in Queue(e.s, state) && x in Queue(e.s, state) && SamePriority(e, y, x)
    ensures e.s.pool.blockSize > 0 && SamePriority(Step(setup, e, a), y, x)
  {
    hide EngineInv;
    hide Queue;
    hide Step;
    hide Onward;
    hide SamePriority;
    StepOnward(setup, e, a);
    QueuedState(e, state, y);
    QueuedState(e, state, x);
    OnwardPriorities(e, Step(setup, e, a), y, x);
  }

  lemma OnwardPriorities(e: Engine, e': Engine, y: Id, x: Id)
    requires Onward(e, e') && y in e.s.requests && x in e.s.requests && SamePriority(e, y, x)
    ensures SamePriority(e', y, x)
  {
  }
}
