// What holds of every run of the whole processor: reservation pairing, the
// exactly-once drain, and that stop() can always return.

module IntakeTheorems {
  import opened Basics
  import opened Domain
  import opened SerialBank
  import opened Engine
  import opened EngineInvariant
  import opened EngineTheorems
  import opened EngineProgress
  import opened Intake
  import opened IntakeInvariant
  import opened IntakeSteps

  lemma {:induction false} FrontAlways(run: seq<Server>, acts: seq<Act>, n: nat)
    requires IsServerRun(run, acts) && n < |run|
    ensures FrontOk(run[n]) && Inv(run[0].engine.accounts, run[n].engine)
  {
    hide FrontOk, Inv, IsServerRun;
    ServerAlways(run, acts, n);
  }

  // ----- the engine inside -----

  // The engine of a processor run goes through an engine run of its own, so all
  // that is proved about engine runs holds of it.
  lemma {:induction false} EngineOfRun(run: seq<Server>, acts: seq<Act>, n: nat)
      returns (states: seq<System>, actions: seq<Action>)
    requires IsServerRun(run, acts) && n < |run|
    ensures IsRun(states, actions) && states[0] == run[0].engine && states[|actions|] == run[n].engine
    decreases n
  {
    hide Acted, CanAct, Do, Enabled;
    if n == 0 {
      states, actions := [run[0].engine], [];
    } else {
      states, actions := EngineOfRun(run, acts, n - 1);
      ActIsEngineStep(run[n - 1], acts[n - 1]);
      match EngineAction(run[n - 1], acts[n - 1]) {
        case None =>
        case Some(a) =>
          Extend(states, actions, a);
          states, actions := states + [Do(states[|actions|], a)], actions + [a];
      }
    }
  }

  // ----- reservation pairing -----

  // The reserved ids number the queued transactions, the transactions popped but
  // not yet given an id, and a submit between its reservation and its enqueue.
  lemma {:induction false} ReservationPairing(run: seq<Server>, acts: seq<Act>, n: nat)
    requires IsServerRun(run, acts) && n < |run|
    ensures var f := run[n].front;
            |f.reserved| == |f.queue| + HandCount(f.pops) + (if BetweenReserveAndEnqueue(f) then 1 else 0)
    ensures forall p :: CanAct(run[n], TakeId(p)) ==> run[n].front.reserved != []
  {
    hide Inv, IsServerRun, HandCount;
    FrontAlways(run, acts, n);
    forall p | CanAct(run[n], TakeId(p)) ensures run[n].front.reserved != [] {
      NeverFallsBack(run[n].front, p);
    }
  }

  // ----- exactly once -----

  // Transactions leave the queue in the order they were accepted, each once; no
  // two pops are given the same id or run as the same call, and each id given is
  // that of an accepted transaction.
  lemma {:induction false} PoppedOnce(run: seq<Server>, acts: seq<Act>, n: nat, p: nat, q: nat)
    requires IsServerRun(run, acts) && n < |run| && p < q < |run[n].front.pops|
    ensures var f := run[n].front;
            |f.pops| + |f.queue| == |f.accepted| && f.pops[p].txn == f.accepted[p].txn &&
            (f.pops[p].stage != InHand && f.pops[q].stage != InHand ==>
               f.pops[p].stage.id != f.pops[q].stage.id &&
               exists j :: 0 <= j < |f.accepted| && f.accepted[j].id == f.pops[p].stage.id) &&
            (f.pops[p].stage.Calling? && f.pops[q].stage.Calling? ==> f.pops[p].stage.call != f.pops[q].stage.call)
  {
    hide Inv, IsServerRun, HandCount;
    FrontAlways(run, acts, n);
    hide PoolOk, OwnersOk, FlagsOk, OnesOk;
    var f := run[n].front;
    if f.pops[p].stage != InHand && f.pops[q].stage != InHand {
      var i, j := f.pops[p].stage.order, f.pops[q].stage.order;
      assert f.takes[i] == Take(p, f.pops[p].stage.id) && f.takes[j] == Take(q, f.pops[q].stage.id);
      assert f.accepted[i].id == f.pops[p].stage.id && f.accepted[j].id == f.pops[q].stage.id;
    }
  }

  ghost predicate NoOutsiderPending(s: Server) {
    forall p :: 0 <= p < |s.front.pops| && s.front.pops[p].external ==> Returned(s, p)
  }

  // When stop() on a started processor with workers has joined them, the queue is
  // empty, the pool has nothing left for the final drain of ThreadPool::stop, and
  // what consumers popped has been processed. If no process_next is in the middle
  // of a transaction either, no id is left reserved and every accepted transaction
  // has come back from process_impl.
  lemma {:induction false} StopDrains(run: seq<Server>, acts: seq<Act>, n: nat)
    requires IsServerRun(run, acts) && n < |run| && CanAct(run[n], StopEnd)
    ensures run[n].front.pool.value.tasks == 0
    ensures run[n].front.workerCount > 0 ==>
              var f := run[n].front;
              f.queue == [] && |f.pops| == |f.accepted| &&
              (forall p :: 0 <= p < |f.pops| && !f.pops[p].external ==> Returned(run[n], p)) &&
              (NoOutsiderPending(run[n]) ==>
                 f.reserved == [] && forall p :: 0 <= p < |f.accepted| ==> Returned(run[n], p))
  {
    hide Inv, IsServerRun, HandCount, ActiveCount, Returned;
    FrontAlways(run, acts, n);
    hide StagesOk, IdsOk, OnesOk, CallsOk;
    var s := run[n];
    JoinedIsDrained(s.front);
    if s.front.workerCount > 0 && NoOutsiderPending(s) {
      forall p | 0 <= p < |s.front.pops| ensures s.front.pops[p].stage != InHand {
        assert Returned(s, p);
        ReturnedCalls(s, p);
      }
      HandCountZero(s.front.pops);
    }
  }

  lemma {:induction false} ReturnedCalls(s: Server, p: nat)
    requires Returned(s, p)
    ensures s.front.pops[p].stage.Calling?
  {
  }

  lemma {:induction false} JoinedIsDrained(f: Front)
    requires FlagsOk(f) && PoolOk(f) && f.holder == Joining && AllExited(f.pool.value)
    ensures f.pool.value.tasks == 0
    ensures f.workerCount > 0 ==> f.queue == []
    ensures forall p :: !Owned(f, p)
  {
    hide ActiveCount;
    ActiveZero(f.pool.value.workers);
    if f.workerCount > 0 { assert f.pool.value.workers[0] == Exited; }
  }

  // stop() is under way.
  predicate Stopping(h: Holder) {
    h == Refusing || h == Requested || h == Joining
  }

  lemma {:induction false} StoppingStep(s: Server, act: Act)
    requires FlagsOk(s.front) && PoolOk(s.front) && Stopping(s.front.holder) && CanAct(s, act)
    requires act != StopEnd && !act.Crash? && act != NextPop
    ensures Stopping(Acted(s, act).front.holder)
    ensures Acted(s, act).front.workerCount == s.front.workerCount
    ensures s.front.workerCount == 0 ==> Acted(s, act).front.queue == s.front.queue
  {
    hide Do, Enabled, ActiveCount;
  }

  // No crash, no process_next and no return of stop() between n and m.
  predicate QuietStop(acts: seq<Act>, n: nat, m: nat)
    requires m <= |acts|
  {
    forall k :: n <= k < m ==> acts[k] != StopEnd && !acts[k].Crash? && acts[k] != NextPop
  }

  lemma {:induction false} QueueWhileStopping(run: seq<Server>, acts: seq<Act>, n: nat, m: nat)
    requires IsServerRun(run, acts) && n <= m < |run| && QuietStop(acts, n, m) && Stopping(run[n].front.holder)
    ensures Stopping(run[m].front.holder) && run[m].front.workerCount == run[n].front.workerCount
    ensures run[n].front.workerCount == 0 ==> run[m].front.queue == run[n].front.queue
    decreases m - n
  {
    hide Acted, CanAct, Inv, QueueOk, ReservedOk, StagesOk, IdsOk, OnesOk, CallsOk, FlagsOk, PoolOk, OwnersOk;
    if n < m {
      QueueWhileStopping(run, acts, n, m - 1);
      FrontAlways(run, acts, m - 1);
      StoppingStep(run[m - 1], acts[m - 1]);
    }
  }

  lemma {:induction false} StopBegun(s: Server)
    requires CanAct(s, StopBegin)
    ensures Acted(s, StopBegin).front.queue == s.front.queue
    ensures Acted(s, StopBegin).front.workerCount == s.front.workerCount
    ensures s.front.started ==> Stopping(Acted(s, StopBegin).front.holder)
  {
  }

  lemma {:induction false} StopEnded(s: Server)
    requires CanAct(s, StopEnd)
    ensures Acted(s, StopEnd).front.queue == s.front.queue
  {
  }

  // A call of stop() from step n on, back before step m: it leaves an empty queue
  // exactly when the processor had been started with at least one worker, or the
  // queue was empty anyway.
  lemma {:induction false} StopDrainsIff(run: seq<Server>, acts: seq<Act>, n: nat, m: nat)
    requires IsServerRun(run, acts) && n < m <= |acts| && acts[n] == StopBegin
    requires if run[n].front.started then n + 1 < m && acts[m - 1] == StopEnd && QuietStop(acts, n + 1, m - 1)
             else m == n + 1
    ensures run[m].front.queue == [] <==>
              run[n].front.queue == [] || (run[n].front.started && run[n].front.workerCount > 0)
  {
    hide Acted, CanAct, Inv, FrontOk, WorkerIs;
    StopBegun(run[n]);
    if run[n].front.started {
      QueueWhileStopping(run, acts, n + 1, m - 1);
      StopEnded(run[m - 1]);
      if run[n].front.workerCount > 0 { StopDrains(run, acts, m - 1); }
    }
  }

  // Each of those transactions ran as a call of its own under an id submit handed
  // out, and went through completely or not at all.
  lemma {:induction false} DrainedAllOrNothing(run: seq<Server>, acts: seq<Act>, n: nat, p: nat)
    requires IsServerRun(run, acts) && n < |run| && Returned(run[n], p)
    ensures var s := run[n];
            var t := s.engine.threads[s.front.pops[p].stage.call];
            p < |s.front.accepted| && t.txn == s.front.accepted[p].txn &&
            (exists j :: 0 <= j < |s.front.accepted| && s.front.accepted[j].id == t.id) &&
            t.result.Some? && t.audited && AllOrNothingOutcome(s.engine, t)
  {
    hide Inv, IsServerRun, HandCount;
    FrontAlways(run, acts, n);
    var s := run[n];
    var stage := s.front.pops[p].stage;
    assert s.front.takes[stage.order] == Take(p, stage.id);
    assert s.front.accepted[stage.order].id == stage.id;
    hide FrontOk, IsRun;
    var states, actions := EngineOfRun(run, acts, n);
    AllOrNothing(states, actions, |actions|, stage.call);
  }

  // ----- work that stop() leaves behind -----

  lemma {:induction false} TwoActs(run: seq<Server>, acts: seq<Act>, x: Act, y: Act)
      returns (run': seq<Server>, acts': seq<Act>)
    requires IsServerRun(run, acts) && CanAct(run[|acts|], x) && CanAct(Acted(run[|acts|], x), y)
    ensures IsServerRun(run', acts') && run'[0] == run[0] && acts' == acts + [x, y]
    ensures run' == run + [Acted(run[|acts|], x), Acted(Acted(run[|acts|], x), y)]
  {
    hide Acted, CanAct;
    var s := Acted(run[|acts|], x);
    ServerExtend(run, acts, x);
    ServerExtend(run + [s], acts + [x], y);
    run', acts' := run + [s] + [Acted(s, y)], acts + [x] + [y];
  }

  // A whole submit with nothing in between.
  lemma {:induction false} Submitted(run: seq<Server>, acts: seq<Act>, txn: Transaction)
      returns (run': seq<Server>, acts': seq<Act>)
    requires IsServerRun(run, acts) && run[|acts|].front.holder == Nobody && run[|acts|].front.accepting
    requires run[|acts|].engine.nextId < TWO_63
    ensures IsServerRun(run', acts') && run'[0] == run[0]
    ensures acts' == acts + [SubmitBegin(txn), SubmitReserve, SubmitEnqueue] && run <= run'
    ensures forall m :: |run| <= m < |run'| ==> run'[m].front.pops == run[|acts|].front.pops
    ensures var s, s' := run[|acts|], run'[|acts'|];
            s'.engine == Do(s.engine, Issue) &&
            s'.front == s.front.(queue := s.front.queue + [txn], reserved := s.front.reserved + [s.engine.nextId],
                                 accepted := s.front.accepted + [Receipt(txn, s.engine.nextId)])
  {
    var s := run[|acts|];
    var s1 := Acted(s, SubmitBegin(txn));
    var s2 := Acted(s1, SubmitReserve);
    ServerExtend(run, acts, SubmitBegin(txn));
    ServerExtend(run + [s1], acts + [SubmitBegin(txn)], SubmitReserve);
    ServerExtend(run + [s1] + [s2], acts + [SubmitBegin(txn)] + [SubmitReserve], SubmitEnqueue);
    run', acts' := run + [s1] + [s2] + [Acted(s2, SubmitEnqueue)],
                   acts + [SubmitBegin(txn)] + [SubmitReserve] + [SubmitEnqueue];
  }

  // What a stop() of a processor that was never started leaves behind: the
  // transaction submitted before it.
  lemma {:induction false} UnstartedStopLeavesWork(s: Server, a: Transaction)
      returns (run: seq<Server>, acts: seq<Act>)
    requires InitServer(s)
    ensures IsServerRun(run, acts) && run[0] == s && acts != [] && acts[|acts| - 1] == StopBegin
    ensures var f := run[|acts|].front;
            f.holder == Nobody && !f.accepting && f.queue == [a] && f.accepted == [Receipt(a, 1)] && f.reserved == [1]
  {
    assert IsServerRun([s], []);
    hide IsServerRun;
    run, acts := Submitted([s], [], a);
    ServerExtend(run, acts, StopBegin);
    run, acts := run + [Acted(run[|acts|], StopBegin)], acts + [StopBegin];
  }

  // A processor started without workers, holding one submitted transaction.
  function WorkerlessFront(a: Transaction): Front {
    Front(0, Nobody, true, true, false, Some(Pool([], 0, false, 0)), [a], [1], [], [Receipt(a, 1)], [], [])
  }

  lemma {:induction false} WorkerlessStart(s: Server, a: Transaction) returns (run: seq<Server>, acts: seq<Act>)
    requires InitServer(s) && s.front.workerCount == 0
    ensures IsServerRun(run, acts) && run[0] == s && run[|acts|].front == WorkerlessFront(a)
  {
    assert IsServerRun([s], []);
    hide IsServerRun;
    run, acts := TwoActs([s], [], StartBegin, StartTask);
    assert run[|acts|].front.pool == Some(Pool([], 0, false, 0));
    run, acts := Submitted(run, acts, a);
  }

  // The same after a whole cycle of start() and stop() without workers.
  lemma {:induction false} WorkerlessStopLeavesWork(s: Server, a: Transaction)
      returns (run: seq<Server>, acts: seq<Act>)
    requires InitServer(s) && s.front.workerCount == 0
    ensures IsServerRun(run, acts) && run[0] == s && acts != [] && acts[|acts| - 1] == StopEnd
    ensures var f := run[|acts|].front;
            f.holder == Nobody && !f.accepting && f.queue == [a] && f.accepted == [Receipt(a, 1)] && f.reserved == [1]
  {
    run, acts := WorkerlessStart(s, a);
    hide IsServerRun, Do, Enabled;
    run, acts := TwoActs(run, acts, StopBegin, StopRequest);
    run, acts := TwoActs(run, acts, StopPool, StopEnd);
  }

  // ----- stop() comes back -----

  // The steps the processor takes by itself, without new requests from outside.
  predicate OwnStep(act: Act) {
    act.TakeTask? || act.Leave? || act.Exit? || act.WorkerPop? || act.NextPop? || act.TakeId? || act.Call? ||
    act.Return? || (act.Step? && (act.a.Advance? || act.a.Release?))
  }

  // While stop() is joining, some worker, or a call some worker waits for, can go on.
  lemma {:induction false} JoiningGoesOn(origin: Table, s: Server) returns (act: Act)
    requires ServerOk(origin, s) && s.front.holder == Joining && !AllExited(s.front.pool.value)
    ensures OwnStep(act) && CanAct(s, act)
  {
    hide Inv, HandCount, ActiveCount;
    var f := s.front;
    var workers := f.pool.value.workers;
    var w :| 0 <= w < |workers| && workers[w] != Exited;
    match workers[w] {
      case Idle => act := if f.pool.value.tasks > 0 then TakeTask(w) else Exit(w);
      case Looping => act := if f.queue != [] then WorkerPop(w) else Leave(w);
      case Busy(p) => act := BusyGoesOn(origin, s, w, p);
    }
  }

  lemma {:induction false} HandGoesOn(s: Server, p: nat)
    requires ReservedOk(s.front) && p < |s.front.pops| && s.front.pops[p].stage == InHand
    ensures CanAct(s, TakeId(p))
  {
    hide HandCount, Enabled;
    NeverFallsBack(s.front, p);
  }

  lemma {:induction false} BearerGoesOn(s: Server, p: nat)
    requires IdsOk(s.front, s.engine) && p < |s.front.pops| && s.front.pops[p].stage.Bearing?
    ensures CanAct(s, Call(p, 0))
  {
  }

  lemma {:induction false} BusyGoesOn(origin: Table, s: Server, w: nat, p: nat) returns (act: Act)
    requires ServerOk(origin, s) && WorkerIs(s.front, w, Busy(p))
    ensures OwnStep(act) && CanAct(s, act)
  {
    hide Inv, QueueOk, ReservedOk, StagesOk, IdsOk, OnesOk, FlagsOk, PoolOk, CanAct;
    var pop := BusyPop(s, w, p);
    match pop.stage {
      case InHand =>
        HandGoesOn(s, p);
        act := TakeId(p);
      case Bearing(_, _) =>
        BearerGoesOn(s, p);
        act := Call(p, 0);
      case Calling(_, _, _) =>
        act := CallGoesOn(origin, s, w, p);
    }
  }

  lemma {:induction false} BusyPop(s: Server, w: nat, p: nat) returns (pop: Pop)
    requires OwnersOk(s) && CallsOk(s.front, s.engine) && WorkerIs(s.front, w, Busy(p))
    ensures p < |s.front.pops| && pop == s.front.pops[p]
    ensures pop.stage.Calling? ==> pop.stage.call < |s.engine.threads|
  {
    hide Owned, Returned;
    pop := s.front.pops[p];
  }

  lemma {:induction false} CallGoesOn(origin: Table, s: Server, w: nat, p: nat) returns (act: Act)
    requires Inv(origin, s.engine) && WorkerIs(s.front, w, Busy(p))
    requires p < |s.front.pops| && s.front.pops[p].stage.Calling?
    requires s.front.pops[p].stage.call < |s.engine.threads|
    ensures OwnStep(act) && CanAct(s, act)
  {
    hide Inv, Enabled;
    var call := s.front.pops[p].stage.call;
    if s.engine.threads[call].pc == Finished { return Return(w); }
    var a := NoDeadlock(origin, s.engine, call);
    return Step(a);
  }

  function StageWeight(stage: Stage): nat {
    match stage
    case InHand => 45
    case Bearing(_, _) => 42
    case Calling(_, _, _) => 0
  }

  function StageWeights(pops: seq<Pop>): nat {
    if pops == [] then 0 else StageWeights(pops[..|pops| - 1]) + StageWeight(pops[|pops| - 1].stage)
  }

  function WorkerWeight(w: Worker): nat {
    match w
    case Idle => 1
    case Looping => 3
    case Busy(_) => 4
    case Exited => 0
  }

  function WorkerWeights(workers: seq<Worker>): nat {
    if workers == [] then 0 else WorkerWeights(workers[..|workers| - 1]) + WorkerWeight(workers[|workers| - 1])
  }

  function PoolWeight(pool: Option<Pool>): nat {
    if pool.None? then 0 else 5 * pool.value.tasks + WorkerWeights(pool.value.workers)
  }

  // What is left to do: queued and popped transactions, consumers, running calls.
  function Work(s: Server): nat {
    50 * |s.front.queue| + StageWeights(s.front.pops) + PoolWeight(s.front.pool) + Measure(s.engine.threads)
  }

  lemma {:induction false} StageWeightsSnoc(pops: seq<Pop>, x: Pop)
    ensures StageWeights(pops + [x]) == StageWeights(pops) + StageWeight(x.stage)
  {
    assert (pops + [x])[..|pops|] == pops;
  }

  lemma {:induction false} StageWeightsUpdate(pops: seq<Pop>, p: nat, x: Pop)
    requires p < |pops|
    ensures StageWeights(pops[p := x]) == StageWeights(pops) - StageWeight(pops[p].stage) + StageWeight(x.stage)
    decreases |pops|
  {
    hide StageWeight;
    var n := |pops| - 1;
    if p < n {
      StageWeightsUpdate(pops[..n], p, x);
      assert pops[p := x][..n] == pops[..n][p := x];
    } else {
      assert pops[p := x][..n] == pops[..n];
    }
  }

  lemma {:induction false} WorkerWeightsUpdate(workers: seq<Worker>, w: nat, x: Worker)
    requires w < |workers|
    ensures WorkerWeights(workers[w := x]) == WorkerWeights(workers) - WorkerWeight(workers[w]) + WorkerWeight(x)
    decreases |workers|
  {
    hide WorkerWeight;
    var n := |workers| - 1;
    if w < n {
      WorkerWeightsUpdate(workers[..n], w, x);
      assert workers[w := x][..n] == workers[..n][w := x];
    } else {
      assert workers[w := x][..n] == workers[..n];
    }
  }

  lemma {:induction false} MeasureSnoc(threads: seq<Thread>, t: Thread)
    ensures Measure(threads + [t]) == Measure(threads) + Rank(t)
  {
    hide Rank;
    assert (threads + [t])[..|threads|] == threads;
  }

  lemma {:induction false} WorkerStepFalls(s: Server, act: Act)
    requires CanAct(s, act)
    requires act.TakeTask? || act.Leave? || act.Exit? || act.Return?
    ensures Work(Acted(s, act)) < Work(s)
  {
    hide StageWeights, WorkerWeights, Measure, Do, Enabled, Returned;
    var workers := s.front.pool.value.workers;
    match act {
      case TakeTask(w) => WorkerWeightsUpdate(workers, w, Looping);
      case Leave(w) => WorkerWeightsUpdate(workers, w, Idle);
      case Exit(w) => WorkerWeightsUpdate(workers, w, Exited);
      case Return(w) => WorkerWeightsUpdate(workers, w, Looping);
    }
  }

  lemma {:induction false} PopFalls(s: Server, act: Act)
    requires CanAct(s, act) && (act.WorkerPop? || act.NextPop?)
    ensures Work(Acted(s, act)) < Work(s)
  {
    hide StageWeights, WorkerWeights, Measure, Do, Enabled;
    var f := s.front;
    StageWeightsSnoc(f.pops, Pop(f.queue[0], act.NextPop?, InHand));
    if act.WorkerPop? { WorkerWeightsUpdate(f.pool.value.workers, act.w, Busy(|f.pops|)); }
  }

  lemma {:induction false} CallFalls(s: Server, p: nat, now: int64)
    requires CanAct(s, Call(p, now))
    ensures Work(Acted(s, Call(p, now))) < Work(s)
  {
    hide StageWeights, WorkerWeights, Measure, Enabled;
    var f := s.front;
    var stage := f.pops[p].stage;
    var t := NewThread(f.pops[p].txn, stage.id, now);
    StageWeightsUpdate(f.pops, p, f.pops[p].(stage := Calling(stage.id, stage.order, |s.engine.threads|)));
    MeasureSnoc(s.engine.threads, t);
    assert Rank(t) == 38;
  }

  lemma {:induction false} TakeFalls(s: Server, p: nat)
    requires ReservedOk(s.front) && CanAct(s, TakeId(p))
    ensures Work(Acted(s, TakeId(p))) < Work(s)
  {
    hide StageWeights, WorkerWeights, Measure, Enabled, Do, HandCount;
    var f := s.front;
    NeverFallsBack(f, p);
    StageWeightsUpdate(f.pops, p, f.pops[p].(stage := Bearing(f.reserved[0], |f.takes|)));
  }

  lemma {:induction false} WorkFalls(origin: Table, s: Server, act: Act)
    requires ServerOk(origin, s) && CanAct(s, act) && OwnStep(act)
    ensures Work(Acted(s, act)) < Work(s)
  {
    hide FrontOk, Work, Inv, OwnStep;
    match act {
      case TakeTask(_) => WorkerStepFalls(s, act);
      case Leave(_) => WorkerStepFalls(s, act);
      case Exit(_) => WorkerStepFalls(s, act);
      case Return(_) => WorkerStepFalls(s, act);
      case WorkerPop(_) => PopFalls(s, act);
      case NextPop => PopFalls(s, act);
      case Call(p, now) => CallFalls(s, p, now);
      case TakeId(p) => TakeStepFalls(s, p);
      case Step(a) =>
        ThreadsAreOk(origin, s.engine);
        EngineStepFalls(s, act);
      case _ => OnlyOwnSteps(act);
    }
  }

  lemma {:induction false} OnlyOwnSteps(act: Act)
    requires OwnStep(act)
    ensures !(act.SubmitBegin? || act.SubmitReserve? || act.SubmitEnqueue? || act.StartBegin? || act.StartTask?)
    ensures !(act.StopBegin? || act.StopRequest? || act.StopPool? || act.StopEnd? || act.OneBegin? || act.OneCall? || act.Crash?)
  {
  }

  lemma {:induction false} TakeStepFalls(s: Server, p: nat)
    requires FrontOk(s) && CanAct(s, TakeId(p))
    ensures Work(Acted(s, TakeId(p))) < Work(s)
  {
    hide Work, QueueOk, StagesOk, IdsOk, OnesOk, CallsOk, FlagsOk, PoolOk, OwnersOk;
    TakeFalls(s, p);
  }

  lemma {:induction false} EngineStepFalls(s: Server, act: Act)
    requires ThreadsOk(s.engine) && CanAct(s, act) && act.Step? && OwnStep(act)
    ensures Work(Acted(s, act)) < Work(s)
  {
    hide StageWeights, WorkerWeights, Measure, Do, ThreadsOk;
    MeasureFalls(s.engine, act.a);
  }

  // However consumers and calls are scheduled, they take no more steps than the
  // work there is; nothing can keep them busy for ever.
  lemma {:induction false} BoundedDrain(run: seq<Server>, acts: seq<Act>, n: nat, m: nat)
    requires IsServerRun(run, acts) && n <= m < |run|
    requires forall k :: n <= k < m ==> OwnStep(acts[k])
    ensures m - n + Work(run[m]) <= Work(run[n])
    decreases m - n
  {
    hide ServerOk, Acted, CanAct, Work, OwnStep;
    if n < m {
      BoundedDrain(run, acts, n, m - 1);
      ServerAlways(run, acts, m - 1);
      WorkFalls(run[0].engine.accounts, run[m - 1], acts[m - 1]);
    }
  }

  lemma {:induction false} OwnStepKeepsHolder(s: Server, act: Act)
    requires CanAct(s, act) && OwnStep(act)
    ensures Acted(s, act).front.holder == s.front.holder && Acted(s, act).front.pool.Some? == s.front.pool.Some?
  {
    hide Do, Enabled, Returned;
    match act {
      case WorkerPop(_) =>
      case NextPop =>
      case TakeId(_) =>
      case Call(_, _) =>
      case Step(_) =>
      case _ =>
    }
  }

  // A stop() that has begun to join its workers can always be brought to its end
  // by steps of the processor alone.
  lemma {:induction false} StopCanReturn(run: seq<Server>, acts: seq<Act>)
      returns (run': seq<Server>, acts': seq<Act>)
    requires IsServerRun(run, acts) && run[|acts|].front.holder == Joining && run[|acts|].front.pool.Some?
    ensures IsServerRun(run', acts') && run <= run' && acts <= acts' && CanAct(run'[|acts'|], StopEnd)
    ensures forall k :: |acts| <= k < |acts'| ==> OwnStep(acts'[k])
    decreases Work(run[|acts|])
  {
    hide ServerOk, Acted, Work, OwnStep;
    var s := run[|acts|];
    if AllExited(s.front.pool.value) {
      run', acts' := run, acts;
    } else {
      ServerAlways(run, acts, |acts|);
      var act := JoiningGoesOn(run[0].engine.accounts, s);
      WorkFalls(run[0].engine.accounts, s, act);
      OwnStepKeepsHolder(s, act);
      ServerExtend(run, acts, act);
      run', acts' := StopCanReturn(run + [Acted(s, act)], acts + [act]);
    }
  }

  lemma {:induction false} ServerExtend(run: seq<Server>, acts: seq<Act>, act: Act)
    requires IsServerRun(run, acts) && CanAct(run[|acts|], act)
    ensures IsServerRun(run + [Acted(run[|acts|], act)], acts + [act])
  {
    hide Acted, CanAct;
  }
}
