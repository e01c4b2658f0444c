// Each step of the processor keeps the invariant of its front.

module IntakeSteps {
  import opened Basics
  import opened Domain
  import opened SerialBank
  import opened Engine
  import opened EngineInvariant
  import opened EngineRuns
  import opened Intake
  import opened IntakeInvariant

  // Steps of start, stop and the pool: transactions and ids are not touched.
  predicate PoolAct(act: Act) {
    act.StartBegin? || act.StartTask? || act.StopBegin? || act.StopRequest? || act.StopPool? || act.StopEnd? ||
    act.TakeTask? || act.Leave? || act.Exit? || act.Return?
  }

  ghost predicate SameTraffic(f: Front, f': Front) {
    f'.queue == f.queue && f'.reserved == f.reserved && f'.ones == f.ones && f'.accepted == f.accepted &&
    f'.pops == f.pops && f'.takes == f.takes && (f'.holder.Submitting? ==> f'.holder == f.holder) &&
    (f.holder.Submitting? ==> f'.holder == f.holder)
  }

  lemma {:induction false} PoolActTraffic(s: Server, act: Act)
    requires CanAct(s, act) && PoolAct(act)
    ensures SameTraffic(s.front, Acted(s, act).front) && Acted(s, act).engine == s.engine
  {
    hide Do, Enabled, Returned;
  }

  lemma {:induction false} QueueKept(s: Server, act: Act)
    requires QueueOk(s.front) && CanAct(s, act) && !act.Crash?
    ensures QueueOk(Acted(s, act).front)
  {
    hide Do, Enabled;
    if PoolAct(act) {
      PoolActTraffic(s, act);
      hide Acted, CanAct;
    } else if act.SubmitEnqueue? {
      QueueLonger(s.front, Acted(s, act).front, s.front.holder.txn, s.front.holder.id);
    } else if act.WorkerPop? || act.NextPop? {
      QueueShorter(s.front, Acted(s, act).front);
    } else {
      hide QueueOk;
      QueueSame(s.front, Acted(s, act).front);
    }
  }

  lemma {:induction false} QueueLonger(f: Front, f': Front, txn: Transaction, id: uint64)
    requires QueueOk(f) && f'.pops == f.pops && f'.queue == f.queue + [txn]
    requires f'.accepted == f.accepted + [Receipt(txn, id)]
    ensures QueueOk(f')
  {
  }

  lemma {:induction false} QueueShorter(f: Front, f': Front)
    requires QueueOk(f) && f.queue != [] && f'.queue == f.queue[1..] && f'.accepted == f.accepted
    requires |f'.pops| == |f.pops| + 1 && f'.pops[..|f.pops|] == f.pops && f'.pops[|f.pops|].txn == f.queue[0]
    ensures QueueOk(f')
  {
    forall p | 0 <= p < |f'.pops| ensures f'.pops[p].txn == f'.accepted[p].txn {
      if p < |f.pops| { assert f'.pops[..|f.pops|][p] == f'.pops[p]; }
    }
  }

  lemma {:induction false} QueueSame(f: Front, f': Front)
    requires QueueOk(f) && f'.queue == f.queue && f'.accepted == f.accepted
    requires |f'.pops| == |f.pops| && forall p :: 0 <= p < |f.pops| ==> f'.pops[p].txn == f.pops[p].txn
    ensures QueueOk(f')
  {
  }

  // A consumer or process_next with a transaction in hand always finds a reserved
  // id: the fresh-id branch of take_reserved_id is not reached from the queue.
  lemma {:induction false} NeverFallsBack(f: Front, p: nat)
    requires ReservedOk(f) && p < |f.pops| && f.pops[p].stage == InHand
    ensures f.reserved != [] && |f.takes| < |f.accepted| && f.reserved[0] == f.accepted[|f.takes|].id
  {
    HandCountZero(f.pops);
    hide HandCount;
    assert HandCount(f.pops) > 0;
  }

  lemma {:induction false} ReservedKept(s: Server, act: Act)
    requires QueueOk(s.front) && ReservedOk(s.front) && CanAct(s, act) && !act.Crash?
    ensures ReservedOk(Acted(s, act).front)
  {
    hide Do, Enabled, HandCount;
    if PoolAct(act) {
      PoolActTraffic(s, act);
      hide Acted, CanAct;
    } else if act.WorkerPop? || act.NextPop? || act.TakeId? || act.Call? {
      ReservedPops(s, act);
    } else {
      match act {
        case SubmitReserve =>
        case SubmitEnqueue =>
        case _ =>
      }
    }
  }

  lemma {:induction false} ReservedPops(s: Server, act: Act)
    requires QueueOk(s.front) && ReservedOk(s.front) && CanAct(s, act)
    requires act.WorkerPop? || act.NextPop? || act.TakeId? || act.Call?
    ensures ReservedOk(Acted(s, act).front)
  {
    hide Do, Enabled, HandCount;
    var f := s.front;
    match act {
      case WorkerPop(_) => HandCountSnoc(f.pops, Pop(f.queue[0], false, InHand));
      case NextPop => HandCountSnoc(f.pops, Pop(f.queue[0], true, InHand));
      case TakeId(p) =>
        NeverFallsBack(f, p);
        HandCountUpdate(f.pops, p, f.pops[p].(stage := Bearing(f.reserved[0], |f.takes|)));
      case Call(p, _) =>
        var stage := f.pops[p].stage;
        HandCountUpdate(f.pops, p, f.pops[p].(stage := Calling(stage.id, stage.order, |s.engine.threads|)));
    }
  }

  lemma {:induction false} StagesTake(s: Server, p: nat)
    requires StagesOk(s.front) && CanAct(s, TakeId(p))
    ensures StagesOk(Acted(s, TakeId(p)).front)
  {
    hide Do, Enabled;
    var f, f' := s.front, Acted(s, TakeId(p)).front;
    assert forall q :: 0 <= q < |f.pops| && q != p ==> f'.pops[q] == f.pops[q];
  }

  lemma {:induction false} StagesCall(s: Server, p: nat, now: int64)
    requires StagesOk(s.front) && CanAct(s, Call(p, now))
    ensures StagesOk(Acted(s, Call(p, now)).front)
  {
    hide Do, Enabled;
    var f, f' := s.front, Acted(s, Call(p, now)).front;
    assert forall q :: 0 <= q < |f.pops| && q != p ==> f'.pops[q] == f.pops[q];
  }

  lemma {:induction false} StagesPop(f: Front, f': Front, x: Pop)
    requires StagesOk(f) && f'.pops == f.pops + [x] && x.stage == InHand && f'.takes == f.takes
    ensures StagesOk(f')
  {
  }

  lemma {:induction false} StagesKept(s: Server, act: Act)
    requires StagesOk(s.front) && CanAct(s, act) && !act.Crash?
    ensures StagesOk(Acted(s, act).front)
  {
    hide Do, Enabled, StagesOk;
    if PoolAct(act) {
      PoolActTraffic(s, act);
      hide Acted, CanAct;
      SameStages(s.front, Acted(s, act).front);
    } else if act.WorkerPop? {
      StagesPop(s.front, Acted(s, act).front, Pop(s.front.queue[0], false, InHand));
    } else if act.NextPop? {
      StagesPop(s.front, Acted(s, act).front, Pop(s.front.queue[0], true, InHand));
    } else if act.TakeId? {
      StagesTake(s, act.p);
    } else if act.Call? {
      StagesCall(s, act.p, act.now);
    } else {
      SameStages(s.front, Acted(s, act).front);
    }
  }

  lemma {:induction false} SameStages(f: Front, f': Front)
    requires StagesOk(f) && f'.pops == f.pops && f'.takes == f.takes
    ensures StagesOk(f')
  {
  }

  // ----- ids -----

  lemma {:induction false} SubmitIds(s: Server, act: Act)
    requires IdsOk(s.front, s.engine) && ReservedOk(s.front) && StoreOk(s.engine) && CanAct(s, act)
    requires act.SubmitBegin? || act.SubmitReserve? || act.SubmitEnqueue? || act.OneBegin?
    ensures IdsOk(Acted(s, act).front, Acted(s, act).engine)
  {
    hide HandCount;
  }

  lemma {:induction false} TakeIds(s: Server, p: nat)
    requires IdsOk(s.front, s.engine) && ReservedOk(s.front) && CanAct(s, TakeId(p))
    ensures IdsOk(Acted(s, TakeId(p)).front, Acted(s, TakeId(p)).engine)
  {
    hide HandCount, Do, Enabled;
    NeverFallsBack(s.front, p);
  }

  // An id is spent by the call it was taken for and by no other.
  lemma {:induction false} CallIds(s: Server, p: nat, now: int64)
    requires IdsOk(s.front, s.engine) && ReservedOk(s.front) && StagesOk(s.front) && CanAct(s, Call(p, now))
    ensures IdsOk(Acted(s, Call(p, now)).front, Acted(s, Call(p, now)).engine)
  {
    hide HandCount;
    var f := s.front;
    var id, order := f.pops[p].stage.id, f.pops[p].stage.order;
    assert id == f.accepted[order].id;
    forall q | 0 <= q < |f.pops| && q != p && f.pops[q].stage.Bearing? ensures f.pops[q].stage.id != id {
      var o := f.pops[q].stage.order;
      assert f.takes[o] == Take(q, f.pops[q].stage.id) && f.takes[order] == Take(p, id);
      assert f.pops[q].stage.id == f.accepted[o].id;
    }
  }

  lemma {:induction false} OneCallIds(s: Server, k: nat, now: int64)
    requires IdsOk(s.front, s.engine) && OnesOk(s.front, s.engine) && ReservedOk(s.front) && StagesOk(s.front)
    requires CanAct(s, OneCall(k, now))
    ensures IdsOk(Acted(s, OneCall(k, now)).front, Acted(s, OneCall(k, now)).engine)
  {
    hide HandCount;
    var f := s.front;
    forall p | 0 <= p < |f.pops| && f.pops[p].stage.Bearing? ensures f.pops[p].stage.id != f.ones[k].id {
      assert f.pops[p].stage.id == f.accepted[f.pops[p].stage.order].id;
    }
  }

  lemma {:induction false} IdsKept(s: Server, act: Act)
    requires IdsOk(s.front, s.engine) && OnesOk(s.front, s.engine) && ReservedOk(s.front) && StagesOk(s.front)
    requires StoreOk(s.engine) && CanAct(s, act) && !act.Crash?
    ensures IdsOk(Acted(s, act).front, Acted(s, act).engine)
  {
    if PoolAct(act) {
      PoolActTraffic(s, act);
      hide Acted, CanAct;
      return;
    }
    match act {
      case TakeId(p) => TakeIds(s, p);
      case Call(p, now) => CallIds(s, p, now);
      case OneCall(k, now) => OneCallIds(s, k, now);
      case SubmitBegin(_) => SubmitIds(s, act);
      case SubmitReserve => SubmitIds(s, act);
      case SubmitEnqueue => SubmitIds(s, act);
      case OneBegin(_) => SubmitIds(s, act);
      case Step(a) => hide Do, Enabled; StepCarries(s.engine, a);
      case _ => hide Do, Enabled;
    }
  }

  lemma {:induction false} OnesKept(s: Server, act: Act)
    requires IdsOk(s.front, s.engine) && OnesOk(s.front, s.engine) && ReservedOk(s.front) && StagesOk(s.front)
    requires StoreOk(s.engine) && CanAct(s, act) && !act.Crash?
    ensures OnesOk(Acted(s, act).front, Acted(s, act).engine)
  {
    match act {
      case Call(p, now) => OnesCall(s, p, now);
      case OneCall(k, now) => OnesOneCall(s, k, now);
      case SubmitBegin(_) => OnesIssue(s, act);
      case OneBegin(_) => OnesIssue(s, act);
      case _ => OnesElsewhere(s, act);
    }
  }

  lemma {:induction false} OnesCall(s: Server, p: nat, now: int64)
    requires OnesOk(s.front, s.engine) && ReservedOk(s.front) && StagesOk(s.front) && CanAct(s, Call(p, now))
    ensures OnesOk(Acted(s, Call(p, now)).front, Acted(s, Call(p, now)).engine)
  {
    hide HandCount;
    var f := s.front;
    assert f.pops[p].stage.id == f.accepted[f.pops[p].stage.order].id;
  }

  lemma {:induction false} OnesOneCall(s: Server, k: nat, now: int64)
    requires OnesOk(s.front, s.engine) && CanAct(s, OneCall(k, now))
    ensures OnesOk(Acted(s, OneCall(k, now)).front, Acted(s, OneCall(k, now)).engine)
  {
    var f, f' := s.front, Acted(s, OneCall(k, now)).front;
    assert forall l :: 0 <= l < |f'.ones| ==> f'.ones[l] == f.ones[if l < k then l else l + 1];
  }

  lemma {:induction false} OnesIssue(s: Server, act: Act)
    requires IdsOk(s.front, s.engine) && OnesOk(s.front, s.engine) && StoreOk(s.engine) && CanAct(s, act)
    requires act.SubmitBegin? || act.OneBegin?
    ensures OnesOk(Acted(s, act).front, Acted(s, act).engine)
  {
  }

  lemma {:induction false} OnesElsewhere(s: Server, act: Act)
    requires OnesOk(s.front, s.engine) && ReservedOk(s.front) && CanAct(s, act) && !act.Crash?
    requires !act.SubmitBegin? && !act.OneBegin? && !act.OneCall? && !act.Call?
    ensures OnesOk(Acted(s, act).front, Acted(s, act).engine)
  {
    hide HandCount, Do, Enabled;
    if PoolAct(act) {
      PoolActTraffic(s, act);
      hide Acted, CanAct, ReservedOk;
    } else {
      match act {
        case TakeId(p) => NeverFallsBack(s.front, p);
        case Step(a) => StepCarries(s.engine, a);
        case _ =>
      }
    }
  }

  lemma {:induction false} CallsKept(s: Server, act: Act)
    requires CallsOk(s.front, s.engine) && CanAct(s, act) && !act.Crash?
    ensures CallsOk(Acted(s, act).front, Acted(s, act).engine)
  {
    EngineCarried(s, act);
    match act {
      case Call(p, now) =>
        SpawnCarries(s.engine, s.front.pops[p].stage.id, s.front.pops[p].txn, now);
        hide Do, Enabled;
      case _ => hide Do, Enabled;
    }
  }

  lemma {:induction false} EngineCarried(s: Server, act: Act)
    requires CanAct(s, act) && !act.Crash?
    ensures Carried(s.engine, Acted(s, act).engine)
  {
    hide Do, Enabled;
    match act {
      case SubmitBegin(_) => if s.front.accepting { IssueCarries(s.engine); }
      case TakeId(_) => if s.front.reserved == [] { IssueCarries(s.engine); }
      case Call(p, now) => SpawnCarries(s.engine, s.front.pops[p].stage.id, s.front.pops[p].txn, now);
      case OneBegin(_) => IssueCarries(s.engine);
      case OneCall(k, now) => SpawnCarries(s.engine, s.front.ones[k].id, s.front.ones[k].txn, now);
      case Step(a) => StepCarries(s.engine, a);
      case _ =>
    }
  }

  // ----- flags, workers, owners -----

  lemma {:induction false} FlagsKept(s: Server, act: Act)
    requires FlagsOk(s.front) && CanAct(s, act) && !act.Crash?
    ensures FlagsOk(Acted(s, act).front)
  {
    hide Do, Enabled;
  }

  lemma {:induction false} IdleWorkers(n: nat)
    ensures ActiveCount(seq(n, _ => Idle)) == 0
  {
    ActiveZero(seq(n, _ => Idle));
  }

  lemma {:induction false} PoolKept(s: Server, act: Act)
    requires FlagsOk(s.front) && PoolOk(s.front) && CanAct(s, act) && !act.Crash?
    ensures PoolOk(Acted(s, act).front)
  {
    if OfWorker(act) {
      PoolKeptByWorker(s, act);
    } else {
      hide Do, Enabled, ActiveCount;
      match act {
        case StartBegin => IdleWorkers(s.front.workerCount);
        case StartTask =>
        case StopRequest =>
        case StopPool =>
        case SubmitEnqueue =>
        case NextPop =>
        case _ =>
      }
    }
  }

  predicate OfWorker(act: Act) {
    act.TakeTask? || act.Leave? || act.Exit? || act.WorkerPop? || act.Return?
  }

  lemma {:induction false} PoolKeptByWorker(s: Server, act: Act)
    requires FlagsOk(s.front) && PoolOk(s.front) && CanAct(s, act) && OfWorker(act)
    ensures PoolOk(Acted(s, act).front)
  {
    hide Do, Enabled, ActiveCount;
    var f := s.front;
    match act {
      case TakeTask(w) => ActiveUpdate(f.pool.value.workers, w, Looping);
      case Leave(w) => ActiveUpdate(f.pool.value.workers, w, Idle);
      case Exit(w) => ActiveUpdate(f.pool.value.workers, w, Exited);
      case WorkerPop(w) => ActiveUpdate(f.pool.value.workers, w, Busy(|f.pops|));
      case Return(w) => ActiveUpdate(f.pool.value.workers, w, Looping);
    }
  }

  // Pops already with an owner keep it; others come back as before.
  lemma {:induction false} ReturnedKept(s: Server, act: Act, p: nat)
    requires Returned(s, p) && CanAct(s, act) && !act.Crash?
    ensures Returned(Acted(s, act), p)
  {
    EngineCarried(s, act);
    hide Do, Enabled;
  }

  lemma {:induction false} OwnedElsewhere(f: Front, w: nat, x: Worker, p: nat)
    requires Owned(f, p) && w < |f.pool.value.workers| && f.pool.value.workers[w] != Busy(p)
    ensures Owned(SetWorker(f, w, x), p)
  {
    var v :| 0 <= v < |f.pool.value.workers| && f.pool.value.workers[v] == Busy(p);
    assert SetWorker(f, w, x).pool.value.workers[v] == Busy(p);
  }

  lemma {:induction false} OwnedKept(s: Server, act: Act, p: nat)
    requires Owned(s.front, p) && CanAct(s, act) && !act.Crash? && FlagsOk(s.front)
    ensures Owned(Acted(s, act).front, p) || Returned(s, p)
  {
    hide Do, Enabled;
    var f := s.front;
    var workers := f.pool.value.workers;
    var v :| 0 <= v < |workers| && workers[v] == Busy(p);
    match act {
      case TakeTask(w) => OwnedElsewhere(f, w, Looping, p);
      case Leave(w) => OwnedElsewhere(f, w, Idle, p);
      case Exit(w) => OwnedElsewhere(f, w, Exited, p);
      case WorkerPop(w) => OwnedElsewhere(f, w, Busy(|f.pops|), p);
      case Return(w) => if workers[w] != Busy(p) { OwnedElsewhere(f, w, Looping, p); }
      case StopEnd =>
      case Crash(_) =>
      case _ =>
        assert Acted(s, act).front.pool.Some? && Acted(s, act).front.pool.value.workers == workers;
    }
  }

  lemma {:induction false} NewPopOwned(s: Server, w: nat)
    requires CanAct(s, WorkerPop(w))
    ensures Owned(Acted(s, WorkerPop(w)).front, |s.front.pops|)
  {
    var f' := Acted(s, WorkerPop(w)).front;
    assert f'.pool.value.workers[w] == Busy(|s.front.pops|);
  }

  lemma {:induction false} PopsKept(s: Server, act: Act)
    requires CanAct(s, act) && !act.Crash?
    ensures |s.front.pops| <= |Acted(s, act).front.pops|
    ensures forall p :: 0 <= p < |s.front.pops| ==>
              Acted(s, act).front.pops[p].external == s.front.pops[p].external
    ensures |s.front.pops| < |Acted(s, act).front.pops| ==>
              |Acted(s, act).front.pops| == |s.front.pops| + 1 &&
              (act.WorkerPop? || (act == NextPop && Acted(s, act).front.pops[|s.front.pops|].external))
  {
    hide Do, Enabled;
    if PoolAct(act) {
      PoolActTraffic(s, act);
      hide Acted, CanAct;
    } else {
      match act {
        case WorkerPop(_) =>
        case NextPop =>
        case TakeId(_) =>
        case Call(_, _) =>
        case _ =>
      }
    }
  }

  lemma {:induction false} BusyInRange(s: Server, act: Act)
    requires OwnersOk(s) && CanAct(s, act) && !act.Crash?
    ensures var f := Acted(s, act).front;
            f.pool.Some? ==>
              forall w :: 0 <= w < |f.pool.value.workers| && f.pool.value.workers[w].Busy? ==>
                f.pool.value.workers[w].pop < |f.pops|
  {
    hide Do, Enabled, Returned, Owned;
  }

  lemma {:induction false} OwnersKept(s: Server, act: Act)
    requires FlagsOk(s.front) && OwnersOk(s) && CanAct(s, act) && !act.Crash?
    ensures OwnersOk(Acted(s, act))
  {
    var s' := Acted(s, act);
    PopsKept(s, act);
    BusyInRange(s, act);
    if act.WorkerPop? { NewPopOwned(s, act.w); }
    hide Acted, CanAct, Owned, Returned, FlagsOk;
    forall p | 0 <= p < |s'.front.pops| && !s'.front.pops[p].external && !Owned(s'.front, p)
      ensures Returned(s', p)
    {
      assert p < |s.front.pops|;
      if Owned(s.front, p) { OwnedKept(s, act, p); }
      ReturnedKept(s, act, p);
    }
  }

  // ----- all of it -----

  lemma {:induction false} FrontKept(s: Server, act: Act)
    requires FrontOk(s) && StoreOk(s.engine) && CanAct(s, act) && !act.Crash?
    ensures FrontOk(Acted(s, act))
  {
    hide QueueOk, ReservedOk, StagesOk, IdsOk, OnesOk, CallsOk, FlagsOk, PoolOk, OwnersOk, StoreOk, Acted, CanAct;
    QueueKept(s, act);
    ReservedKept(s, act);
    StagesKept(s, act);
    IdsKept(s, act);
    OnesKept(s, act);
    CallsKept(s, act);
    FlagsKept(s, act);
    PoolKept(s, act);
    OwnersKept(s, act);
  }

  lemma {:induction false} FreshFrontOk(workerCount: nat, e: System)
    ensures FrontOk(Server(FreshFront(workerCount), e))
  {
  }

  lemma {:induction false} CrashFrontOk(s: Server, act: Act)
    requires CanAct(s, act) && act.Crash?
    ensures FrontOk(Acted(s, act))
  {
    hide FrontOk, Do, Enabled;
    FreshFrontOk(s.front.workerCount, Acted(s, act).engine);
  }

  lemma {:induction false} StoreOfInv(origin: Table, e: System)
    requires Inv(origin, e)
    ensures StoreOk(e)
  {
    hide StoreOk, JournalOk, ThreadsOk, OrdersOk, SnapshotsOk, OutcomesOk;
  }

  // What a processor step asks of the engine.
  function EngineAction(s: Server, act: Act): Option<Action> {
    var f := s.front;
    match act
    case SubmitBegin(_) => if f.accepting then Some(Issue) else None
    case TakeId(_) => if f.reserved == [] then Some(Issue) else None
    case Call(p, now) =>
      if p < |f.pops| && f.pops[p].stage.Bearing? then Some(Spawn(f.pops[p].stage.id, f.pops[p].txn, now)) else None
    case OneBegin(_) => Some(Issue)
    case OneCall(k, now) => if k < |f.ones| then Some(Spawn(f.ones[k].id, f.ones[k].txn, now)) else None
    case Step(a) => Some(a)
    case Crash(k) => Some(Restart(k))
    case _ => None
  }

  // Every processor step is one engine step, or none.
  lemma {:induction false} ActIsEngineStep(s: Server, act: Act)
    requires CanAct(s, act)
    ensures match EngineAction(s, act)
            case None => Acted(s, act).engine == s.engine
            case Some(a) => Enabled(s.engine, a) && Acted(s, act).engine == Do(s.engine, a)
  {
    hide Do, Enabled;
  }

  lemma {:induction false} ServerKept(origin: Table, s: Server, act: Act)
    requires ServerOk(origin, s) && CanAct(s, act)
    ensures ServerOk(origin, Acted(s, act))
  {
    hide FrontOk, Inv, Do, Enabled, StoreOk, Acted, CanAct;
    ActIsEngineStep(s, act);
    StoreOfInv(origin, s.engine);
    if act.Crash? {
      CrashFrontOk(s, act);
    } else {
      FrontKept(s, act);
    }
    match EngineAction(s, act) {
      case None =>
      case Some(a) => StepKeeps(origin, s.engine, a);
    }
  }

  lemma {:induction false} ServerAlways(run: seq<Server>, acts: seq<Act>, n: nat)
    requires IsServerRun(run, acts) && n < |run|
    ensures ServerOk(run[0].engine.accounts, run[n])
    decreases n
  {
    hide ServerOk, Acted, CanAct;
    if n == 0 {
      FirstServerOk(run[0]);
    } else {
      ServerAlways(run, acts, n - 1);
      ServerKept(run[0].engine.accounts, run[n - 1], acts[n - 1]);
    }
  }

  lemma {:induction false} FirstServerOk(s: Server)
    requires InitServer(s)
    ensures ServerOk(s.engine.accounts, s)
  {
    InitInv(s.engine);
    hide Inv;
    FreshFrontOk(s.front.workerCount, s.engine);
  }
}
