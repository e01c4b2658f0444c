// The front of TransactionProcessor: submit, process_next, process_one, start and
// stop, with TransactionQueue.cpp and ThreadPool.cpp, as a step system around the
// engine.
//
// Each critical section of the queue, of the reserved-id list and of the pool is
// one step. submit_mutex_ is held across steps: `holder` says by whom.

module Intake {
  import opened Basics
  import opened Domain
  import opened Engine

  // What has become of a transaction popped from the queue.
  datatype Stage =
    | InHand                                        // popped, no id taken yet
    | Bearing(id: uint64, order: nat)               // id taken, as take number `order`
    | Calling(id: uint64, order: nat, call: nat)    // process_impl runs as engine thread `call`

  // Pops and takes are remembered in order; `external` pops come from
  // process_next, the others from consumers.
  datatype Pop = Pop(txn: Transaction, external: bool, stage: Stage)
  datatype Take = Take(pop: nat, id: uint64)
  datatype Receipt = Receipt(txn: Transaction, id: uint64)

  datatype Worker =
    | Idle                // in ThreadPool::worker, waiting for a task
    | Looping             // in consumer_loop, at wait_pop
    | Busy(pop: nat)      // in consumer_loop, with a popped transaction
    | Exited

  // `left` counts the consumer loops that have returned.
  datatype Pool = Pool(workers: seq<Worker>, tasks: nat, stopping: bool, left: nat)

  datatype Holder =
    | Nobody
    | Submitting(txn: Transaction, id: uint64, reserved: bool)
    | Starting(submitted: nat)
    | Refusing            // stop() has cleared accepting_
    | Requested           // ... and requested the stop
    | Joining             // ... and is joining the workers

  // accepted, pops and takes are history, since the process started.
  datatype Front = Front(
    workerCount: nat, holder: Holder, accepting: bool, started: bool, stopRequested: bool,
    pool: Option<Pool>, queue: seq<Transaction>, reserved: seq<uint64>, ones: seq<Receipt>,
    accepted: seq<Receipt>, pops: seq<Pop>, takes: seq<Take>)

  datatype Server = Server(front: Front, engine: System)

  function FreshFront(workerCount: nat): Front {
    Front(workerCount, Nobody, true, false, false, None, [], [], [], [], [], [])
  }

  datatype Act =
    | SubmitBegin(txn: Transaction)
    | SubmitReserve
    | SubmitEnqueue
    | StartBegin
    | StartTask
    | StopBegin
    | StopRequest
    | StopPool
    | StopEnd
    | TakeTask(w: nat)
    | Leave(w: nat)
    | Exit(w: nat)
    | WorkerPop(w: nat)
    | NextPop
    | TakeId(p: nat)
    | Call(p: nat, now: int64)
    | Return(w: nat)
    | OneBegin(txn: Transaction)
    | OneCall(k: nat, now: int64)
    | Step(a: Action)
    | Crash(k: nat)

  ghost predicate WorkerIs(f: Front, w: nat, state: Worker) {
    f.pool.Some? && w < |f.pool.value.workers| && f.pool.value.workers[w] == state
  }

  ghost predicate AllExited(pool: Pool) {
    forall w :: 0 <= w < |pool.workers| ==> pool.workers[w] == Exited
  }

  // process_impl for pop p has come back.
  ghost predicate Returned(s: Server, p: nat) {
    p < |s.front.pops| && s.front.pops[p].stage.Calling? &&
    s.front.pops[p].stage.call < |s.engine.threads| &&
    s.engine.threads[s.front.pops[p].stage.call].pc == Finished
  }

  ghost predicate CanAct(s: Server, act: Act) {
    var f := s.front;
    match act
    case SubmitBegin(_) => f.holder == Nobody && (f.accepting ==> Enabled(s.engine, Issue))
    case SubmitReserve => f.holder.Submitting? && !f.holder.reserved
    case SubmitEnqueue => f.holder.Submitting? && f.holder.reserved
    case StartBegin => f.holder == Nobody
    case StartTask => f.holder.Starting? && f.pool.Some?
    case StopBegin => f.holder == Nobody
    case StopRequest => f.holder == Refusing
    case StopPool => f.holder == Requested && f.pool.Some?
    case StopEnd => f.holder == Joining && f.pool.Some? && AllExited(f.pool.value)
    case TakeTask(w) => WorkerIs(f, w, Idle) && f.pool.value.tasks > 0
    case Leave(w) => WorkerIs(f, w, Looping) && f.queue == [] && f.stopRequested
    case Exit(w) => WorkerIs(f, w, Idle) && f.pool.value.tasks == 0 && f.pool.value.stopping
    case WorkerPop(w) => WorkerIs(f, w, Looping) && f.queue != []
    case NextPop => f.queue != []
    case TakeId(p) => p < |f.pops| && f.pops[p].stage == InHand && (f.reserved == [] ==> Enabled(s.engine, Issue))
    case Call(p, now) => p < |f.pops| && f.pops[p].stage.Bearing? &&
                         Enabled(s.engine, Spawn(f.pops[p].stage.id, f.pops[p].txn, now))
    case Return(w) => f.pool.Some? && w < |f.pool.value.workers| && f.pool.value.workers[w].Busy? &&
                      Returned(s, f.pool.value.workers[w].pop)
    case OneBegin(_) => Enabled(s.engine, Issue)
    case OneCall(k, now) => k < |f.ones| && Enabled(s.engine, Spawn(f.ones[k].id, f.ones[k].txn, now))
    case Step(a) => (a.Advance? || a.Release? || a.Checkpoint?) && Enabled(s.engine, a)
    case Crash(k) => Enabled(s.engine, Restart(k))
  }

  function SetWorker(f: Front, w: nat, state: Worker): Front
    requires f.pool.Some? && w < |f.pool.value.workers|
  {
    f.(pool := Some(f.pool.value.(workers := f.pool.value.workers[w := state])))
  }

  function PopFront(f: Front, external: bool): Front
    requires f.queue != []
  {
    f.(queue := f.queue[1..], pops := f.pops + [Pop(f.queue[0], external, InHand)])
  }

  function SetStage(f: Front, p: nat, stage: Stage): Front
    requires p < |f.pops|
  {
    f.(pops := f.pops[p := f.pops[p].(stage := stage)])
  }

  ghost function Acted(s: Server, act: Act): Server
    requires CanAct(s, act)
  {
    var f := s.front;
    match act
    case SubmitBegin(txn) =>
      if !f.accepting then s else
      Server(f.(holder := Submitting(txn, s.engine.nextId, false)), Do(s.engine, Issue))
    case SubmitReserve =>
      s.(front := f.(holder := f.holder.(reserved := true), reserved := f.reserved + [f.holder.id]))
    case SubmitEnqueue =>
      s.(front := f.(holder := Nobody, queue := f.queue + [f.holder.txn],
                     accepted := f.accepted + [Receipt(f.holder.txn, f.holder.id)]))
    case StartBegin =>
      if f.started then s else
      s.(front := f.(holder := Starting(0), started := true, accepting := true, stopRequested := false,
                     pool := Some(Pool(seq(f.workerCount, _ => Idle), 0, false, 0))))
    case StartTask =>
      var i := f.holder.submitted;
      if i < f.workerCount then
        s.(front := f.(holder := Starting(i + 1), pool := Some(f.pool.value.(tasks := f.pool.value.tasks + 1))))
      else
        s.(front := f.(holder := Nobody))
    case StopBegin =>
      s.(front := f.(accepting := false, holder := if f.started then Refusing else Nobody))
    case StopRequest => s.(front := f.(stopRequested := true, holder := Requested))
    case StopPool =>
      s.(front := f.(pool := Some(f.pool.value.(stopping := true)), holder := Joining))
    case StopEnd => s.(front := f.(pool := None, started := false, holder := Nobody))
    case TakeTask(w) =>
      var g := SetWorker(f, w, Looping);
      s.(front := g.(pool := Some(g.pool.value.(tasks := g.pool.value.tasks - 1))))
    case Leave(w) =>
      var g := SetWorker(f, w, Idle);
      s.(front := g.(pool := Some(g.pool.value.(left := g.pool.value.left + 1))))
    case Exit(w) => s.(front := SetWorker(f, w, Exited))
    case WorkerPop(w) => s.(front := SetWorker(PopFront(f, false), w, Busy(|f.pops|)))
    case NextPop => s.(front := PopFront(f, true))
    case TakeId(p) => TakenId(s, p)
    case Call(p, now) =>
      var stage := f.pops[p].stage;
      Server(SetStage(f, p, Calling(stage.id, stage.order, |s.engine.threads|)),
             Do(s.engine, Spawn(stage.id, f.pops[p].txn, now)))
    case Return(w) => s.(front := SetWorker(f, w, Looping))
    case OneBegin(txn) =>
      Server(f.(ones := f.ones + [Receipt(txn, s.engine.nextId)]), Do(s.engine, Issue))
    case OneCall(k, now) =>
      Server(f.(ones := f.ones[..k] + f.ones[k + 1..]), Do(s.engine, Spawn(f.ones[k].id, f.ones[k].txn, now)))
    case Step(a) => s.(engine := Do(s.engine, a))
    case Crash(k) => Server(FreshFront(f.workerCount), Do(s.engine, Restart(k)))
  }

  // take_reserved_id: the oldest reserved id, or a fresh one when there is none.
  ghost function TakenId(s: Server, p: nat): Server
    requires CanAct(s, TakeId(p))
  {
    var f := s.front;
    var n := |f.takes|;
    if f.reserved != [] then
      var id := f.reserved[0];
      s.(front := SetStage(f, p, Bearing(id, n)).(reserved := f.reserved[1..], takes := f.takes + [Take(p, id)]))
    else
      var id := s.engine.nextId;
      Server(SetStage(f, p, Bearing(id, n)).(takes := f.takes + [Take(p, id)]), Do(s.engine, Issue))
  }

  ghost predicate InitServer(s: Server) {
    Init(s.engine) && s.front == FreshFront(s.front.workerCount)
  }

  ghost predicate IsServerRun(run: seq<Server>, acts: seq<Act>) {
    |run| == |acts| + 1 && InitServer(run[0]) &&
    forall n :: 0 <= n < |acts| ==> CanAct(run[n], acts[n]) && run[n + 1] == Acted(run[n], acts[n])
  }
}
