// What every step of the whole processor keeps.

module IntakeInvariant {
  import opened Basics
  import opened Domain
  import opened SerialBank
  import opened Engine
  import opened EngineInvariant
  import opened EngineTheorems
  import opened Intake

  // ----- the parts -----

  // Pops come out of the queue in the order transactions were accepted.
  ghost predicate QueueOk(f: Front) {
    |f.pops| + |f.queue| == |f.accepted| &&
    (forall p :: 0 <= p < |f.pops| ==> f.pops[p].txn == f.accepted[p].txn) &&
    (forall i :: 0 <= i < |f.queue| ==> f.queue[i] == f.accepted[|f.pops| + i].txn)
  }

  function HandCount(pops: seq<Pop>): nat {
    if pops == [] then 0 else
    HandCount(pops[..|pops| - 1]) + (if pops[|pops| - 1].stage == InHand then 1 else 0)
  }

  predicate BetweenReserveAndEnqueue(f: Front) {
    f.holder.Submitting? && f.holder.reserved
  }

  // The reserved ids are those of the accepted transactions for which no id has
  // been taken yet, and of a submit that has not reached the queue.
  ghost predicate ReservedOk(f: Front) {
    var n := |f.takes|;
    n + HandCount(f.pops) == |f.pops| <= |f.accepted| &&
    |f.reserved| == |f.accepted| - n + (if BetweenReserveAndEnqueue(f) then 1 else 0) &&
    (forall j :: 0 <= j < n ==> f.takes[j].id == f.accepted[j].id) &&
    (forall i :: 0 <= i < |f.accepted| - n ==> f.reserved[i] == f.accepted[n + i].id) &&
    (BetweenReserveAndEnqueue(f) ==> f.reserved[|f.accepted| - n] == f.holder.id)
  }

  function OrderOf(stage: Stage): nat
    requires stage != InHand
  {
    stage.order
  }

  // Pops that have an id and takes are in one-to-one correspondence.
  ghost predicate StagesOk(f: Front) {
    (forall p :: 0 <= p < |f.pops| && f.pops[p].stage != InHand ==>
       f.pops[p].stage.order < |f.takes| && f.takes[f.pops[p].stage.order] == Take(p, f.pops[p].stage.id)) &&
    (forall j :: 0 <= j < |f.takes| ==>
       f.takes[j].pop < |f.pops| && f.pops[f.takes[j].pop].stage != InHand &&
       OrderOf(f.pops[f.takes[j].pop].stage) == j)
  }

  // Ids are handed out in ascending order; those not yet spent on a call are on
  // the engine's list, each in one place.
  ghost predicate IdsOk(f: Front, e: System) {
    (forall i, j :: 0 <= i < j < |f.accepted| ==> f.accepted[i].id < f.accepted[j].id) &&
    (forall i :: 0 <= i < |f.accepted| ==> f.accepted[i].id < e.nextId) &&
    (forall j :: |f.takes| <= j < |f.accepted| ==> f.accepted[j].id in e.issued) &&
    (forall p :: 0 <= p < |f.pops| && f.pops[p].stage.Bearing? ==> f.pops[p].stage.id in e.issued) &&
    (f.holder.Submitting? ==>
       f.holder.id in e.issued && f.holder.id < e.nextId &&
       forall i :: 0 <= i < |f.accepted| ==> f.accepted[i].id < f.holder.id)
  }

  ghost predicate OnesOk(f: Front, e: System) {
    (forall k :: 0 <= k < |f.ones| ==> f.ones[k].id in e.issued && f.ones[k].id < e.nextId) &&
    (forall k, l :: 0 <= k < l < |f.ones| ==> f.ones[k].id != f.ones[l].id) &&
    (forall k, i :: 0 <= k < |f.ones| && 0 <= i < |f.accepted| ==> f.ones[k].id != f.accepted[i].id) &&
    (f.holder.Submitting? ==> forall k :: 0 <= k < |f.ones| ==> f.ones[k].id != f.holder.id)
  }

  // A pop that has come to process_impl runs there under its own id.
  ghost predicate CallsOk(f: Front, e: System) {
    forall p :: 0 <= p < |f.pops| && f.pops[p].stage.Calling? ==>
      f.pops[p].stage.call < |e.threads| &&
      e.threads[f.pops[p].stage.call].id == f.pops[p].stage.id &&
      e.threads[f.pops[p].stage.call].txn == f.pops[p].txn
  }

  function ActiveCount(workers: seq<Worker>): nat {
    if workers == [] then 0 else
    ActiveCount(workers[..|workers| - 1]) +
    (if workers[|workers| - 1] == Looping || workers[|workers| - 1].Busy? then 1 else 0)
  }

  // Who holds submit_mutex_ and what the flags say.
  ghost predicate FlagsOk(f: Front) {
    (f.started <==> f.pool.Some?) &&
    (f.accepting ==> !f.stopRequested) &&
    match f.holder
    case Nobody => f.pool.Some? ==> f.accepting
    case Submitting(_, _, _) => f.accepting
    case Starting(n) => f.accepting && f.pool.Some? && n <= f.workerCount
    case Refusing => !f.accepting && f.pool.Some? && !f.stopRequested
    case Requested => !f.accepting && f.pool.Some? && f.stopRequested
    case Joining => !f.accepting && f.pool.Some? && f.stopRequested
  }

  // Every consumer loop submitted is waiting for a worker, running, or has left;
  // it leaves only when the stop has been requested and the queue is empty.
  ghost predicate PoolOk(f: Front) {
    f.pool.Some? ==>
      var pool := f.pool.value;
      |pool.workers| == f.workerCount &&
      pool.tasks + ActiveCount(pool.workers) + pool.left ==
        (if f.holder.Starting? then f.holder.submitted else f.workerCount) &&
      (pool.left > 0 ==> f.stopRequested && f.queue == []) &&
      (pool.stopping <==> f.holder == Joining) &&
      (forall w :: 0 <= w < |pool.workers| && pool.workers[w] == Exited ==> pool.stopping && pool.tasks == 0)
  }

  ghost predicate Owned(f: Front, p: nat) {
    f.pool.Some? && exists w :: 0 <= w < |f.pool.value.workers| && f.pool.value.workers[w] == Busy(p)
  }

  // A consumer's pop is in a worker's hands until its call has come back.
  ghost predicate OwnersOk(s: Server) {
    var f := s.front;
    (f.pool.Some? ==>
       (forall w :: 0 <= w < |f.pool.value.workers| && f.pool.value.workers[w].Busy? ==>
          f.pool.value.workers[w].pop < |f.pops|)) &&
    (forall p :: 0 <= p < |f.pops| && !f.pops[p].external && !Owned(f, p) ==> Returned(s, p))
  }

  ghost predicate FrontOk(s: Server) {
    QueueOk(s.front) && ReservedOk(s.front) && StagesOk(s.front) && IdsOk(s.front, s.engine) &&
    OnesOk(s.front, s.engine) && CallsOk(s.front, s.engine) && FlagsOk(s.front) && PoolOk(s.front) && OwnersOk(s)
  }

  ghost predicate ServerOk(origin: Table, s: Server) {
    Inv(origin, s.engine) && FrontOk(s)
  }

  // ----- counting -----

  lemma {:induction false} HandCountSnoc(pops: seq<Pop>, x: Pop)
    ensures HandCount(pops + [x]) == HandCount(pops) + if x.stage == InHand then 1 else 0
  {
    assert (pops + [x])[..|pops|] == pops;
  }

  lemma {:induction false} HandCountUpdate(pops: seq<Pop>, p: nat, x: Pop)
    requires p < |pops|
    ensures HandCount(pops[p := x]) ==
              HandCount(pops) - (if pops[p].stage == InHand then 1 else 0) + (if x.stage == InHand then 1 else 0)
    decreases |pops|
  {
    var n := |pops| - 1;
    if p < n {
      HandCountUpdate(pops[..n], p, x);
      assert pops[p := x][..n] == pops[..n][p := x];
    } else {
      assert pops[p := x][..n] == pops[..n];
    }
  }

  lemma {:induction false} HandCountZero(pops: seq<Pop>)
    ensures HandCount(pops) == 0 <==> forall p :: 0 <= p < |pops| ==> pops[p].stage != InHand
    decreases |pops|
  {
    if pops != [] {
      var n := |pops| - 1;
      HandCountZero(pops[..n]);
      assert forall p :: 0 <= p < n ==> pops[..n][p] == pops[p];
    }
  }

  predicate IsActive(w: Worker) {
    w == Looping || w.Busy?
  }

  lemma {:induction false} ActiveUpdate(workers: seq<Worker>, w: nat, x: Worker)
    requires w < |workers|
    ensures ActiveCount(workers[w := x]) ==
              ActiveCount(workers) - (if IsActive(workers[w]) then 1 else 0) + (if IsActive(x) then 1 else 0)
    decreases |workers|
  {
    var n := |workers| - 1;
    if w < n {
      ActiveUpdate(workers[..n], w, x);
      assert workers[w := x][..n] == workers[..n][w := x];
    } else {
      assert workers[w := x][..n] == workers[..n];
    }
  }

  lemma {:induction false} ActiveZero(workers: seq<Worker>)
    ensures ActiveCount(workers) == 0 <==> forall w :: 0 <= w < |workers| ==> !IsActive(workers[w])
    decreases |workers|
  {
    if workers != [] {
      var n := |workers| - 1;
      ActiveZero(workers[..n]);
      assert forall w :: 0 <= w < n ==> workers[..n][w] == workers[w];
    }
  }

  // ----- what engine steps leave alone -----

  // Calls keep their transaction, id and time, and what has finished stays finished.
  ghost predicate Carried(e: System, e': System) {
    |e.threads| <= |e'.threads| && e.nextId <= e'.nextId &&
    forall u :: 0 <= u < |e.threads| ==>
      e'.threads[u].id == e.threads[u].id && e'.threads[u].txn == e.threads[u].txn &&
      e'.threads[u].now == e.threads[u].now &&
      (e.threads[u].pc == Finished ==> e'.threads[u].pc == Finished)
  }

  lemma {:induction false} StepCarries(e: System, a: Action)
    requires (a.Advance? || a.Release? || a.Checkpoint?) && Enabled(e, a)
    ensures Carried(e, Do(e, a)) && Do(e, a).nextId == e.nextId && Do(e, a).issued == e.issued
  {
    if a.Advance? {
      AdvanceOnlyThread(e, a.i);
      hide Advanced;
      assert e.threads[a.i].pc != Finished;
    }
  }

  lemma {:induction false} IssueCarries(e: System)
    requires Enabled(e, Issue)
    ensures Carried(e, Do(e, Issue)) && Do(e, Issue).nextId == e.nextId + 1
    ensures Do(e, Issue).issued == e.issued + {e.nextId}
  {
  }

  lemma {:induction false} SpawnCarries(e: System, id: uint64, txn: Transaction, now: int64)
    requires Enabled(e, Spawn(id, txn, now))
    ensures var e' := Do(e, Spawn(id, txn, now));
            Carried(e, e') && e'.nextId == e.nextId && e'.issued == e.issued - {id} &&
            |e'.threads| == |e.threads| + 1 && e'.threads[|e.threads|] == NewThread(txn, id, now)
  {
  }
}
