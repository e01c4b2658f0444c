// Which id a transaction carries: with one drainer the one its submit returned,
// and then the journal has the transactions in the order they were accepted.

module IntakeIds {
  import opened Basics
  import opened Domain
  import opened SerialBank
  import opened Journal
  import opened Engine
  import opened EngineInvariant
  import opened EngineSteps
  import opened EngineEffects
  import opened EngineRuns
  import opened EngineTheorems
  import opened Intake
  import opened IntakeInvariant
  import opened IntakeSteps
  import opened IntakeTheorems

  // ----- ids taken in turn -----

  // With any number of drainers, a pop carries the id its submit returned exactly
  // when it was given an id in its turn.
  lemma {:induction false} OwnIdIffInTurn(run: seq<Server>, acts: seq<Act>, n: nat, p: nat)
    requires IsServerRun(run, acts) && n < |run| && p < |run[n].front.pops|
    requires run[n].front.pops[p].stage != InHand
    ensures p < |run[n].front.accepted|
    ensures run[n].front.pops[p].stage.id == run[n].front.accepted[p].id <==> run[n].front.pops[p].stage.order == p
  {
    hide Inv, IsServerRun, HandCount;
    FrontAlways(run, acts, n);
    hide PoolOk, OwnersOk, FlagsOk, OnesOk, CallsOk;
    var f := run[n].front;
    var j := f.pops[p].stage.order;
    assert f.takes[j] == Take(p, f.pops[p].stage.id);
    assert f.accepted[j].id == f.pops[p].stage.id;
  }

  ghost predicate InTurn(f: Front) {
    forall p :: 0 <= p < |f.pops| && f.pops[p].stage != InHand ==> f.pops[p].stage.order == p
  }

  lemma {:induction false} LastInHand(f: Front, p: nat)
    requires ReservedOk(f) && StagesOk(f) && InTurn(f) && HandCount(f.pops) <= 1
    requires p < |f.pops| && f.pops[p].stage == InHand
    ensures |f.takes| == p
  {
    HandCountZero(f.pops);
    hide HandCount;
    var last := |f.pops| - 1;
    assert |f.takes| == last;
    if p != last { OnlyOneInHand(f.pops, p, last); }
  }

  lemma {:induction false} OnlyOneInHand(pops: seq<Pop>, p: nat, q: nat)
    requires HandCount(pops) <= 1 && p < |pops| && q < |pops| && p != q && pops[p].stage == InHand
    ensures pops[q].stage != InHand
  {
    var x := pops[p].(stage := Bearing(0, 0));
    HandCountUpdate(pops, p, x);
    HandCountZero(pops[p := x]);
    assert pops[p := x][q] == pops[q];
  }

  lemma {:induction false} InTurnTake(s: Server, p: nat)
    requires ReservedOk(s.front) && StagesOk(s.front) && InTurn(s.front) && HandCount(s.front.pops) <= 1
    requires CanAct(s, TakeId(p))
    ensures InTurn(Acted(s, TakeId(p)).front)
  {
    LastInHand(s.front, p);
    NeverFallsBack(s.front, p);
    hide ReservedOk, StagesOk, Do, Enabled, HandCount;
  }

  lemma {:induction false} InTurnSame(f: Front, f': Front)
    requires InTurn(f) && |f.pops| <= |f'.pops|
    requires forall p :: 0 <= p < |f'.pops| && f'.pops[p].stage != InHand ==>
               p < |f.pops| && f.pops[p].stage != InHand && f'.pops[p].stage.order == f.pops[p].stage.order
    ensures InTurn(f')
  {
  }

  lemma {:induction false} InTurnKept(s: Server, act: Act)
    requires FrontOk(s) && InTurn(s.front) && HandCount(s.front.pops) <= 1 && CanAct(s, act)
    ensures InTurn(Acted(s, act).front)
  {
    if act.TakeId? {
      InTurnTake(s, act.p);
    } else if PoolAct(act) {
      PoolActTraffic(s, act);
      hide Acted, CanAct, FrontOk;
    } else if !act.Crash? {
      InTurnOther(s, act);
    }
  }

  lemma {:induction false} InTurnOther(s: Server, act: Act)
    requires InTurn(s.front) && CanAct(s, act) && !act.TakeId? && !PoolAct(act) && !act.Crash?
    ensures InTurn(Acted(s, act).front)
  {
    hide Do, Enabled, InTurn;
    InTurnSame(s.front, Acted(s, act).front);
  }

  // As long as no two transactions are ever in hand at once, ids are taken in turn.
  lemma {:induction false} InTurnAlways(run: seq<Server>, acts: seq<Act>, n: nat)
    requires IsServerRun(run, acts) && n < |run|
    requires forall m :: 0 <= m < n ==> HandCount(run[m].front.pops) <= 1
    ensures InTurn(run[n].front)
    decreases n
  {
    hide HandCount, CanAct, Acted, FrontOk, Inv;
    if n == 0 {
      assert run[0].front.pops == [];
    } else {
      InTurnAlways(run, acts, n - 1);
      FrontAlways(run, acts, n - 1);
      InTurnKept(run[n - 1], acts[n - 1]);
    }
  }

  // Every popped transaction past take_reserved_id has the id its submit returned,
  // and its call runs it under that id.
  ghost predicate CarryOwnIds(s: Server) {
    var f := s.front;
    |f.pops| <= |f.accepted| &&
    forall p :: 0 <= p < |f.pops| && f.pops[p].stage != InHand ==>
      f.pops[p].stage.id == f.accepted[p].id &&
      (f.pops[p].stage.Calling? ==>
         f.pops[p].stage.call < |s.engine.threads| &&
         s.engine.threads[f.pops[p].stage.call].id == f.accepted[p].id &&
         s.engine.threads[f.pops[p].stage.call].txn == f.accepted[p].txn)
  }

  lemma {:induction false} InTurnCarries(s: Server)
    requires QueueOk(s.front) && ReservedOk(s.front) && StagesOk(s.front) && CallsOk(s.front, s.engine)
    requires InTurn(s.front)
    ensures CarryOwnIds(s)
  {
    hide HandCount;
    var f := s.front;
    forall p | 0 <= p < |f.pops| && f.pops[p].stage != InHand ensures f.pops[p].stage.id == f.accepted[p].id {
      assert f.takes[p] == Take(p, f.pops[p].stage.id);
    }
  }

  // As long as no two transactions are ever in hand at once, every one carries
  // the id its submit returned.
  lemma {:induction false} SoloDrainerKeepsIds(run: seq<Server>, acts: seq<Act>, n: nat)
    requires IsServerRun(run, acts) && n < |run|
    requires forall m :: 0 <= m < n ==> HandCount(run[m].front.pops) <= 1
    ensures CarryOwnIds(run[n])
  {
    hide HandCount, Inv, IsServerRun, InTurn, CarryOwnIds;
    FrontAlways(run, acts, n);
    hide IdsOk, OnesOk, FlagsOk, PoolOk, OwnersOk;
    InTurnAlways(run, acts, n);
    InTurnCarries(run[n]);
  }

  // ----- how many have a transaction in hand -----

  // Those popped by process_next, or by consumers, that have no id yet.
  function InHandOf(pops: seq<Pop>, external: bool): nat {
    if pops == [] then 0 else
    var x := pops[|pops| - 1];
    InHandOf(pops[..|pops| - 1], external) + (if x.stage == InHand && x.external == external then 1 else 0)
  }

  lemma {:induction false} HandCountSplits(pops: seq<Pop>)
    ensures HandCount(pops) == InHandOf(pops, true) + InHandOf(pops, false)
    decreases |pops|
  {
    if pops == [] {
    } else {
      HandCountSplits(pops[..|pops| - 1]);
    }
  }

  lemma {:induction false} InHandOfUpdate(pops: seq<Pop>, external: bool, p: nat, stage: Stage)
    requires p < |pops|
    ensures InHandOf(pops[p := pops[p].(stage := stage)], external) ==
              InHandOf(pops, external)
              - (if pops[p].stage == InHand && pops[p].external == external then 1 else 0)
              + (if stage == InHand && pops[p].external == external then 1 else 0)
    decreases |pops|
  {
    var n := |pops| - 1;
    var x := pops[p].(stage := stage);
    if p < n {
      InHandOfUpdate(pops[..n], external, p, stage);
      assert pops[p := x][..n] == pops[..n][p := x];
    } else {
      assert pops[p := x][..n] == pops[..n];
    }
  }

  lemma {:induction false} InHandOfZero(pops: seq<Pop>, external: bool)
    ensures InHandOf(pops, external) == 0 <==>
              forall p :: 0 <= p < |pops| ==> !(pops[p].stage == InHand && pops[p].external == external)
    decreases |pops|
  {
    if pops == [] {
    } else {
      var n := |pops| - 1;
      InHandOfZero(pops[..n], external);
      assert forall p :: 0 <= p < n ==> pops[..n][p] == pops[p];
    }
  }

  // With at most one worker, consumers have at most that many in hand.
  lemma {:induction false} ConsumersInHand(s: Server)
    requires PoolOk(s.front) && OwnersOk(s) && s.front.workerCount <= 1
    ensures InHandOf(s.front.pops, false) <= s.front.workerCount
  {
    hide InHandOf, ActiveCount;
    var f := s.front;
    InHandOfZero(f.pops, false);
    if p :| 0 <= p < |f.pops| && f.pops[p].stage == InHand && !f.pops[p].external {
      assert Owned(f, p);
      assert f.pool.value.workers[0] == Busy(p);
      forall q | 0 <= q < |f.pops| && q != p && !f.pops[q].external ensures f.pops[q].stage != InHand {
        assert !Owned(f, q);
      }
      InHandOfUpdate(f.pops, false, p, Bearing(0, 0));
      InHandOfZero(f.pops[p := f.pops[p].(stage := Bearing(0, 0))], false);
    }
  }

  // At no time have more than k calls of process_next a transaction in hand.
  ghost predicate FewOutsiders(run: seq<Server>, k: nat) {
    forall m :: 0 <= m < |run| ==> InHandOf(run[m].front.pops, true) <= k
  }

  lemma {:induction false} WorkerCountKept(s: Server, act: Act)
    requires CanAct(s, act)
    ensures Acted(s, act).front.workerCount == s.front.workerCount
  {
    hide Do, Enabled, Returned;
  }

  lemma {:induction false} WorkerCountConstant(run: seq<Server>, acts: seq<Act>, n: nat)
    requires IsServerRun(run, acts) && n < |run|
    ensures run[n].front.workerCount == run[0].front.workerCount
    decreases n
  {
    hide Acted, CanAct;
    if n == 0 {
    } else {
      WorkerCountConstant(run, acts, n - 1);
      WorkerCountKept(run[n - 1], acts[n - 1]);
    }
  }

  lemma {:induction false} OneInHand(run: seq<Server>, acts: seq<Act>, n: nat, k: nat)
    requires IsServerRun(run, acts) && n < |run| && FewOutsiders(run, k) && run[0].front.workerCount + k <= 1
    ensures HandCount(run[n].front.pops) <= 1
  {
    hide Inv, IsServerRun, HandCount, InHandOf;
    FrontAlways(run, acts, n);
    hide StagesOk, IdsOk, OnesOk, CallsOk, ReservedOk, QueueOk, FlagsOk, PoolOk, OwnersOk;
    WorkerCountConstant(run, acts, n);
    ConsumersInHand(run[n]);
    HandCountSplits(run[n].front.pops);
  }

  // With one drainer, be it the only worker or a single caller of process_next,
  // every transaction carries the id its submit returned.
  lemma {:induction false} OneDrainerKeepsIds(run: seq<Server>, acts: seq<Act>, n: nat, k: nat)
    requires IsServerRun(run, acts) && n < |run| && FewOutsiders(run, k) && run[0].front.workerCount + k <= 1
    ensures CarryOwnIds(run[n])
  {
    hide IsServerRun, HandCount, CarryOwnIds, FewOutsiders;
    forall m | 0 <= m < n ensures HandCount(run[m].front.pops) <= 1 { OneInHand(run, acts, m, k); }
    SoloDrainerKeepsIds(run, acts, n);
  }

  // ----- journal order -----

  // No outsider has popped, and a worker is busy with the latest pop only.
  ghost predicate SingleFile(s: Server) {
    s.front.workerCount <= 1 &&
    (forall p :: 0 <= p < |s.front.pops| ==> !s.front.pops[p].external) &&
    (s.front.pool.Some? ==>
       forall w :: 0 <= w < |s.front.pool.value.workers| && s.front.pool.value.workers[w].Busy? ==>
         s.front.pool.value.workers[w].pop == |s.front.pops| - 1)
  }

  lemma {:induction false} SingleFileKept(s: Server, act: Act)
    requires PoolOk(s.front) && SingleFile(s) && CanAct(s, act) && act != NextPop
    ensures SingleFile(Acted(s, act))
  {
    hide Do, Enabled, Returned, ActiveCount;
    match act {
      case WorkerPop(_) =>
      case TakeId(_) =>
      case Call(_, _) =>
      case StartBegin =>
      case _ =>
    }
  }

  lemma {:induction false} EarlierReturned(s: Server, p: nat)
    requires OwnersOk(s) && SingleFile(s) && p + 1 < |s.front.pops|
    ensures Returned(s, p)
  {
    hide Returned;
    assert !Owned(s.front, p);
  }

  ghost predicate JournalFollowsPops(s: Server) {
    var j := s.engine.journal;
    forall p, q :: 0 <= p < q < |s.front.pops| && s.front.pops[p].stage.Calling? && s.front.pops[q].stage.Calling? &&
                   EntryOf(j, s.front.pops[p].stage.id) < |j| && EntryOf(j, s.front.pops[q].stage.id) < |j| ==>
      EntryOf(j, s.front.pops[p].stage.id) < EntryOf(j, s.front.pops[q].stage.id)
  }

  lemma {:induction false} NoRecordYet(e: System, id: uint64)
    requires JournalOk(e) && id in e.issued
    ensures EntryOf(e.journal, id) == |e.journal|
  {
    hide GoodRecord;
  }

  // The order is kept while journal and calls stay the same, or calls only begin.
  lemma {:induction false} FollowsSame(s: Server, s': Server)
    requires JournalFollowsPops(s) && |s.front.pops| <= |s'.front.pops|
    requires forall id: uint64 :: EntryOf(s'.engine.journal, id) == EntryOf(s.engine.journal, id)
    requires |s'.engine.journal| == |s.engine.journal|
    requires forall p :: 0 <= p < |s'.front.pops| && s'.front.pops[p].stage.Calling? ==>
               EntryOf(s.engine.journal, s'.front.pops[p].stage.id) < |s.engine.journal| ==>
                 p < |s.front.pops| && s.front.pops[p].stage.Calling? &&
                 s.front.pops[p].stage.id == s'.front.pops[p].stage.id
    ensures JournalFollowsPops(s')
  {
    hide EntryOf;
  }

  // A call that still runs is not one of an earlier pop.
  lemma {:induction false} EarlierDone(s: Server, p: nat, i: nat)
    requires OwnersOk(s) && CallsOk(s.front, s.engine) && SingleFile(s) && ThreadsOk(s.engine)
    requires p + 1 < |s.front.pops| && s.front.pops[p].stage.Calling?
    requires i < |s.engine.threads| && s.engine.threads[i].pc != Finished
    ensures s.front.pops[p].stage.id != s.engine.threads[i].id
  {
    EarlierReturned(s, p);
    hide ThreadOk, OwnersOk, SingleFile;
    var call := s.front.pops[p].stage.call;
    assert call != i;
    if call < i {
      assert Apart(s.engine.threads[call], s.engine.threads[i]);
    } else {
      assert Apart(s.engine.threads[i], s.engine.threads[call]);
    }
  }

  lemma {:induction false} AppendFollows(s: Server, s': Server, i: nat)
    requires OwnersOk(s) && CallsOk(s.front, s.engine) && SingleFile(s) && ThreadsOk(s.engine)
    requires JournalFollowsPops(s) && s'.front == s.front && AppendShape(s.engine, s'.engine, i)
    requires s.engine.threads[i].pc != Finished
    ensures JournalFollowsPops(s')
  {
    var j, j' := s.engine.journal, s'.engine.journal;
    var e := JEntry(Intent(s.engine.threads[i]), Validated);
    forall p, q | 0 <= p < q < |s.front.pops| && s.front.pops[p].stage.Calling? && s.front.pops[q].stage.Calling? &&
                  EntryOf(j', s.front.pops[p].stage.id) < |j'| && EntryOf(j', s.front.pops[q].stage.id) < |j'|
      ensures EntryOf(j', s.front.pops[p].stage.id) < EntryOf(j', s.front.pops[q].stage.id)
    {
      EntryAppend(j, e, s.front.pops[p].stage.id);
      EntryAppend(j, e, s.front.pops[q].stage.id);
      EarlierDone(s, p, i);
      hide EntryOf, ThreadsOk, OwnersOk, CallsOk, SingleFile;
    }
  }

  lemma {:induction false} AdvanceFollows(s: Server, s': Server, i: nat)
    requires OwnersOk(s) && CallsOk(s.front, s.engine) && SingleFile(s) && StoreOk(s.engine) && ThreadsOk(s.engine)
    requires JournalFollowsPops(s) && s'.front == s.front && i < |s.engine.threads|
    requires Engine.Ready(s.engine, s.engine.threads[i]) && s'.engine == Advanced(s.engine, i)
    ensures JournalFollowsPops(s')
  {
    var e := s.engine;
    var pc := e.threads[i].pc;
    if pc.Inside? && pc.sec == Append {
      assert CanStep(e, i);
      AppendHasShape(e, i);
      hide CanStep, OwnersOk, CallsOk, SingleFile, StoreOk, ThreadsOk, JournalFollowsPops, Advanced;
      AppendFollows(s, s', i);
    } else {
      if pc.Inside? { SectionJournal(e, i); } else { LocalJournal(e, i); }
      hide OwnersOk, CallsOk, SingleFile, StoreOk, ThreadsOk, JournalFollowsPops, Advanced;
      var x := EntryOf(e.journal, e.threads[i].id);
      forall id: uint64 ensures EntryOf(s'.engine.journal, id) == EntryOf(e.journal, id) {
        if s'.engine.journal != e.journal { EntryFlip(e.journal, x, id); }
      }
      FollowsSame(s, s');
    }
  }

  // Steps that begin no call and append nothing leave calls and journal alone.
  lemma {:induction false} CallsUntouched(s: Server, act: Act)
    requires CanAct(s, act) && !act.Call? && !act.Crash? && !(act.Step? && act.a.Advance?)
    ensures Acted(s, act).engine.journal == s.engine.journal
    ensures |s.front.pops| <= |Acted(s, act).front.pops|
    ensures forall p :: 0 <= p < |Acted(s, act).front.pops| && Acted(s, act).front.pops[p].stage.Calling? ==>
              p < |s.front.pops| && s.front.pops[p].stage == Acted(s, act).front.pops[p].stage
  {
    if PoolAct(act) {
      PoolActTraffic(s, act);
      hide Acted, CanAct;
    } else {
      match act {
        case TakeId(_) =>
        case WorkerPop(_) =>
        case NextPop =>
        case Step(_) =>
        case _ =>
      }
    }
  }

  lemma {:induction false} FollowsKept(s: Server, act: Act)
    requires FrontOk(s) && StoreOk(s.engine) && ThreadsOk(s.engine) && JournalOk(s.engine)
    requires SingleFile(s) && JournalFollowsPops(s) && CanAct(s, act) && act != NextPop
    ensures JournalFollowsPops(Acted(s, act))
  {
    hide FrontOk, EntryOf, StoreOk, ThreadsOk, JournalOk, JournalFollowsPops, SingleFile, Acted, CanAct;
    if act.Step? && act.a.Advance? {
      StepFollows(s, act);
    } else if act.Call? {
      IdsOfFront(s);
      CallFollows(s, act.p, act.now);
    } else if act.Crash? {
      CrashFollows(s, act);
    } else {
      CallsUntouched(s, act);
      FollowsSame(s, Acted(s, act));
    }
  }

  lemma {:induction false} IdsOfFront(s: Server)
    requires FrontOk(s)
    ensures IdsOk(s.front, s.engine)
  {
    hide QueueOk, ReservedOk, StagesOk, IdsOk, OnesOk, CallsOk, FlagsOk, PoolOk, OwnersOk;
  }

  lemma {:induction false} CrashFollows(s: Server, act: Act)
    requires CanAct(s, act) && act.Crash?
    ensures JournalFollowsPops(Acted(s, act))
  {
    hide Do, Enabled, EntryOf;
  }

  lemma {:induction false} StepFollows(s: Server, act: Act)
    requires FrontOk(s) && StoreOk(s.engine) && ThreadsOk(s.engine)
    requires SingleFile(s) && JournalFollowsPops(s) && CanAct(s, act) && act.Step? && act.a.Advance?
    ensures JournalFollowsPops(Acted(s, act))
  {
    hide JournalFollowsPops, StoreOk, ThreadsOk, SingleFile, OwnersOk, CallsOk, PoolOk, FlagsOk, OnesOk, IdsOk;
    hide StagesOk, ReservedOk, QueueOk, Advanced;
    AdvanceFollows(s, Acted(s, act), act.a.i);
  }

  lemma {:induction false} CallFollows(s: Server, p: nat, now: int64)
    requires IdsOk(s.front, s.engine) && JournalOk(s.engine) && JournalFollowsPops(s) && CanAct(s, Call(p, now))
    ensures JournalFollowsPops(Acted(s, Call(p, now)))
  {
    NoRecordYet(s.engine, s.front.pops[p].stage.id);
    hide EntryOf, IdsOk, JournalOk, JournalFollowsPops;
    FollowsSame(s, Acted(s, Call(p, now)));
  }

  lemma {:induction false} NextPopIsOutsider(s: Server)
    requires CanAct(s, NextPop)
    ensures InHandOf(Acted(s, NextPop).front.pops, true) > 0
  {
    var pops := Acted(s, NextPop).front.pops;
    assert pops[|pops| - 1].external && pops[|pops| - 1].stage == InHand;
  }

  lemma {:induction false} SingleFileAlways(run: seq<Server>, acts: seq<Act>, n: nat)
    requires IsServerRun(run, acts) && n < |run| && FewOutsiders(run, 0) && run[0].front.workerCount <= 1
    ensures SingleFile(run[n]) && JournalFollowsPops(run[n])
    decreases n
  {
    hide Acted, CanAct, FrontOk, Inv, InHandOf, EntryOf;
    if n == 0 {
      assert run[0].front.pops == [] && run[0].front.pool.None?;
    } else {
      SingleFileAlways(run, acts, n - 1);
      FrontAlways(run, acts, n - 1);
      assert InHandOf(run[n].front.pops, true) <= 0;
      if acts[n - 1] == NextPop { NextPopIsOutsider(run[n - 1]); }
      hide FewOutsiders, SingleFile, JournalFollowsPops;
      SingleFileStep(run[0].engine.accounts, run[n - 1], acts[n - 1]);
    }
  }

  lemma {:induction false} SingleFileStep(origin: Table, s: Server, act: Act)
    requires FrontOk(s) && Inv(origin, s.engine) && SingleFile(s) && JournalFollowsPops(s)
    requires CanAct(s, act) && act != NextPop
    ensures SingleFile(Acted(s, act)) && JournalFollowsPops(Acted(s, act))
  {
    hide SingleFile, JournalFollowsPops, Acted, CanAct, StoreOk, ThreadsOk, JournalOk;
    hide OwnersOk, CallsOk, PoolOk, FlagsOk, OnesOk, IdsOk, StagesOk, ReservedOk, QueueOk;
    SingleFileKept(s, act);
    FollowsKept(s, act);
  }

  // Only a transaction whose call has begun can have a journal record.
  lemma {:induction false} RecordedIsCalling(s: Server, p: nat)
    requires ReservedOk(s.front) && StagesOk(s.front) && IdsOk(s.front, s.engine) && JournalOk(s.engine)
    requires CarryOwnIds(s) && InTurn(s.front)
    requires p < |s.front.accepted| && EntryOf(s.engine.journal, s.front.accepted[p].id) < |s.engine.journal|
    ensures p < |s.front.pops| && s.front.pops[p].stage.Calling?
  {
    hide HandCount, JournalOk;
    var f := s.front;
    var id := f.accepted[p].id;
    if id in s.engine.issued { NoRecordYet(s.engine, id); }
    assert p < |f.takes|;
    var q := f.takes[p].pop;
    assert f.pops[q].stage.order == p;
    assert q == p;
  }

  // With a single worker and no process_next, journal records appear in the order
  // in which submit accepted their transactions.
  lemma {:induction false} JournalInAcceptanceOrder(run: seq<Server>, acts: seq<Act>, n: nat, p: nat, q: nat)
    requires IsServerRun(run, acts) && n < |run| && FewOutsiders(run, 0) && run[0].front.workerCount <= 1
    requires p < q < |run[n].front.accepted|
    requires var j := run[n].engine.journal;
             EntryOf(j, run[n].front.accepted[p].id) < |j| && EntryOf(j, run[n].front.accepted[q].id) < |j|
    ensures EntryOf(run[n].engine.journal, run[n].front.accepted[p].id)
          < EntryOf(run[n].engine.journal, run[n].front.accepted[q].id)
  {
    var s := run[n];
    hide IsServerRun, FewOutsiders, HandCount, Inv, EntryOf, FrontOk;
    FrontAlways(run, acts, n);
    SingleFileAlways(run, acts, n);
    OneDrainerKeepsIds(run, acts, n, 0);
    forall m | 0 <= m < n ensures HandCount(run[m].front.pops) <= 1 { OneInHand(run, acts, m, 0); }
    InTurnAlways(run, acts, n);
    hide SingleFile;
    BothCalling(run[0].engine.accounts, s, p, q);
  }

  lemma {:induction false} BothCalling(origin: Table, s: Server, p: nat, q: nat)
    requires FrontOk(s) && Inv(origin, s.engine) && CarryOwnIds(s) && InTurn(s.front)
    requires p < |s.front.accepted| && q < |s.front.accepted|
    requires var j := s.engine.journal;
             EntryOf(j, s.front.accepted[p].id) < |j| && EntryOf(j, s.front.accepted[q].id) < |j|
    ensures p < |s.front.pops| && s.front.pops[p].stage.Calling? && s.front.pops[p].stage.id == s.front.accepted[p].id
    ensures q < |s.front.pops| && s.front.pops[q].stage.Calling? && s.front.pops[q].stage.id == s.front.accepted[q].id
  {
    hide StoreOk, ThreadsOk, OrdersOk, SnapshotsOk, OutcomesOk, JournalOk, EntryOf;
    hide OwnersOk, CallsOk, PoolOk, FlagsOk, OnesOk, IdsOk, StagesOk, ReservedOk, QueueOk, InTurn;
    RecordedIsCalling(s, p);
    RecordedIsCalling(s, q);
  }
}
