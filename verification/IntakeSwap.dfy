// With two drainers a record can carry another transaction's id; and exactly when
// that can happen.

module IntakeSwap {
  import opened Basics
  import opened Domain
  import opened SerialBank
  import opened Journal
  import opened Engine
  import opened EngineInvariant
  import opened EngineRuns
  import opened Intake
  import opened IntakeTheorems
  import opened IntakeIds
  import EngineProgress
  import opened ProcessorSteps

  // ----- building a run -----

  // Throughout the run at most two pops happen, the first by process_next if e0
  // and else by a consumer, the second likewise by e1.
  ghost predicate PoppedBy(run: seq<Server>, e0: bool, e1: bool) {
    forall m :: 0 <= m < |run| ==> PopsBy(run[m].front.pops, e0, e1)
  }

  predicate PopsBy(pops: seq<Pop>, e0: bool, e1: bool) {
    |pops| <= 2 && (|pops| >= 1 ==> pops[0].external == e0) && (|pops| == 2 ==> pops[1].external == e1)
  }

  lemma {:induction false} OutsidersOf(run: seq<Server>, e0: bool, e1: bool)
    requires PoppedBy(run, e0, e1)
    ensures FewOutsiders(run, (if e0 then 1 else 0) + (if e1 then 1 else 0))
  {
    forall m | 0 <= m < |run|
      ensures InHandOf(run[m].front.pops, true) <= (if e0 then 1 else 0) + (if e1 then 1 else 0)
    {
      var pops := run[m].front.pops;
      assert PopsBy(pops, e0, e1);
      assert InHandOf([], true) == 0;
      if |pops| >= 1 { assert pops[..1][..0] == []; }
      if |pops| == 2 { assert pops[..1][0] == pops[0]; }
    }
  }

  // A run so far, its last state, and who may pop.
  ghost predicate Course(run: seq<Server>, acts: seq<Act>, s: Server, last: Server, e0: bool, e1: bool) {
    IsServerRun(run, acts) && run[0] == s && run[|acts|] == last && PoppedBy(run, e0, e1)
  }

  lemma {:induction false} Goes(run: seq<Server>, acts: seq<Act>, s: Server, last: Server, e0: bool, e1: bool, act: Act)
      returns (run': seq<Server>, acts': seq<Act>)
    requires Course(run, acts, s, last, e0, e1) && CanAct(last, act) && PopsBy(Acted(last, act).front.pops, e0, e1)
    ensures Course(run', acts', s, Acted(last, act), e0, e1)
  {
    hide Acted, CanAct, PopsBy;
    ServerExtend(run, acts, act);
    run', acts' := run + [Acted(last, act)], acts + [act];
  }

  // Two submits, with nobody popping.
  ghost predicate Queued(s: Server, last: Server, a: Transaction, b: Transaction) {
    last.front == s.front.(queue := [a, b], reserved := [1, 2], accepted := [Receipt(a, 1), Receipt(b, 2)]) &&
    last.engine == s.engine.(nextId := 3, issued := {1, 2})
  }

  lemma {:induction false} SubmitTwo(s: Server, a: Transaction, b: Transaction, e0: bool, e1: bool)
      returns (run: seq<Server>, acts: seq<Act>, last: Server)
    requires InitServer(s)
    ensures Course(run, acts, s, last, e0, e1) && Queued(s, last, a, b)
  {
    assert IsServerRun([s], []);
    hide IsServerRun, ApplySpan, LockOrder;
    run, acts := Submitted([s], [], a);
    run, acts := Submitted(run, acts, b);
    last := run[|acts|];
    assert s.engine.issued + {1} + {2} == {1, 2};
  }

  // Both transactions are in hand, no id has been taken.
  ghost predicate BothInHand(s: Server, last: Server, a: Transaction, b: Transaction) {
    var f := last.front;
    f.accepted == [Receipt(a, 1), Receipt(b, 2)] && f.reserved == [1, 2] && f.takes == [] && |f.pops| == 2 &&
    f.pops[0].txn == a && f.pops[1].txn == b && f.pops[0].stage == f.pops[1].stage == InHand &&
    last.engine == s.engine.(nextId := 3, issued := {1, 2})
  }

  // Popped by two calls of process_next ...
  lemma {:induction false} PopOutside(s: Server, a: Transaction, b: Transaction)
      returns (run: seq<Server>, acts: seq<Act>, last: Server)
    requires InitServer(s)
    ensures Course(run, acts, s, last, true, true) && BothInHand(s, last, a, b)
  {
    run, acts, last := SubmitTwo(s, a, b, true, true);
    hide Course, Do, Enabled;
    run, acts := Goes(run, acts, s, last, true, true, NextPop);
    last := Acted(last, NextPop);
    run, acts := Goes(run, acts, s, last, true, true, NextPop);
    last := Acted(last, NextPop);
  }

  // ... or, after start() has given the first workers a task each, ...
  lemma {:induction false} StartOne(s: Server, a: Transaction, b: Transaction, e1: bool)
      returns (run: seq<Server>, acts: seq<Act>, last: Server)
    requires InitServer(s) && s.front.workerCount >= 1
    ensures Course(run, acts, s, last, false, e1) && LoopingFirst(s, last, a, b, 1)
  {
    run, acts, last := SubmitTwo(s, a, b, false, e1);
    hide Course, Do, Enabled;
    run, acts := Goes(run, acts, s, last, false, e1, StartBegin);
    last := Acted(last, StartBegin);
    run, acts := Goes(run, acts, s, last, false, e1, StartTask);
    last := Acted(last, StartTask);
    run, acts := Goes(run, acts, s, last, false, e1, TakeTask(0));
    last := Acted(last, TakeTask(0));
  }

  // The first n workers are in their consumer loops; both transactions are queued.
  ghost predicate LoopingFirst(s: Server, last: Server, a: Transaction, b: Transaction, n: nat) {
    var f := last.front;
    f.queue == [a, b] && f.accepted == [Receipt(a, 1), Receipt(b, 2)] && f.reserved == [1, 2] && f.takes == [] &&
    f.pops == [] && last.engine == s.engine.(nextId := 3, issued := {1, 2}) &&
    f.pool.Some? && |f.pool.value.workers| == s.front.workerCount == f.workerCount && n <= f.workerCount &&
    (forall w :: 0 <= w < n ==> f.pool.value.workers[w] == Looping) &&
    (forall w :: n <= w < f.workerCount ==> f.pool.value.workers[w] == Idle) &&
    f.holder == Starting(n)
  }

  lemma {:induction false} StartTwo(s: Server, a: Transaction, b: Transaction)
      returns (run: seq<Server>, acts: seq<Act>, last: Server)
    requires InitServer(s) && s.front.workerCount >= 2
    ensures Course(run, acts, s, last, false, false) && LoopingFirst(s, last, a, b, 2)
  {
    run, acts, last := StartOne(s, a, b, false);
    hide Course, Do, Enabled;
    run, acts := Goes(run, acts, s, last, false, false, StartTask);
    last := Acted(last, StartTask);
    run, acts := Goes(run, acts, s, last, false, false, TakeTask(1));
    last := Acted(last, TakeTask(1));
  }

  // ... by a worker and a call of process_next, ...
  lemma {:induction false} PopMixed(s: Server, a: Transaction, b: Transaction)
      returns (run: seq<Server>, acts: seq<Act>, last: Server)
    requires InitServer(s) && s.front.workerCount >= 1
    ensures Course(run, acts, s, last, false, true) && BothInHand(s, last, a, b)
  {
    run, acts, last := StartOne(s, a, b, true);
    hide Course, Do, Enabled;
    run, acts := Goes(run, acts, s, last, false, true, WorkerPop(0));
    last := Acted(last, WorkerPop(0));
    run, acts := Goes(run, acts, s, last, false, true, NextPop);
    last := Acted(last, NextPop);
  }

  // ... or by two workers.
  lemma {:induction false} PopByWorkers(s: Server, a: Transaction, b: Transaction)
      returns (run: seq<Server>, acts: seq<Act>, last: Server)
    requires InitServer(s) && s.front.workerCount >= 2
    ensures Course(run, acts, s, last, false, false) && BothInHand(s, last, a, b)
  {
    run, acts, last := StartTwo(s, a, b);
    hide Course, Do, Enabled;
    run, acts := Goes(run, acts, s, last, false, false, WorkerPop(0));
    last := Acted(last, WorkerPop(0));
    run, acts := Goes(run, acts, s, last, false, false, WorkerPop(1));
    last := Acted(last, WorkerPop(1));
  }

  // ----- the swap -----

  // Each of the two transactions has the other's id.
  ghost predicate Swapped(s: Server, last: Server, a: Transaction, b: Transaction) {
    var f := last.front;
    f.accepted == [Receipt(a, 1), Receipt(b, 2)] && |f.pops| == 2 && f.pops[0].txn == a && f.pops[1].txn == b &&
    f.pops[0].stage == Bearing(2, 1) && f.pops[1].stage == Bearing(1, 0) &&
    last.engine == s.engine.(nextId := 3, issued := {1, 2})
  }

  // Whoever popped second takes its id first.
  lemma {:induction false} TakeCrosswise(run: seq<Server>, acts: seq<Act>, s: Server, last: Server,
                                         a: Transaction, b: Transaction, e0: bool, e1: bool)
      returns (run': seq<Server>, acts': seq<Act>, last': Server)
    requires Course(run, acts, s, last, e0, e1) && BothInHand(s, last, a, b) && PopsBy(last.front.pops, e0, e1)
    ensures Course(run', acts', s, last', e0, e1) && Swapped(s, last', a, b)
  {
    hide Course, Do, Enabled;
    run', acts' := Goes(run, acts, s, last, e0, e1, TakeId(1));
    last' := Acted(last, TakeId(1));
    run', acts' := Goes(run', acts', s, last', e0, e1, TakeId(0));
    last' := Acted(last', TakeId(0));
  }

  // With two drainers of whatever kind, every processor has a run in which two
  // transactions take each other's id.
  lemma {:induction false} TwoDrainersSwap(s: Server, a: Transaction, b: Transaction, k: nat)
      returns (run: seq<Server>, acts: seq<Act>, last: Server)
    requires InitServer(s) && s.front.workerCount + k >= 2
    ensures IsServerRun(run, acts) && run[0] == s && run[|acts|] == last && FewOutsiders(run, k)
    ensures Swapped(s, last, a, b)
  {
    var e0, e1 := k >= 2, k >= 1;
    run, acts, last := TwoInHand(s, a, b, k);
    LastPops(run, acts, s, last, e0, e1);
    run, acts, last := TakeCrosswise(run, acts, s, last, a, b, e0, e1);
    hide Swapped, IsServerRun;
    OutsidersOf(run, e0, e1);
    MoreOutsiders(run, (if e0 then 1 else 0) + (if e1 then 1 else 0), k);
  }

  lemma {:induction false} LastPops(run: seq<Server>, acts: seq<Act>, s: Server, last: Server, e0: bool, e1: bool)
    requires Course(run, acts, s, last, e0, e1)
    ensures PopsBy(last.front.pops, e0, e1)
  {
    hide PopsBy;
  }

  lemma {:induction false} MoreOutsiders(run: seq<Server>, j: nat, k: nat)
    requires FewOutsiders(run, j) && j <= k
    ensures FewOutsiders(run, k)
  {
  }

  lemma {:induction false} TwoInHand(s: Server, a: Transaction, b: Transaction, k: nat)
      returns (run: seq<Server>, acts: seq<Act>, last: Server)
    requires InitServer(s) && s.front.workerCount + k >= 2
    ensures Course(run, acts, s, last, k >= 2, k >= 1) && BothInHand(s, last, a, b)
  {
    hide Course, BothInHand;
    if k >= 2 {
      run, acts, last := PopOutside(s, a, b);
    } else if k == 1 {
      run, acts, last := PopMixed(s, a, b);
    } else {
      run, acts, last := PopByWorkers(s, a, b);
    }
  }

  // ----- ... carried into the journal -----

  ghost predicate CourseTo(run: seq<Server>, acts: seq<Act>, s: Server, front: Front, e: System, k: nat) {
    IsServerRun(run, acts) && run[0] == s && FewOutsiders(run, k) && run[|acts|] == Server(front, e)
  }

  lemma {:induction false} Steps(run: seq<Server>, acts: seq<Act>, s: Server, front: Front, e: System, k: nat)
      returns (run': seq<Server>, acts': seq<Act>, e': System)
    requires CourseTo(run, acts, s, front, e, k) && Enabled(e, Advance(0))
    ensures CourseTo(run', acts', s, front, e', k) && e' == Do(e, Advance(0))
  {
    e' := Do(e, Advance(0));
    hide Do, Enabled;
    var act := Step(Advance(0));
    ServerExtend(run, acts, act);
    run', acts' := run + [Server(front, e')], acts + [act];
    assert InHandOf(run[|acts|].front.pops, true) <= k;
    hide IsServerRun;
    assert forall m :: 0 <= m < |run| ==> run'[m] == run[m];
  }

  // A lone call of a deposit, at a given point of its way, in an engine whose
  // stored accounts are m and whose journal is empty.
  ghost predicate LoneDeposit(e: System, m: Table, x: uint64, id: uint64, t: Thread) {
    e.threads == [t] && e.accounts == m && e.journal == [] && t.txn == Deposit(x, 1) && t.id == id && t.now == 0
  }

  lemma {:induction false} LockDeposit(run: seq<Server>, acts: seq<Act>, s: Server, front: Front, e: System, k: nat,
                                       m: Table, x: uint64, id: uint64)
      returns (run': seq<Server>, acts': seq<Act>, e': System)
    requires CourseTo(run, acts, s, front, e, k)
    requires LoneDeposit(e, m, x, id, NewThread(Deposit(x, 1), id, 0)) && e.table == map[]
    ensures CourseTo(run', acts', s, front, e', k)
    ensures |e'.threads| == 1 && LoneDeposit(e', m, x, id, e'.threads[0])
    ensures e'.threads[0].pc == Enter(Load) && e'.threads[0].loaded == []
  {
    hide CourseTo, Do, Enabled;
    var t := e.threads[0];
    assert Order(t) == [x];
    EnterAlone(e, 0);
    run', acts', e' := Steps(run, acts, s, front, e, k);
    LookupAlone(e', 0, 0, x);
    run', acts', e' := Steps(run', acts', s, front, e', k);
    assert e'.threads[0] == t.(pc := AcquireAccount(0), slots := [0]);
    assert LoneDeposit(e', m, x, id, e'.threads[0]);
    ghost var held := e'.threads[0];
    LoneAcquire(e');
    run', acts', e' := Steps(run', acts', s, front, e', k);
    assert e'.threads == [held.(holding := {0}, pc := Enter(Load))];
    assert e'.accounts == m && e'.journal == [];
  }

  lemma {:induction false} LoneAcquire(e: System)
    requires |e.threads| == 1 && e.threads[0].pc == AcquireAccount(0) && |e.threads[0].slots| == 1
    requires e.threads[0].holding == {} && |Order(e.threads[0])| == 1
    ensures Enabled(e, Advance(0))
    ensures var e' := Do(e, Advance(0));
            e'.threads == [e.threads[0].(holding := {e.threads[0].slots[0]}, pc := Enter(Load))] &&
            e'.accounts == e.accounts && e'.journal == e.journal
  {
    hide LockOrder;
    var t := e.threads[0];
    assert t.holding + {t.slots[0]} == {t.slots[0]};
    assert e.threads == [t];
    assert e.threads[0 := t.(holding := {t.slots[0]}, pc := Enter(Load))]
        == [t.(holding := {t.slots[0]}, pc := Enter(Load))];
  }

  lemma {:induction false} JournalDeposit(run: seq<Server>, acts: seq<Act>, s: Server, front: Front, e: System, k: nat,
                                          m: Table, x: uint64, id: uint64)
      returns (run': seq<Server>, acts': seq<Act>, e': System)
    requires CourseTo(run, acts, s, front, e, k) && |e.threads| == 1 && LoneDeposit(e, m, x, id, e.threads[0])
    requires e.threads[0].pc == Enter(Load) && e.threads[0].loaded == []
    requires x in m && m[x].id == x && m[x].status == Active
    ensures CourseTo(run', acts', s, front, e', k)
    ensures |e'.threads| == 1 && e'.threads[0].id == id && e'.threads[0].txn == Deposit(x, 1)
    ensures e'.journal == [JEntry(IntentOf(Deposit(x, 1), id, 0), Validated)]
  {
    hide CourseTo, Do, Enabled;
    assert Order(e.threads[0]) == [x];
    EnterAlone(e, 0);
    run', acts', e' := Steps(run, acts, s, front, e, k);
    LoadAlone(e', 0, 0, x);
    run', acts', e' := Steps(run', acts', s, front, e', k);
    assert e'.threads[0].loaded == [m[x]] && e'.threads[0].pc == Validating;
    assert Validate(Deposit(x, 1), [m[x]]);
    ValidateAlone(e', 0);
    run', acts', e' := Steps(run', acts', s, front, e', k);
    EnterAlone(e', 0);
    run', acts', e' := Steps(run', acts', s, front, e', k);
    IntentState(e'.threads[0]);
    AppendAlone(e', 0);
    run', acts', e' := Steps(run', acts', s, front, e', k);
  }

  // The call of pop p begins.
  lemma {:induction false} CallFirst(run: seq<Server>, acts: seq<Act>, s: Server, last: Server, a: Transaction,
                                     b: Transaction, k: nat)
      returns (run': seq<Server>, acts': seq<Act>, front: Front, e: System)
    requires InitServer(s) && IsServerRun(run, acts) && run[0] == s && run[|acts|] == last && FewOutsiders(run, k)
    requires Swapped(s, last, a, b)
    ensures CourseTo(run', acts', s, front, e, k)
    ensures e.threads == [NewThread(a, 2, 0)] && e.accounts == s.engine.accounts && e.journal == [] && e.table == map[]
    ensures front.accepted == last.front.accepted && |front.pops| == 2 && front.pops[0].stage == Calling(2, 1, 0)
    ensures front.pops[0].txn == a
  {
    var act := Call(0, 0);
    assert CanAct(last, act);
    var next := Acted(last, act);
    ServerExtend(run, acts, act);
    run', acts', front, e := run + [next], acts + [act], next.front, next.engine;
    InHandOfUpdate(last.front.pops, true, 0, Calling(2, 1, 0));
    assert next.front.pops == last.front.pops[0 := last.front.pops[0].(stage := Calling(2, 1, 0))];
    assert InHandOf(run[|acts|].front.pops, true) <= k;
    hide IsServerRun, InHandOf;
    assert forall m :: 0 <= m < |run| ==> run'[m] == run[m];
  }

  // ----- exactly when records carry their own ids -----

  // A journal record made by the call of pop p.
  ghost predicate RecordOf(s: Server, p: nat, x: nat) {
    p < |s.front.pops| && s.front.pops[p].stage.Calling? && x < |s.engine.journal| &&
    s.front.pops[p].stage.call < |s.engine.threads| &&
    s.engine.journal[x].record.id == s.engine.threads[s.front.pops[p].stage.call].id
  }

  // Every persisted record carries the id that submit returned for its transaction.
  ghost predicate RecordsCarryOwnIds(s: Server) {
    forall p: nat, x: nat :: RecordOf(s, p, x) ==>
      p < |s.front.accepted| && s.engine.journal[x].record.id == s.front.accepted[p].id
  }

  // It does so in every state of every run of this processor in which no more than
  // k calls of process_next at a time have a transaction in hand.
  ghost predicate IdPromise(s: Server, k: nat) {
    forall run, acts :: IsServerRun(run, acts) && run[0] == s && FewOutsiders(run, k) ==>
      RecordsCarryOwnIds(run[|acts|])
  }

  ghost predicate SomeActive(m: Table) {
    exists x :: x in m && m[x].status == Active
  }

  lemma {:induction false} SwappedRecord(s: Server, k: nat) returns (run: seq<Server>, acts: seq<Act>)
    requires InitServer(s) && s.front.workerCount + k >= 2 && SomeActive(s.engine.accounts)
    ensures IsServerRun(run, acts) && run[0] == s && FewOutsiders(run, k)
    ensures !RecordsCarryOwnIds(run[|acts|])
  {
    var x :| x in s.engine.accounts && s.engine.accounts[x].status == Active;
    var a := Deposit(x, 1);
    var last;
    run, acts, last := TwoDrainersSwap(s, a, a, k);
    var front, e;
    run, acts, front, e := CallFirst(run, acts, s, last, a, a, k);
    run, acts, e := LockDeposit(run, acts, s, front, e, k, s.engine.accounts, x, 2);
    run, acts, e := JournalDeposit(run, acts, s, front, e, k, s.engine.accounts, x, 2);
    hide IsServerRun, FewOutsiders;
    assert RecordOf(run[|acts|], 0, 0);
  }

  // ----- a bank without an active account journals nothing -----

  lemma {:induction false} ValidNeedsActive(t: Transaction, span: seq<AccountState>)
    requires Validate(t, span)
    ensures exists i :: 0 <= i < |span| && span[i].status == Active
  {
    match t {
      case Deposit(a, _) => assert span[IndexOf(span, a)].status == Active;
      case Withdraw(a, _) => assert span[IndexOf(span, a)].status == Active;
      case Transfer(from, _, _) => assert span[IndexOf(span, from)].status == Active;
    }
  }

  // Accounts and snapshots are still the first ones, nothing is journaled and no
  // call has got past its validation.
  ghost predicate Stuck(e: System, m: Table) {
    e.accounts == m && e.journal == [] &&
    (forall k :: 0 <= k < |e.snapshots| ==> e.snapshots[k].accounts == m) &&
    forall u :: 0 <= u < |e.threads| ==> !(4 <= EngineInvariant.Stage(e.threads[u].pc) <= 12)
  }

  lemma {:induction false} StuckValidate(e: System, m: Table, i: nat)
    requires Stuck(e, m) && !SomeActive(m) && ThreadsOk(e) && i < |e.threads| && e.threads[i].pc == Validating
    ensures !Validate(e.threads[i].txn, e.threads[i].loaded)
  {
    var t := e.threads[i];
    assert ThreadOk(e, t);
    hide ThreadsOk, LockOrder;
    forall j | 0 <= j < |t.loaded| ensures t.loaded[j].status != Active {
      assert Order(t)[j] in m && m[Order(t)[j]] == t.loaded[j];
    }
    if Validate(t.txn, t.loaded) { ValidNeedsActive(t.txn, t.loaded); }
  }

  lemma {:induction false} StuckLocal(e: System, m: Table, i: nat)
    requires Stuck(e, m) && i < |e.threads| && Ready(e, e.threads[i]) && !e.threads[i].pc.Inside?
    requires e.threads[i].pc == Validating ==> !Validate(e.threads[i].txn, e.threads[i].loaded)
    ensures Stuck(Advanced(e, i), m)
  {
    hide ApplySpan, LockOrder, Validate;
    match e.threads[i].pc {
      case Enter(_) =>
      case AcquireAccount(_) =>
      case _ =>
    }
  }

  lemma {:induction false} StuckSection(e: System, m: Table, i: nat)
    requires Stuck(e, m) && i < |e.threads| && Ready(e, e.threads[i]) && e.threads[i].pc.Inside?
    ensures Stuck(Advanced(e, i), m)
  {
    hide LockOrder, Intent, EntryOf;
    match e.threads[i].pc.sec {
      case Lookup(_) =>
      case Load =>
      case _ =>
    }
  }

  lemma {:induction false} StuckAdvance(e: System, m: Table, i: nat)
    requires Stuck(e, m) && !SomeActive(m) && ThreadsOk(e) && Enabled(e, Advance(i))
    ensures Stuck(Do(e, Advance(i)), m)
  {
    hide Stuck, SomeActive, ThreadsOk, Ready, Advanced, Validate;
    if e.threads[i].pc.Inside? {
      StuckSection(e, m, i);
    } else {
      if e.threads[i].pc == Validating { StuckValidate(e, m, i); }
      StuckLocal(e, m, i);
    }
  }

  lemma {:induction false} StuckStep(e: System, m: Table, a: Action)
    requires Stuck(e, m) && !SomeActive(m) && ThreadsOk(e) && Enabled(e, a)
    ensures Stuck(Do(e, a), m)
  {
    if a.Advance? {
      StuckAdvance(e, m, a.i);
    } else {
      hide Replay, Ready, Advanced;
    }
  }

  lemma {:induction false} StuckAlways(run: seq<System>, actions: seq<Action>, n: nat)
    requires IsRun(run, actions) && n < |run| && !SomeActive(run[0].accounts)
    ensures Stuck(run[n], run[0].accounts)
    decreases n
  {
    hide Do, Enabled, Inv, SomeActive, ThreadsOk;
    if n == 0 {
    } else {
      StuckAlways(run, actions, n - 1);
      InvAlways(run, actions, n - 1);
      EngineProgress.ThreadsAreOk(run[0].accounts, run[n - 1]);
      StuckStep(run[n - 1], run[0].accounts, actions[n - 1]);
    }
  }

  lemma {:induction false} NothingPersisted(run: seq<Server>, acts: seq<Act>)
    requires IsServerRun(run, acts) && !SomeActive(run[0].engine.accounts)
    ensures RecordsCarryOwnIds(run[|acts|])
  {
    assert |acts| < |run|;
    hide SomeActive, IsServerRun, Stuck, Init, Do, Enabled;
    var states, actions := EngineOfRun(run, acts, |acts|);
    StuckAlways(states, actions, |actions|);
    NoRecords(run[|acts|], run[0].engine.accounts);
  }

  lemma {:induction false} NoRecords(s: Server, m: Table)
    requires Stuck(s.engine, m)
    ensures RecordsCarryOwnIds(s)
  {
  }

  lemma {:induction false} CarriersRecord(s: Server)
    requires CarryOwnIds(s)
    ensures RecordsCarryOwnIds(s)
  {
  }

  // The header's promise, for a processor as it is set up: every persisted record
  // carries the id its submit returned exactly when there is at most one drainer,
  // workers and concurrent callers of process_next together, or the bank has no
  // active account, so that nothing is ever persisted.
  lemma {:induction false} IdPromiseIff(s: Server, k: nat)
    requires InitServer(s)
    ensures IdPromise(s, k) <==> s.front.workerCount + k <= 1 || !SomeActive(s.engine.accounts)
  {
    if s.front.workerCount + k <= 1 {
      forall run, acts | IsServerRun(run, acts) && run[0] == s && FewOutsiders(run, k)
        ensures RecordsCarryOwnIds(run[|acts|])
      {
        OneDrainerKeepsIds(run, acts, |acts|, k);
        CarriersRecord(run[|acts|]);
      }
    } else if !SomeActive(s.engine.accounts) {
      forall run, acts | IsServerRun(run, acts) && run[0] == s && FewOutsiders(run, k)
        ensures RecordsCarryOwnIds(run[|acts|])
      {
        NothingPersisted(run, acts);
      }
    } else {
      var run, acts := SwappedRecord(s, k);
    }
  }
}
