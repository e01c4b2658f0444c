// Deadlock freedom and progress: while a call is unfinished some call can step,
// and no schedule can go on stepping for ever.

module EngineProgress {
  import opened Basics
  import opened Domain
  import opened SerialBank
  import opened Engine
  import opened EngineInvariant
  import opened EngineRuns
  import opened EngineTheorems

  // ----- deadlock freedom -----

  predicate Waiting(t: Thread) {
    t.pc.AcquireAccount?
  }

  // The account whose mutex a waiting call is about to lock.
  function Wanted(t: Thread): uint64 {
    if t.pc.AcquireAccount? && t.pc.k < |Order(t)| then Order(t)[t.pc.k] else 0
  }

  // A waiting call holds mutexes of accounts below the one it waits for only.
  lemma {:induction false} HoldsBelowWanted(s: System, u: nat, a: uint64)
    requires ThreadsOk(s) && TableOk(s.table) && u < |s.threads| && Waiting(s.threads[u])
    requires a in s.table && s.table[a] in s.threads[u].holding
    ensures a < Wanted(s.threads[u])
  {
    hide ApplySpan, LockOrder;
    var t := s.threads[u];
    assert ThreadOk(s, t);
    OrderIsInvolved(t);
    var j :| 0 <= j < t.pc.k && t.slots[j] == s.table[a];
    assert Order(t)[j] == a;
  }

  lemma {:induction false} HighestWaiting(threads: seq<Thread>, u: nat) returns (i: nat)
    requires u < |threads| && Waiting(threads[u])
    ensures i < |threads| && Waiting(threads[i])
    ensures forall v :: 0 <= v < |threads| && Waiting(threads[v]) ==> Wanted(threads[v]) <= Wanted(threads[i])
  {
    hide Wanted;
    i := u;
    for n := 0 to |threads|
      invariant i < |threads| && Waiting(threads[i])
      invariant forall v :: 0 <= v < n && Waiting(threads[v]) ==> Wanted(threads[v]) <= Wanted(threads[i])
    {
      if Waiting(threads[n]) && Wanted(threads[n]) > Wanted(threads[i]) { i := n; }
    }
  }

  // Among waiting calls the one that wants the highest account is not blocked,
  // unless by a call that is not waiting.
  lemma {:induction false} HighestIsFree(s: System, i: nat)
    requires ThreadsOk(s) && TableOk(s.table) && i < |s.threads| && Waiting(s.threads[i])
    requires forall v :: 0 <= v < |s.threads| ==> s.threads[v].pc == Finished || Waiting(s.threads[v])
    requires forall v :: 0 <= v < |s.threads| && Waiting(s.threads[v]) ==> Wanted(s.threads[v]) <= Wanted(s.threads[i])
    ensures Ready(s, s.threads[i])
  {
    var t := s.threads[i];
    assert ThreadOk(s, t);
    var a := Wanted(t);
    assert a in s.table && s.table[a] == t.slots[t.pc.k] by { hide ApplySpan, LockOrder; }
    forall u | 0 <= u < |s.threads| ensures s.table[a] !in s.threads[u].holding {
      assert ThreadOk(s, s.threads[u]);
      hide ThreadsOk, Wanted, ApplySpan, LockOrder, TableOk, CopiesOk, RecordOk, DataShape, SlotsOk;
      if s.table[a] in s.threads[u].holding {
        assert Waiting(s.threads[u]);
        HoldsBelowWanted(s, u, a);
        assert false;
      }
    }
  }

  ghost predicate CallStep(s: System, a: Action) {
    (a.Advance? || a.Release?) && Enabled(s, a)
  }

  // A call inside a leaf section can always go on.
  lemma {:induction false} InsideIsReady(s: System, i: nat)
    requires ThreadsOk(s) && i < |s.threads| && s.threads[i].pc.Inside?
    ensures Ready(s, s.threads[i])
  {
    hide ApplySpan, LockOrder;
    assert ThreadOk(s, s.threads[i]);
  }

  ghost predicate NobodyInside(s: System) {
    forall u :: 0 <= u < |s.threads| ==> !s.threads[u].pc.Inside?
  }

  // With the leaf mutexes free, every call that is not waiting for an account can
  // step.
  lemma {:induction false} NotWaitingSteps(s: System, i: nat) returns (a: Action)
    requires NobodyInside(s) && i < |s.threads| && s.threads[i].pc != Finished && !Waiting(s.threads[i])
    ensures CallStep(s, a)
  {
    a := Advance(i);
    if s.threads[i].pc == Unlocking && s.threads[i].holding != {} {
      var slot :| slot in s.threads[i].holding;
      a := Release(i, slot);
    }
  }

  // No deadlock: in every reachable state with an unfinished call, some call can
  // take its next step.
  lemma {:induction false} NoDeadlock(origin: Table, s: System, u: nat) returns (a: Action)
    requires Inv(origin, s) && u < |s.threads| && s.threads[u].pc != Finished
    ensures CallStep(s, a)
  {
    hide JournalOk, OrdersOk, SnapshotsOk, OutcomesOk, ThreadsOk, Ready, TableOk;
    if i :| 0 <= i < |s.threads| && s.threads[i].pc.Inside? {
      InsideIsReady(s, i);
      a := Advance(i);
    } else if i :| 0 <= i < |s.threads| && s.threads[i].pc != Finished && !Waiting(s.threads[i]) {
      a := NotWaitingSteps(s, i);
    } else {
      var i := HighestWaiting(s.threads, u);
      HighestIsFree(s, i);
      a := Advance(i);
    }
  }

  // ----- progress -----

  // At least as many steps as the call has left.
  function Rank(t: Thread): nat {
    match t.pc
    case Enter(Lookup(k)) => if k <= 2 then 32 + 3 * (2 - k) else 32
    case Inside(Lookup(k), _) => if k <= 2 then 31 + 3 * (2 - k) else 31
    case AcquireAccount(k) => if k <= 2 then 30 + 3 * (2 - k) else 30
    case Enter(Load) => 29
    case Inside(Load, j) => if j <= 2 then 28 - j else 26
    case Validating => 25
    case Enter(Append) => 24
    case Inside(Append, _) => 23
    case Applying => 22
    case Enter(Save) => 21
    case Inside(Save, j) => if j <= 2 then 20 - j else 18
    case Enter(Commit) => 17
    case Inside(Commit, _) => 16
    case Enter(Ledger) => 15
    case Inside(Ledger, _) => 14
    case Enter(Audit) => 3 + |t.holding|
    case Inside(Audit, _) => 2 + |t.holding|
    case Unlocking => if t.audited then 1 + |t.holding| else 4 + |t.holding|
    case Finished => 0
  }

  function Measure(threads: seq<Thread>): nat {
    if threads == [] then 0 else Measure(threads[..|threads| - 1]) + Rank(threads[|threads| - 1])
  }

  lemma {:induction false} MeasureUpdate(threads: seq<Thread>, i: nat, t: Thread)
    requires i < |threads|
    ensures Measure(threads[i := t]) == Measure(threads) - Rank(threads[i]) + Rank(t)
    decreases |threads|
  {
    hide Rank;
    var n := |threads| - 1;
    if i < n {
      MeasureUpdate(threads[..n], i, t);
      assert threads[i := t][..n] == threads[..n][i := t];
    } else {
      assert threads[i := t][..n] == threads[..n];
    }
  }

  lemma {:induction false} FewSlots(slots: seq<nat>)
    ensures |SlotSet(slots)| <= |slots|
    decreases |slots|
  {
    if slots == [] {
      assert SlotSet(slots) == {};
    } else {
      var n := |slots| - 1;
      FewSlots(slots[..n]);
      assert slots == slots[..n] + [slots[n]];
      assert SlotSet(slots) == SlotSet(slots[..n]) + {slots[n]};
    }
  }

  lemma {:induction false} FewHeld(s: System, t: Thread)
    requires ThreadOk(s, t)
    ensures |t.holding| <= 2 && |Order(t)| <= 2
    ensures t.pc.Inside? && t.pc.sec == Save ==> |t.loaded| <= 2
  {
    hide ApplySpan, LockOrder;
    OrderIsInvolved(t);
    FewSlots(t.slots);
    assert t.holding <= SlotSet(t.slots);
    SubsetSize(t.holding, SlotSet(t.slots));
  }

  lemma {:induction false} SubsetSize(a: set<nat>, b: set<nat>)
    requires a <= b
    ensures |a| <= |b|
  {
    assert b == a + (b - a);
  }

  // Every step of a call lowers its rank.
  lemma {:induction false} RankFalls(s: System, i: nat)
    requires ThreadsOk(s) && i < |s.threads| && Ready(s, s.threads[i])
    ensures i < |Advanced(s, i).threads| && Rank(Advanced(s, i).threads[i]) < Rank(s.threads[i])
  {
    assert ThreadOk(s, s.threads[i]);
    FewHeld(s, s.threads[i]);
    hide ThreadsOk;
    if s.threads[i].pc.Inside? { SectionRank(s, i); } else { LocalRank(s, i); }
  }

  lemma {:induction false} SectionRank(s: System, i: nat)
    requires i < |s.threads| && Ready(s, s.threads[i]) && s.threads[i].pc.Inside?
    requires |s.threads[i].holding| <= 2 && |Order(s.threads[i])| <= 2
    requires s.threads[i].pc.sec == Save ==> |s.threads[i].loaded| <= 2
    ensures i < |Advanced(s, i).threads| && Rank(Advanced(s, i).threads[i]) < Rank(s.threads[i])
  {
    hide LockOrder, Intent, EntryOf;
    match s.threads[i].pc.sec {
      case Lookup(_) =>
      case Load =>
      case Save =>
      case Commit =>
      case _ =>
    }
  }

  lemma {:induction false} LocalRank(s: System, i: nat)
    requires i < |s.threads| && Ready(s, s.threads[i]) && !s.threads[i].pc.Inside?
    requires |s.threads[i].holding| <= 2 && |Order(s.threads[i])| <= 2
    ensures i < |Advanced(s, i).threads| && Rank(Advanced(s, i).threads[i]) < Rank(s.threads[i])
  {
    hide ApplySpan, LockOrder, Validate, Ready, Advanced;
    match s.threads[i].pc {
      case Enter(_) => EnterStepRank(s, i);
      case AcquireAccount(_) => AcquireRank(s, i);
      case Validating => WorkRank(s, i);
      case Applying => WorkRank(s, i);
      case Unlocking => UnlockedRank(s, i);
      case Finished => NotReady(s, i);
    }
  }

  lemma {:induction false} NotReady(s: System, i: nat)
    requires i < |s.threads| && s.threads[i].pc == Finished
    ensures !Ready(s, s.threads[i])
  {
  }

  lemma {:induction false} EnterStepRank(s: System, i: nat)
    requires i < |s.threads| && Ready(s, s.threads[i]) && s.threads[i].pc.Enter?
    ensures i < |Advanced(s, i).threads| && Rank(Advanced(s, i).threads[i]) < Rank(s.threads[i])
  {
    EnterRank(s.threads[i]);
    hide Rank;
  }

  lemma {:induction false} AcquireRank(s: System, i: nat)
    requires i < |s.threads| && Ready(s, s.threads[i]) && s.threads[i].pc.AcquireAccount?
    requires |Order(s.threads[i])| <= 2
    ensures i < |Advanced(s, i).threads| && Rank(Advanced(s, i).threads[i]) < Rank(s.threads[i])
  {
    hide LockOrder;
  }

  lemma {:induction false} WorkRank(s: System, i: nat)
    requires i < |s.threads| && Ready(s, s.threads[i]) && s.threads[i].pc in {Validating, Applying}
    requires |s.threads[i].holding| <= 2
    ensures i < |Advanced(s, i).threads| && Rank(Advanced(s, i).threads[i]) < Rank(s.threads[i])
  {
    hide ApplySpan, Validate;
  }

  lemma {:induction false} UnlockedRank(s: System, i: nat)
    requires i < |s.threads| && Ready(s, s.threads[i]) && s.threads[i].pc == Unlocking
    ensures i < |Advanced(s, i).threads| && Rank(Advanced(s, i).threads[i]) < Rank(s.threads[i])
  {
  }

  lemma {:induction false} EnterRank(t: Thread)
    requires t.pc.Enter?
    ensures Rank(t.(pc := Inside(t.pc.sec, 0))) < Rank(t)
  {
  }

  // Every step of any call lowers the measure of the whole system.
  lemma {:induction false} MeasureFalls(s: System, a: Action)
    requires ThreadsOk(s) && CallStep(s, a)
    ensures Measure(Do(s, a).threads) < Measure(s.threads)
  {
    hide Measure;
    if a.Advance? {
      RankFalls(s, a.i);
      AdvanceOnlyThread(s, a.i);
      hide Rank, Ready, Advanced, ThreadsOk;
      var t' := Advanced(s, a.i).threads[a.i];
      assert Advanced(s, a.i).threads == s.threads[a.i := t'];
      MeasureUpdate(s.threads, a.i, t');
    } else {
      var t := s.threads[a.i];
      var t' := t.(holding := t.holding - {a.slot});
      assert |t'.holding| == |t.holding| - 1;
      MeasureUpdate(s.threads, a.i, t');
    }
  }

  // However the calls are interleaved, they cannot take more steps between them
  // than the measure says.
  lemma {:induction false} BoundedWork(run: seq<System>, actions: seq<Action>, n: nat, m: nat)
    requires IsRun(run, actions) && n <= m < |run|
    requires forall k :: n <= k < m ==> actions[k].Advance? || actions[k].Release?
    ensures m - n + Measure(run[m].threads) <= Measure(run[n].threads)
    decreases m - n
  {
    hide Inv, Do, Enabled, Measure;
    if n < m {
      BoundedWork(run, actions, n, m - 1);
      InvAlways(run, actions, m - 1);
      ThreadsAreOk(run[0].accounts, run[m - 1]);
      MeasureFalls(run[m - 1], actions[m - 1]);
    }
  }

  lemma {:induction false} ThreadsAreOk(origin: Table, s: System)
    requires Inv(origin, s)
    ensures ThreadsOk(s)
  {
    hide StoreOk, JournalOk, OrdersOk, SnapshotsOk, OutcomesOk, ThreadsOk;
  }

  // Every run can be continued, by steps of its calls alone, until all of them
  // have finished.
  lemma {:induction false} CanFinish(run: seq<System>, actions: seq<Action>)
      returns (run': seq<System>, actions': seq<Action>)
    requires IsRun(run, actions)
    ensures IsRun(run', actions') && run <= run' && actions <= actions' && AllFinished(run'[|actions'|])
    ensures forall k :: |actions| <= k < |actions'| ==> actions'[k].Advance? || actions'[k].Release?
    ensures |actions'| - |actions| <= Measure(run[|actions|].threads)
    decreases Measure(run[|actions|].threads)
  {
    hide Inv, Enabled, Do, Measure;
    var s := run[|actions|];
    InvAlways(run, actions, |actions|);
    if u :| 0 <= u < |s.threads| && s.threads[u].pc != Finished {
      var a := NoDeadlock(run[0].accounts, s, u);
      ThreadsAreOk(run[0].accounts, s);
      MeasureFalls(s, a);
      assert Enabled(s, a);
      Extend(run, actions, a);
      run', actions' := CanFinish(run + [Do(s, a)], actions + [a]);
    } else {
      run', actions' := run, actions;
    }
  }

  lemma {:induction false} Extend(run: seq<System>, actions: seq<Action>, a: Action)
    requires IsRun(run, actions) && Enabled(run[|actions|], a)
    ensures IsRun(run + [Do(run[|actions|], a)], actions + [a])
  {
    hide Do, Enabled;
  }
}
