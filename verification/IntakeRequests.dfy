// What becomes of each request: the transaction handed to submit or process_one is
// the one that runs, under the id that was issued for it, at the time of its call.

module IntakeRequests {
  import opened Domain
  import opened Engine
  import opened EngineInvariant
  import opened EngineTheorems
  import opened Intake
  import opened IntakeInvariant
  import opened IntakeSteps
  import opened IntakeTheorems

  // The process lives on from step n to step m.
  ghost predicate NoCrash(acts: seq<Act>, n: nat, m: nat) {
    forall j :: n <= j < m && j < |acts| ==> !acts[j].Crash?
  }

  // Step j started a call with this transaction, id and time, and at m it still is
  // that call.
  ghost predicate Started(run: seq<Server>, j: nat, m: nat, txn: Transaction, id: nat, now: int) {
    j < m < |run| &&
    var u := |run[j].engine.threads|;
    u < |run[m].engine.threads| &&
    run[m].engine.threads[u].txn == txn && run[m].engine.threads[u].id == id && run[m].engine.threads[u].now == now
  }

  lemma {:induction false} StartedStays(run: seq<Server>, acts: seq<Act>, j: nat, m: nat,
                                        txn: Transaction, id: nat, now: int)
    requires IsServerRun(run, acts) && m + 1 < |run| && !acts[m].Crash? && Started(run, j, m, txn, id, now)
    ensures Started(run, j, m + 1, txn, id, now)
  {
    hide Acted, CanAct;
    EngineCarried(run[m], acts[m]);
  }

  // ----- process_one -----

  // Step j is the call of process_impl for this receipt.
  ghost predicate OneCalled(run: seq<Server>, acts: seq<Act>, j: nat, m: nat, r: Receipt) {
    j < |acts| && j < |run| && acts[j].OneCall? && acts[j].k < |run[j].front.ones| &&
    run[j].front.ones[acts[j].k] == r && Started(run, j, m, r.txn, r.id, acts[j].now)
  }

  lemma {:induction false} OnesStep(s: Server, act: Act, r: Receipt)
    requires CanAct(s, act) && !act.Crash? && r in s.front.ones
    ensures r in Acted(s, act).front.ones || (act.OneCall? && s.front.ones[act.k] == r)
  {
    hide Do, Enabled;
    if PoolAct(act) {
      PoolActTraffic(s, act);
      hide Acted, CanAct;
    } else if act.OneCall? {
      OneLeft(s.front.ones, act.k, r);
    }
  }

  lemma {:induction false} OneLeft(ones: seq<Receipt>, k: nat, r: Receipt)
    requires k < |ones| && r in ones
    ensures r in ones[..k] + ones[k + 1..] || ones[k] == r
  {
    var l :| 0 <= l < |ones| && ones[l] == r;
    if l < k { assert ones[..k][l] == r; }
    if l > k { assert ones[k + 1..][l - k - 1] == r; }
  }

  lemma {:induction false} OneCallStarts(s: Server, act: Act)
    requires CanAct(s, act) && act.OneCall?
    ensures act.k < |s.front.ones|
    ensures var r, e := s.front.ones[act.k], Acted(s, act).engine;
            |e.threads| == |s.engine.threads| + 1 &&
            var t := e.threads[|s.engine.threads|]; t.txn == r.txn && t.id == r.id && t.now == act.now
  {
    SpawnCarries(s.engine, s.front.ones[act.k].id, s.front.ones[act.k].txn, act.now);
    hide Do, Enabled;
  }

  lemma {:induction false} OneBegins(s: Server, txn: Transaction)
    requires CanAct(s, OneBegin(txn))
    ensures Receipt(txn, s.engine.nextId) in Acted(s, OneBegin(txn)).front.ones
  {
    hide Do, Enabled;
    var r := Receipt(txn, s.engine.nextId);
    assert (s.front.ones + [r])[|s.front.ones|] == r;
  }

  // Waiting under its id, or called.
  ghost predicate OneUnderWay(run: seq<Server>, acts: seq<Act>, n: nat, m: nat, r: Receipt)
    requires m < |run|
  {
    r in run[m].front.ones || exists j: nat :: n < j < m && OneCalled(run, acts, j, m, r)
  }

  lemma {:induction false} OneGoesOn(run: seq<Server>, acts: seq<Act>, n: nat, m: nat, r: Receipt)
    requires IsServerRun(run, acts) && n < m && m + 1 < |run| && !acts[m].Crash? && OneUnderWay(run, acts, n, m, r)
    ensures OneUnderWay(run, acts, n, m + 1, r)
  {
    hide Acted, CanAct;
    if r in run[m].front.ones {
      OnesStep(run[m], acts[m], r);
      if r !in run[m + 1].front.ones {
        OneCallStarts(run[m], acts[m]);
        assert OneCalled(run, acts, m, m + 1, r);
      }
    } else {
      var j: nat :| n < j < m && OneCalled(run, acts, j, m, r);
      StartedStays(run, acts, j, m, r.txn, r.id, acts[j].now);
      assert OneCalled(run, acts, j, m + 1, r);
    }
  }

  // The transaction given to process_one waits under the id issued for it until its
  // call, and the call runs this transaction, under this id, at its own time.
  lemma {:induction false} OneRuns(run: seq<Server>, acts: seq<Act>, n: nat, m: nat)
    requires IsServerRun(run, acts) && n < m < |run| && acts[n].OneBegin? && NoCrash(acts, n, m)
    ensures var r := Receipt(acts[n].txn, run[n].engine.nextId);
            r in run[m].front.ones || exists j: nat :: n < j < m && OneCalled(run, acts, j, m, r)
    decreases m
  {
    hide Acted, CanAct, OneCalled;
    if m == n + 1 {
      OneBegins(run[n], acts[n].txn);
    } else {
      OneRuns(run, acts, n, m - 1);
      OneGoesOn(run, acts, n, m - 1, Receipt(acts[n].txn, run[n].engine.nextId));
    }
  }

  // ----- submit -----

  // The receipt for the p-th accepted transaction is r, or a submit holding the
  // mutex is on its way to make it so.
  ghost predicate SubmitUnderWay(f: Front, p: nat, r: Receipt) {
    if |f.accepted| == p then f.holder.Submitting? && f.holder.txn == r.txn && f.holder.id == r.id
    else p < |f.accepted| && f.accepted[p] == r
  }

  lemma {:induction false} SubmitBegins(s: Server, txn: Transaction)
    requires CanAct(s, SubmitBegin(txn))
    ensures if s.front.accepting
            then SubmitUnderWay(Acted(s, SubmitBegin(txn)).front, |s.front.accepted|, Receipt(txn, s.engine.nextId))
            else Acted(s, SubmitBegin(txn)) == s
  {
    hide Do, Enabled;
  }

  lemma {:induction false} SubmitGoesOn(s: Server, act: Act, p: nat, r: Receipt)
    requires CanAct(s, act) && !act.Crash? && SubmitUnderWay(s.front, p, r)
    ensures SubmitUnderWay(Acted(s, act).front, p, r)
  {
    hide Do, Enabled;
    if PoolAct(act) {
      PoolActTraffic(s, act);
      hide Acted, CanAct;
    } else {
      match act {
        case SubmitEnqueue =>
        case SubmitReserve =>
        case _ =>
      }
    }
  }

  // An accepted submit puts its transaction at the end of the accepted ones, under
  // the id issued for it, and there it stays.
  lemma {:induction false} SubmitAccepts(run: seq<Server>, acts: seq<Act>, n: nat, m: nat)
    requires IsServerRun(run, acts) && n < m < |run| && acts[n].SubmitBegin? && NoCrash(acts, n, m)
    ensures if run[n].front.accepting
            then SubmitUnderWay(run[m].front, |run[n].front.accepted|, Receipt(acts[n].txn, run[n].engine.nextId))
            else run[n + 1] == run[n]
    decreases m
  {
    hide Acted, CanAct, SubmitUnderWay;
    if m == n + 1 {
      SubmitBegins(run[n], acts[n].txn);
    } else {
      SubmitAccepts(run, acts, n, m - 1);
      if run[n].front.accepting {
        SubmitGoesOn(run[m - 1], acts[m - 1], |run[n].front.accepted|,
                     Receipt(acts[n].txn, run[n].engine.nextId));
      }
    }
  }

  // ----- calls -----

  // Step j is the call of process_impl for pop p.
  ghost predicate PopCalled(run: seq<Server>, acts: seq<Act>, j: nat, m: nat, p: nat) {
    j < |acts| && j < |run| && m < |run| && acts[j].Call? && acts[j].p == p && p < |run[m].front.pops| &&
    var pop := run[m].front.pops[p];
    pop.stage.Calling? && pop.stage.call == |run[j].engine.threads| &&
    Started(run, j, m, pop.txn, pop.stage.id, acts[j].now)
  }

  lemma {:induction false} CallStarts(s: Server, act: Act)
    requires CanAct(s, act) && act.Call?
    ensures var f, e := Acted(s, act).front, Acted(s, act).engine;
            act.p < |f.pops| && f.pops[act.p].stage.Calling? && f.pops[act.p].stage.call == |s.engine.threads| &&
            |e.threads| == |s.engine.threads| + 1 &&
            var t := e.threads[|s.engine.threads|];
            t.txn == f.pops[act.p].txn && t.id == f.pops[act.p].stage.id && t.now == act.now
  {
    SpawnCarries(s.engine, s.front.pops[act.p].stage.id, s.front.pops[act.p].txn, act.now);
    hide Do, Enabled;
  }

  // A pop that is running, or has run, was running before or is called by this step.
  lemma {:induction false} CallingStep(s: Server, act: Act, p: nat)
    requires CanAct(s, act) && !act.Crash? && p < |Acted(s, act).front.pops|
    requires Acted(s, act).front.pops[p].stage.Calling?
    ensures (act.Call? && act.p == p) || (p < |s.front.pops| && s.front.pops[p] == Acted(s, act).front.pops[p])
  {
    hide Do, Enabled;
    if PoolAct(act) {
      PoolActTraffic(s, act);
      hide Acted, CanAct;
    }
  }

  lemma {:induction false} PopCallStays(run: seq<Server>, acts: seq<Act>, j: nat, m: nat, p: nat)
    requires IsServerRun(run, acts) && m + 1 < |run| && !acts[m].Crash? && PopCalled(run, acts, j, m, p)
    requires NoCrash(acts, j, m) && p < |run[m + 1].front.pops| && run[m + 1].front.pops[p] == run[m].front.pops[p]
    ensures PopCalled(run, acts, j, m + 1, p) && NoCrash(acts, j, m + 1)
  {
    hide Acted, CanAct;
    var pop := run[m].front.pops[p];
    StartedStays(run, acts, j, m, pop.txn, pop.stage.id, acts[j].now);
  }

  // Every transaction from the queue that has come to process_impl was brought there
  // by one step, which started the call that runs it, at the time of that step.
  lemma {:induction false} PopRuns(run: seq<Server>, acts: seq<Act>, m: nat, p: nat)
    requires IsServerRun(run, acts) && m < |run| && p < |run[m].front.pops| && run[m].front.pops[p].stage.Calling?
    ensures p < |run[m].front.accepted| && run[m].front.pops[p].txn == run[m].front.accepted[p].txn
    ensures exists j: nat :: PopCalled(run, acts, j, m, p) && NoCrash(acts, j, m)
    decreases m
  {
    AcceptedPops(run, acts, m);
    hide Acted, CanAct;
    if m == 0 {
    } else {
      var s, act := run[m - 1], acts[m - 1];
      if act.Crash? { CrashEmpties(s, act); }
      CallingStep(s, act, p);
      if act.Call? && act.p == p {
        CallStarts(s, act);
        assert PopCalled(run, acts, m - 1, m, p) && NoCrash(acts, m - 1, m);
      } else {
        hide PopCalled, NoCrash;
        PopRuns(run, acts, m - 1, p);
        var j: nat :| PopCalled(run, acts, j, m - 1, p) && NoCrash(acts, j, m - 1);
        PopCallStays(run, acts, j, m - 1, p);
      }
    }
  }

  lemma {:induction false} CrashEmpties(s: Server, act: Act)
    requires CanAct(s, act) && act.Crash?
    ensures Acted(s, act).front.pops == [] && Acted(s, act).engine.threads == []
  {
    hide Recover, MaxId;
  }

  lemma {:induction false} AcceptedPops(run: seq<Server>, acts: seq<Act>, m: nat)
    requires IsServerRun(run, acts) && m < |run|
    ensures QueueOk(run[m].front)
  {
    hide IsServerRun, Inv;
    FrontAlways(run, acts, m);
    hide ReservedOk, StagesOk, IdsOk, OnesOk, CallsOk, FlagsOk, PoolOk, OwnersOk;
  }

  lemma {:induction false} ThreadsStep(s: Server, act: Act)
    requires CanAct(s, act) && !act.Crash? && !act.Call? && !act.OneCall?
    ensures |Acted(s, act).engine.threads| == |s.engine.threads|
  {
    ActIsEngineStep(s, act);
    match act {
      case Step(a) =>
        if a.Advance? { AdvanceOnlyThread(s.engine, a.i); }
        hide Advanced, Ready, Recover;
      case _ =>
    }
    hide Acted, CanAct;
  }

  // Nothing else ever runs: every call was started by a step for a receipt of
  // process_one or for a pop.
  lemma {:induction false} EveryCall(run: seq<Server>, acts: seq<Act>, m: nat, u: nat)
    requires IsServerRun(run, acts) && m < |run| && u < |run[m].engine.threads|
    ensures exists j: nat :: j < m && j < |acts| && u == |run[j].engine.threads| && (acts[j].Call? || acts[j].OneCall?)
    decreases m
  {
    hide Acted, CanAct;
    if m == 0 {
    } else {
      var s, act := run[m - 1], acts[m - 1];
      if u < |s.engine.threads| {
        EveryCall(run, acts, m - 1, u);
      } else if act.Crash? {
        CrashEmpties(s, act);
      } else if act.Call? {
        CallStarts(s, act);
      } else if act.OneCall? {
        OneCallStarts(s, act);
      } else {
        ThreadsStep(s, act);
      }
    }
  }

  // ----- accepting -----

  // Every stop() so far has been followed by a start() or a crash.
  ghost predicate Reopened(acts: seq<Act>, n: nat) {
    forall i :: 0 <= i < n && i < |acts| && acts[i] == StopBegin ==>
      exists j: nat :: i < j < n && j < |acts| && (acts[j].StartBegin? || acts[j].Crash?)
  }

  lemma {:induction false} ReopenedStep(acts: seq<Act>, n: nat)
    requires n < |acts|
    ensures Reopened(acts, n + 1) <==>
              acts[n].StartBegin? || acts[n].Crash? || (acts[n] != StopBegin && Reopened(acts, n))
  {
    if acts[n].StartBegin? || acts[n].Crash? {
      forall i | 0 <= i < n + 1 && acts[i] == StopBegin
        ensures exists j: nat :: i < j < n + 1 && (acts[j].StartBegin? || acts[j].Crash?)
      {
        assert i < n < n + 1;
      }
    } else if Reopened(acts, n + 1) {
      assert forall j: nat :: j < n + 1 && j < |acts| && (acts[j].StartBegin? || acts[j].Crash?) ==> j < n;
    }
  }

  lemma {:induction false} AcceptingStep(s: Server, act: Act)
    requires CanAct(s, act) && FlagsOk(s.front)
    ensures Acted(s, act).front.accepting <==>
              act.StartBegin? || act.Crash? || (act != StopBegin && s.front.accepting)
  {
    hide Do, Enabled;
  }

  // submit is open exactly while every stop() has been followed by a start() or a
  // restart of the process.
  lemma {:induction false} AcceptingIff(run: seq<Server>, acts: seq<Act>, n: nat)
    requires IsServerRun(run, acts) && n < |run|
    ensures run[n].front.accepting <==> Reopened(acts, n)
    decreases n
  {
    hide Acted, CanAct, Reopened;
    if n == 0 {
      NothingStopped(acts);
    } else {
      AcceptingIff(run, acts, n - 1);
      FlagsAlways(run, acts, n - 1);
      AcceptingStep(run[n - 1], acts[n - 1]);
      ReopenedStep(acts, n - 1);
    }
  }

  lemma {:induction false} NothingStopped(acts: seq<Act>)
    ensures Reopened(acts, 0)
  {
  }

  lemma {:induction false} FlagsAlways(run: seq<Server>, acts: seq<Act>, n: nat)
    requires IsServerRun(run, acts) && n < |run|
    ensures FlagsOk(run[n].front)
  {
    hide IsServerRun, Inv;
    FrontAlways(run, acts, n);
    hide QueueOk, ReservedOk, StagesOk, IdsOk, OnesOk, CallsOk, PoolOk, OwnersOk;
  }
}
