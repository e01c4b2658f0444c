// The audit trail of a process: one entry for each call that has made its entry,
// saying whether the call succeeded.

module EngineAudit {
  import opened Basics
  import opened Domain
  import opened SerialBank
  import opened Engine
  import opened EngineInvariant
  import opened EngineRuns
  import opened EngineTheorems

  // How many of the entries say b.
  function Tally(entries: seq<bool>, b: bool): nat {
    if entries == [] then 0 else Tally(entries[..|entries| - 1], b) + (if entries[|entries| - 1] == b then 1 else 0)
  }

  lemma {:induction false} TallySnoc(entries: seq<bool>, x: bool, b: bool)
    ensures Tally(entries + [x], b) == Tally(entries, b) + (if x == b then 1 else 0)
  {
    assert (entries + [x])[..|entries|] == entries;
  }

  // Whether the call has reported b.
  function Entry(t: Thread, b: bool): nat {
    if t.audited && (t.result == Some(true)) == b then 1 else 0
  }

  // How many calls have reported b.
  function Reported(threads: seq<Thread>, b: bool): nat {
    if threads == [] then 0 else
    Reported(threads[..|threads| - 1], b) + Entry(threads[|threads| - 1], b)
  }

  lemma {:induction false} ReportedUpdate(threads: seq<Thread>, i: nat, t: Thread, b: bool)
    requires i < |threads|
    ensures Reported(threads[i := t], b) == Reported(threads, b) - Entry(threads[i], b) + Entry(t, b)
    decreases |threads|
  {
    hide Entry;
    var n := |threads| - 1;
    if i < n {
      ReportedUpdate(threads[..n], i, t, b);
      assert threads[i := t][..n] == threads[..n][i := t];
    } else {
      assert threads[i := t][..n] == threads[..n];
    }
  }

  // A section's step; only the audit section makes an entry.
  lemma {:induction false} SectionAudit(s: System, i: nat, b: bool)
    requires i < |s.threads| && Ready(s, s.threads[i]) && s.threads[i].pc.Inside? && DataShape(s.threads[i])
    ensures i < |Advanced(s, i).threads|
    ensures Tally(Advanced(s, i).audit, b) ==
              Tally(s.audit, b) - Entry(s.threads[i], b) + Entry(Advanced(s, i).threads[i], b)
  {
    hide LockOrder, Intent, EntryOf, Tally;
    match s.threads[i].pc.sec {
      case Lookup(_) =>
      case Load =>
      case Save =>
      case Commit =>
      case Audit => TallySnoc(s.audit, s.threads[i].result == Some(true), b);
      case _ =>
    }
  }

  lemma {:induction false} LocalAudit(s: System, i: nat, b: bool)
    requires i < |s.threads| && Ready(s, s.threads[i]) && !s.threads[i].pc.Inside? && DataShape(s.threads[i])
    ensures i < |Advanced(s, i).threads| && Advanced(s, i).audit == s.audit
    ensures Entry(Advanced(s, i).threads[i], b) == Entry(s.threads[i], b)
  {
    hide ApplySpan, LockOrder, Validate;
    match s.threads[i].pc {
      case Enter(_) =>
      case AcquireAccount(_) =>
      case _ =>
    }
  }

  lemma {:induction false} AuditAdvance(s: System, i: nat, b: bool)
    requires i < |s.threads| && Ready(s, s.threads[i]) && DataShape(s.threads[i])
    requires Tally(s.audit, b) == Reported(s.threads, b)
    ensures Tally(Advanced(s, i).audit, b) == Reported(Advanced(s, i).threads, b)
  {
    hide Advanced, Ready, Entry, DataShape, Tally, Reported;
    AdvanceOnlyThread(s, i);
    if s.threads[i].pc.Inside? { SectionAudit(s, i, b); } else { LocalAudit(s, i, b); }
    ReportedUpdate(s.threads, i, Advanced(s, i).threads[i], b);
  }

  lemma {:induction false} AuditStep(s: System, a: Action, b: bool)
    requires Enabled(s, a) && (forall u :: 0 <= u < |s.threads| ==> DataShape(s.threads[u]))
    requires Tally(s.audit, b) == Reported(s.threads, b)
    ensures Tally(Do(s, a).audit, b) == Reported(Do(s, a).threads, b)
  {
    hide Ready, Advanced, DataShape, Recover, MaxId, LockOrder;
    match a {
      case Advance(i) => AuditAdvance(s, i, b);
      case Release(i, slot) => ReportedUpdate(s.threads, i, Do(s, a).threads[i], b);
      case Spawn(id, txn, now) =>
        assert (s.threads + [NewThread(txn, id, now)])[..|s.threads|] == s.threads;
      case _ =>
    }
  }

  lemma {:induction false} ShapesOf(origin: Table, s: System)
    requires Inv(origin, s)
    ensures forall u :: 0 <= u < |s.threads| ==> DataShape(s.threads[u])
  {
    hide StoreOk, JournalOk, OrdersOk, SnapshotsOk, OutcomesOk, DataShape, LocksShape, SlotsOk, CopiesOk, RecordOk;
    forall u | 0 <= u < |s.threads| ensures DataShape(s.threads[u]) { assert ThreadOk(s, s.threads[u]); }
  }

  // In every state of every run the audit trail has as many entries of success, and
  // of failure, as calls of this process have reported; every finished call has.
  lemma {:induction false} AuditMatches(run: seq<System>, actions: seq<Action>, n: nat, b: bool)
    requires IsRun(run, actions) && n < |run|
    ensures Tally(run[n].audit, b) == Reported(run[n].threads, b)
    ensures forall u :: 0 <= u < |run[n].threads| && run[n].threads[u].pc == Finished ==> run[n].threads[u].audited
    decreases n
  {
    hide Do, Enabled, Inv;
    FinishedAuditedAlways(run, actions, n);
    if n > 0 {
      hide Reported, Tally;
      AuditMatches(run, actions, n - 1, b);
      InvAlways(run, actions, n - 1);
      ShapesOf(run[0].accounts, run[n - 1]);
      hide DataShape;
      AuditStep(run[n - 1], actions[n - 1], b);
    }
  }
}
