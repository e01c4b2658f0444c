// What a caller may rely on once a call has come back: success is durable, and
// failure has touched nothing; and where all the money is, crashes included.

module EngineOutcomes {
  import opened Basics
  import opened Domain
  import opened SerialBank
  import opened Journal
  import opened Engine
  import opened EngineInvariant
  import EngineSteps
  import opened EngineEffects
  import opened EngineRuns
  import opened EngineTheorems

  // ----- acknowledged is durable -----

  lemma {:induction false} CommittedStep(s: System, a: Action, x: nat)
    requires Enabled(s, a) && x < |s.journal| && s.journal[x].state == Committed
    ensures x < |Do(s, a).journal| && Do(s, a).journal[x] == s.journal[x]
  {
    hide Ready, Advanced, Recover, EntryOf;
    if a.Advance? { AdvanceJournal(s, a.i); }
  }

  lemma {:induction false} CommittedStays(run: seq<System>, actions: seq<Action>, n: nat, m: nat, x: nat)
    requires IsRun(run, actions) && n <= m < |run|
    requires x < |run[n].journal| && run[n].journal[x].state == Committed
    ensures x < |run[m].journal| && run[m].journal[x] == run[n].journal[x]
    decreases m - n
  {
    hide Do, Enabled;
    if n == m {
    } else {
      CommittedStays(run, actions, n, m - 1, x);
      CommittedStep(run[m - 1], actions[m - 1], x);
    }
  }

  lemma {:induction false} AcknowledgedRecord(origin: Table, s: System, u: nat)
    requires Inv(origin, s) && u < |s.threads| && s.threads[u].result == Some(true)
    ensures var x := EntryOf(s.journal, s.threads[u].id);
            x < |s.journal| && s.journal[x] == JEntry(Intent(s.threads[u]), Committed)
  {
    hide StoreOk, JournalOk, OrdersOk, SnapshotsOk, OutcomesOk, Intent, EntryOf, ApplySpan, LockOrder;
    assert ThreadOk(s, s.threads[u]);
  }

  // The committed transactions of a journal around a committed record of txn.
  ghost predicate CommittedAt(j: seq<JEntry>, x: nat, txn: Transaction) {
    x < |j| && j[x].state == Committed && TxnOf(j[x].record) == txn &&
    CommittedTxns(j) == CommittedTxns(j[..x]) + [txn] + CommittedTxns(j[x + 1..])
  }

  // A call that has reported success stays committed, over any number of crashes
  // and restarts: its record is where it was, and whatever snapshot a later recovery
  // starts from, it ends in a run of the committed transactions with this one among
  // them, in its place.
  lemma {:induction false} AcknowledgedIsDurable(run: seq<System>, actions: seq<Action>, n: nat, u: nat, m: nat, k: nat)
    requires IsRun(run, actions) && n <= m < |run| && u < |run[n].threads|
    requires run[n].threads[u].result == Some(true) && k < |run[m].snapshots|
    ensures var t := run[n].threads[u];
            var x := EntryOf(run[n].journal, t.id);
            x < |run[m].journal| && run[m].journal[x] == JEntry(Intent(t), Committed) &&
            CommittedAt(run[m].journal, x, t.txn) &&
            Recover(run[m].snapshots[k], run[m].journal) == Run(run[0].accounts, CommittedTxns(run[m].journal))
  {
    hide IsRun, Inv, Run, Recover, Unlocked, CommittedTxns, EntryOf, Intent, TxnOf;
    var t := run[n].threads[u];
    var x := EntryOf(run[n].journal, t.id);
    InvAlways(run, actions, n);
    AcknowledgedRecord(run[0].accounts, run[n], u);
    CommittedStays(run, actions, n, m, x);
    ExactRecovery(run, actions, m, k);
    CommittedAround(run[m].journal, x);
    CommittedOne(run[m].journal[x]);
    EngineSteps.IntentTxn(t);
  }

  // ----- failed means untouched -----

  // The call is at its saves or beyond: it can only end well.
  predicate PastApply(t: Thread) {
    8 <= Stage(t.pc) <= 12 || t.result == Some(true)
  }

  lemma {:induction false} PastApplySection(s: System, i: nat)
    requires i < |s.threads| && Ready(s, s.threads[i]) && s.threads[i].pc.Inside? && PastApply(s.threads[i])
    requires s.threads[i].result == Some(true) ==> Stage(s.threads[i].pc) >= 13
    requires s.threads[i].pc.sec == Commit ==> EntryOf(s.journal, s.threads[i].id) < |s.journal|
    ensures i < |Advanced(s, i).threads| && PastApply(Advanced(s, i).threads[i])
  {
    hide LockOrder, Intent, EntryOf;
    match s.threads[i].pc.sec {
      case Lookup(_) =>
      case Load =>
      case Save =>
      case Commit =>
      case _ =>
    }
  }

  lemma {:induction false} PastApplyLocal(s: System, i: nat)
    requires i < |s.threads| && Ready(s, s.threads[i]) && !s.threads[i].pc.Inside? && PastApply(s.threads[i])
    requires s.threads[i].result == Some(true) ==> Stage(s.threads[i].pc) >= 13
    ensures i < |Advanced(s, i).threads| && PastApply(Advanced(s, i).threads[i])
  {
    hide ApplySpan, LockOrder, Validate;
    match s.threads[i].pc {
      case Enter(_) =>
      case AcquireAccount(_) =>
      case _ =>
    }
  }

  lemma {:induction false} CallShape(origin: Table, s: System, u: nat)
    requires Inv(origin, s) && u < |s.threads|
    ensures var t := s.threads[u];
            (t.result == Some(true) ==> Stage(t.pc) >= 13) && (8 <= Stage(t.pc) <= 12 ==> t.result == None) &&
            (t.pc.Inside? && t.pc.sec == Commit ==> EntryOf(s.journal, t.id) < |s.journal|)
  {
    hide StoreOk, JournalOk, OrdersOk, SnapshotsOk, OutcomesOk, Intent, EntryOf, ApplySpan, LockOrder;
    assert ThreadOk(s, s.threads[u]);
  }

  lemma {:induction false} PastApplyStep(origin: Table, s: System, a: Action, u: nat)
    requires Inv(origin, s) && Enabled(s, a) && !a.Restart? && u < |s.threads| && PastApply(s.threads[u])
    ensures u < |Do(s, a).threads| && PastApply(Do(s, a).threads[u])
  {
    CallShape(origin, s, u);
    hide Inv, EntryOf, Ready, Advanced;
    if a.Advance? {
      AdvanceOnlyThread(s, a.i);
      if a.i == u {
        if s.threads[u].pc.Inside? { PastApplySection(s, u); } else { PastApplyLocal(s, u); }
      }
      hide PastApply;
    }
  }

  lemma {:induction false} PastApplyStays(run: seq<System>, actions: seq<Action>, k: nat, n: nat, u: nat)
    requires IsRun(run, actions) && k <= n < |run| && u < |run[k].threads| && PastApply(run[k].threads[u])
    requires forall j :: k <= j < n ==> !actions[j].Restart?
    ensures u < |run[n].threads| && PastApply(run[n].threads[u])
    decreases n - k
  {
    hide Do, Enabled, Inv, PastApply;
    if k == n {
    } else {
      PastApplyStays(run, actions, k, n - 1, u);
      InvAlways(run, actions, n - 1);
      PastApplyStep(run[0].accounts, run[n - 1], actions[n - 1], u);
    }
  }

  lemma {:induction false} SectionStores(s: System, i: nat)
    requires i < |s.threads| && Ready(s, s.threads[i]) && s.threads[i].pc.Inside? && !PastApply(s.threads[i])
    ensures Advanced(s, i).accounts == s.accounts && Advanced(s, i).ledger == s.ledger
  {
    hide LockOrder, Intent, EntryOf;
    match s.threads[i].pc.sec {
      case Lookup(_) =>
      case Load =>
      case _ =>
    }
  }

  lemma {:induction false} LocalStores(s: System, i: nat)
    requires i < |s.threads| && Ready(s, s.threads[i]) && !s.threads[i].pc.Inside?
    ensures Advanced(s, i).accounts == s.accounts && Advanced(s, i).ledger == s.ledger
  {
    hide ApplySpan, LockOrder, Validate;
  }

  // No step of a call that ends in failure changes the stored accounts or the
  // ledger, not even a step of a transfer whose credit overflows after its debit.
  lemma {:induction false} FailedTouchesNothing(run: seq<System>, actions: seq<Action>, k: nat, n: nat, u: nat)
    requires IsRun(run, actions) && k < n < |run| && u < |run[k].threads|
    requires forall j :: k <= j < n ==> !actions[j].Restart?
    requires (actions[k].Advance? || actions[k].Release?) && actions[k].i == u
    requires u < |run[n].threads| && run[n].threads[u].result == Some(false)
    ensures run[k + 1].accounts == run[k].accounts && run[k + 1].ledger == run[k].ledger
  {
    assert k < |actions|;
    hide IsRun, Inv;
    var s := run[k];
    if PastApply(s.threads[u]) {
      PastApplyStays(run, actions, k, n, u);
      InvAlways(run, actions, n);
      CallShape(run[0].accounts, run[n], u);
    } else {
      NextState(run, actions, k);
      if actions[k].Advance? {
        if s.threads[u].pc.Inside? { SectionStores(s, u); } else { LocalStores(s, u); }
      }
      hide Advanced, Ready;
    }
  }

  lemma {:induction false} NextState(run: seq<System>, actions: seq<Action>, k: nat)
    requires IsRun(run, actions) && k < |actions|
    ensures Enabled(run[k], actions[k]) && run[k + 1] == Do(run[k], actions[k])
  {
    hide Do, Enabled;
  }

  // ----- all the money, from the beginning -----

  // The state in which the process of state n started: after the last restart.
  function EpochStart(actions: seq<Action>, n: nat): (e: nat)
    requires n <= |actions|
    ensures e <= n
  {
    if n == 0 then 0 else if actions[n - 1].Restart? then n else EpochStart(actions, n - 1)
  }

  lemma {:induction false} BaseKept(s: System, a: Action)
    requires Enabled(s, a)
    ensures !a.Restart? ==> Do(s, a).base == s.base
    ensures a.Restart? ==> Do(s, a).base == Do(s, a).accounts && Do(s, a).threads == []
  {
    hide Ready, Advanced, Recover, EntryOf;
    if a.Advance? { AdvanceJournal(s, a.i); }
  }

  lemma {:induction false} BaseIsStart(run: seq<System>, actions: seq<Action>, n: nat)
    requires IsRun(run, actions) && n < |run|
    ensures run[n].base == run[EpochStart(actions, n)].accounts && run[EpochStart(actions, n)].threads == []
    decreases n
  {
    hide Do, Enabled;
    if n == 0 {
    } else {
      BaseIsStart(run, actions, n - 1);
      BaseKept(run[n - 1], actions[n - 1]);
    }
  }

  // At any time but inside a save section, over any number of crashes: the stored
  // money is the first accounts' money, plus the inflow of what was committed when
  // the process started, plus the inflow of what it has saved since.
  lemma {:induction false} ConservationThroughout(run: seq<System>, actions: seq<Action>, n: nat)
    requires IsRun(run, actions) && n < |run| && NobodySaving(run[n])
    ensures Total(run[n].accounts)
         == Total(run[0].accounts) + TotalInflow(CommittedTxns(run[EpochStart(actions, n)].journal))
            + TotalInflow(Txns(run[n].saved))
  {
    var e := EpochStart(actions, n);
    hide IsRun, Run, Total, TotalInflow, CommittedTxns, NobodySaving, EpochStart;
    BaseIsStart(run, actions, n);
    Conservation(run, actions, n);
    Serializable(run, actions, e);
    RunConserves(run[0].accounts, CommittedTxns(run[e].journal));
  }

  // ----- one at a time in each section -----

  // Whatever the interleaving, no two calls are at once inside sections that touch
  // the repositories, or the journal, or the table of mutexes.
  lemma {:induction false} SectionsApart(run: seq<System>, actions: seq<Action>, n: nat, u: nat, v: nat)
    requires IsRun(run, actions) && n < |run| && u < |run[n].threads| && v < |run[n].threads| && u != v
    requires run[n].threads[u].pc.Inside? && run[n].threads[v].pc.Inside?
    ensures var a, b := run[n].threads[u].pc.sec, run[n].threads[v].pc.sec;
            !(a in {Load, Save, Ledger, Audit} && b in {Load, Save, Ledger, Audit}) &&
            !(a in {Append, Commit} && b in {Append, Commit}) && !(a.Lookup? && b.Lookup?)
  {
    hide IsRun, Inv;
    InvAlways(run, actions, n);
    ApartThreads(run[0].accounts, run[n], u, v);
  }

  lemma {:induction false} ApartThreads(origin: Table, s: System, u: nat, v: nat)
    requires Inv(origin, s) && u < |s.threads| && v < |s.threads| && u != v
    ensures Apart(s.threads[u], s.threads[v])
  {
    hide StoreOk, JournalOk, OrdersOk, SnapshotsOk, OutcomesOk, ThreadOk;
    if u < v { assert Apart(s.threads[u], s.threads[v]); } else { assert Apart(s.threads[v], s.threads[u]); }
  }
}
