// What holds of every run of the engine: recovery, serializability,
// conservation, reconciliation, all-or-nothing, and what crashes freeze.

module EngineTheorems {
  import opened Basics
  import opened Domain
  import opened SerialBank
  import opened Journal
  import opened Engine
  import opened EngineInvariant
  import opened EngineSteps
  import opened EngineEffects
  import opened EngineRuns

  // No thread holds the mutex of the account.
  ghost predicate Unlocked(s: System, a: uint64) {
    a in s.table ==> SlotFree(s.threads, s.table[a])
  }

  // An account whose mutex is free is touched by no pending call.
  lemma {:induction false} UnlockedUntouched(s: System, a: uint64, w: Order3)
    requires ThreadsOk(s) && Unlocked(s, a)
    ensures !TouchedByPending(s.threads, w, a)
  {
    hide ApplySpan, LockOrder;
    forall u | 0 <= u < |s.threads| && Pending3(w, s.threads[u]) ensures a !in Involved(s.threads[u].txn) {
      assert ThreadOk(s, s.threads[u]);
      HoldsAll(s.table, s.threads[u]);
      assert s.threads[u].holding == s.threads[u].holding;
    }
  }

  // A serial order agrees with the store on every unlocked account.
  lemma {:induction false} OrderAgrees(start: Table, txns: seq<Transaction>, s: System, w: Order3)
    requires ThreadsOk(s) && SerialOk(start, txns, s, w)
    ensures Run(start, txns).Some? && Run(start, txns).value.Keys == s.accounts.Keys
    ensures forall a :: a in s.accounts && Unlocked(s, a) ==> Run(start, txns).value[a] == s.accounts[a]
  {
    hide Run, ThreadsOk, Unlocked;
    forall a | a in s.accounts && Unlocked(s, a) ensures Run(start, txns).value[a] == s.accounts[a] {
      UnlockedUntouched(s, a, w);
    }
  }

  // ----- exact crash recovery -----

  // At any instant of any run, recovering from any snapshot taken so far does not
  // throw, gives one and the same table, which is the origin with the committed
  // transactions applied in journal order, and agrees with the live table on
  // every account whose mutex no call holds.
  lemma {:induction false} ExactRecovery(run: seq<System>, actions: seq<Action>, n: nat, k: nat)
    requires IsRun(run, actions) && n < |run| && k < |run[n].snapshots|
    ensures var s := run[n];
            var r := Recover(s.snapshots[k], s.journal);
            r.Some? && r == Recover(s.snapshots[0], s.journal) &&
            r == Run(run[0].accounts, CommittedTxns(s.journal)) &&
            r.value.Keys == s.accounts.Keys &&
            forall a :: a in s.accounts && Unlocked(s, a) ==> r.value[a] == s.accounts[a]
  {
    hide Run, Recover, ThreadsOk, Unlocked, IsRun, SerialOk;
    InvAlways(run, actions, n);
    RecoverIsRun(run[0].accounts, run[n], k);
    RecoverIsRun(run[0].accounts, run[n], 0);
    OrderAgrees(run[0].accounts, CommittedTxns(run[n].journal), run[n], ByCommit);
  }

  // ----- serializability -----

  // Whenever no call is under way, the account table is what the committed
  // transactions give when applied one at a time in journal order from the first
  // accounts; equally what this epoch's saves, or its ledger, give in their order.
  lemma {:induction false} Serializable(run: seq<System>, actions: seq<Action>, n: nat)
    requires IsRun(run, actions) && n < |run| && AllFinished(run[n])
    ensures var s := run[n];
            Run(run[0].accounts, CommittedTxns(s.journal)) == Some(s.accounts) &&
            Run(s.base, Txns(s.saved)) == Some(s.accounts) &&
            Run(s.base, Txns(s.ledger)) == Some(s.accounts)
  {
    hide Run, IsRun, SerialOk, AllFinished, Pending3;
    var s := run[n];
    InvAlways(run, actions, n);
    FinishedNotPending(s, ByCommit);
    FinishedNotPending(s, BySave);
    FinishedNotPending(s, ByLedger);
    NothingPending(run[0].accounts, CommittedTxns(s.journal), s, ByCommit);
    NothingPending(s.base, Txns(s.saved), s, BySave);
    NothingPending(s.base, Txns(s.ledger), s, ByLedger);
  }

  // ----- conservation -----

  ghost predicate NobodySaving(s: System) {
    forall u :: 0 <= u < |s.threads| ==> !(s.threads[u].pc.Inside? && s.threads[u].pc.sec == Save)
  }

  lemma {:induction false} NobodyPending(s: System)
    requires NobodySaving(s)
    ensures forall u :: 0 <= u < |s.threads| ==> !Pending3(BySave, s.threads[u])
  {
  }

  // In every state in which no call is inside its save section, even in the middle
  // of concurrent transfers, the stored money is the money of the epoch's start
  // plus the saved deposits minus the saved withdrawals.
  lemma {:induction false} Conservation(run: seq<System>, actions: seq<Action>, n: nat)
    requires IsRun(run, actions) && n < |run| && NobodySaving(run[n])
    ensures Total(run[n].accounts) == Total(run[n].base) + TotalInflow(Txns(run[n].saved))
  {
    hide Run, IsRun, SerialOk, Total, TotalInflow;
    var s := run[n];
    InvAlways(run, actions, n);
    NobodyPending(s);
    hide Pending3, NobodySaving, ThreadsOk, JournalOk, SnapshotsOk, StoreOk, OutcomesOk;
    NothingPending(s.base, Txns(s.saved), s, BySave);
    RunConserves(s.base, Txns(s.saved));
  }

  // Over the whole history, crashes included, what recovery restores is the first
  // accounts' money plus the committed inflow.
  lemma {:induction false} RecoveredConservation(run: seq<System>, actions: seq<Action>, n: nat, k: nat)
    requires IsRun(run, actions) && n < |run| && k < |run[n].snapshots|
    ensures Recover(run[n].snapshots[k], run[n].journal).Some?
    ensures Total(Recover(run[n].snapshots[k], run[n].journal).value)
         == Total(run[0].accounts) + TotalInflow(CommittedTxns(run[n].journal))
  {
    hide Run, IsRun, Recover, Total, TotalInflow, Unlocked;
    ExactRecovery(run, actions, n, k);
    RunConserves(run[0].accounts, CommittedTxns(run[n].journal));
  }

  // ----- ledger reconciliation -----

  // InMemoryTransactionRepository::for_account
  predicate Involves(r: TransactionRecord, a: uint64) {
    r.from == Some(a) || r.to == Some(a)
  }

  function ForAccount(records: seq<TransactionRecord>, a: uint64): seq<TransactionRecord> {
    if records == [] then [] else
    var r := records[|records| - 1];
    ForAccount(records[..|records| - 1], a) + (if Involves(r, a) then [r] else [])
  }

  // What a record credits to the account, net of what it debits.
  function NetOf(r: TransactionRecord, a: uint64): int {
    (if r.to == Some(a) then r.amount as int else 0) - (if r.from == Some(a) then r.amount as int else 0)
  }

  function Net(records: seq<TransactionRecord>, a: uint64): int {
    if records == [] then 0 else Net(records[..|records| - 1], a) + NetOf(records[|records| - 1], a)
  }

  ghost predicate Projected(records: seq<TransactionRecord>) {
    forall i :: 0 <= i < |records| ==>
      Materialize(records[i]).Ok? &&
      records[i].from == DebitAccount(TxnOf(records[i])) && records[i].to == CreditAccount(TxnOf(records[i])) &&
      records[i].amount == TxnOf(records[i]).amount
  }

  lemma {:induction false} NetSnoc(records: seq<TransactionRecord>, r: TransactionRecord, a: uint64)
    ensures Net(records + [r], a) == Net(records, a) + NetOf(r, a)
  {
    assert (records + [r])[..|records|] == records;
  }

  // One transaction's effect on one account.
  lemma {:induction false} PostOnAccount(m: Table, r: TransactionRecord, a: uint64)
    requires WellKeyed(m) && Projected([r]) && Post(m, TxnOf(r)).Some? && a in m
    ensures var m' := Post(m, TxnOf(r)).value;
            a in m' && m'[a].balance == m[a].balance + NetOf(r, a) &&
            m'[a].version == (m[a].version + (if Involves(r, a) then 1 else 0)) % TWO_64
  {
    var t := TxnOf(r);
    assert [r][0] == r;
    DeltaShape(m, t);
    DeltaMovesEach(m, t);
    var m' := Post(m, t).value;
    assert Moved(t, m[a]) == Ok(m'[a]);
  }

  lemma {:induction false} VersionStep(v: int, n: int, d: int)
    ensures ((v + n) % TWO_64 + d) % TWO_64 == (v + n + d) % TWO_64
  {
  }

  // The account in r is the account in m, moved by the records `mine`.
  ghost predicate Reconciled(r: Table, m: Table, mine: seq<TransactionRecord>, a: uint64) {
    a in r && a in m && r[a].balance == m[a].balance + Net(mine, a) &&
    r[a].version == (m[a].version + |mine|) % TWO_64
  }

  lemma {:induction false} ReconcileOne(m: Table, before: Table, mine: seq<TransactionRecord>, x: TransactionRecord, a: uint64)
    requires WellKeyed(before) && Projected([x]) && Post(before, TxnOf(x)).Some? && Reconciled(before, m, mine, a)
    ensures Reconciled(Post(before, TxnOf(x)).value, m, if Involves(x, a) then mine + [x] else mine, a)
  {
    hide Net;
    PostOnAccount(before, x, a);
    hide Post, TxnOf;
    NetSnoc(mine, x, a);
    VersionStep(m[a].version, |mine|, if Involves(x, a) then 1 else 0);
  }

  lemma {:induction false} ForAccountSnoc(records: seq<TransactionRecord>, x: TransactionRecord, a: uint64)
    ensures ForAccount(records + [x], a) ==
              if Involves(x, a) then ForAccount(records, a) + [x] else ForAccount(records, a)
  {
    assert (records + [x])[..|records|] == records;
    assert ForAccount(records, a) + [] == ForAccount(records, a);
  }

  // Balance and version of an account after a run, from the records about it.
  lemma {:induction false} RunReconciles(m: Table, records: seq<TransactionRecord>, a: uint64)
    requires WellKeyed(m) && Projected(records) && Run(m, Txns(records)).Some? && a in m
    ensures Reconciled(Run(m, Txns(records)).value, m, ForAccount(records, a), a)
    decreases |records|
  {
    if records == [] {
    } else {
      var n := |records| - 1;
      var x := records[n];
      assert Projected(records[..n]) && Projected([x]) && records == records[..n] + [x];
      hide Projected, Net, TxnOf, Reconciled, ForAccount, Run, Txns, Post;
      TxnsSnoc(records[..n], x);
      RunSnoc(m, Txns(records[..n]), TxnOf(x));
      RunReconciles(m, records[..n], a);
      RunKeeps(m, Txns(records[..n]));
      ReconcileOne(m, Run(m, Txns(records[..n])).value, ForAccount(records[..n], a), x, a);
      ForAccountSnoc(records[..n], x, a);
    }
  }

  // Every ledger record is a committed projection.
  ghost predicate LedgerOk(s: System) {
    Projected(s.ledger)
  }

  lemma {:induction false} LedgerStep(s: System, a: Action)
    requires LedgerOk(s) && Enabled(s, a)
    ensures LedgerOk(Do(s, a))
  {
    if a.Advance? && s.threads[a.i].pc.Inside? && s.threads[a.i].pc.sec == Ledger {
      IntentTxn(s.threads[a.i]);
    }
  }

  lemma {:induction false} LedgerAlways(run: seq<System>, actions: seq<Action>, n: nat)
    requires IsRun(run, actions) && n < |run|
    ensures LedgerOk(run[n])
    decreases n
  {
    hide Do, Enabled;
    if n > 0 {
      LedgerAlways(run, actions, n - 1);
      LedgerStep(run[n - 1], actions[n - 1]);
    }
  }

  // For every account whose mutex is free: its balance is the epoch's opening
  // balance plus credits minus debits over for_account, its version the opening
  // version plus the number of those records.
  lemma {:induction false} LedgerReconciles(run: seq<System>, actions: seq<Action>, n: nat, a: uint64)
    requires IsRun(run, actions) && n < |run| && a in run[n].accounts && Unlocked(run[n], a)
    ensures Reconciled(run[n].accounts, run[n].base, ForAccount(run[n].ledger, a), a)
  {
    hide Run, IsRun, ThreadsOk, Unlocked, SerialOk, Txns, Projected, Net, ForAccount;
    var s := run[n];
    InvAlways(run, actions, n);
    LedgerAlways(run, actions, n);
    OrderAgrees(s.base, Txns(s.ledger), s, ByLedger);
    BaseAlways(run, actions, n);
    BaseKeys(s.base, Txns(s.ledger));
    RunReconciles(s.base, s.ledger, a);
  }

  lemma {:induction false} BaseKeys(m: Table, ts: seq<Transaction>)
    requires WellKeyed(m) && Run(m, ts).Some?
    ensures Run(m, ts).value.Keys == m.Keys
  {
    RunKeeps(m, ts);
  }

  lemma {:induction false} BaseAlways(run: seq<System>, actions: seq<Action>, n: nat)
    requires IsRun(run, actions) && n < |run|
    ensures WellKeyed(run[n].base)
    decreases n
  {
    hide Do, Enabled, Inv;
    if n > 0 {
      BaseAlways(run, actions, n - 1);
      InvAlways(run, actions, n);
      KeysOk(run[0].accounts, run[n]);
      BaseStep(run[n - 1], actions[n - 1]);
    }
  }

  lemma {:induction false} KeysOk(origin: Table, s: System)
    requires Inv(origin, s)
    ensures WellKeyed(s.accounts)
  {
    hide JournalOk, ThreadsOk, OrdersOk, SnapshotsOk, OutcomesOk;
  }

  lemma {:induction false} BaseStep(s: System, a: Action)
    requires Enabled(s, a)
    ensures Do(s, a).base == s.base || Do(s, a).base == Do(s, a).accounts
  {
    hide ApplySpan, LockOrder, Validate, Recover, Intent, Ready, Advanced;
    if a.Advance? { AdvanceJournal(s, a.i); }
  }

  // A step leaves the history alone: no restart, no snapshot.
  ghost predicate SameHistory(s: System, s': System) {
    s'.fence == s.fence && s'.base == s.base && s'.snapshots == s.snapshots
  }

  // What a call's step does to the journal, and to the history before it.
  lemma {:induction false} AdvanceJournal(s: System, i: nat)
    requires i < |s.threads| && Ready(s, s.threads[i])
    ensures SameHistory(s, Advanced(s, i))
    ensures var s' := Advanced(s, i);
            var x := EntryOf(s.journal, s.threads[i].id);
            s.journal <= s'.journal ||
            (s.threads[i].pc.Inside? && s.threads[i].pc.sec == Commit && x < |s.journal| &&
             s'.journal == Flipped(s.journal, x))
  {
    var pc := s.threads[i].pc;
    if pc.Inside? { SectionJournal(s, i); } else { LocalJournal(s, i); }
  }

  lemma {:induction false} LocalJournal(s: System, i: nat)
    requires i < |s.threads| && Ready(s, s.threads[i]) && !s.threads[i].pc.Inside?
    ensures SameHistory(s, Advanced(s, i)) && Advanced(s, i).journal == s.journal
  {
    hide ApplySpan, LockOrder, Validate;
  }

  lemma {:induction false} SectionJournal(s: System, i: nat)
    requires i < |s.threads| && Ready(s, s.threads[i]) && s.threads[i].pc.Inside?
    ensures SameHistory(s, Advanced(s, i))
    ensures var x := EntryOf(s.journal, s.threads[i].id);
            var j' := Advanced(s, i).journal;
            if s.threads[i].pc.sec == Append then s.journal < j'
            else if s.threads[i].pc.sec == Commit && x < |s.journal| then j' == Flipped(s.journal, x)
            else j' == s.journal
  {
    hide LockOrder, Intent, EntryOf;
    match s.threads[i].pc.sec {
      case Lookup(_) =>
      case Load =>
      case Save =>
      case Commit =>
      case _ =>
    }
  }

  // ----- all or nothing -----

  // Saved once, in the ledger once and Committed in the journal; or never saved,
  // not in the ledger, and its journal record, if it got one at all, not Committed.
  // No other journal record has its id.
  ghost predicate AllOrNothingOutcome(s: System, t: Thread) {
    var x := EntryOf(s.journal, t.id);
    (t.result == Some(true) ==> Occurs(s.saved, t.id) == 1 && Occurs(s.ledger, t.id) == 1 &&
                                x < |s.journal| && s.journal[x] == JEntry(Intent(t), Committed)) &&
    (t.result == Some(false) ==> Occurs(s.saved, t.id) == 0 && Occurs(s.ledger, t.id) == 0 &&
                                 (x < |s.journal| ==> s.journal[x].state == Validated)) &&
    (forall y :: 0 <= y < |s.journal| && s.journal[y].record.id == t.id ==> y == x)
  }

  // A finished call either succeeded or failed altogether; it was audited either
  // way and holds no mutex.
  lemma {:induction false} AllOrNothing(run: seq<System>, actions: seq<Action>, n: nat, u: nat)
    requires IsRun(run, actions) && n < |run| && u < |run[n].threads| && run[n].threads[u].pc == Finished
    ensures var t := run[n].threads[u];
            t.result.Some? && t.audited && t.holding == {} && AllOrNothingOutcome(run[n], t)
  {
    hide Run, IsRun, SerialOk, ApplySpan, LockOrder;
    InvAlways(run, actions, n);
    var s := run[n];
    assert ThreadOk(s, s.threads[u]) && OutcomeOk(s, s.threads[u]);
    AuditedWhenFinished(run, actions, n, u);
  }

  ghost predicate FinishedAudited(s: System) {
    forall u :: 0 <= u < |s.threads| && s.threads[u].pc == Finished ==> s.threads[u].audited
  }

  lemma {:induction false} AuditedWhenFinished(run: seq<System>, actions: seq<Action>, n: nat, u: nat)
    requires IsRun(run, actions) && n < |run| && u < |run[n].threads| && run[n].threads[u].pc == Finished
    ensures run[n].threads[u].audited
  {
    FinishedAuditedAlways(run, actions, n);
  }

  lemma {:induction false} FinishedAuditedStep(s: System, a: Action)
    requires FinishedAudited(s) && Enabled(s, a)
    ensures FinishedAudited(Do(s, a))
  {
    hide ApplySpan, LockOrder, Validate, Recover, Ready, Advanced;
    if a.Advance? { FinishedAuditedAdvance(s, a.i); }
  }

  lemma {:induction false} FinishedAuditedAdvance(s: System, i: nat)
    requires FinishedAudited(s) && i < |s.threads| && Ready(s, s.threads[i])
    ensures FinishedAudited(Advanced(s, i))
  {
    AdvanceOnlyThread(s, i);
    if s.threads[i].pc != Unlocking { NotYetFinished(s, i); }
    hide ApplySpan, LockOrder, Validate, Intent, EntryOf;
  }

  // A call's step changes its own thread only, and not its transaction or id.
  ghost predicate OnlyThread(s: System, s': System, i: nat) {
    i < |s.threads| == |s'.threads| && s'.threads == s.threads[i := s'.threads[i]] &&
    s'.threads[i].id == s.threads[i].id && s'.threads[i].txn == s.threads[i].txn &&
    s'.threads[i].now == s.threads[i].now && s'.nextId == s.nextId && s'.issued == s.issued
  }

  lemma {:induction false} AdvanceOnlyThread(s: System, i: nat)
    requires i < |s.threads| && Ready(s, s.threads[i])
    ensures OnlyThread(s, Advanced(s, i), i)
  {
    hide Advanced, Ready, OnlyThread;
    if s.threads[i].pc.Inside? { SectionOnlyThread(s, i); } else { LocalOnlyThread(s, i); }
  }

  lemma {:induction false} SectionOnlyThread(s: System, i: nat)
    requires i < |s.threads| && Ready(s, s.threads[i]) && s.threads[i].pc.Inside?
    ensures OnlyThread(s, Advanced(s, i), i)
  {
    hide LockOrder, Intent, EntryOf;
    match s.threads[i].pc.sec {
      case Lookup(_) =>
      case Load =>
      case Save =>
      case Commit =>
      case _ =>
    }
  }

  lemma {:induction false} LocalOnlyThread(s: System, i: nat)
    requires i < |s.threads| && Ready(s, s.threads[i]) && !s.threads[i].pc.Inside?
    ensures OnlyThread(s, Advanced(s, i), i)
  {
    hide ApplySpan, LockOrder, Validate;
    match s.threads[i].pc {
      case Enter(_) =>
      case AcquireAccount(_) =>
      case _ =>
    }
  }

  lemma {:induction false} NotYetFinished(s: System, i: nat)
    requires i < |s.threads| && Ready(s, s.threads[i]) && s.threads[i].pc != Unlocking
    ensures i < |Advanced(s, i).threads| && Advanced(s, i).threads[i].pc != Finished
  {
    hide Advanced, Ready;
    if s.threads[i].pc.Inside? { SectionGoesOn(s, i); } else { LocalGoesOn(s, i); }
  }

  lemma {:induction false} SectionGoesOn(s: System, i: nat)
    requires i < |s.threads| && Ready(s, s.threads[i]) && s.threads[i].pc.Inside?
    ensures i < |Advanced(s, i).threads| && Advanced(s, i).threads[i].pc != Finished
  {
    hide LockOrder, Intent, EntryOf;
    match s.threads[i].pc.sec {
      case Lookup(_) =>
      case Load =>
      case Save =>
      case Commit =>
      case _ =>
    }
  }

  lemma {:induction false} LocalGoesOn(s: System, i: nat)
    requires i < |s.threads| && Ready(s, s.threads[i]) && !s.threads[i].pc.Inside? && s.threads[i].pc != Unlocking
    ensures i < |Advanced(s, i).threads| && Advanced(s, i).threads[i].pc != Finished
  {
    hide ApplySpan, LockOrder, Validate;
  }

  lemma {:induction false} FinishedAuditedAlways(run: seq<System>, actions: seq<Action>, n: nat)
    requires IsRun(run, actions) && n < |run|
    ensures FinishedAudited(run[n])
    decreases n
  {
    hide Do, Enabled;
    if n > 0 {
      FinishedAuditedAlways(run, actions, n - 1);
      FinishedAuditedStep(run[n - 1], actions[n - 1]);
    }
  }

  // ----- ids and what crashes freeze -----

  // Over any number of crashes and restarts no two journal records share an id,
  // so the first match is the only one.
  lemma {:induction false} JournalIdsDistinct(run: seq<System>, actions: seq<Action>, n: nat, x: nat, y: nat)
    requires IsRun(run, actions) && n < |run| && x < y < |run[n].journal|
    ensures run[n].journal[x].record.id != run[n].journal[y].record.id
    ensures EntryOf(run[n].journal, run[n].journal[y].record.id) == y
  {
    hide Run, IsRun, GoodRecord;
    InvAlways(run, actions, n);
    var j := run[n].journal;
    var z := EntryOf(j, j[y].record.id);
    assert z <= y;
    assert z < |j| ==> j[z].record.id == j[y].record.id;
  }

  // Nothing in front of the fence changes, and the fence only moves forward.
  lemma {:induction false} StepFreezes(origin: Table, s: System, a: Action)
    requires Inv(origin, s) && Enabled(s, a)
    ensures var s' := Do(s, a);
            s.fence <= s'.fence <= |s'.journal| && s'.journal[..s.fence] == s.journal[..s.fence]
  {
    FenceInside(origin, s);
    if a.Advance? {
      AdvanceFreezes(s, a.i);
    } else {
      hide Inv, Recover, Ready, Advanced;
    }
  }

  lemma {:induction false} AdvanceFreezes(s: System, i: nat)
    requires ThreadsOk(s) && i < |s.threads| && Ready(s, s.threads[i]) && s.fence <= |s.journal|
    ensures var s' := Advanced(s, i);
            s.fence == s'.fence <= |s'.journal| && s'.journal[..s.fence] == s.journal[..s.fence]
  {
    if s.threads[i].pc.Inside? && s.threads[i].pc.sec == Commit { CommitsBehindFence(s, i); }
    AdvanceJournal(s, i);
    hide ThreadsOk, Ready, Advanced, EntryOf, Flipped;
    var x := EntryOf(s.journal, s.threads[i].id);
    if s.fence <= x < |s.journal| { FlipBehind(s.journal, s.fence, x); }
  }

  lemma {:induction false} FlipBehind(journal: seq<JEntry>, fence: nat, x: nat)
    requires fence <= x < |journal|
    ensures |Flipped(journal, x)| == |journal| && Flipped(journal, x)[..fence] == journal[..fence]
  {
  }

  lemma {:induction false} CommitsBehindFence(s: System, i: nat)
    requires ThreadsOk(s) && i < |s.threads| && s.threads[i].pc.Inside? && s.threads[i].pc.sec == Commit
    ensures s.fence <= EntryOf(s.journal, s.threads[i].id)
  {
    hide ApplySpan, LockOrder, Intent;
    assert ThreadOk(s, s.threads[i]);
  }

  lemma {:induction false} Freezes(run: seq<System>, actions: seq<Action>, n: nat, m: nat)
    requires IsRun(run, actions) && n <= m < |run|
    ensures run[n].fence <= run[m].fence <= |run[m].journal|
    ensures run[n].fence <= |run[n].journal| && run[m].journal[..run[n].fence] == run[n].journal[..run[n].fence]
    decreases m - n
  {
    hide Inv, Do, Enabled;
    InvAlways(run, actions, n);
    FenceInside(run[0].accounts, run[n]);
    if n < m {
      Freezes(run, actions, n, m - 1);
      InvAlways(run, actions, m - 1);
      StepFreezes(run[0].accounts, run[m - 1], actions[m - 1]);
      assert run[m].journal[..run[n].fence] == run[m].journal[..run[m - 1].fence][..run[n].fence];
      assert run[m - 1].journal[..run[n].fence] == run[m - 1].journal[..run[m - 1].fence][..run[n].fence];
    }
  }

  lemma {:induction false} FenceInside(origin: Table, s: System)
    requires Inv(origin, s)
    ensures s.fence <= |s.journal|
  {
  }

  // A record a crash left behind keeps its state for ever: what was Validated then
  // is never Committed later, by this process or any successor.
  lemma {:induction false} CrashedStaysCrashed(run: seq<System>, actions: seq<Action>, n: nat, k: nat, m: nat, x: nat)
    requires IsRun(run, actions) && n < |actions| && actions[n] == Restart(k) && n < m < |run|
    requires x < |run[n].journal|
    ensures x < |run[m].journal| && run[m].journal[x] == run[n].journal[x]
  {
    hide Inv, Enabled;
    assert run[n + 1] == Do(run[n], actions[n]);
    assert run[n + 1].fence == |run[n].journal| && run[n + 1].journal == run[n].journal;
    Freezes(run, actions, n + 1, m);
    assert run[m].journal[x] == run[m].journal[..run[n + 1].fence][x];
    assert run[n + 1].journal[..run[n + 1].fence][x] == run[n].journal[x];
  }
}
