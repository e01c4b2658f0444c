// The steps that change the stored accounts, the journal states or the ledger
// keep the invariant too.

module EngineEffects {
  import opened Basics
  import opened Domain
  import opened SerialBank
  import opened Journal
  import opened Engine
  import opened EngineInvariant
  import opened EngineSteps

  // A step that leaves the journal alone and carries its thread on.
  lemma {:induction false} ThreadsMoved(s: System, s': System, i: nat)
    requires ThreadsOk(s) && Frame(s, s', i) && s'.journal == s.journal && s'.accounts == s.accounts
    requires ThreadOk(s', s'.threads[i]) && ApartFromOthers(s, i, s'.threads[i])
    ensures ThreadsOk(s')
  {
    hide ApplySpan, LockOrder;
    forall v | 0 <= v < |s.threads| && v != i
      ensures s'.threads[v] == s.threads[v] && ThreadOk(s', s.threads[v])
    {
      assert ThreadOk(s, s.threads[v]);
    }
    ReplaceThread(s, s', i);
  }

  // ----- entering the save section -----

  ghost predicate EnterSaveShape(s: System, s': System, i: nat) {
    Frame(s, s', i) && s.threads[i].pc == Enter(Save) && LeafFree(s.threads, ReposMutex) &&
    s'.threads[i] == s.threads[i].(pc := Inside(Save, 0)) &&
    s'.accounts == s.accounts && s'.journal == s.journal && s'.saved == s.saved && s'.ledger == s.ledger
  }

  lemma {:induction false} EnterSaveThreads(s: System, s': System, i: nat)
    requires ThreadsOk(s) && EnterSaveShape(s, s', i)
    ensures ThreadsOk(s') && SameOutcome(s.threads[i], s'.threads[i])
    ensures Current(s.accounts, Order(s'.threads[i]), s'.threads[i].original)
  {
    hide ApplySpan, LockOrder;
    var t := s.threads[i];
    var t' := s'.threads[i];
    assert ThreadOk(s, t) && Order(t') == Order(t) && Intent(t') == Intent(t);
    OrderIsInvolved(t);
    assert LocksShape(t') && DataShape(t') && SlotsOk(s.table, t');
    assert CopiesOk(s.accounts, t') && RecordOk(s.journal, s.fence, t');
    ApartOthers(s, i);
    assert ApartFromOthers(s, i, t');
    ThreadsMoved(s, s', i);
  }

  lemma {:induction false} EnterSaveKeeps(origin: Table, s: System, s': System, i: nat)
    requires Inv(origin, s) && EnterSaveShape(s, s', i)
    ensures Inv(origin, s')
  {
    EnterSaveThreads(s, s', i);
    EnterSaveOrders(origin, s, s', i);
    hide ApplySpan, LockOrder, Run, ThreadsOk, SameOutcome, OutcomesOk, JournalOk, SnapshotsOk, OrdersOk, StoreOk;
    StoreFrame(s, s');
    JournalFrame(s, s');
    SnapshotsFrame(origin, s, s');
    OutcomesFrame(s, s', i);
  }

  lemma {:induction false} EnterSaveOrders(origin: Table, s: System, s': System, i: nat)
    requires ThreadsOk(s) && OrdersOk(origin, s) && EnterSaveShape(s, s', i)
    ensures OrdersOk(origin, s')
  {
    EnterSaveThreads(s, s', i);
    hide ApplySpan, LockOrder, Run, ThreadsOk, SerialOk, Txns, CommittedTxns;
    SerialEnter(s.base, Txns(s.saved), s, s', i, BySave);
    SerialEnter(origin, CommittedTxns(s.journal), s, s', i, ByCommit);
    SerialEnter(s.base, Txns(s.ledger), s, s', i, ByLedger);
  }

  // ----- saving one account -----

  ghost predicate SaveShape(s: System, s': System, i: nat, j: nat) {
    Frame(s, s', i) && s.threads[i].pc == Inside(Save, j) && j < |s.threads[i].loaded| &&
    var t := s.threads[i];
    var last := j + 1 == |t.loaded|;
    s'.threads[i] == t.(pc := if last then Enter(Commit) else Inside(Save, j + 1)) &&
    s'.accounts == s.accounts[t.loaded[j].id := t.loaded[j]] &&
    s'.saved == (if last then s.saved + [Intent(t)] else s.saved) &&
    s'.journal == s.journal && s'.ledger == s.ledger
  }

  // The account being saved is the thread's, and known to the store.
  lemma {:induction false} SavedAccount(s: System, s': System, i: nat, j: nat)
    requires ThreadsOk(s) && SaveShape(s, s', i, j)
    ensures var t := s.threads[i];
            t.loaded[j].id in Involved(t.txn) && t.loaded[j].id in s.accounts && s'.accounts.Keys == s.accounts.Keys
  {
    hide ApplySpan, LockOrder;
    var t := s.threads[i];
    assert ThreadOk(s, t);
    OrderIsInvolved(t);
    assert t.loaded[j].id == Order(t)[j];
  }

  // Saving an account leaves the copies of every other call current.
  lemma {:induction false} CopiesElsewhere(s: System, i: nat, v: nat, x: AccountState)
    requires ThreadsOk(s) && i < |s.threads| && v < |s.threads| && i != v && Critical(s.threads[i])
    requires x.id in Involved(s.threads[i].txn)
    ensures CopiesOk(s.accounts[x.id := x], s.threads[v])
  {
    hide ApplySpan, LockOrder;
    var u := s.threads[v];
    assert ThreadOk(s, u);
    if Critical(u) {
      CriticalDisjoint(s, i, v);
      OrderIsInvolved(u);
    }
  }

  lemma {:induction false} SavingCopies(accounts: Table, t: Thread, j: nat)
    requires LocksShape(t) && DataShape(t) && CopiesOk(accounts, t) && t.pc == Inside(Save, j)
    ensures var x := t.loaded[j];
            var accounts' := accounts[x.id := x];
            Replacing(accounts', Order(t), t.original, t.loaded, j + 1) &&
            ApplySpan(t.txn, t.original) == Outcome(t.loaded, None)
  {
    hide ApplySpan, LockOrder;
    OrderIsInvolved(t);
  }

  lemma {:induction false} SaveThreads(s: System, s': System, i: nat, j: nat)
    requires ThreadsOk(s) && SaveShape(s, s', i, j)
    ensures ThreadsOk(s') && (j + 1 == |s.threads[i].loaded| ==> SavedAll(s'.accounts, s.threads[i]))
  {
    hide ApplySpan, LockOrder;
    var t := s.threads[i];
    var t' := s'.threads[i];
    SavedAccount(s, s', i, j);
    assert ThreadOk(s, t) && Order(t') == Order(t) && Intent(t') == Intent(t);
    SavingCopies(s.accounts, t, j);
    assert LocksShape(t') && DataShape(t') && SlotsOk(s.table, t');
    assert CopiesOk(s'.accounts, t') && RecordOk(s.journal, s.fence, t');
    ApartKept(s, i, t');
    forall v | 0 <= v < |s.threads| && v != i
      ensures s'.threads[v] == s.threads[v] && ThreadOk(s', s.threads[v])
    {
      assert ThreadOk(s, s.threads[v]);
      CopiesElsewhere(s, i, v, t.loaded[j]);
    }
    ReplaceThread(s, s', i);
  }

  lemma {:induction false} TxnsSnoc(records: seq<TransactionRecord>, r: TransactionRecord)
    ensures Txns(records + [r]) == Txns(records) + [TxnOf(r)]
  {
    assert (records + [r])[..|records|] == records;
  }

  lemma {:induction false} OccursSnoc(records: seq<TransactionRecord>, r: TransactionRecord, id: uint64)
    ensures Occurs(records + [r], id) == Occurs(records, id) + if r.id == id then 1 else 0
  {
    assert (records + [r])[..|records|] == records;
  }

  // The state in which the account is stored and the thread has not moved on.
  function Stored(s: System, x: AccountState): System {
    s.(accounts := s.accounts[x.id := x])
  }

  // One save, seen by an order in which the call is pending.
  lemma {:induction false} SerialStored(start: Table, txns: seq<Transaction>, s: System, i: nat, x: AccountState, w: Order3)
    requires SerialOk(start, txns, s, w) && i < |s.threads| && Pending3(w, s.threads[i])
    requires x.id in Involved(s.threads[i].txn) && x.id in s.accounts
    ensures SerialOk(start, txns, Stored(s, x), w)
  {
    hide Run, Shadows, Stage;
    ShadowsWrite(Run(start, txns).value, s.accounts, s.threads, i, x.id, x, w);
  }

  lemma {:induction false} SaveSeen(start: Table, txns: seq<Transaction>, s: System, s': System, i: nat, j: nat, w: Order3)
    requires ThreadsOk(s) && SaveShape(s, s', i, j) && SerialOk(start, txns, s, w)
    requires Pending3(w, s.threads[i]) && Pending3(w, s'.threads[i])
    ensures SerialOk(start, txns, s', w)
  {
    SavedAccount(s, s', i, j);
    hide ThreadsOk, LockOrder, SerialOk, Stage;
    SerialStored(start, txns, s, i, s.threads[i].loaded[j], w);
    SerialFrame(start, txns, Stored(s, s.threads[i].loaded[j]), s', i, w);
  }

  // The last save of a call makes it the latest transaction of the save order.
  lemma {:induction false} LastSaveCounts(s: System, s': System, i: nat, j: nat)
    requires ThreadsOk(s) && SaveShape(s, s', i, j) && j + 1 == |s.threads[i].loaded|
    requires SerialOk(s.base, Txns(s.saved), s, BySave)
    ensures SerialOk(s'.base, Txns(s'.saved), s', BySave)
  {
    SavedAccount(s, s', i, j);
    SaveThreads(s, s', i, j);
    PendingIsApart(s, i, BySave);
    LastSaveRuns(s, s', i, j);
    LastSavePending(s, s', i, j);
    hide ThreadsOk, LockOrder, SerialOk, Intent, Txns, Run, Then, SavedAll, PendingApart, Pending3;
    var mid := Stored(s, s.threads[i].loaded[j]);
    assert mid.threads == s.threads && mid.accounts == s'.accounts;
    SerialStored(s.base, Txns(s.saved), s, i, s.threads[i].loaded[j], BySave);
    hide SaveShape, Stored;
    SerialLeave(s.base, Txns(s.saved), Txns(s'.saved), mid, s', i, BySave);
  }

  lemma {:induction false} LastSavePending(s: System, s': System, i: nat, j: nat)
    requires SaveShape(s, s', i, j) && j + 1 == |s.threads[i].loaded|
    ensures Pending3(BySave, s.threads[i]) && !Pending3(BySave, s'.threads[i])
  {
    hide Intent, LockOrder;
  }

  lemma {:induction false} LastSaveRuns(s: System, s': System, i: nat, j: nat)
    requires SaveShape(s, s', i, j) && j + 1 == |s.threads[i].loaded|
    ensures Run(s.base, Txns(s'.saved)) == Then(Run(s.base, Txns(s.saved)), s.threads[i].txn)
  {
    hide Intent, TxnOf, Txns, Run, Then, LockOrder;
    var t := s.threads[i];
    IntentTxn(t);
    TxnsSnoc(s.saved, Intent(t));
    RunSnoc(s.base, Txns(s.saved), t.txn);
  }

  lemma {:induction false} SaveOrders(origin: Table, s: System, s': System, i: nat, j: nat)
    requires ThreadsOk(s) && OrdersOk(origin, s) && SaveShape(s, s', i, j)
    ensures OrdersOk(origin, s')
  {
    hide ApplySpan, LockOrder, Run, ThreadsOk, SerialOk, Txns, CommittedTxns, Intent;
    SaveSeen(origin, CommittedTxns(s.journal), s, s', i, j, ByCommit);
    SaveSeen(s.base, Txns(s.ledger), s, s', i, j, ByLedger);
    if j + 1 == |s.threads[i].loaded| {
      LastSaveCounts(s, s', i, j);
    } else {
      SaveSeen(s.base, Txns(s.saved), s, s', i, j, BySave);
    }
  }

  lemma {:induction false} SaveOutcomes(s: System, s': System, i: nat, j: nat)
    requires ThreadsOk(s) && OutcomesOk(s) && SaveShape(s, s', i, j)
    ensures OutcomesOk(s')
  {
    hide ApplySpan, LockOrder;
    var t := s.threads[i];
    assert ThreadOk(s, t);
    if j + 1 < |t.loaded| {
      OutcomesFrame(s, s', i);
    } else {
      ApartOthers(s, i);
      hide ThreadsOk;
      forall u | 0 <= u < |s'.threads| ensures OutcomeOk(s', s'.threads[u]) {
        assert OutcomeOk(s, s.threads[u]);
        assert u != i ==> Apart(t, s.threads[u]);
        OccursSnoc(s.saved, Intent(t), s.threads[u].id);
      }
      forall id: uint64 | id >= s'.nextId || id in s'.issued
        ensures Occurs(s'.saved, id) == 0 && Occurs(s'.ledger, id) == 0
      {
        OccursSnoc(s.saved, Intent(t), id);
      }
    }
  }

  lemma {:induction false} SaveKeeps(origin: Table, s: System, s': System, i: nat, j: nat)
    requires Inv(origin, s) && SaveShape(s, s', i, j)
    ensures Inv(origin, s')
  {
    SavedAccount(s, s', i, j);
    SaveThreads(s, s', i, j);
    SaveOrders(origin, s, s', i, j);
    SaveOutcomes(s, s', i, j);
    StoreSaved(s, s', s.threads[i].loaded[j]);
    hide ThreadsOk, OrdersOk, OutcomesOk, LockOrder, ApplySpan, Run, JournalOk, SnapshotsOk, Intent, StoreOk;
    SnapshotsFrame(origin, s, s');
    JournalFrame(s, s');
  }

  lemma {:induction false} StoreSaved(s: System, s': System, x: AccountState)
    requires StoreOk(s) && x.id in s.accounts && s'.accounts == s.accounts[x.id := x] && s'.table == s.table
    requires s'.nextId == s.nextId && s'.issued == s.issued
    ensures StoreOk(s')
  {
  }

  // ----- marking committed -----

  lemma {:induction false} CommittedConcat(a: seq<JEntry>, b: seq<JEntry>)
    ensures CommittedTxns(a + b) == CommittedTxns(a) + CommittedTxns(b)
    decreases |b|
  {
    if b == [] {
      assert a + b == a;
    } else {
      var n := |b| - 1;
      assert (a + b)[..|a + b| - 1] == a + b[..n];
      CommittedConcat(a, b[..n]);
    }
  }

  lemma {:induction false} CommittedAreEntries(journal: seq<JEntry>)
    ensures forall u :: u in CommittedTxns(journal) ==>
              exists y :: 0 <= y < |journal| && TxnOf(journal[y].record) == u
    decreases |journal|
  {
    if journal != [] {
      var n := |journal| - 1;
      CommittedAreEntries(journal[..n]);
      forall u | u in CommittedTxns(journal)
        ensures exists y :: 0 <= y < |journal| && TxnOf(journal[y].record) == u
      {
        if u in CommittedTxns(journal[..n]) {
          var y :| 0 <= y < n && TxnOf(journal[..n][y].record) == u;
          assert journal[y] == journal[..n][y];
        } else {
          assert TxnOf(journal[n].record) == u;
        }
      }
    }
  }

  lemma {:induction false} CommittedAround(journal: seq<JEntry>, x: nat)
    requires x < |journal|
    ensures CommittedTxns(journal) ==
              CommittedTxns(journal[..x]) + CommittedTxns([journal[x]]) + CommittedTxns(journal[x + 1..])
  {
    assert journal == journal[..x] + [journal[x]] + journal[x + 1..];
    CommittedConcat(journal[..x] + [journal[x]], journal[x + 1..]);
    CommittedConcat(journal[..x], [journal[x]]);
  }

  lemma {:induction false} CommittedOne(e: JEntry)
    ensures CommittedTxns([e]) == if e.state == Committed then [TxnOf(e.record)] else []
  {
    assert [e][..0] == [];
  }

  // Committing record x inserts its transaction into the committed order. Since
  // every later record is about other accounts, the new order runs like the old
  // one with x's transaction made last.
  lemma {:induction false} CommitRuns(origin: Table, journal: seq<JEntry>, x: nat)
    requires x < |journal| && journal[x].state != Committed
    requires DisjointAfter(journal, x, TxnOf(journal[x].record))
    ensures Run(origin, CommittedTxns(Flipped(journal, x)))
         == Then(Run(origin, CommittedTxns(journal)), TxnOf(journal[x].record))
  {
    hide Run, Involved;
    var txn := TxnOf(journal[x].record);
    var p, q := CommittedTxns(journal[..x]), CommittedTxns(journal[x + 1..]);
    FlippedAround(journal, x);
    LaterDisjoint(journal, x, txn);
    hide CommittedTxns, TxnOf, Flipped;
    MoveToEnd(origin, p, txn, q);
  }

  lemma {:induction false} FlippedAround(journal: seq<JEntry>, x: nat)
    requires x < |journal| && journal[x].state != Committed
    ensures var p, q := CommittedTxns(journal[..x]), CommittedTxns(journal[x + 1..]);
            CommittedTxns(journal) == p + q &&
            CommittedTxns(Flipped(journal, x)) == p + [TxnOf(journal[x].record)] + q
  {
    hide TxnOf;
    var j' := Flipped(journal, x);
    CommittedAround(journal, x);
    CommittedAround(j', x);
    CommittedOne(journal[x]);
    CommittedOne(j'[x]);
    assert j'[..x] == journal[..x] && j'[x + 1..] == journal[x + 1..];
    assert CommittedTxns(journal[..x]) + [] == CommittedTxns(journal[..x]);
  }

  lemma {:induction false} LaterDisjoint(journal: seq<JEntry>, x: nat, txn: Transaction)
    requires x < |journal| && DisjointAfter(journal, x, txn)
    ensures DisjointFromAll(txn, CommittedTxns(journal[x + 1..]))
  {
    hide TxnOf, Involved;
    CommittedAreEntries(journal[x + 1..]);
    forall u | u in CommittedTxns(journal[x + 1..]) ensures Involved(txn) !! Involved(u) {
      var y :| 0 <= y < |journal| - x - 1 && TxnOf(journal[x + 1..][y].record) == u;
      assert journal[x + 1..][y] == journal[x + 1 + y];
    }
  }

  lemma {:induction false} EntryFlip(journal: seq<JEntry>, x: nat, id: uint64)
    requires x < |journal|
    ensures EntryOf(Flipped(journal, x), id) == EntryOf(journal, id)
  {
    var j' := Flipped(journal, x);
    var y, z := EntryOf(journal, id), EntryOf(j', id);
    assert forall k :: 0 <= k < |journal| ==> j'[k].record == journal[k].record;
    assert y < |journal| ==> j'[y].record.id == id;
    assert z < |journal| ==> journal[z].record.id == id;
  }

  // Flipping another call's record does not disturb a thread's own.
  lemma {:induction false} RecordFlipped(journal: seq<JEntry>, fence: nat, u: Thread, x: nat)
    requires RecordOk(journal, fence, u) && x < |journal| && journal[x].record.id != u.id
    ensures RecordOk(Flipped(journal, x), fence, u)
  {
    var j' := Flipped(journal, x);
    EntryFlip(journal, x, u.id);
    assert forall y :: 0 <= y < |journal| ==> j'[y].record == journal[y].record;
  }

  ghost predicate CommitShape(s: System, s': System, i: nat, x: nat) {
    Frame(s, s', i) && s.threads[i].pc.Inside? && s.threads[i].pc.sec == Commit &&
    x == EntryOf(s.journal, s.threads[i].id) < |s.journal| &&
    s'.threads[i] == s.threads[i].(pc := Enter(Ledger)) && s'.journal == Flipped(s.journal, x) &&
    s'.accounts == s.accounts && s'.saved == s.saved && s'.ledger == s.ledger
  }

  lemma {:induction false} CommitThreads(s: System, s': System, i: nat, x: nat)
    requires ThreadsOk(s) && CommitShape(s, s', i, x)
    ensures ThreadsOk(s') && SavedAll(s.accounts, s.threads[i]) && SameOutcome(s.threads[i], s'.threads[i])
    ensures s.fence <= x && s.journal[x].state == Validated && TxnOf(s.journal[x].record) == s.threads[i].txn
    ensures DisjointAfter(s.journal, x, s.threads[i].txn)
  {
    hide ApplySpan, LockOrder;
    var t := s.threads[i];
    var t' := s'.threads[i];
    IntentTxn(t);
    assert ThreadOk(s, t) && Order(t') == Order(t) && Intent(t') == Intent(t);
    EntryFlip(s.journal, x, t.id);
    assert LocksShape(t') && DataShape(t') && SlotsOk(s.table, t');
    assert CopiesOk(s.accounts, t') && RecordOk(s'.journal, s.fence, t');
    ApartKept(s, i, t');
    ApartOthers(s, i);
    forall v | 0 <= v < |s.threads| && v != i
      ensures s'.threads[v] == s.threads[v] && ThreadOk(s', s.threads[v])
    {
      assert ThreadOk(s, s.threads[v]) && Apart(t, s.threads[v]);
      RecordFlipped(s.journal, s.fence, s.threads[v], x);
    }
    ReplaceThread(s, s', i);
  }

  lemma {:induction false} CommitOrders(origin: Table, s: System, s': System, i: nat, x: nat)
    requires ThreadsOk(s) && OrdersOk(origin, s) && CommitShape(s, s', i, x)
    ensures OrdersOk(origin, s')
  {
    hide ApplySpan, LockOrder, Run, ThreadsOk, SavedAll, Intent, DisjointAfter, SameOutcome, CommittedTxns, SerialOk, Txns;
    hide Flipped, TxnOf, EntryOf, Then;
    CommitThreads(s, s', i, x);
    CommitRuns(origin, s.journal, x);
    PendingIsApart(s, i, ByCommit);
    SerialLeave(origin, CommittedTxns(s.journal), CommittedTxns(s'.journal), s, s', i, ByCommit);
    SerialFrame(s.base, Txns(s.saved), s, s', i, BySave);
    SerialFrame(s.base, Txns(s.ledger), s, s', i, ByLedger);
  }

  lemma {:induction false} CommitKeeps(origin: Table, s: System, s': System, i: nat, x: nat)
    requires Inv(origin, s) && CommitShape(s, s', i, x)
    ensures Inv(origin, s')
  {
    CommitThreads(s, s', i, x);
    CommitOrders(origin, s, s', i, x);
    FlipJournalOk(s, s', x);
    assert s'.journal[..s.fence] == s.journal[..s.fence];
    hide ApplySpan, LockOrder, Run, ThreadsOk, OrdersOk, SavedAll, Intent, SameOutcome, DisjointAfter;
    hide JournalOk, SnapshotsOk, OutcomesOk, StoreOk;
    StoreFrame(s, s');
    SnapshotsFrame(origin, s, s');
    OutcomesFrame(s, s', i);
  }

  lemma {:induction false} FlipJournalOk(s: System, s': System, x: nat)
    requires JournalOk(s) && x < |s.journal| && s'.journal == Flipped(s.journal, x)
    requires s'.accounts == s.accounts && s'.nextId == s.nextId && s'.issued == s.issued
    ensures JournalOk(s')
  {
    hide GoodRecord;
    assert forall y :: 0 <= y < |s.journal| ==> s'.journal[y].record == s.journal[y].record;
  }

  // ----- the ledger -----

  ghost predicate LedgerShape(s: System, s': System, i: nat) {
    Frame(s, s', i) && s.threads[i].pc.Inside? && s.threads[i].pc.sec == Ledger &&
    s'.threads[i] == s.threads[i].(pc := Enter(Audit), result := Some(true)) &&
    s'.ledger == s.ledger + [Intent(s.threads[i]).(state := Committed)] &&
    s'.accounts == s.accounts && s'.journal == s.journal && s'.saved == s.saved
  }

  lemma {:induction false} LedgerThreads(s: System, s': System, i: nat)
    requires ThreadsOk(s) && LedgerShape(s, s', i)
    ensures ThreadsOk(s') && SavedAll(s.accounts, s.threads[i])
  {
    hide ApplySpan, LockOrder;
    var t := s.threads[i];
    var t' := s'.threads[i];
    assert ThreadOk(s, t) && Order(t') == Order(t) && Intent(t') == Intent(t);
    assert LocksShape(t') && DataShape(t') && SlotsOk(s.table, t');
    assert CopiesOk(s.accounts, t') && RecordOk(s.journal, s.fence, t');
    ApartKept(s, i, t');
    ThreadsMoved(s, s', i);
  }

  lemma {:induction false} LedgerOrders(origin: Table, s: System, s': System, i: nat)
    requires ThreadsOk(s) && OrdersOk(origin, s) && LedgerShape(s, s', i)
    ensures OrdersOk(origin, s')
  {
    LedgerThreads(s, s', i);
    LedgerRuns(s, s', i);
    LedgerPending(s, s', i);
    hide SamePendingFor, Pending3, PendingApart;
    hide ApplySpan, LockOrder, Run, Then, ThreadsOk, SavedAll, Intent, CommittedTxns, SerialOk, Txns, TxnOf;
    PendingIsApart(s, i, ByLedger);
    SerialLeave(s.base, Txns(s.ledger), Txns(s'.ledger), s, s', i, ByLedger);
    SerialFrame(s.base, Txns(s.saved), s, s', i, BySave);
    SerialFrame(origin, CommittedTxns(s.journal), s, s', i, ByCommit);
  }

  lemma {:induction false} LedgerPending(s: System, s': System, i: nat)
    requires LedgerShape(s, s', i)
    ensures Pending3(ByLedger, s.threads[i]) && !Pending3(ByLedger, s'.threads[i])
    ensures SamePendingFor(BySave, s.threads[i], s'.threads[i]) && SamePendingFor(ByCommit, s.threads[i], s'.threads[i])
  {
    hide Intent, LockOrder;
  }

  lemma {:induction false} LedgerRuns(s: System, s': System, i: nat)
    requires LedgerShape(s, s', i)
    ensures Run(s.base, Txns(s'.ledger)) == Then(Run(s.base, Txns(s.ledger)), s.threads[i].txn)
  {
    hide Intent, TxnOf, Txns, Run, Then, LockOrder;
    var t := s.threads[i];
    IntentTxn(t);
    TxnsSnoc(s.ledger, Intent(t).(state := Committed));
    RunSnoc(s.base, Txns(s.ledger), t.txn);
  }

  lemma {:induction false} LedgerOutcomes(s: System, s': System, i: nat)
    requires ThreadsOk(s) && OutcomesOk(s) && LedgerShape(s, s', i)
    ensures OutcomesOk(s')
  {
    hide ApplySpan, LockOrder;
    var t := s.threads[i];
    var r := Intent(t).(state := Committed);
    assert ThreadOk(s, t);
    ApartOthers(s, i);
    hide ThreadsOk;
    forall u | 0 <= u < |s'.threads| ensures OutcomeOk(s', s'.threads[u]) {
      assert OutcomeOk(s, s.threads[u]);
      assert u != i ==> Apart(s.threads[i], s.threads[u]);
      OccursSnoc(s.ledger, r, s.threads[u].id);
    }
    forall id: uint64 | id >= s'.nextId || id in s'.issued
      ensures Occurs(s'.saved, id) == 0 && Occurs(s'.ledger, id) == 0
    {
      OccursSnoc(s.ledger, r, id);
    }
  }

  lemma {:induction false} LedgerKeeps(origin: Table, s: System, s': System, i: nat)
    requires Inv(origin, s) && LedgerShape(s, s', i)
    ensures Inv(origin, s')
  {
    LedgerThreads(s, s', i);
    LedgerOrders(origin, s, s', i);
    LedgerOutcomes(s, s', i);
    hide ThreadsOk, OrdersOk, OutcomesOk, LockOrder, ApplySpan, Run, SavedAll, JournalOk, SnapshotsOk, Intent, StoreOk;
    StoreFrame(s, s');
    SnapshotsFrame(origin, s, s');
    JournalFrame(s, s');
  }
}
