// What every step of the engine keeps.

module EngineInvariant {
  import opened Basics
  import opened Domain
  import opened SerialBank
  import opened Journal
  import opened Engine

  // ----- one thread -----

  // How far along its path a call is.
  function Stage(pc: Pc): int {
    match pc
    case Enter(Lookup(_)) => 0
    case Inside(Lookup(_), _) => 0
    case AcquireAccount(_) => 0
    case Enter(Load) => 1
    case Inside(Load, _) => 2
    case Validating => 3
    case Enter(Append) => 4
    case Inside(Append, _) => 5
    case Applying => 6
    case Enter(Save) => 7
    case Inside(Save, _) => 8
    case Enter(Commit) => 9
    case Inside(Commit, _) => 10
    case Enter(Ledger) => 11
    case Inside(Ledger, _) => 12
    case Enter(Audit) => 13
    case Inside(Audit, _) => 14
    case Unlocking => 15
    case Finished => 16
  }

  // Between the last account lock and the outcome the call holds all its locks.
  predicate Critical(t: Thread) {
    1 <= Stage(t.pc) <= 12
  }

  ghost function SlotSet(slots: seq<nat>): set<nat> {
    set m | m in slots
  }

  // Locks looked up and held at each point.
  ghost predicate LocksShape(t: Thread) {
    var n := |Order(t)|;
    (match t.pc
     case Enter(Lookup(k)) => k < n && |t.slots| == k && t.holding == SlotSet(t.slots)
     case Inside(Lookup(k), _) => k < n && |t.slots| == k && t.holding == SlotSet(t.slots)
     case AcquireAccount(k) => k < n && |t.slots| == k + 1 && t.holding == SlotSet(t.slots[..k])
     case _ => t.holding <= SlotSet(t.slots)) &&
    |t.slots| <= n &&
    (Critical(t) ==> |t.slots| == n && t.holding == SlotSet(t.slots)) &&
    (t.pc == Finished ==> t.holding == {})
  }

  // Copies and outcome at each point.
  ghost predicate DataShape(t: Thread) {
    var n := |Order(t)|;
    var stage := Stage(t.pc);
    (stage <= 12 ==> t.result == None && !t.audited) &&
    (stage >= 13 ==> t.result.Some?) &&
    (stage <= 1 ==> t.loaded == []) &&
    (t.pc.Inside? && t.pc.sec == Load ==> t.pc.j == |t.loaded| < n) &&
    (3 <= stage <= 6 ==> |t.loaded| == n) &&
    (7 <= stage <= 12 ==> |t.loaded| == |t.original| == n) &&
    (t.pc.Inside? && t.pc.sec == Save ==> t.pc.j < n) &&
    (t.result == Some(true) ==> stage >= 13) &&
    (13 <= stage <= 14 ==> !t.audited) &&
    (stage == 15 && !t.audited ==> t.result == Some(false))
  }

  // The thread's handles are the slots of its accounts.
  ghost predicate SlotsOk(table: map<uint64, nat>, t: Thread) {
    |t.slots| <= |Order(t)| &&
    forall k :: 0 <= k < |t.slots| ==> Order(t)[k] in table && table[Order(t)[k]] == t.slots[k]
  }

  // How many of its accounts the thread has saved.
  function SavedCount(t: Thread): nat {
    if Stage(t.pc) >= 9 then |t.loaded|
    else if t.pc.Inside? && t.pc.sec == Save then t.pc.j else 0
  }

  // While it holds the locks, the thread's copies are the stored accounts: as
  // loaded before its saves, as applied after them.
  ghost predicate CopiesOk(accounts: Table, t: Thread) {
    var o := Order(t);
    var stage := Stage(t.pc);
    (2 <= stage <= 6 ==> Current(accounts, o, t.loaded)) &&
    (7 <= stage <= 12 ==> ApplySpan(t.txn, t.original) == Outcome(t.loaded, None) &&
                          Replacing(accounts, o, t.original, t.loaded, SavedCount(t)))
  }

  // The copies are the stored values of the first accounts in the order.
  ghost predicate Current(accounts: Table, o: seq<uint64>, copies: seq<AccountState>) {
    |copies| <= |o| &&
    forall k :: 0 <= k < |copies| ==> o[k] in accounts && accounts[o[k]] == copies[k]
  }

  // The first n accounts are stored as after, the others still as before.
  ghost predicate Replacing(accounts: Table, o: seq<uint64>, before: seq<AccountState>,
                            after: seq<AccountState>, n: nat)
  {
    |before| == |after| == |o| &&
    forall k :: 0 <= k < |o| ==>
      o[k] in accounts && before[k].id == o[k] && after[k].id == o[k] &&
      accounts[o[k]] == if k < n then after[k] else before[k]
  }

  function TxnOf(r: TransactionRecord): Transaction {
    match Materialize(r)
    case Ok(t) => t
    case Throw(_) => Deposit(0, 0)
  }

  // The thread's journal record: absent before the append, Validated until the
  // commit, Committed after it; and while the outcome is open, every later record
  // is about other accounts.
  ghost predicate RecordOk(journal: seq<JEntry>, fence: nat, t: Thread) {
    var x := EntryOf(journal, t.id);
    var stage := Stage(t.pc);
    (stage <= 5 ==> x == |journal|) &&
    (6 <= stage <= 10 ==>
       fence <= x < |journal| && journal[x] == JEntry(Intent(t), Validated) && DisjointAfter(journal, x, t.txn)) &&
    (11 <= stage <= 12 || t.result == Some(true) ==>
       x < |journal| && journal[x] == JEntry(Intent(t), Committed)) &&
    (t.result == Some(false) ==> x == |journal| || journal[x].state == Validated)
  }

  ghost predicate DisjointAfter(journal: seq<JEntry>, x: nat, txn: Transaction) {
    forall y :: x < y < |journal| ==> Involved(txn) !! Involved(TxnOf(journal[y].record))
  }

  ghost predicate ThreadOk(s: System, t: Thread) {
    LocksShape(t) && DataShape(t) && SlotsOk(s.table, t) && CopiesOk(s.accounts, t) &&
    RecordOk(s.journal, s.fence, t) && t.id < s.nextId && t.id !in s.issued && t.now > INT64_MIN
  }

  // Two threads never hold the same mutex, and never carry the same id.
  ghost predicate Apart(t: Thread, u: Thread) {
    t.holding !! u.holding && t.id != u.id &&
    !(t.pc.Inside? && u.pc.Inside? && LeafOf(t.pc.sec) == LeafOf(u.pc.sec))
  }

  ghost predicate ThreadsOk(s: System) {
    (forall u :: 0 <= u < |s.threads| ==> ThreadOk(s, s.threads[u])) &&
    (forall u, v :: 0 <= u < v < |s.threads| ==> Apart(s.threads[u], s.threads[v]))
  }

  // ----- shared state -----

  ghost predicate TableOk(table: map<uint64, nat>) {
    (forall a :: a in table ==> table[a] < |table|) &&
    (forall a, b :: a in table && b in table && table[a] == table[b] ==> a == b)
  }

  // A record as process_impl writes it, about accounts that exist.
  ghost predicate GoodRecord(accounts: Table, r: TransactionRecord) {
    Materialize(r).Ok? && r == Project(r.id, TxnOf(r), r.timestamp).(state := Validated) &&
    Involved(TxnOf(r)) <= accounts.Keys && r.id < TWO_63 && r.timestamp > INT64_MIN
  }

  ghost predicate JournalOk(s: System) {
    (forall x :: 0 <= x < |s.journal| ==>
       GoodRecord(s.accounts, s.journal[x].record) && s.journal[x].state in {Validated, Committed} &&
       s.journal[x].record.id < s.nextId && s.journal[x].record.id !in s.issued) &&
    (forall x, y :: 0 <= x < y < |s.journal| ==> s.journal[x].record.id != s.journal[y].record.id)
  }

  ghost predicate StoreOk(s: System) {
    WellKeyed(s.accounts) && (forall a :: a in s.accounts ==> a < TWO_63) &&
    TableOk(s.table) && s.nextId <= TWO_63 && (forall id :: id in s.issued ==> id < s.nextId)
  }

  // ----- the three serial orders -----

  // Which calls a serial order has not counted yet although they are saving or
  // have saved: by save order, by journal commits, by ledger appends.
  datatype Order3 = BySave | ByCommit | ByLedger

  predicate Pending3(w: Order3, t: Thread) {
    8 <= Stage(t.pc) <= (match w case BySave => 8 case ByCommit => 10 case ByLedger => 12)
  }

  ghost predicate TouchedByPending(threads: seq<Thread>, w: Order3, a: uint64) {
    exists u :: 0 <= u < |threads| && Pending3(w, threads[u]) && a in Involved(threads[u].txn)
  }

  // r is the stored table, except that the accounts of pending calls are still as
  // those calls loaded them.
  ghost predicate Shadows(r: Table, accounts: Table, threads: seq<Thread>, w: Order3) {
    r.Keys == accounts.Keys && WellKeyed(r) &&
    (forall u :: 0 <= u < |threads| && Pending3(w, threads[u]) ==>
       Current(r, Order(threads[u]), threads[u].original)) &&
    (forall a :: a in r && r[a] != accounts[a] ==> TouchedByPending(threads, w, a))
  }

  ghost predicate SerialOk(start: Table, txns: seq<Transaction>, s: System, w: Order3) {
    Run(start, txns).Some? && Shadows(Run(start, txns).value, s.accounts, s.threads, w)
  }

  function Txns(records: seq<TransactionRecord>): seq<Transaction> {
    if records == [] then [] else Txns(records[..|records| - 1]) + [TxnOf(records[|records| - 1])]
  }

  // The transactions of the Committed records, in journal order.
  function CommittedTxns(journal: seq<JEntry>): seq<Transaction> {
    if journal == [] then [] else
    var e := journal[|journal| - 1];
    CommittedTxns(journal[..|journal| - 1]) + (if e.state == Committed then [TxnOf(e.record)] else [])
  }

  ghost predicate OrdersOk(origin: Table, s: System) {
    SerialOk(s.base, Txns(s.saved), s, BySave) &&
    SerialOk(origin, CommittedTxns(s.journal), s, ByCommit) &&
    SerialOk(s.base, Txns(s.ledger), s, ByLedger)
  }

  // ----- snapshots -----

  ghost predicate SnapshotOk(origin: Table, journal: seq<JEntry>, fence: nat, snap: Snapshot) {
    snap.lsn <= fence <= |journal| && Run(origin, CommittedTxns(journal[..snap.lsn])) == Some(snap.accounts)
  }

  ghost predicate SnapshotsOk(origin: Table, s: System) {
    s.fence <= |s.journal| && s.snapshots != [] &&
    forall k :: 0 <= k < |s.snapshots| ==> SnapshotOk(origin, s.journal, s.fence, s.snapshots[k])
  }

  // ----- outcomes -----

  function Occurs(records: seq<TransactionRecord>, id: uint64): nat {
    if records == [] then 0 else
    Occurs(records[..|records| - 1], id) + (if records[|records| - 1].id == id then 1 else 0)
  }

  // Who has been saved and who has reached the ledger: each call once, and only
  // calls that went that far.
  ghost predicate OutcomeOk(s: System, t: Thread) {
    Occurs(s.saved, t.id) == (if 9 <= Stage(t.pc) <= 12 || t.result == Some(true) then 1 else 0) &&
    Occurs(s.ledger, t.id) == (if t.result == Some(true) then 1 else 0)
  }

  ghost predicate OutcomesOk(s: System) {
    (forall u :: 0 <= u < |s.threads| ==> OutcomeOk(s, s.threads[u])) &&
    (forall id: uint64 :: id >= s.nextId || id in s.issued ==> Occurs(s.saved, id) == 0 && Occurs(s.ledger, id) == 0)
  }

  ghost predicate Inv(origin: Table, s: System) {
    StoreOk(s) && JournalOk(s) && ThreadsOk(s) && OrdersOk(origin, s) && SnapshotsOk(origin, s) && OutcomesOk(s)
  }

  // ----- mutual exclusion -----

  lemma {:induction false} OrderIsInvolved(t: Thread)
    ensures 1 <= |Order(t)| <= 2 && StrictlyAscending(Order(t))
    ensures forall k :: 0 <= k < |Order(t)| ==> Order(t)[k] in Involved(t.txn)
    ensures forall a :: a in Involved(t.txn) ==> exists k :: 0 <= k < |Order(t)| && Order(t)[k] == a
  {
    LockOrderSound(t.txn);
    forall k | 0 <= k < |Order(t)| ensures Order(t)[k] in Involved(t.txn) {
      assert Order(t)[k] in (set a | a in LockOrder(t.txn));
    }
    forall a | a in Involved(t.txn) ensures exists k :: 0 <= k < |Order(t)| && Order(t)[k] == a {
      assert a in (set b | b in LockOrder(t.txn));
      assert a in Order(t);
    }
  }

  lemma {:induction false} HoldsAll(table: map<uint64, nat>, t: Thread)
    requires LocksShape(t) && SlotsOk(table, t) && Critical(t)
    ensures forall a :: a in Involved(t.txn) ==> a in table && table[a] in t.holding
  {
    OrderIsInvolved(t);
    forall a | a in Involved(t.txn) ensures a in table && table[a] in t.holding {
      var k :| 0 <= k < |Order(t)| && Order(t)[k] == a;
      assert t.slots[k] in SlotSet(t.slots);
    }
  }

  // Two calls in their critical stretch are about different accounts.
  lemma {:induction false} CriticalDisjoint(s: System, u: nat, v: nat)
    requires ThreadsOk(s) && u < |s.threads| && v < |s.threads| && u != v
    requires Critical(s.threads[u]) && Critical(s.threads[v])
    ensures Involved(s.threads[u].txn) !! Involved(s.threads[v].txn)
  {
    var t, w := s.threads[u], s.threads[v];
    assert t.holding !! w.holding by {
      if u < v { assert Apart(t, w); } else { assert Apart(w, t); }
    }
    HoldsAll(s.table, t);
    HoldsAll(s.table, w);
  }
}
