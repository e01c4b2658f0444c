// Each step keeps the invariant.

module EngineSteps {
  import opened Basics
  import opened Domain
  import opened SerialBank
  import opened Journal
  import opened Engine
  import opened EngineInvariant

  // ----- steps that touch only their own thread -----

  ghost predicate ApartFromOthers(s: System, i: nat, t: Thread)
    requires i < |s.threads|
  {
    forall v :: 0 <= v < |s.threads| && v != i ==> Apart(t, s.threads[v])
  }

  lemma {:induction false} ApartOthers(s: System, i: nat)
    requires ThreadsOk(s) && i < |s.threads|
    ensures ApartFromOthers(s, i, s.threads[i])
  {
    forall v | 0 <= v < |s.threads| && v != i ensures Apart(s.threads[i], s.threads[v]) {
      if i < v { assert Apart(s.threads[i], s.threads[v]); } else { assert Apart(s.threads[v], s.threads[i]); }
    }
  }

  lemma {:induction false} ReplaceThread(s: System, s': System, i: nat)
    requires ThreadsOk(s) && i < |s.threads| == |s'.threads|
    requires forall v :: 0 <= v < |s.threads| && v != i ==> s'.threads[v] == s.threads[v] && ThreadOk(s', s.threads[v])
    requires ThreadOk(s', s'.threads[i]) && ApartFromOthers(s, i, s'.threads[i])
    ensures ThreadsOk(s')
  {
    forall u, v | 0 <= u < v < |s'.threads| ensures Apart(s'.threads[u], s'.threads[v]) {
      if u == i { assert Apart(s'.threads[i], s.threads[v]); }
      else if v == i { assert Apart(s'.threads[i], s.threads[u]); }
      else { assert Apart(s.threads[u], s.threads[v]); }
    }
  }

  // Giving up locks, or doing local work, cannot bring two threads into conflict.
  lemma {:induction false} ApartKept(s: System, i: nat, t: Thread)
    requires ThreadsOk(s) && i < |s.threads|
    requires t.holding <= s.threads[i].holding && t.id == s.threads[i].id
    requires t.pc.Inside? ==> s.threads[i].pc.Inside? && LeafOf(t.pc.sec) == LeafOf(s.threads[i].pc.sec)
    ensures ApartFromOthers(s, i, t)
  {
    ApartOthers(s, i);
  }

  // Seen from one order: the call stays pending with the same copies, or stays out.
  ghost predicate SamePendingFor(w: Order3, t: Thread, t': Thread) {
    t'.txn == t.txn && Pending3(w, t) == Pending3(w, t') && (Pending3(w, t) ==> t'.original == t.original)
  }

  ghost predicate SamePending(t: Thread, t': Thread) {
    SamePendingFor(BySave, t, t') && SamePendingFor(ByCommit, t, t') && SamePendingFor(ByLedger, t, t')
  }

  lemma {:induction false} ShadowsFrame(r: Table, accounts: Table, threads: seq<Thread>, i: nat, t: Thread, w: Order3)
    requires i < |threads| && SamePendingFor(w, threads[i], t) && Shadows(r, accounts, threads, w)
    ensures Shadows(r, accounts, threads[i := t], w)
  {
    hide LockOrder, Stage;
    var threads' := threads[i := t];
    forall a | a in r && r[a] != accounts[a] ensures TouchedByPending(threads', w, a) {
      var u :| 0 <= u < |threads| && Pending3(w, threads[u]) && a in Involved(threads[u].txn);
      assert Pending3(w, threads'[u]) && a in Involved(threads'[u].txn);
    }
    forall u | 0 <= u < |threads'| && Pending3(w, threads'[u])
      ensures Current(r, Order(threads'[u]), threads'[u].original)
    {
      assert Pending3(w, threads[u]) && Current(r, Order(threads[u]), threads[u].original);
    }
  }

  ghost predicate SameOutcome(t: Thread, t': Thread) {
    t'.id == t.id && (t'.result == Some(true) <==> t.result == Some(true)) &&
    (9 <= Stage(t.pc) <= 12 <==> 9 <= Stage(t'.pc) <= 12)
  }

  lemma {:induction false} OutcomesFrame(s: System, s': System, i: nat)
    requires OutcomesOk(s) && i < |s.threads| == |s'.threads| && SameOutcome(s.threads[i], s'.threads[i])
    requires s'.threads == s.threads[i := s'.threads[i]] && s'.saved == s.saved && s'.ledger == s.ledger
    requires s'.nextId == s.nextId && s'.issued == s.issued
    ensures OutcomesOk(s')
  {
    forall u | 0 <= u < |s'.threads| ensures OutcomeOk(s', s'.threads[u]) {
      assert OutcomeOk(s, s.threads[u]);
    }
  }

  // A step that changes its thread and at most the audit trail and lock table.
  ghost predicate Quiet(s: System, s': System, i: nat) {
    i < |s.threads| == |s'.threads| &&
    s' == With(s, i, s'.threads[i]).(audit := s'.audit, table := s'.table) &&
    TableOk(s'.table) && (forall a :: a in s.table ==> a in s'.table && s'.table[a] == s.table[a]) &&
    ThreadOk(s', s'.threads[i]) && ApartFromOthers(s, i, s'.threads[i]) &&
    SamePending(s.threads[i], s'.threads[i]) && SameOutcome(s.threads[i], s'.threads[i])
  }

  lemma {:induction false} QuietStep(origin: Table, s: System, s': System, i: nat)
    requires Inv(origin, s) && Quiet(s, s', i)
    ensures Inv(origin, s')
  {
    forall v | 0 <= v < |s.threads| && v != i
      ensures s'.threads[v] == s.threads[v] && ThreadOk(s', s.threads[v])
    {
      assert ThreadOk(s, s.threads[v]);
    }
    ReplaceThread(s, s', i);
    OrdersFrame(origin, s, s', i);
    OutcomesFrame(s, s', i);
  }

  // What a quiet step of thread i may assume.
  ghost predicate CanStep(s: System, i: nat) {
    StoreOk(s) && ThreadsOk(s) && i < |s.threads| && Ready(s, s.threads[i])
  }

  lemma {:induction false} EnterQuiet(s: System, i: nat)
    requires CanStep(s, i) && s.threads[i].pc.Enter? && s.threads[i].pc.sec != Save
    ensures Quiet(s, Advanced(s, i), i)
  {
    hide ApplySpan, LockOrder;
    var t := s.threads[i];
    var t' := t.(pc := Inside(t.pc.sec, 0));
    assert ThreadOk(s, t) && Order(t') == Order(t) && Intent(t') == Intent(t);
    OrderIsInvolved(t);
    assert LocksShape(t') && DataShape(t') && SlotsOk(s.table, t');
    assert CopiesOk(s.accounts, t') && RecordOk(s.journal, s.fence, t');
    ApartOthers(s, i);
    assert ApartFromOthers(s, i, t');
  }

  lemma {:induction false} TableGrows(table: map<uint64, nat>, a: uint64)
    requires TableOk(table)
    ensures var slot := if a in table then table[a] else |table|;
            TableOk(table[a := slot])
  {
    if a in table {
      assert table[a := table[a]] == table;
    } else {
      assert |table[a := |table|]| == |table| + 1;
    }
  }

  lemma {:induction false} LookupThreadOk(s: System, i: nat)
    requires CanStep(s, i) && s.threads[i].pc.Inside? && s.threads[i].pc.sec.Lookup?
    ensures var s' := Advanced(s, i); s'.threads != [] && i < |s'.threads| && ThreadOk(s', s'.threads[i])
  {
    hide ApplySpan, LockOrder;
    var t := s.threads[i];
    var k := t.pc.sec.k;
    var s' := DoLookup(s, i, k);
    var t' := s'.threads[i];
    assert ThreadOk(s, t) && Order(t') == Order(t) && Intent(t') == Intent(t);
    assert t'.slots[..k] == t.slots;
    assert LocksShape(t') && DataShape(t') && SlotsOk(s'.table, t');
    assert CopiesOk(s.accounts, t') && RecordOk(s.journal, s.fence, t');
  }

  lemma {:induction false} LookupTable(s: System, i: nat)
    requires CanStep(s, i) && s.threads[i].pc.Inside? && s.threads[i].pc.sec.Lookup?
    ensures var s' := Advanced(s, i);
            |s'.threads| == |s.threads| && s' == With(s, i, s'.threads[i]).(table := s'.table) &&
            TableOk(s'.table) && (forall a :: a in s.table ==> a in s'.table && s'.table[a] == s.table[a])
  {
    assert ThreadOk(s, s.threads[i]);
    hide LockOrder, SlotsOk, CopiesOk, RecordOk, TableOk, Ready;
    TableGrows(s.table, Order(s.threads[i])[s.threads[i].pc.sec.k]);
  }

  lemma {:induction false} LookupQuiet(s: System, i: nat)
    requires CanStep(s, i) && s.threads[i].pc.Inside? && s.threads[i].pc.sec.Lookup?
    ensures Quiet(s, Advanced(s, i), i)
  {
    LookupThreadOk(s, i);
    LookupTable(s, i);
    hide LockOrder, ThreadOk, TableOk, Ready;
    ApartKept(s, i, Advanced(s, i).threads[i]);
  }

  lemma {:induction false} SlotSetSnoc(slots: seq<nat>, k: nat)
    requires |slots| == k + 1
    ensures SlotSet(slots) == SlotSet(slots[..k]) + {slots[k]}
  {
    assert slots == slots[..k] + [slots[k]];
  }

  lemma {:induction false} AcquireQuiet(s: System, i: nat)
    requires CanStep(s, i) && s.threads[i].pc.AcquireAccount?
    ensures Quiet(s, Advanced(s, i), i)
  {
    hide ApplySpan, LockOrder;
    var t := s.threads[i];
    var k := t.pc.k;
    var pc' := if k + 1 < |Order(t)| then Enter(Lookup(k + 1)) else Enter(Load);
    var t' := t.(holding := t.holding + {t.slots[k]}, pc := pc');
    assert ThreadOk(s, t) && Order(t') == Order(t) && Intent(t') == Intent(t);
    SlotSetSnoc(t.slots, k);
    assert LocksShape(t') && DataShape(t') && SlotsOk(s.table, t');
    assert CopiesOk(s.accounts, t') && RecordOk(s.journal, s.fence, t');
    ApartOthers(s, i);
    assert ApartFromOthers(s, i, t');
    assert Advanced(s, i) == With(s, i, t');
  }

  lemma {:induction false} ReleaseQuiet(s: System, i: nat, slot: nat)
    requires StoreOk(s) && ThreadsOk(s) && Enabled(s, Release(i, slot))
    ensures Quiet(s, Do(s, Release(i, slot)), i)
  {
    hide ApplySpan, LockOrder;
    var t := s.threads[i];
    var t' := t.(holding := t.holding - {slot});
    assert ThreadOk(s, t) && Order(t') == Order(t) && Intent(t') == Intent(t);
    assert LocksShape(t') && DataShape(t') && SlotsOk(s.table, t');
    assert CopiesOk(s.accounts, t') && RecordOk(s.journal, s.fence, t');
    ApartKept(s, i, t');
  }

  lemma {:induction false} LoadQuiet(s: System, i: nat)
    requires CanStep(s, i) && s.threads[i].pc.Inside? && s.threads[i].pc.sec == Load
    ensures Quiet(s, Advanced(s, i), i)
  {
    hide ApplySpan, LockOrder;
    var t := s.threads[i];
    var t' := DoLoad(s, i, t.pc.j).threads[i];
    assert ThreadOk(s, t) && Order(t') == Order(t) && Intent(t') == Intent(t);
    assert LocksShape(t') && DataShape(t') && SlotsOk(s.table, t');
    assert Current(s.accounts, Order(t'), t'.loaded);
    assert CopiesOk(s.accounts, t') && RecordOk(s.journal, s.fence, t');
    ApartKept(s, i, t');
    assert Advanced(s, i) == With(s, i, t');
  }

  lemma {:induction false} ValidateQuiet(s: System, i: nat)
    requires CanStep(s, i) && s.threads[i].pc == Validating
    ensures Quiet(s, Advanced(s, i), i)
  {
    hide ApplySpan, LockOrder, Validate;
    var t := s.threads[i];
    var t' := if Validate(t.txn, t.loaded) then t.(pc := Enter(Append))
              else t.(pc := Enter(Audit), result := Some(false));
    assert ThreadOk(s, t) && Order(t') == Order(t) && Intent(t') == Intent(t);
    assert LocksShape(t') && DataShape(t') && SlotsOk(s.table, t');
    assert CopiesOk(s.accounts, t') && RecordOk(s.journal, s.fence, t');
    ApartKept(s, i, t');
    assert Advanced(s, i) == With(s, i, t');
  }

  lemma {:induction false} AuditQuiet(s: System, i: nat)
    requires CanStep(s, i) && s.threads[i].pc.Inside? && s.threads[i].pc.sec == Audit
    ensures Quiet(s, Advanced(s, i), i)
  {
    hide ApplySpan, LockOrder;
    var t := s.threads[i];
    var t' := t.(pc := Unlocking, audited := true);
    assert ThreadOk(s, t) && Order(t') == Order(t) && Intent(t') == Intent(t);
    assert LocksShape(t') && DataShape(t') && SlotsOk(s.table, t');
    assert CopiesOk(s.accounts, t') && RecordOk(s.journal, s.fence, t');
    ApartKept(s, i, t');
  }

  lemma {:induction false} UnlockedQuiet(s: System, i: nat)
    requires CanStep(s, i) && s.threads[i].pc == Unlocking
    ensures Quiet(s, Advanced(s, i), i)
  {
    hide ApplySpan, LockOrder;
    var t := s.threads[i];
    var t' := t.(pc := if t.audited then Finished else Enter(Audit));
    assert ThreadOk(s, t) && Order(t') == Order(t) && Intent(t') == Intent(t);
    assert LocksShape(t') && DataShape(t') && SlotsOk(s.table, t');
    assert CopiesOk(s.accounts, t') && RecordOk(s.journal, s.fence, t');
    ApartKept(s, i, t');
    assert Advanced(s, i) == With(s, i, t');
  }

  // The loaded copies are distinct accounts, in lock order.
  lemma {:induction false} CopiesDistinct(accounts: Table, t: Thread)
    requires WellKeyed(accounts) && Current(accounts, Order(t), t.loaded)
    ensures DistinctIds(t.loaded)
    ensures forall k :: 0 <= k < |t.loaded| ==> t.loaded[k].id == Order(t)[k]
  {
    OrderIsInvolved(t);
  }

  lemma {:induction false} AppliedCopies(accounts: Table, t: Thread)
    requires WellKeyed(accounts) && Current(accounts, Order(t), t.loaded) && |t.loaded| == |Order(t)|
    requires ApplySpan(t.txn, t.loaded).thrown.None?
    ensures Replacing(accounts, Order(t), t.loaded, ApplySpan(t.txn, t.loaded).span, 0)
  {
    CopiesDistinct(accounts, t);
    ApplyMovesEach(t.txn, t.loaded);
    hide ApplySpan, LockOrder;
    var span := ApplySpan(t.txn, t.loaded).span;
    forall k | 0 <= k < |t.loaded| ensures span[k].id == t.loaded[k].id {
      assert Moved(t.txn, t.loaded[k]) == Ok(span[k]);
      MovedKeepsId(t.txn, t.loaded[k]);
    }
  }

  lemma {:induction false} ApplyQuiet(s: System, i: nat)
    requires CanStep(s, i) && s.threads[i].pc == Applying
    ensures Quiet(s, Advanced(s, i), i)
  {
    hide LockOrder, Validate, ApplySpan;
    var t := s.threads[i];
    var t' := Advanced(s, i).threads[i];
    assert ThreadOk(s, t) && Order(t') == Order(t) && Intent(t') == Intent(t);
    if ApplySpan(t.txn, t.loaded).thrown.None? { AppliedCopies(s.accounts, t); }
    assert LocksShape(t') && DataShape(t') && SlotsOk(s.table, t');
    assert CopiesOk(s.accounts, t') && RecordOk(s.journal, s.fence, t');
    ApartKept(s, i, t');
  }

  // ----- the journal append -----

  lemma {:induction false} EntryAppend(journal: seq<JEntry>, e: JEntry, id: uint64)
    ensures EntryOf(journal + [e], id) ==
              if EntryOf(journal, id) < |journal| then EntryOf(journal, id)
              else if e.record.id == id then |journal| else |journal| + 1
  {
    var j' := journal + [e];
    var x, y := EntryOf(journal, id), EntryOf(j', id);
    assert x < |journal| ==> j'[x] == journal[x];
    assert y < |journal| ==> journal[y] == j'[y];
    assert j'[|journal|] == e;
  }

  lemma {:induction false} IntentTxn(t: Thread)
    ensures Materialize(Intent(t)) == Ok(t.txn) && TxnOf(Intent(t)) == t.txn
    ensures TxnOf(Intent(t).(state := Committed)) == t.txn
  {
  }

  // Another call's append does not disturb a thread's record.
  lemma {:induction false} RecordAppended(journal: seq<JEntry>, fence: nat, u: Thread, e: JEntry)
    requires RecordOk(journal, fence, u) && e.record.id != u.id
    requires 6 <= Stage(u.pc) <= 10 ==> Involved(u.txn) !! Involved(TxnOf(e.record))
    ensures RecordOk(journal + [e], fence, u)
  {
    EntryAppend(journal, e, u.id);
    var j' := journal + [e];
    assert forall y :: 0 <= y < |journal| ==> j'[y] == journal[y];
    assert j'[|journal|] == e;
  }

  lemma {:induction false} CommittedAppended(journal: seq<JEntry>, e: JEntry)
    ensures CommittedTxns(journal + [e]) ==
              CommittedTxns(journal) + (if e.state == Committed then [TxnOf(e.record)] else [])
  {
    assert (journal + [e])[..|journal|] == journal;
  }

  lemma {:induction false} IntentGood(s: System, t: Thread)
    requires StoreOk(s) && ThreadOk(s, t) && 3 <= Stage(t.pc) <= 6
    ensures GoodRecord(s.accounts, Intent(t))
  {
    IntentTxn(t);
    OrderIsInvolved(t);
    forall a | a in Involved(t.txn) ensures a in s.accounts {
      var k :| 0 <= k < |Order(t)| && Order(t)[k] == a;
    }
  }

  // Everything a step of thread i leaves alone.
  ghost predicate Frame(s: System, s': System, i: nat) {
    i < |s.threads| == |s'.threads| && s'.threads == s.threads[i := s'.threads[i]] &&
    s'.nextId == s.nextId && s'.issued == s.issued && s'.table == s.table &&
    s'.snapshots == s.snapshots && s'.base == s.base && s'.fence == s.fence
  }

  ghost predicate AppendShape(s: System, s': System, i: nat) {
    Frame(s, s', i) && s'.threads[i] == s.threads[i].(pc := Applying) &&
    s'.journal == s.journal + [JEntry(Intent(s.threads[i]), Validated)] &&
    s'.accounts == s.accounts && s'.saved == s.saved && s'.ledger == s.ledger
  }

  lemma {:induction false} AppendThreads(s: System, s': System, i: nat)
    requires StoreOk(s) && ThreadsOk(s) && AppendShape(s, s', i) && s.fence <= |s.journal|
    requires s.threads[i].pc.Inside? && s.threads[i].pc.sec == Append
    ensures ThreadsOk(s') && SamePending(s.threads[i], s'.threads[i]) && SameOutcome(s.threads[i], s'.threads[i])
  {
    hide ApplySpan, LockOrder, Run;
    var t := s.threads[i];
    var e := JEntry(Intent(t), Validated);
    var t' := s'.threads[i];
    IntentTxn(t);
    ApartOthers(s, i);
    assert ThreadOk(s, t) && Order(t') == Order(t) && Intent(t') == Intent(t);
    forall v | 0 <= v < |s.threads| && v != i
      ensures s'.threads[v] == s.threads[v] && ThreadOk(s', s.threads[v])
    {
      assert ThreadOk(s, s.threads[v]) && Apart(t, s.threads[v]);
      if 6 <= Stage(s.threads[v].pc) <= 10 { CriticalDisjoint(s, i, v); }
      RecordAppended(s.journal, s.fence, s.threads[v], e);
    }
    EntryAppend(s.journal, e, t.id);
    assert LocksShape(t') && DataShape(t') && SlotsOk(s.table, t');
    assert CopiesOk(s.accounts, t') && RecordOk(s'.journal, s.fence, t');
    ApartKept(s, i, t');
    ReplaceThread(s, s', i);
  }

  lemma {:induction false} StoreFrame(s: System, s': System)
    requires StoreOk(s) && s'.accounts == s.accounts && s'.table == s.table
    requires s'.nextId == s.nextId && s'.issued == s.issued
    ensures StoreOk(s')
  {
  }

  lemma {:induction false} JournalFrame(s: System, s': System)
    requires JournalOk(s) && s'.journal == s.journal && s'.accounts.Keys == s.accounts.Keys
    requires s'.nextId == s.nextId && s'.issued == s.issued
    ensures JournalOk(s')
  {
    forall x | 0 <= x < |s.journal| ensures GoodRecord(s'.accounts, s'.journal[x].record) {
      assert GoodRecord(s.accounts, s.journal[x].record);
    }
  }

  lemma {:induction false} SnapshotsFrame(origin: Table, s: System, s': System)
    requires SnapshotsOk(origin, s) && s'.snapshots == s.snapshots && s'.fence == s.fence
    requires s.fence <= |s'.journal| && s'.journal[..s.fence] == s.journal[..s.fence]
    ensures SnapshotsOk(origin, s')
  {
    forall k | 0 <= k < |s.snapshots| ensures SnapshotOk(origin, s'.journal, s'.fence, s'.snapshots[k]) {
      var lsn := s.snapshots[k].lsn;
      assert SnapshotOk(origin, s.journal, s.fence, s.snapshots[k]);
      assert s'.journal[..lsn] == s'.journal[..s.fence][..lsn] == s.journal[..lsn];
    }
  }

  lemma {:induction false} AppendJournalOk(s: System, s': System, i: nat)
    requires StoreOk(s) && ThreadsOk(s) && JournalOk(s) && AppendShape(s, s', i)
    requires s.threads[i].pc.Inside? && s.threads[i].pc.sec == Append
    ensures JournalOk(s')
  {
    var t := s.threads[i];
    assert ThreadOk(s, t);
    IntentGood(s, t);
    assert EntryOf(s.journal, t.id) == |s.journal|;
    hide ApplySpan, LockOrder, ThreadsOk, ThreadOk, GoodRecord, StoreOk;
    var e := JEntry(Intent(t), Validated);
    forall x | 0 <= x < |s'.journal|
      ensures GoodRecord(s'.accounts, s'.journal[x].record) && s'.journal[x].state in {Validated, Committed} &&
              s'.journal[x].record.id < s'.nextId && s'.journal[x].record.id !in s'.issued
    {
      assert x < |s.journal| ==> s'.journal[x] == s.journal[x];
    }
    forall x, y | 0 <= x < y < |s'.journal| ensures s'.journal[x].record.id != s'.journal[y].record.id {
      assert s'.journal[x] == s.journal[x];
      assert y < |s.journal| ==> s'.journal[y] == s.journal[y];
    }
  }

  // An order is kept when the accounts, its transactions and its pending calls
  // stay the same.
  lemma {:induction false} SerialFrame(start: Table, txns: seq<Transaction>, s: System, s': System, i: nat, w: Order3)
    requires SerialOk(start, txns, s, w) && i < |s.threads| == |s'.threads|
    requires s'.threads == s.threads[i := s'.threads[i]] && s'.accounts == s.accounts
    requires SamePendingFor(w, s.threads[i], s'.threads[i])
    ensures SerialOk(start, txns, s', w)
  {
    hide Run;
    ShadowsFrame(Run(start, txns).value, s.accounts, s.threads, i, s'.threads[i], w);
  }

  lemma {:induction false} OrdersFrame(origin: Table, s: System, s': System, i: nat)
    requires OrdersOk(origin, s) && i < |s.threads| == |s'.threads| && s'.threads == s.threads[i := s'.threads[i]]
    requires s'.accounts == s.accounts && s'.base == s.base && s'.saved == s.saved && s'.ledger == s.ledger
    requires CommittedTxns(s'.journal) == CommittedTxns(s.journal)
    requires SamePending(s.threads[i], s'.threads[i])
    ensures OrdersOk(origin, s')
  {
    hide SerialOk;
    SerialFrame(s.base, Txns(s.saved), s, s', i, BySave);
    SerialFrame(origin, CommittedTxns(s.journal), s, s', i, ByCommit);
    SerialFrame(s.base, Txns(s.ledger), s, s', i, ByLedger);
  }

  lemma {:induction false} AppendKeeps(origin: Table, s: System, s': System, i: nat)
    requires Inv(origin, s) && AppendShape(s, s', i)
    requires s.threads[i].pc.Inside? && s.threads[i].pc.sec == Append
    ensures Inv(origin, s')
  {
    AppendThreads(s, s', i);
    AppendJournalOk(s, s', i);
    AppendCommitted(s, s', i);
    hide ThreadsOk, JournalOk, SamePending, SameOutcome, Intent, OrdersOk, OutcomesOk, StoreOk, SnapshotsOk;
    hide CommittedTxns, LockOrder;
    OrdersFrame(origin, s, s', i);
    SnapshotsFrame(origin, s, s');
    StoreFrame(s, s');
    OutcomesFrame(s, s', i);
  }

  lemma {:induction false} AppendCommitted(s: System, s': System, i: nat)
    requires AppendShape(s, s', i) && s.fence <= |s.journal|
    ensures CommittedTxns(s'.journal) == CommittedTxns(s.journal)
    ensures s.fence <= |s'.journal| && s'.journal[..s.fence] == s.journal[..s.fence]
  {
    hide CommittedTxns, Intent;
    CommittedAppended(s.journal, JEntry(Intent(s.threads[i]), Validated));
  }

  // ----- becoming and ceasing to be pending -----

  ghost predicate PendingApart(threads: seq<Thread>, i: nat, w: Order3)
    requires i < |threads|
  {
    forall u :: 0 <= u < |threads| && u != i && Pending3(w, threads[u]) ==>
      Involved(threads[u].txn) !! Involved(threads[i].txn)
  }

  lemma {:induction false} PendingIsApart(s: System, i: nat, w: Order3)
    requires ThreadsOk(s) && i < |s.threads| && Critical(s.threads[i])
    ensures PendingApart(s.threads, i, w)
  {
    forall u | 0 <= u < |s.threads| && u != i && Pending3(w, s.threads[u])
      ensures Involved(s.threads[u].txn) !! Involved(s.threads[i].txn)
    {
      CriticalDisjoint(s, u, i);
    }
  }

  // A call about to save its first account: the order has its accounts as stored.
  lemma {:induction false} ShadowsEnter(r: Table, accounts: Table, threads: seq<Thread>, i: nat, t: Thread, w: Order3)
    requires i < |threads| && Shadows(r, accounts, threads, w) && PendingApart(threads, i, w)
    requires !Pending3(w, threads[i]) && t.txn == threads[i].txn
    requires Current(accounts, Order(t), t.original)
    ensures Shadows(r, accounts, threads[i := t], w)
  {
    hide LockOrder;
    var threads' := threads[i := t];
    OrderIsInvolved(t);
    forall k | 0 <= k < |t.original| ensures Order(t)[k] in r && r[Order(t)[k]] == t.original[k] {
      var a := Order(t)[k];
      assert a in Involved(t.txn);
      assert !TouchedByPending(threads, w, a);
    }
    forall a | a in r && r[a] != accounts[a] ensures TouchedByPending(threads', w, a) {
      var u :| 0 <= u < |threads| && Pending3(w, threads[u]) && a in Involved(threads[u].txn);
      assert threads'[u] == threads[u];
    }
    forall u | 0 <= u < |threads'| && Pending3(w, threads'[u])
      ensures Current(r, Order(threads'[u]), threads'[u].original)
    {
      if u != i { assert threads'[u] == threads[u]; }
    }
  }

  // A pending call saves one of its accounts.
  lemma {:induction false} ShadowsWrite(r: Table, accounts: Table, threads: seq<Thread>, i: nat, a: uint64,
                                        x: AccountState, w: Order3)
    requires i < |threads| && Shadows(r, accounts, threads, w) && Pending3(w, threads[i])
    requires a in Involved(threads[i].txn) && a in accounts
    ensures Shadows(r, accounts[a := x], threads, w)
  {
    var accounts' := accounts[a := x];
    assert accounts'.Keys == accounts.Keys;
    forall b | b in r && r[b] != accounts'[b] ensures TouchedByPending(threads, w, b) {
      if b != a { assert accounts'[b] == accounts[b]; }
    }
  }

  // The pending call is counted: its effect is one more transaction of the order.
  lemma {:induction false} OriginalsCover(r: Table, t: Thread)
    requires Current(r, Order(t), t.original) && |t.original| == |Order(t)|
    requires forall k :: 0 <= k < |Order(t)| ==> t.original[k].id == Order(t)[k]
    ensures Covers(t.original, r, t.txn)
  {
    OrderIsInvolved(t);
    hide LockOrder;
    forall a | a in Involved(t.txn) && a in r
      ensures exists k :: 0 <= k < |t.original| && t.original[k].id == a
    {
      var k :| 0 <= k < |Order(t)| && Order(t)[k] == a;
      assert t.original[k].id == a;
    }
  }

  lemma {:induction false} PostOfCall(r: Table, t: Thread)
    requires WellKeyed(r) && Current(r, Order(t), t.original)
    requires |t.original| == |t.loaded| == |Order(t)|
    requires ApplySpan(t.txn, t.original) == Outcome(t.loaded, None)
    requires forall k :: 0 <= k < |Order(t)| ==> t.original[k].id == Order(t)[k] && t.loaded[k].id == Order(t)[k]
    ensures Post(r, t.txn).Some?
    ensures var r' := Post(r, t.txn).value;
            r'.Keys == r.Keys && WellKeyed(r') && Current(r', Order(t), t.loaded) &&
            forall a :: a in r && a !in Involved(t.txn) ==> r'[a] == r[a]
  {
    OrderIsInvolved(t);
    OriginalsCover(r, t);
    hide LockOrder, ApplySpan, Covers;
    LocalViewRefinesTable(t.txn, t.original, r);
    ToTableLookup(t.loaded);
    if Delta(r, t.txn).Some? { DeltaShape(r, t.txn); }
    hide Delta;
    var r' := Post(r, t.txn).value;
    assert r' == r + ToTable(t.loaded);
    forall k | 0 <= k < |t.loaded| ensures Order(t)[k] in r' && r'[Order(t)[k]] == t.loaded[k] {
      assert t.loaded[k].id == Order(t)[k];
    }
  }

  // All the accounts of the call are stored as apply left them.
  ghost predicate SavedAll(accounts: Table, t: Thread) {
    ApplySpan(t.txn, t.original) == Outcome(t.loaded, None) &&
    Replacing(accounts, Order(t), t.original, t.loaded, |t.loaded|)
  }

  // What a call leaves stored is what posting its transaction makes of its accounts.
  lemma {:induction false} LeavesPosted(r: Table, accounts: Table, t: Thread)
    requires WellKeyed(r) && r.Keys == accounts.Keys && Current(r, Order(t), t.original) && SavedAll(accounts, t)
    ensures Post(r, t.txn).Some?
    ensures var r' := Post(r, t.txn).value;
            r'.Keys == r.Keys && WellKeyed(r') &&
            (forall a :: a in Involved(t.txn) ==> a in r' && a in accounts && r'[a] == accounts[a]) &&
            (forall a :: a in r && a !in Involved(t.txn) ==> r'[a] == r[a])
  {
    PostOfCall(r, t);
    hide LockOrder, ApplySpan, Post;
    var r' := Post(r, t.txn).value;
    OrderIsInvolved(t);
    forall a | a in Involved(t.txn) ensures a in r' && a in accounts && r'[a] == accounts[a] {
      var k :| 0 <= k < |Order(t)| && Order(t)[k] == a;
      assert r'[Order(t)[k]] == t.loaded[k];
    }
  }

  // Copies of accounts that are not changed stay current.
  lemma {:induction false} StaysCurrent(r: Table, r': Table, s: set<uint64>, t: Thread)
    requires Current(r, Order(t), t.original) && Involved(t.txn) !! s
    requires r'.Keys == r.Keys && forall a :: a in r && a !in s ==> r'[a] == r[a]
    ensures Current(r', Order(t), t.original)
  {
    OrderIsInvolved(t);
    hide LockOrder;
  }

  lemma {:induction false} ShadowsLeave(r: Table, accounts: Table, threads: seq<Thread>, i: nat, t': Thread, w: Order3)
    requires i < |threads| && Shadows(r, accounts, threads, w) && PendingApart(threads, i, w)
    requires Pending3(w, threads[i]) && !Pending3(w, t') && t'.txn == threads[i].txn
    requires SavedAll(accounts, threads[i])
    ensures Post(r, t'.txn).Some? && Shadows(Post(r, t'.txn).value, accounts, threads[i := t'], w)
  {
    var t := threads[i];
    hide LockOrder, ApplySpan, Post, Current, SavedAll, Stage;
    LeavesPosted(r, accounts, t);
    var r' := Post(r, t.txn).value;
    var threads' := threads[i := t'];
    forall a | a in r' && r'[a] != accounts[a] ensures TouchedByPending(threads', w, a) {
      assert a !in Involved(t.txn);
      var u :| 0 <= u < |threads| && Pending3(w, threads[u]) && a in Involved(threads[u].txn);
      assert threads'[u] == threads[u];
    }
    forall u | 0 <= u < |threads'| && Pending3(w, threads'[u])
      ensures Current(r', Order(threads'[u]), threads'[u].original)
    {
      assert u != i && threads'[u] == threads[u];
      StaysCurrent(r, r', Involved(t.txn), threads[u]);
    }
  }

  // The same three moves for an order as a whole.
  lemma {:induction false} SerialEnter(start: Table, txns: seq<Transaction>, s: System, s': System, i: nat, w: Order3)
    requires SerialOk(start, txns, s, w) && ThreadsOk(s) && i < |s.threads| == |s'.threads|
    requires s'.threads == s.threads[i := s'.threads[i]] && s'.accounts == s.accounts
    requires Critical(s.threads[i]) && !Pending3(w, s.threads[i]) && s'.threads[i].txn == s.threads[i].txn
    requires Current(s.accounts, Order(s'.threads[i]), s'.threads[i].original)
    ensures SerialOk(start, txns, s', w)
  {
    PendingIsApart(s, i, w);
    hide Run, ThreadsOk, LockOrder, Stage, Shadows, PendingApart;
    ShadowsEnter(Run(start, txns).value, s.accounts, s.threads, i, s'.threads[i], w);
  }

  lemma {:induction false} SerialLeave(start: Table, txns: seq<Transaction>, txns': seq<Transaction>,
                                       s: System, s': System, i: nat, w: Order3)
    requires SerialOk(start, txns, s, w) && i < |s.threads| == |s'.threads| && PendingApart(s.threads, i, w)
    requires s'.threads == s.threads[i := s'.threads[i]] && s'.accounts == s.accounts
    requires Pending3(w, s.threads[i]) && !Pending3(w, s'.threads[i]) && s'.threads[i].txn == s.threads[i].txn
    requires SavedAll(s.accounts, s.threads[i])
    requires Run(start, txns') == Then(Run(start, txns), s.threads[i].txn)
    ensures SerialOk(start, txns', s', w)
  {
    hide Run, LockOrder, Stage, Shadows, PendingApart, SavedAll;
    ShadowsLeave(Run(start, txns).value, s.accounts, s.threads, i, s'.threads[i], w);
  }
}
