// Calls starting, snapshots, crashes and recovery keep the invariant; hence it
// holds in every state of every run.

module EngineRuns {
  import opened Basics
  import opened Domain
  import opened SerialBank
  import opened Journal
  import opened Engine
  import opened EngineInvariant
  import opened EngineSteps
  import opened EngineEffects

  // ----- starting calls -----

  lemma {:induction false} IssueThreads(s: System)
    requires ThreadsOk(s) && s.nextId < TWO_63
    ensures ThreadsOk(Do(s, Issue))
  {
    hide ApplySpan, LockOrder;
    var s' := Do(s, Issue);
    forall u | 0 <= u < |s.threads| ensures ThreadOk(s', s.threads[u]) {
      assert ThreadOk(s, s.threads[u]);
    }
  }

  lemma {:induction false} IssueKeeps(origin: Table, s: System)
    requires Inv(origin, s) && s.nextId < TWO_63
    ensures Inv(origin, Do(s, Issue))
  {
    var s' := Do(s, Issue);
    IssueThreads(s);
    assert JournalOk(s') by { hide GoodRecord; }
    assert StoreOk(s');
    hide ApplySpan, LockOrder, Run, ThreadsOk, JournalOk, StoreOk, SnapshotsOk, Shadows;
    SameOutcomes(s, s');
    SameOrders(origin, s, s');
    SnapshotsFrame(origin, s, s');
  }

  lemma {:induction false} NoEntry(journal: seq<JEntry>, id: uint64)
    requires forall x :: 0 <= x < |journal| ==> journal[x].record.id != id
    ensures EntryOf(journal, id) == |journal|
  {
  }

  lemma {:induction false} SpawnThreads(s: System, id: uint64, txn: Transaction, now: int64)
    requires StoreOk(s) && JournalOk(s) && ThreadsOk(s) && Enabled(s, Spawn(id, txn, now))
    ensures ThreadsOk(Do(s, Spawn(id, txn, now)))
  {
    hide ApplySpan, LockOrder, GoodRecord;
    var s' := Do(s, Spawn(id, txn, now));
    var t := NewThread(txn, id, now);
    NoEntry(s.journal, id);
    OrderIsInvolved(t);
    assert ThreadOk(s', t);
    forall u | 0 <= u < |s.threads| ensures ThreadOk(s', s.threads[u]) && Apart(s.threads[u], t) {
      assert ThreadOk(s, s.threads[u]);
    }
    forall u, v | 0 <= u < v < |s'.threads| ensures Apart(s'.threads[u], s'.threads[v]) {
      assert s'.threads[u] == s.threads[u];
      assert v < |s.threads| ==> Apart(s.threads[u], s.threads[v]);
    }
  }

  lemma {:induction false} SpawnSerial(start: Table, txns: seq<Transaction>, s: System, s': System, t: Thread, w: Order3)
    requires SerialOk(start, txns, s, w) && s'.threads == s.threads + [t] && s'.accounts == s.accounts
    requires !Pending3(w, t)
    ensures SerialOk(start, txns, s', w)
  {
    hide Run, LockOrder, Stage;
    var r := Run(start, txns).value;
    forall a | a in r && r[a] != s.accounts[a] ensures TouchedByPending(s'.threads, w, a) {
      var u :| 0 <= u < |s.threads| && Pending3(w, s.threads[u]) && a in Involved(s.threads[u].txn);
      assert s'.threads[u] == s.threads[u];
    }
    forall u | 0 <= u < |s'.threads| && Pending3(w, s'.threads[u])
      ensures Current(r, Order(s'.threads[u]), s'.threads[u].original)
    {
      assert u < |s.threads| && s'.threads[u] == s.threads[u];
    }
  }

  lemma {:induction false} SpawnOutcomes(s: System, id: uint64, txn: Transaction, now: int64)
    requires OutcomesOk(s) && Enabled(s, Spawn(id, txn, now))
    ensures OutcomesOk(Do(s, Spawn(id, txn, now)))
  {
    var s' := Do(s, Spawn(id, txn, now));
    forall u | 0 <= u < |s'.threads| ensures OutcomeOk(s', s'.threads[u]) {
      if u < |s.threads| { assert OutcomeOk(s, s.threads[u]); }
    }
  }

  lemma {:induction false} SpawnKeeps(origin: Table, s: System, id: uint64, txn: Transaction, now: int64)
    requires Inv(origin, s) && Enabled(s, Spawn(id, txn, now))
    ensures Inv(origin, Do(s, Spawn(id, txn, now)))
  {
    var s' := Do(s, Spawn(id, txn, now));
    var t := NewThread(txn, id, now);
    SpawnThreads(s, id, txn, now);
    SpawnOutcomes(s, id, txn, now);
    assert StoreOk(s');
    assert JournalOk(s') by { hide GoodRecord; }
    hide ApplySpan, LockOrder, Run, ThreadsOk, JournalOk, OutcomesOk, StoreOk, SerialOk;
    SpawnSerial(s.base, Txns(s.saved), s, s', t, BySave);
    SpawnSerial(origin, CommittedTxns(s.journal), s, s', t, ByCommit);
    SpawnSerial(s.base, Txns(s.ledger), s, s', t, ByLedger);
    SnapshotsFrame(origin, s, s');
  }

  // ----- snapshots -----

  // With nothing pending an order ends in the stored table itself.
  lemma {:induction false} NothingPending(start: Table, txns: seq<Transaction>, s: System, w: Order3)
    requires SerialOk(start, txns, s, w)
    requires forall u :: 0 <= u < |s.threads| ==> !Pending3(w, s.threads[u])
    ensures Run(start, txns) == Some(s.accounts)
  {
    hide Run, Stage;
    var r := Run(start, txns).value;
    forall a | a in r ensures r[a] == s.accounts[a] {
      assert !TouchedByPending(s.threads, w, a);
    }
    assert r == s.accounts;
  }

  lemma {:induction false} FinishedNotPending(s: System, w: Order3)
    requires AllFinished(s)
    ensures forall u :: 0 <= u < |s.threads| ==> !Pending3(w, s.threads[u])
  {
  }

  lemma {:induction false} CheckpointThreads(s: System, s': System)
    requires ThreadsOk(s) && AllFinished(s) && s' == s.(snapshots := s'.snapshots, fence := s'.fence)
    ensures ThreadsOk(s')
  {
    hide ApplySpan, LockOrder;
    forall u | 0 <= u < |s.threads| ensures ThreadOk(s', s.threads[u]) {
      assert ThreadOk(s, s.threads[u]);
    }
  }

  lemma {:induction false} CheckpointSnapshots(origin: Table, s: System, s': System)
    requires SnapshotsOk(origin, s) && Run(origin, CommittedTxns(s.journal)) == Some(s.accounts)
    requires s'.snapshots == s.snapshots + [Snapshot(|s.journal|, s.accounts)]
    requires s'.journal == s.journal && s'.fence == |s.journal|
    ensures SnapshotsOk(origin, s')
  {
    hide Run;
    assert s.journal[..|s.journal|] == s.journal;
    hide CommittedTxns;
    forall k | 0 <= k < |s'.snapshots| ensures SnapshotOk(origin, s'.journal, s'.fence, s'.snapshots[k]) {
      if k < |s.snapshots| { assert SnapshotOk(origin, s.journal, s.fence, s.snapshots[k]); }
    }
  }

  lemma {:induction false} CheckpointKeeps(origin: Table, s: System)
    requires Inv(origin, s) && AllFinished(s)
    ensures Inv(origin, Do(s, Checkpoint))
  {
    hide ApplySpan, LockOrder, Run, ThreadsOk, StoreOk, JournalOk, SnapshotsOk, GoodRecord;
    hide SerialOk, OutcomesOk, Pending3, AllFinished;
    var s' := Do(s, Checkpoint);
    FinishedNotPending(s, ByCommit);
    NothingPending(origin, CommittedTxns(s.journal), s, ByCommit);
    CheckpointThreads(s, s');
    CheckpointSnapshots(origin, s, s');
    StoreFrame(s, s');
    JournalFrame(s, s');
    SameOrders(origin, s, s');
    SameOutcomes(s, s');
  }

  lemma {:induction false} SameOrders(origin: Table, s: System, s': System)
    requires OrdersOk(origin, s) && s' == s.(snapshots := s'.snapshots, fence := s'.fence, nextId := s'.nextId, issued := s'.issued)
    ensures OrdersOk(origin, s')
  {
    hide Run, Shadows;
  }

  lemma {:induction false} SameOutcomes(s: System, s': System)
    requires OutcomesOk(s) && s'.threads == s.threads && s'.saved == s.saved && s'.ledger == s.ledger
    requires forall id: uint64 :: id >= s'.nextId || id in s'.issued ==> id >= s.nextId || id in s.issued
    ensures OutcomesOk(s')
  {
    forall u | 0 <= u < |s.threads| ensures OutcomeOk(s', s.threads[u]) {
      assert OutcomeOk(s, s.threads[u]);
    }
  }

  // ----- recovery -----

  ghost predicate Readable(journal: seq<JEntry>) {
    forall x :: 0 <= x < |journal| ==> Materialize(journal[x].record).Ok?
  }

  lemma {:induction false} ReplayOne(m: Table, records: seq<TransactionRecord>, r: TransactionRecord)
    requires Materialize(r).Ok?
    ensures Replay(m, records + [r]) ==
              if r.state == Committed then Then(Replay(m, records), TxnOf(r)) else Replay(m, records)
  {
    hide Materialize, Post;
    assert (records + [r])[..|records|] == records;
  }

  lemma {:induction false} ReplaySnoc(m: Table, j: seq<JEntry>, e: JEntry)
    requires Materialize(e.record).Ok?
    ensures Replay(m, Read(j + [e])) ==
              if e.state == Committed then Then(Replay(m, Read(j)), TxnOf(e.record)) else Replay(m, Read(j))
  {
    var r := e.record.(state := e.state);
    assert Materialize(r) == Materialize(e.record);
    assert (j + [e])[..|j|] == j;
    assert Read(j + [e]) == Read(j) + [r];
    ReplayOne(m, Read(j), r);
  }

  lemma {:induction false} RunCommittedSnoc(m: Table, j: seq<JEntry>, e: JEntry)
    ensures Run(m, CommittedTxns(j + [e])) ==
              if e.state == Committed then Then(Run(m, CommittedTxns(j)), TxnOf(e.record))
              else Run(m, CommittedTxns(j))
  {
    hide Run, Then, TxnOf;
    CommittedAppended(j, e);
    if e.state == Committed {
      RunSnoc(m, CommittedTxns(j), TxnOf(e.record));
    } else {
      assert CommittedTxns(j) + [] == CommittedTxns(j);
    }
  }

  // Replaying what a journal reads as is running its committed transactions.
  lemma {:induction false} ReplayIsRun(m: Table, journal: seq<JEntry>)
    requires Readable(journal)
    ensures Replay(m, Read(journal)) == Run(m, CommittedTxns(journal))
    decreases |journal|
  {
    if journal != [] {
      var n := |journal| - 1;
      hide Run, Replay, Materialize, Then, TxnOf, CommittedTxns;
      assert journal == journal[..n] + [journal[n]];
      ReplayIsRun(m, journal[..n]);
      ReplaySnoc(m, journal[..n], journal[n]);
      RunCommittedSnoc(m, journal[..n], journal[n]);
    }
  }

  // From any snapshot, recovery yields the table of all committed transactions in
  // journal order.
  lemma {:induction false} RecoverIsRun(origin: Table, s: System, k: nat)
    requires JournalOk(s) && SnapshotsOk(origin, s) && k < |s.snapshots|
    ensures Recover(s.snapshots[k], s.journal) == Run(origin, CommittedTxns(s.journal))
  {
    var snap := s.snapshots[k];
    assert SnapshotOk(origin, s.journal, s.fence, snap);
    hide Run;
    var a, b := s.journal[..snap.lsn], s.journal[snap.lsn..];
    assert s.journal == a + b;
    CommittedConcat(a, b);
    RunConcat(origin, CommittedTxns(a), CommittedTxns(b));
    forall x | 0 <= x < |b| ensures Materialize(b[x].record).Ok? {
      assert b[x] == s.journal[snap.lsn + x];
      assert GoodRecord(s.accounts, s.journal[snap.lsn + x].record);
    }
    ReplayIsRun(snap.accounts, b);
    if snap.lsn >= |s.journal| {
      assert a == s.journal;
    }
  }

  lemma {:induction false} MaxIdOk(s: System)
    requires JournalOk(s) && StoreOk(s)
    ensures MaxId(s.journal) < TWO_63
  {
    MaxIdAttained(s.journal);
    if s.journal != [] && MaxId(s.journal) > 0 {
      var x :| 0 <= x < |s.journal| && s.journal[x].record.id == MaxId(s.journal);
      assert GoodRecord(s.accounts, s.journal[x].record);
    }
  }

  lemma {:induction false} MaxIdAttained(journal: seq<JEntry>)
    ensures MaxId(journal) == 0 || exists x :: 0 <= x < |journal| && journal[x].record.id == MaxId(journal)
    decreases |journal|
  {
    if journal != [] {
      var n := |journal| - 1;
      MaxIdAttained(journal[..n]);
      if journal[n].record.id <= MaxId(journal[..n]) && MaxId(journal) != 0 {
        var x :| 0 <= x < n && journal[..n][x].record.id == MaxId(journal[..n]);
        assert journal[x].record.id == MaxId(journal);
      }
    }
  }

  // Recovery never throws, so a crashed bank can always restart.
  lemma {:induction false} RestartEnabled(origin: Table, s: System, k: nat)
    requires Inv(origin, s) && k < |s.snapshots|
    ensures Enabled(s, Restart(k))
  {
    RecoverIsRun(origin, s, k);
    MaxIdOk(s);
  }

  lemma {:induction false} RestartStore(origin: Table, s: System, m: Table)
    requires StoreOk(s) && OrdersOk(origin, s) && Run(origin, CommittedTxns(s.journal)) == Some(m)
    ensures m.Keys == s.accounts.Keys && WellKeyed(m)
  {
    hide Run;
  }

  lemma {:induction false} RestartJournal(s: System, s': System)
    requires JournalOk(s) && s'.journal == s.journal && s'.accounts.Keys == s.accounts.Keys
    requires s'.issued == {} && s'.nextId == MaxId(s.journal) + 1
    ensures JournalOk(s')
  {
    forall x | 0 <= x < |s.journal| ensures GoodRecord(s'.accounts, s'.journal[x].record) {
      assert GoodRecord(s.accounts, s.journal[x].record);
    }
  }

  lemma {:induction false} RestartSnapshots(origin: Table, s: System, s': System)
    requires SnapshotsOk(origin, s) && s'.journal == s.journal && s'.snapshots == s.snapshots
    requires s'.fence == |s.journal|
    ensures SnapshotsOk(origin, s')
  {
    hide Run, CommittedTxns;
    forall k | 0 <= k < |s'.snapshots| ensures SnapshotOk(origin, s'.journal, s'.fence, s'.snapshots[k]) {
      assert SnapshotOk(origin, s.journal, s.fence, s.snapshots[k]);
    }
  }

  lemma {:induction false} FreshOrders(origin: Table, s': System)
    requires s'.threads == [] && s'.saved == [] && s'.ledger == [] && s'.base == s'.accounts
    requires WellKeyed(s'.accounts) && Run(origin, CommittedTxns(s'.journal)) == Some(s'.accounts)
    ensures OrdersOk(origin, s')
  {
    assert Run(s'.accounts, []) == Some(s'.accounts);
    hide Run;
  }

  ghost predicate RestartShape(s: System, s': System) {
    s'.journal == s.journal && s'.snapshots == s.snapshots && s'.fence == |s.journal| &&
    s'.nextId == MaxId(s.journal) + 1 && s'.issued == {} && s'.table == map[] && s'.threads == [] &&
    s'.base == s'.accounts && s'.saved == [] && s'.ledger == []
  }

  lemma {:induction false} RestartEmpty(s: System, s': System)
    requires StoreOk(s) && RestartShape(s, s') && s'.accounts.Keys == s.accounts.Keys && WellKeyed(s'.accounts)
    requires MaxId(s.journal) < TWO_63
    ensures StoreOk(s') && ThreadsOk(s') && OutcomesOk(s')
  {
  }

  lemma {:induction false} RestartHasShape(s: System, k: nat)
    requires Enabled(s, Restart(k))
    ensures RestartShape(s, Do(s, Restart(k)))
    ensures Recover(s.snapshots[k], s.journal) == Some(Do(s, Restart(k)).accounts)
    ensures MaxId(s.journal) < TWO_63
  {
    hide Recover;
  }

  lemma {:induction false} RestartKeeps(origin: Table, s: System, k: nat)
    requires Inv(origin, s) && Enabled(s, Restart(k))
    ensures Inv(origin, Do(s, Restart(k)))
  {
    RecoverIsRun(origin, s, k);
    var s' := Do(s, Restart(k));
    RestartHasShape(s, k);
    hide Run, Recover, Do, Enabled, RestartShape, ThreadsOk, StoreOk, JournalOk, OrdersOk, SnapshotsOk, OutcomesOk, CommittedTxns;
    RestartStore(origin, s, s'.accounts);
    RestartJournal(s, s');
    RestartSnapshots(origin, s, s');
    FreshOrders(origin, s');
    RestartEmpty(s, s');
  }

  // ----- every step -----

  predicate Effectful(pc: Pc) {
    pc == Enter(Save) || (pc.Inside? && pc.sec in {Append, Save, Commit, Ledger})
  }

  // The steps with an effect on shared data have the shape their proofs assume.
  lemma {:induction false} EnterSaveHasShape(s: System, i: nat)
    requires CanStep(s, i) && s.threads[i].pc == Enter(Save)
    ensures EnterSaveShape(s, Advanced(s, i), i)
  {
    hide ApplySpan, LockOrder, StoreOk, Intent;
    assert ThreadOk(s, s.threads[i]);
  }

  lemma {:induction false} AppendHasShape(s: System, i: nat)
    requires CanStep(s, i) && s.threads[i].pc.Inside? && s.threads[i].pc.sec == Append
    ensures AppendShape(s, Advanced(s, i), i)
  {
    hide ApplySpan, LockOrder, StoreOk, Intent;
    assert ThreadOk(s, s.threads[i]);
  }

  lemma {:induction false} SaveHasShape(s: System, i: nat)
    requires CanStep(s, i) && s.threads[i].pc.Inside? && s.threads[i].pc.sec == Save
    ensures SaveShape(s, Advanced(s, i), i, s.threads[i].pc.j)
  {
    hide ApplySpan, LockOrder, StoreOk, Intent;
    assert ThreadOk(s, s.threads[i]);
  }

  lemma {:induction false} CommitHasShape(s: System, i: nat)
    requires CanStep(s, i) && s.threads[i].pc.Inside? && s.threads[i].pc.sec == Commit
    ensures CommitShape(s, Advanced(s, i), i, EntryOf(s.journal, s.threads[i].id))
  {
    hide ApplySpan, LockOrder, StoreOk, Intent;
    assert ThreadOk(s, s.threads[i]);
  }

  lemma {:induction false} LedgerHasShape(s: System, i: nat)
    requires CanStep(s, i) && s.threads[i].pc.Inside? && s.threads[i].pc.sec == Ledger
    ensures LedgerShape(s, Advanced(s, i), i)
  {
    hide ApplySpan, LockOrder, StoreOk, Intent;
    assert ThreadOk(s, s.threads[i]);
  }

  lemma {:induction false} AdvanceEffect(origin: Table, s: System, i: nat)
    requires Inv(origin, s) && i < |s.threads| && CanStep(s, i) && Effectful(s.threads[i].pc)
    ensures Inv(origin, Advanced(s, i))
  {
    hide Inv, StoreOk, ThreadsOk, Advanced, EnterSaveShape, AppendShape, SaveShape, CommitShape, LedgerShape;
    var t := s.threads[i];
    var s' := Advanced(s, i);
    if t.pc == Enter(Save) {
      EnterSaveHasShape(s, i);
      EnterSaveKeeps(origin, s, s', i);
    } else if t.pc.sec == Append {
      AppendHasShape(s, i);
      AppendKeeps(origin, s, s', i);
    } else if t.pc.sec == Save {
      SaveHasShape(s, i);
      SaveKeeps(origin, s, s', i, t.pc.j);
    } else if t.pc.sec == Commit {
      CommitHasShape(s, i);
      CommitKeeps(origin, s, s', i, EntryOf(s.journal, t.id));
    } else {
      LedgerHasShape(s, i);
      LedgerKeeps(origin, s, s', i);
    }
  }

  lemma {:induction false} AdvanceQuiet(s: System, i: nat)
    requires CanStep(s, i) && !Effectful(s.threads[i].pc)
    ensures Quiet(s, Advanced(s, i), i)
  {
    hide StoreOk, ThreadsOk, Quiet, Advanced;
    match s.threads[i].pc {
      case Enter(_) => EnterQuiet(s, i);
      case Inside(sec, _) =>
        if sec.Lookup? { LookupQuiet(s, i); }
        else if sec == Load { LoadQuiet(s, i); }
        else { AuditQuiet(s, i); }
      case AcquireAccount(_) => AcquireQuiet(s, i);
      case Validating => ValidateQuiet(s, i);
      case Applying => ApplyQuiet(s, i);
      case Unlocking => UnlockedQuiet(s, i);
      case Finished =>
    }
  }

  lemma {:induction false} AdvanceKeeps(origin: Table, s: System, i: nat)
    requires Inv(origin, s) && Enabled(s, Advance(i))
    ensures Inv(origin, Do(s, Advance(i)))
  {
    assert CanStep(s, i);
    hide Inv, CanStep, Advanced, Quiet;
    if Effectful(s.threads[i].pc) {
      AdvanceEffect(origin, s, i);
    } else {
      AdvanceQuiet(s, i);
      QuietStep(origin, s, Advanced(s, i), i);
    }
  }

  lemma {:induction false} StepKeeps(origin: Table, s: System, a: Action)
    requires Inv(origin, s) && Enabled(s, a)
    ensures Inv(origin, Do(s, a))
  {
    hide Inv;
    match a {
      case Issue => IssueKeeps(origin, s);
      case Spawn(id, txn, now) => SpawnKeeps(origin, s, id, txn, now);
      case Advance(i) => AdvanceKeeps(origin, s, i);
      case Release(i, slot) => ReleaseKeeps(origin, s, i, slot);
      case Checkpoint => CheckpointKeeps(origin, s);
      case Restart(k) => RestartKeeps(origin, s, k);
    }
  }

  lemma {:induction false} ReleaseKeeps(origin: Table, s: System, i: nat, slot: nat)
    requires Inv(origin, s) && Enabled(s, Release(i, slot))
    ensures Inv(origin, Do(s, Release(i, slot)))
  {
    ReleaseQuiet(s, i, slot);
    QuietStep(origin, s, Do(s, Release(i, slot)), i);
  }

  lemma {:induction false} InitInv(s: System)
    requires Init(s)
    ensures Inv(s.accounts, s)
  {
    assert Run(s.accounts, []) == Some(s.accounts);
  }

  // The invariant holds throughout every run, whatever the interleaving, however
  // many snapshots, crashes and restarts.
  lemma {:induction false} InvAlways(run: seq<System>, actions: seq<Action>, n: nat)
    requires IsRun(run, actions) && n < |run|
    ensures Inv(run[0].accounts, run[n])
    decreases n
  {
    hide Inv, Do, Enabled;
    if n == 0 {
      InitInv(run[0]);
    } else {
      InvAlways(run, actions, n - 1);
      StepKeeps(run[0].accounts, run[n - 1], actions[n - 1]);
    }
  }
}
