// The three parts together: whatever the calls have done and wherever the process
// dies, the bytes left on disk recover to the committed transactions.

module EndToEnd {
  import opened Basics
  import opened Domain
  import opened SerialBank
  import opened Codec
  import opened Wal
  import opened Journal
  import opened Engine
  import opened EngineInvariant
  import opened EngineSteps
  import opened EngineRuns
  import opened EngineTheorems
  import opened SnapshotFile
  import opened Recovery

  // Every record process_impl journals survives its encoding.
  lemma {:induction false} GoodIsEncodable(accounts: Table, r: TransactionRecord)
    requires GoodRecord(accounts, r) && forall a :: a in accounts ==> a < TWO_63
    ensures Encodable(r)
  {
    var t := TxnOf(r);
    if r.from.Some? { assert r.from.value in Involved(t); }
    if r.to.Some? { assert r.to.value in Involved(t); }
  }

  lemma {:induction false} JournalEncodable(s: System)
    requires StoreOk(s) && JournalOk(s)
    ensures AllEncodable(s.journal)
  {
    hide Encodable, GoodRecord;
    forall i | 0 <= i < |s.journal| ensures Encodable(s.journal[i].record) {
      GoodIsEncodable(s.accounts, s.journal[i].record);
    }
  }

  lemma {:induction false} SnapshotKeyed(origin: Table, s: System, k: nat)
    requires SnapshotsOk(origin, s) && k < |s.snapshots| && WellKeyed(origin)
    ensures s.snapshots[k].lsn <= |s.journal| && WellKeyed(s.snapshots[k].accounts)
  {
    hide Run, CommittedTxns, SameBut;
    assert SnapshotOk(origin, s.journal, s.fence, s.snapshots[k]);
    RunKeyed(origin, CommittedTxns(s.journal[..s.snapshots[k].lsn]));
  }

  lemma {:induction false} RunKeyed(m: Table, ts: seq<Transaction>)
    requires WellKeyed(m) && Run(m, ts).Some?
    ensures WellKeyed(Run(m, ts).value)
  {
    RunKeeps(m, ts);
  }

  // The accounts recovered from the two files, when recovery does not throw.
  function Recovered(snapshotText: bytes, journalBytes: bytes): Option<Table> {
    match RecoverBytes(snapshotText, journalBytes)
    case None => None
    case Some(o) => if o.thrown.Some? then None else Some(ToTable(o.span))
  }

  // The committed transactions in journal order, on the first accounts; and the
  // live table on every account whose mutex nobody holds.
  ghost predicate ExactlyRestores(r: Option<Table>, origin: Table, s: System) {
    r.Some? && r == Run(origin, CommittedTxns(s.journal)) && r.value.Keys == s.accounts.Keys &&
    forall a :: a in s.accounts && Unlocked(s, a) ==> r.value[a] == s.accounts[a]
  }

  // What recovery from the bytes amounts to: exact restoration if the snapshot
  // file can hold the snapshot, and a refusal to load it if not.
  ghost predicate RestoresIfStorable(r: Option<Table>, snapshot: Snapshot, origin: Table, s: System) {
    if Storable(snapshot) then ExactlyRestores(r, origin, s) else r == None
  }

  // The journal never has more records than there are ids.
  lemma {:induction false} LsnFits(origin: Table, s: System, k: nat)
    requires Inv(origin, s) && k < |s.snapshots|
    ensures s.snapshots[k].lsn <= |s.journal| < TWO_64
  {
    hide ThreadsOk, OrdersOk, OutcomesOk;
    assert SnapshotOk(origin, s.journal, s.fence, s.snapshots[k]);
    hide SnapshotOk, Run, CommittedTxns;
    JournalIds(s.journal);
    Pigeonhole(IdsOf(s.journal), TWO_63);
  }

  function IdsOf(j: seq<JEntry>): set<int> {
    if j == [] then {} else IdsOf(j[..|j| - 1]) + {j[|j| - 1].record.id as int}
  }

  lemma {:induction false} JournalIds(j: seq<JEntry>)
    requires forall x, y :: 0 <= x < y < |j| ==> j[x].record.id != j[y].record.id
    ensures |IdsOf(j)| == |j|
    ensures forall id :: id in IdsOf(j) ==> exists x :: 0 <= x < |j| && j[x].record.id == id
    decreases |j|
  {
    if j == [] {
    } else {
      var n := |j| - 1;
      JournalIds(j[..n]);
      forall id | id in IdsOf(j) ensures exists x :: 0 <= x < |j| && j[x].record.id == id {
        if id in IdsOf(j[..n]) {
          var x :| 0 <= x < n && j[..n][x].record.id == id;
          assert j[x].record.id == id;
        } else {
          assert j[n].record.id == id;
        }
      }
    }
  }

  lemma {:induction false} Pigeonhole(ids: set<int>, n: nat)
    requires forall id :: id in ids ==> 0 <= id < n
    ensures |ids| <= n
    decreases n
  {
    if n == 0 {
      forall id: int ensures id !in ids {}
      assert ids == {};
    } else {
      Pigeonhole(ids - {n - 1}, n - 1);
    }
  }

  // At any instant of any run, with any snapshot taken so far on disk as the
  // snapshot store wrote it, and the journal on disk with any torn fragment behind
  // it, recovery from the bytes restores exactly, or refuses a snapshot the file
  // format cannot hold.
  lemma {:induction false} BytesRestore(run: seq<System>, actions: seq<Action>, n: nat, k: nat, torn: bytes)
    requires IsRun(run, actions) && n < |run| && k < |run[n].snapshots| && NoNewline(torn)
    ensures run[n].snapshots[k].lsn < TWO_64
    ensures RestoresIfStorable(
              Recovered(SnapshotText(Stored(run[n].snapshots[k])), Image(run[n].journal) + torn),
              run[n].snapshots[k], run[0].accounts, run[n])
  {
    hide Inv, IsRun, Run, Recover, Unlocked, CommittedTxns, RecoverBytes, Image, SnapshotText, Storable, ToTable;
    var s := run[n];
    InvAlways(run, actions, n);
    InvAlways(run, actions, 0);
    Disk(run[0].accounts, s, k);
    LsnFits(run[0].accounts, s, k);
    KeysOk(run[0].accounts, run[0]);
    ExactRecovery(run, actions, n, k);
    BytesRecover(s.snapshots[k], s.journal, torn);
  }

  lemma {:induction false} Disk(origin: Table, s: System, k: nat)
    requires Inv(origin, s) && k < |s.snapshots|
    ensures AllEncodable(s.journal)
    ensures WellKeyed(origin) ==> s.snapshots[k].lsn <= |s.journal| && WellKeyed(s.snapshots[k].accounts)
  {
    hide StoreOk, JournalOk, ThreadsOk, OrdersOk, SnapshotsOk, OutcomesOk;
    JournalEncodable(s);
    if WellKeyed(origin) { SnapshotKeyed(origin, s, k); }
  }

  // A crash in the middle of a journal append, after m of its bytes: recovery does
  // not see the call, whose accounts come back as they were before it.
  lemma {:induction false} CrashInAppend(run: seq<System>, actions: seq<Action>, n: nat, k: nat, i: nat, m: nat)
    requires IsRun(run, actions) && n < |run| && k < |run[n].snapshots|
    requires i < |run[n].threads| && run[n].threads[i].pc == Inside(Append, 0)
    requires m <= |AppendedLine(run[n].threads[i])|
    ensures run[n].snapshots[k].lsn < TWO_64
    ensures RestoresIfStorable(
              Recovered(SnapshotText(Stored(run[n].snapshots[k])),
                        Image(run[n].journal) + AppendedLine(run[n].threads[i])[..m]),
              run[n].snapshots[k], run[0].accounts, run[n])
  {
    hide Inv, Run, Unlocked, CommittedTxns, Recovered, Image, SnapshotText, Intent, SerializeTransaction;
    hide ExactlyRestores, Advanced, Do, Enabled, AppendedLine, Storable;
    var s := run[n];
    var t := s.threads[i];
    LineIsOfEntry(t);
    InterruptedAppend(JEntry(Intent(t), Validated), m);
    if m < |AppendedLine(t)| {
      BytesRestore(run, actions, n, k, AppendedLine(t)[..m]);
    } else {
      var later, steps := AppendDone(run, actions, n, i);
      BytesRestore(later, steps, n + 1, k, []);
      WholeLine(s.journal, t);
      assert AppendedLine(t)[..m] == AppendedLine(t);
      if Storable(s.snapshots[k]) {
        SameRestored(Recovered(SnapshotText(Stored(s.snapshots[k])), Image(later[n + 1].journal) + []),
                     run[0].accounts, s, later[n + 1], i);
      }
    }
  }

  function AppendedLine(t: Thread): bytes {
    Line(t.id, Validated, SerializeTransaction(Intent(t)))
  }

  lemma {:induction false} LineIsOfEntry(t: Thread)
    ensures AppendedLine(t) == Line(Intent(t).id, Validated, SerializeTransaction(Intent(t)))
  {
  }

  lemma {:induction false} WholeLine(j: seq<JEntry>, t: Thread)
    ensures Image(j + [JEntry(Intent(t), Validated)]) + [] == Image(j) + AppendedLine(t)
  {
    hide Line, SerializeTransaction;
    assert (j + [JEntry(Intent(t), Validated)])[..|j|] == j;
  }

  // The run in which the append completes.
  lemma {:induction false} AppendDone(run: seq<System>, actions: seq<Action>, n: nat, i: nat)
      returns (later: seq<System>, steps: seq<Action>)
    requires IsRun(run, actions) && n < |run| && i < |run[n].threads| && run[n].threads[i].pc == Inside(Append, 0)
    ensures IsRun(later, steps) && |steps| == n + 1 && later[0] == run[0]
    ensures later[n + 1].journal == run[n].journal + [JEntry(Intent(run[n].threads[i]), Validated)]
    ensures later[n + 1].snapshots == run[n].snapshots && later[n + 1].accounts == run[n].accounts
    ensures later[n + 1].table == run[n].table
    ensures later[n + 1].threads == run[n].threads[i := run[n].threads[i].(pc := Applying)]
  {
    hide Intent;
    assert Enabled(run[n], Advance(i));
    later, steps := run[..n + 1] + [Do(run[n], Advance(i))], actions[..n] + [Advance(i)];
    AppendRuns(run, actions, n, i);
  }

  lemma {:induction false} AppendRuns(run: seq<System>, actions: seq<Action>, n: nat, i: nat)
    requires IsRun(run, actions) && n < |run| && Enabled(run[n], Advance(i))
    ensures IsRun(run[..n + 1] + [Do(run[n], Advance(i))], actions[..n] + [Advance(i)])
  {
    hide Do, Enabled;
  }

  // Appending an intent changes neither what is committed nor who holds what.
  lemma {:induction false} SameRestored(r: Option<Table>, origin: Table, s: System, s': System, i: nat)
    requires i < |s.threads| && ExactlyRestores(r, origin, s')
    requires s'.journal == s.journal + [JEntry(Intent(s.threads[i]), Validated)]
    requires s'.accounts == s.accounts && s'.table == s.table
    requires s'.threads == s.threads[i := s.threads[i].(pc := Applying)]
    ensures ExactlyRestores(r, origin, s)
  {
    hide Run, Intent;
    CommittedAppended(s.journal, JEntry(Intent(s.threads[i]), Validated));
    hide CommittedTxns;
    assert CommittedTxns(s.journal) + [] == CommittedTxns(s.journal);
    forall a | a in s.accounts && Unlocked(s, a) ensures Unlocked(s', a) {
      if a in s.table {
        forall u | 0 <= u < |s'.threads| ensures s.table[a] !in s'.threads[u].holding {
          assert s.table[a] !in s.threads[u].holding;
        }
      }
    }
  }
}
