// What the steps of a call that runs alone do to the engine, and what the journal
// file has to do with its journal.

module ProcessorSteps {
  import opened Basics
  import opened Domain
  import opened SerialBank
  import opened Codec
  import opened Wal
  import opened Journal
  import opened Engine
  import opened EngineInvariant
  import opened EngineSteps
  import opened EngineRuns
  import opened EndToEnd

  // ----- engine steps of a call that runs alone -----

  ghost predicate Alone(s: System, i: nat) {
    i < |s.threads| && forall u :: 0 <= u < |s.threads| && u != i ==> s.threads[u].pc == Finished
  }

  // After a step of call i: its thread is t, the other threads are as they were.
  ghost predicate Becomes(s: System, s': System, i: nat, t: Thread) {
    i < |s.threads| && s'.threads == s.threads[i := t] && s'.nextId == s.nextId && s'.issued == s.issued
  }

  ghost predicate SameStore(s: System, s': System) {
    s'.accounts == s.accounts && s'.journal == s.journal && s'.ledger == s.ledger && s'.audit == s.audit
  }

  ghost predicate SameCounter(s: System, s': System) {
    s'.nextId == s.nextId && s'.issued == s.issued
  }

  // Call i holds the same mutexes.
  ghost predicate SameLocks(s: System, s': System, i: nat) {
    i < |s.threads| && i < |s'.threads| && s'.threads[i].slots == s.threads[i].slots &&
    s'.threads[i].holding == s.threads[i].holding
  }

  // Call i holds the mutexes of the guards, all its accounts'.
  ghost predicate Guarded(s: System, i: nat, guards: seq<nat>) {
    i < |s.threads| && s.threads[i].slots == guards && s.threads[i].holding == SlotSet(guards)
  }

  lemma {:induction false} StaysAlone(s: System, s': System, i: nat, t: Thread)
    requires Alone(s, i) && Becomes(s, s', i, t)
    ensures Alone(s', i) && s'.threads[i] == t
  {
  }

  lemma {:induction false} EnterAlone(s: System, i: nat)
    requires Alone(s, i) && s.threads[i].pc.Enter?
    ensures Enabled(s, Advance(i))
    ensures var s' := Do(s, Advance(i));
            Becomes(s, s', i, s.threads[i].(pc := Inside(s.threads[i].pc.sec, 0))) && SameStore(s, s') &&
            s'.table == s.table
  {
  }

  lemma {:induction false} LookupAlone(s: System, i: nat, k: nat, account: uint64)
    requires Alone(s, i) && s.threads[i].pc == Inside(Lookup(k), 0)
    requires k < |Order(s.threads[i])| && account == Order(s.threads[i])[k]
    ensures Enabled(s, Advance(i))
    ensures var s' := Do(s, Advance(i));
            var slot := if account in s.table then s.table[account] else |s.table|;
            Becomes(s, s', i, s.threads[i].(pc := AcquireAccount(k), slots := s.threads[i].slots + [slot])) &&
            SameStore(s, s') && s'.table == s.table[account := slot]
  {
    hide LockOrder;
  }

  lemma {:induction false} AcquireAlone(s: System, i: nat, k: nat)
    requires Alone(s, i) && ThreadsOk(s) && s.threads[i].pc == AcquireAccount(k)
    requires k < |s.threads[i].slots| && s.threads[i].slots[k] !in s.threads[i].holding
    ensures Enabled(s, Advance(i))
    ensures var s' := Do(s, Advance(i));
            var t := s.threads[i];
            Becomes(s, s', i, t.(holding := t.holding + {t.slots[k]},
                                 pc := if k + 1 < |Order(t)| then Enter(Lookup(k + 1)) else Enter(Load))) &&
            SameStore(s, s') && s'.table == s.table
  {
    hide ApplySpan, LockOrder;
    forall u | 0 <= u < |s.threads| ensures s.threads[i].slots[k] !in s.threads[u].holding {
      assert ThreadOk(s, s.threads[u]);
    }
  }

  lemma {:induction false} LoadAlone(s: System, i: nat, j: nat, account: uint64)
    requires Alone(s, i) && s.threads[i].pc == Inside(Load, j)
    requires j < |Order(s.threads[i])| && account == Order(s.threads[i])[j]
    ensures Enabled(s, Advance(i))
    ensures var s' := Do(s, Advance(i));
            var t := s.threads[i];
            Becomes(s, s', i,
              if account !in s.accounts then t.(pc := Enter(Audit), result := Some(false))
              else t.(loaded := t.loaded + [s.accounts[account]],
                      pc := if j + 1 < |Order(t)| then Inside(Load, j + 1) else Validating)) &&
            SameStore(s, s') && s'.table == s.table
  {
    hide LockOrder;
  }

  lemma {:induction false} ValidateAlone(s: System, i: nat)
    requires Alone(s, i) && s.threads[i].pc == Validating
    ensures Enabled(s, Advance(i))
    ensures var s' := Do(s, Advance(i));
            var t := s.threads[i];
            Becomes(s, s', i, if Validate(t.txn, t.loaded) then t.(pc := Enter(Append))
                              else t.(pc := Enter(Audit), result := Some(false))) &&
            SameStore(s, s') && s'.table == s.table
  {
    hide Validate, LockOrder;
  }

  lemma {:induction false} AppendAlone(s: System, i: nat)
    requires Alone(s, i) && s.threads[i].pc == Inside(Append, 0)
    ensures Enabled(s, Advance(i))
    ensures var s' := Do(s, Advance(i));
            Becomes(s, s', i, s.threads[i].(pc := Applying)) && s'.accounts == s.accounts &&
            s'.journal == s.journal + [JEntry(Intent(s.threads[i]), Validated)] &&
            s'.ledger == s.ledger && s'.audit == s.audit && s'.table == s.table
  {
    hide Intent;
  }

  lemma {:induction false} ApplyAlone(s: System, i: nat)
    requires Alone(s, i) && s.threads[i].pc == Applying
    ensures Enabled(s, Advance(i))
    ensures var s' := Do(s, Advance(i));
            var t := s.threads[i];
            var o := ApplySpan(t.txn, t.loaded);
            Becomes(s, s', i, if o.thrown.None? then t.(pc := Enter(Save), loaded := o.span, original := t.loaded)
                              else t.(pc := Unlocking, loaded := o.span, original := t.loaded, result := Some(false))) &&
            SameStore(s, s') && s'.table == s.table
  {
    hide ApplySpan, LockOrder;
  }

  lemma {:induction false} SaveAlone(s: System, i: nat, j: nat)
    requires Alone(s, i) && s.threads[i].pc == Inside(Save, j) && j < |s.threads[i].loaded|
    ensures Enabled(s, Advance(i))
    ensures var s' := Do(s, Advance(i));
            var t := s.threads[i];
            Becomes(s, s', i, t.(pc := if j + 1 < |t.loaded| then Inside(Save, j + 1) else Enter(Commit))) &&
            s'.accounts == s.accounts[t.loaded[j].id := t.loaded[j]] && s'.journal == s.journal &&
            s'.ledger == s.ledger && s'.audit == s.audit && s'.table == s.table
  {
    hide Intent;
  }

  lemma {:induction false} CommitAlone(s: System, i: nat)
    requires Alone(s, i) && s.threads[i].pc == Inside(Commit, 0) && EntryOf(s.journal, s.threads[i].id) < |s.journal|
    ensures Enabled(s, Advance(i))
    ensures var s' := Do(s, Advance(i));
            Becomes(s, s', i, s.threads[i].(pc := Enter(Ledger))) &&
            s'.journal == Flipped(s.journal, EntryOf(s.journal, s.threads[i].id)) &&
            s'.accounts == s.accounts && s'.ledger == s.ledger && s'.audit == s.audit && s'.table == s.table
  {
    hide EntryOf;
  }

  lemma {:induction false} LedgerAlone(s: System, i: nat)
    requires Alone(s, i) && s.threads[i].pc == Inside(Ledger, 0)
    ensures Enabled(s, Advance(i))
    ensures var s' := Do(s, Advance(i));
            Becomes(s, s', i, s.threads[i].(pc := Enter(Audit), result := Some(true))) &&
            s'.ledger == s.ledger + [Intent(s.threads[i]).(state := Committed)] &&
            s'.accounts == s.accounts && s'.journal == s.journal && s'.audit == s.audit && s'.table == s.table
  {
    hide Intent;
  }

  lemma {:induction false} AuditAlone(s: System, i: nat)
    requires Alone(s, i) && s.threads[i].pc == Inside(Audit, 0)
    ensures Enabled(s, Advance(i))
    ensures var s' := Do(s, Advance(i));
            Becomes(s, s', i, s.threads[i].(pc := Unlocking, audited := true)) &&
            s'.audit == s.audit + [s.threads[i].result == Some(true)] &&
            s'.accounts == s.accounts && s'.journal == s.journal && s'.ledger == s.ledger && s'.table == s.table
  {
  }

  lemma {:induction false} ReleaseAlone(s: System, i: nat, slot: nat)
    requires Alone(s, i) && s.threads[i].pc == Unlocking && slot in s.threads[i].holding
    ensures Enabled(s, Release(i, slot))
    ensures var s' := Do(s, Release(i, slot));
            Becomes(s, s', i, s.threads[i].(holding := s.threads[i].holding - {slot})) &&
            SameStore(s, s') && s'.table == s.table
  {
  }

  lemma {:induction false} UnlockedAlone(s: System, i: nat)
    requires Alone(s, i) && s.threads[i].pc == Unlocking && s.threads[i].holding == {}
    ensures Enabled(s, Advance(i))
    ensures var s' := Do(s, Advance(i));
            Becomes(s, s', i, s.threads[i].(pc := if s.threads[i].audited then Finished else Enter(Audit))) &&
            SameStore(s, s') && s'.table == s.table
  {
  }

  // The files and objects of the bank, seen as the shared state of the engine.
  ghost predicate OnDisk(content: bytes, journal: seq<JEntry>) {
    |Image(journal)| <= |content| && content[..|Image(journal)|] == Image(journal) &&
    NoNewline(content[|Image(journal)|..])
  }

  lemma {:induction false} OnDiskScan(content: bytes, journal: seq<JEntry>)
    requires OnDisk(content, journal)
    ensures Scan(content) == Scanned(Index(journal), |Image(journal)|)
  {
    var torn := content[|Image(journal)|..];
    assert content == Image(journal) + torn;
    TornImageScan(journal, torn);
  }

  lemma {:induction false} OnDiskAppend(content: bytes, journal: seq<JEntry>, r: TransactionRecord)
    requires OnDisk(content, journal)
    ensures OnDisk(content[..|Image(journal)|] + Line(r.id, r.state, SerializeTransaction(r)),
                   journal + [JEntry(r, r.state)])
  {
    hide SerializeTransaction, Line;
    var torn := content[|Image(journal)|..];
    assert content == Image(journal) + torn;
    AppendImage(journal, torn, r);
  }

  lemma {:induction false} OnDiskCommit(content: bytes, journal: seq<JEntry>, id: uint64)
    requires OnDisk(content, journal) && EntryOf(journal, id) < |journal|
    ensures var k := EntryOf(journal, id);
            FirstWithId(Index(journal), id) == k &&
            Index(journal)[k].offset + ID_WIDTH < |content| &&
            OnDisk(content[Index(journal)[k].offset + ID_WIDTH := StateByte(Committed)], Flipped(journal, k))
  {
    hide SerializeTransaction, Line, Flipped;
    var k := EntryOf(journal, id);
    var torn := content[|Image(journal)|..];
    assert content == Image(journal) + torn;
    CommitImage(journal, torn, id, k);
    var at := Index(journal)[k].offset + ID_WIDTH;
    var after := content[at := StateByte(Committed)];
    assert after == Image(Flipped(journal, k)) + torn;
    assert |after| == |content|;
    assert after[|Image(Flipped(journal, k))|..] == torn;
  }

  // Appending to, and committing in, the journal file.
  method AppendOnDisk(wal: WalLogger, ghost journal: seq<JEntry>, r: TransactionRecord)
    requires wal.Valid() && OnDisk(wal.file.content, journal)
    modifies wal, wal.file
    ensures wal.Valid() && OnDisk(wal.file.content, journal + [JEntry(r, r.state)])
  {
    hide OnDisk, Scan, SerializeTransaction, Line, Image;
    OnDiskScan(wal.file.content, journal);
    OnDiskAppend(wal.file.content, journal, r);
    wal.Append(r);
  }

  method CommitOnDisk(wal: WalLogger, ghost journal: seq<JEntry>, id: uint64) returns (thrown: Option<Exception>)
    requires wal.Valid() && OnDisk(wal.file.content, journal) && EntryOf(journal, id) < |journal|
    modifies wal, wal.file
    ensures wal.Valid() && OnDisk(wal.file.content, Flipped(journal, EntryOf(journal, id))) && thrown == None
  {
    hide OnDisk, Scan, Flipped, EntryOf, Index, FirstWithId;
    OnDiskScan(wal.file.content, journal);
    OnDiskCommit(wal.file.content, journal, id);
    thrown := wal.MarkCommitted(id);
  }

  lemma {:induction false} OrderNamesInvolved(txn: Transaction)
    ensures LockOrder(txn) != []
    ensures forall k :: 0 <= k < |LockOrder(txn)| ==> LockOrder(txn)[k] in Involved(txn)
  {
    OrderIsInvolved(NewThread(txn, 0, 0));
  }

  // ----- facts a call has at hand at each point -----

  lemma {:induction false} GuardsDistinct(s: System, t: Thread)
    requires TableOk(s.table) && SlotsOk(s.table, t)
    ensures forall j, k :: 0 <= j < k < |t.slots| ==> t.slots[j] != t.slots[k]
  {
    OrderIsInvolved(t);
  }

  lemma {:induction false} NotYetHeld(s: System, t: Thread, k: nat)
    requires ThreadOk(s, t) && TableOk(s.table) && t.pc == AcquireAccount(k)
    ensures k < |t.slots| == k + 1 && t.slots[k] !in t.holding && t.slots[k] < |s.table|
  {
    hide ApplySpan, LockOrder;
    GuardsDistinct(s, t);
  }

  lemma {:induction false} OnTheWay(s: System, t: Thread)
    requires ThreadOk(s, t)
    ensures t.pc == Enter(Load) ==> t.loaded == [] && t.holding == SlotSet(t.slots)
    ensures t.pc == Applying ==> !t.audited
  {
    hide CopiesOk, RecordOk, SlotsOk, LockOrder;
  }

  lemma {:induction false} ThreadOfSys(origin: Table, s: System, i: nat)
    requires Inv(origin, s) && i < |s.threads|
    ensures ThreadOk(s, s.threads[i]) && ThreadsOk(s) && TableOk(s.table)
  {
    hide JournalOk, OrdersOk, SnapshotsOk, OutcomesOk, ThreadOk;
  }

  // The record process_impl journals.
  function IntentOf(txn: Transaction, id: uint64, now: int64): (r: TransactionRecord)
    ensures r.id == id && r.state == Validated
  {
    Project(id, txn, now).(state := Validated)
  }

  lemma {:induction false} FreshId(origin: Table, s: System)
    requires Inv(origin, s)
    ensures s.nextId !in s.issued
  {
    hide JournalOk, ThreadsOk, OrdersOk, SnapshotsOk, OutcomesOk;
  }

  // ----- one transaction after the other on the table -----

  function After(m: Table, t: Transaction): Table {
    if Post(m, t).Some? then Post(m, t).value else m
  }

  function AfterAll(m: Table, ts: seq<Transaction>): Table {
    if ts == [] then m else After(AfterAll(m, ts[..|ts| - 1]), ts[|ts| - 1])
  }

  // The transactions that go through.
  function Through(m: Table, ts: seq<Transaction>): seq<Transaction> {
    if ts == [] then [] else
    var n := |ts| - 1;
    Through(m, ts[..n]) + (if Post(AfterAll(m, ts[..n]), ts[n]).Some? then [ts[n]] else [])
  }

  // One after the other, refused ones left aside, is a serial run of the others.
  lemma {:induction false} DrainIsRun(m: Table, ts: seq<Transaction>)
    ensures Run(m, Through(m, ts)) == Some(AfterAll(m, ts))
    decreases |ts|
  {
    hide Post;
    if ts != [] {
      var n := |ts| - 1;
      DrainIsRun(m, ts[..n]);
      RunSnoc(m, Through(m, ts[..n]), ts[n]);
      assert Through(m, ts[..n]) + [] == Through(m, ts[..n]);
    }
  }

  // Which of the transactions go through.
  function Verdicts(m: Table, ts: seq<Transaction>): (vs: seq<bool>)
    ensures |vs| == |ts|
  {
    if ts == [] then [] else
    Verdicts(m, ts[..|ts| - 1]) + [Post(AfterAll(m, ts[..|ts| - 1]), ts[|ts| - 1]).Some?]
  }

  // The ledger records of those that go through, each under its id and at its time.
  function LedgerOfAll(m: Table, ts: seq<Transaction>, ids: seq<uint64>, times: seq<int64>): seq<TransactionRecord>
    requires |ids| == |ts| <= |times|
  {
    if ts == [] then [] else
    var n := |ts| - 1;
    LedgerOfAll(m, ts[..n], ids[..n], times) + LedgerOf(AfterAll(m, ts[..n]), ts[n], ids[n], times[n])
  }

  // What one transaction leaves in the ledger.
  function LedgerOf(m: Table, t: Transaction, id: uint64, now: int64): seq<TransactionRecord> {
    if Post(m, t).Some? then [IntentOf(t, id, now).(state := Committed)] else []
  }

  // A vector of accounts with one more account at its end.
  method WithCopy(loaded: seq<Account>, state: AccountState) returns (longer: seq<Account>)
    requires DistinctObjects(loaded)
    ensures |longer| == |loaded| + 1 && longer == loaded + [longer[|loaded|]] && fresh(longer[|loaded|])
    ensures DistinctObjects(longer) && Views(longer) == Views(loaded) + [state]
  {
    var copy := new Account(state);
    longer := loaded + [copy];
  }

  // ----- seeding the id counter -----

  function MaxRecordId(records: seq<TransactionRecord>): uint64 {
    if records == [] then 0 else
    var m := MaxRecordId(records[..|records| - 1]);
    if records[|records| - 1].id > m then records[|records| - 1].id else m
  }

  method HighestId(ledger: seq<TransactionRecord>, loaded: seq<TransactionRecord>) returns (max: uint64)
    ensures max == if MaxRecordId(ledger) > MaxRecordId(loaded) then MaxRecordId(ledger) else MaxRecordId(loaded)
    ensures forall r :: r in ledger || r in loaded ==> r.id <= max
  {
    max := 0;
    for i := 0 to |ledger|
      invariant max == MaxRecordId(ledger[..i])
      invariant forall k :: 0 <= k < i ==> ledger[k].id <= max
    {
      assert ledger[..i + 1][..i] == ledger[..i];
      if ledger[i].id > max { max := ledger[i].id; }
    }
    assert ledger[..|ledger|] == ledger;
    ghost var fromLedger := max;
    for i := 0 to |loaded|
      invariant max == if fromLedger > MaxRecordId(loaded[..i]) then fromLedger else MaxRecordId(loaded[..i])
      invariant forall k :: 0 <= k < i ==> loaded[k].id <= max
    {
      assert loaded[..i + 1][..i] == loaded[..i];
      if loaded[i].id > max { max := loaded[i].id; }
    }
    assert loaded[..|loaded|] == loaded;
  }

  lemma {:induction false} MaxOfRead(j: seq<JEntry>)
    ensures MaxRecordId(Read(j)) == MaxId(j)
    decreases |j|
  {
    if j != [] {
      MaxOfRead(j[..|j| - 1]);
      assert Read(j)[..|j| - 1] == Read(j[..|j| - 1]);
    }
  }

  // load_all gives the records of the journal on disk, so their highest id.
  lemma {:induction false} MaxOnDisk(content: bytes, s: System)
    requires OnDisk(content, s.journal) && StoreOk(s) && JournalOk(s)
    ensures MaxRecordId(Records(Scan(content).entries)) == MaxId(s.journal) < TWO_63
  {
    hide StoreOk, JournalOk, Records;
    OnDiskScan(content, s.journal);
    JournalEncodable(s);
    ReadIndex(s.journal);
    MaxOfRead(s.journal);
    MaxIdOk(s);
  }

  lemma {:induction false} ReadIndex(j: seq<JEntry>)
    requires AllEncodable(j)
    ensures Records(Index(j)) == Read(j)
  {
    hide SerializeTransaction;
    RecordsOfIndex(Index(j), j);
  }

  lemma {:induction false} SeededMax(run: seq<System>, acts: seq<Action>, content: bytes)
    requires IsRun(run, acts) && OnDisk(content, run[|acts|].journal)
    ensures MaxRecordId(Records(Scan(content).entries)) == MaxId(run[|acts|].journal) < TWO_63
  {
    assert |acts| < |run|;
    hide IsRun, Inv, OnDisk, Scan, Records;
    InvAlways(run, acts, |acts|);
    StartedMax(run[0].accounts, run[|acts|], content);
  }

  lemma {:induction false} StartedMax(origin: Table, s: System, content: bytes)
    requires Inv(origin, s) && OnDisk(content, s.journal)
    ensures MaxRecordId(Records(Scan(content).entries)) == MaxId(s.journal) < TWO_63
  {
    hide StoreOk, JournalOk, ThreadsOk, OrdersOk, SnapshotsOk, OutcomesOk, OnDisk, MaxRecordId, Records, Scan;
    MaxOnDisk(content, s);
  }

  // A state in which a process has just started: nothing under way, nothing in
  // the ledger, the next id above every id of the journal.
  ghost predicate JustStarted(s: System) {
    s.threads == [] && s.table == map[] && s.ledger == [] && s.nextId == MaxId(s.journal) + 1
  }

  // The next id is one above the highest id of the journal, or 1 when there is none.
  lemma {:induction false} NextIdAbove(s: System)
    requires JustStarted(s)
    ensures forall x :: 0 <= x < |s.journal| ==> s.journal[x].record.id < s.nextId
    ensures s.nextId == 1 || exists x :: 0 <= x < |s.journal| && s.journal[x].record.id == s.nextId - 1
  {
    MaxIdReached(s.journal);
  }

  lemma {:induction false} MaxIdReached(journal: seq<JEntry>)
    ensures MaxId(journal) == 0 || exists x :: 0 <= x < |journal| && journal[x].record.id == MaxId(journal)
    decreases |journal|
  {
    if journal != [] {
      var n := |journal| - 1;
      MaxIdReached(journal[..n]);
      if journal[n].record.id > MaxId(journal[..n]) {
        assert journal[n].record.id == MaxId(journal);
      } else if MaxId(journal) != 0 {
        var x :| 0 <= x < n && journal[..n][x].record.id == MaxId(journal);
        assert journal[x].record.id == MaxId(journal);
      }
    }
  }

  lemma {:induction false} SlotSetLess(guards: seq<nat>, k: nat)
    requires k < |guards| && forall j, l :: 0 <= j < l < |guards| ==> guards[j] != guards[l]
    ensures guards[k] in SlotSet(guards[..k + 1])
    ensures SlotSet(guards[..k + 1]) - {guards[k]} == SlotSet(guards[..k])
  {
    assert guards[..k + 1] == guards[..k] + [guards[k]];
  }

  lemma {:induction false} LastEntry(origin: Table, s: System, i: nat)
    requires Inv(origin, s) && i < |s.threads| && 6 <= Stage(s.threads[i].pc) <= 10
    requires s.journal != [] && s.journal[|s.journal| - 1].record.id == s.threads[i].id
    ensures EntryOf(s.journal, s.threads[i].id) == |s.journal| - 1
  {
    hide StoreOk, OrdersOk, SnapshotsOk, OutcomesOk, ThreadOk, ThreadsOk, GoodRecord;
    var x := EntryOf(s.journal, s.threads[i].id);
    assert x < |s.journal|;
  }

  lemma {:induction false} IntentState(t: Thread)
    ensures Intent(t) == IntentOf(t.txn, t.id, t.now)
  {
  }

  lemma {:induction false} CopiesCover(origin: Table, s: System, i: nat)
    requires Inv(origin, s) && i < |s.threads| && s.threads[i].pc == Validating
    ensures var t := s.threads[i];
            (ApplySpan(t.txn, t.loaded).thrown.None? <==> Post(s.accounts, t.txn).Some?) && |t.loaded| > 0
  {
    hide JournalOk, OrdersOk, SnapshotsOk, OutcomesOk;
    var t := s.threads[i];
    assert ThreadOk(s, t);
    FullCopiesDecide(s.accounts, t);
  }

  lemma {:induction false} FullCopiesDecide(accounts: Table, t: Thread)
    requires WellKeyed(accounts) && Current(accounts, Order(t), t.loaded) && |t.loaded| == |Order(t)|
    ensures ApplySpan(t.txn, t.loaded).thrown.None? <==> Post(accounts, t.txn).Some?
    ensures |t.loaded| > 0
  {
    FullCopiesCover(accounts, t);
    OrderIsInvolved(t);
    hide LockOrder, ApplySpan, Post;
    LocalDecision(t.txn, t.loaded, accounts);
  }

  // What validate asks of the stored accounts.
  predicate Acceptable(m: Table, t: Transaction) {
    t.amount > 0 && (t.Transfer? ==> t.from != t.to) &&
    (match DebitAccount(t)
     case None => true
     case Some(a) => a in m && m[a].status == Active && t.amount <= m[a].balance) &&
    (match CreditAccount(t)
     case None => true
     case Some(a) => a in m && m[a].status == Active)
  }

  lemma {:induction false} AcceptableIff(m: Table, t: Transaction, span: seq<AccountState>)
    requires WellKeyed(m) && Covers(span, m, t)
    ensures Validate(t, span) <==> Acceptable(m, t)
  {
    ValidateIff(t, span);
    if DebitAccount(t).Some? { ActiveIn(m, t, span, DebitAccount(t).value); }
    if CreditAccount(t).Some? { ActiveIn(m, t, span, CreditAccount(t).value); }
    hide Validate, Covers, ActiveAt;
  }

  lemma {:induction false} ActiveIn(m: Table, t: Transaction, span: seq<AccountState>, a: uint64)
    requires Covers(span, m, t) && a in Involved(t)
    ensures a in m && m[a].status == Active ==> exists i :: ActiveAt(span, a, i)
    ensures forall i :: ActiveAt(span, a, i) ==> a in m && m[a] == span[i] && m[a].status == Active
  {
    if a in m && m[a].status == Active {
      var i :| 0 <= i < |span| && span[i].id == a;
      assert ActiveAt(span, a, i);
    }
  }

  lemma {:induction false} CopiesAcceptable(origin: Table, s: System, i: nat)
    requires Inv(origin, s) && i < |s.threads| && s.threads[i].pc == Validating
    ensures Validate(s.threads[i].txn, s.threads[i].loaded) <==> Acceptable(s.accounts, s.threads[i].txn)
  {
    hide JournalOk, OrdersOk, SnapshotsOk, OutcomesOk;
    var t := s.threads[i];
    assert ThreadOk(s, t);
    FullCopiesCover(s.accounts, t);
    AcceptableIff(s.accounts, t.txn, t.loaded);
  }

  lemma {:induction false} FullCopiesCover(accounts: Table, t: Thread)
    requires WellKeyed(accounts) && Current(accounts, Order(t), t.loaded) && |t.loaded| == |Order(t)|
    ensures Covers(t.loaded, accounts, t.txn)
  {
    CopiesDistinct(accounts, t);
    OrderIsInvolved(t);
    hide LockOrder;
    forall a | a in Involved(t.txn) && a in accounts ensures exists k :: 0 <= k < |t.loaded| && t.loaded[k].id == a {
      var k :| 0 <= k < |Order(t)| && Order(t)[k] == a;
      assert t.loaded[k].id == a;
    }
  }

  lemma {:induction false} PostNeedsAccounts(m: Table, t: Transaction)
    requires !(Involved(t) <= m.Keys)
    ensures Post(m, t).None? && !Acceptable(m, t)
  {
    if Delta(m, t).Some? { DeltaShape(m, t); }
  }

  lemma {:induction false} InvalidThrows(t: Transaction, span: seq<AccountState>)
    requires !Validate(t, span)
    ensures ApplySpan(t, span).thrown.Some?
  {
  }

  lemma {:induction false} FlippedLast(j: seq<JEntry>, r: TransactionRecord)
    ensures Flipped(j + [JEntry(r, Validated)], |j|) == j + [JEntry(r, Committed)]
  {
  }

  // A journal that has grown by one committed record runs to one transaction more.
  lemma {:induction false} CommittedLast(origin: Table, j: seq<JEntry>, r: TransactionRecord, txn: Transaction)
    requires r.state == Validated && r == IntentOf(txn, r.id, r.timestamp)
    ensures Run(origin, CommittedTxns(j + [JEntry(r, Committed)])) == Then(Run(origin, CommittedTxns(j)), txn)
  {
    hide Run, CommittedTxns, Then;
    CommittedAppended(j, JEntry(r, Committed));
    RunSnoc(origin, CommittedTxns(j), txn);
  }
}
