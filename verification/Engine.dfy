// src/concurrency/TransactionProcessor.cpp: process_impl run by any number of
// threads at once, as a step system.
//
// Every mutex is explicit. A section guarded by one of the three leaf mutexes
// takes two or more steps: entering it, which is possible only while no thread is
// inside a section of the same mutex, then its body, one loop iteration a step;
// the last iteration leaves the section. Account mutexes are held across steps.

module Engine {
  import opened Basics
  import opened Domain
  import opened SerialBank
  import opened Journal

  datatype Section = Lookup(k: nat) | Load | Append | Save | Commit | Ledger | Audit

  datatype Leaf = MapMutex | WalMutex | ReposMutex

  function LeafOf(sec: Section): Leaf {
    match sec
    case Lookup(_) => MapMutex
    case Append => WalMutex
    case Commit => WalMutex
    case _ => ReposMutex
  }

  datatype Pc =
    | Enter(sec: Section)             // about to lock the section's mutex
    | Inside(sec: Section, j: nat)    // holding it, j iterations done
    | AcquireAccount(k: nat)          // about to lock the k-th account mutex
    | Validating
    | Applying
    | Unlocking
    | Finished

  // One call of process_impl. `original` remembers the copies as they were
  // loaded; the code itself only has `loaded`, which apply overwrites.
  datatype Thread = Thread(
    txn: Transaction, id: uint64, now: int64, pc: Pc,
    slots: seq<nat>, holding: set<nat>,
    loaded: seq<AccountState>, original: seq<AccountState>,
    result: Option<bool>, audited: bool)

  datatype Snapshot = Snapshot(lsn: nat, accounts: Table)

  // The shared state: repositories, journal, id counter, lock table, threads, and
  // the snapshots on disk. The last three fields are history: the accounts at the
  // last restart, the saves since then, and the journal length at the last
  // restart or snapshot.
  datatype System = System(
    accounts: Table, journal: seq<JEntry>, ledger: seq<TransactionRecord>, audit: seq<bool>,
    nextId: uint64, issued: set<uint64>, table: map<uint64, nat>, threads: seq<Thread>,
    snapshots: seq<Snapshot>,
    base: Table, saved: seq<TransactionRecord>, fence: nat)

  function NewThread(txn: Transaction, id: uint64, now: int64): Thread {
    Thread(txn, id, now, Enter(Lookup(0)), [], {}, [], [], None, false)
  }

  function Order(t: Thread): seq<uint64> {
    LockOrder(t.txn)
  }

  // The record process_impl journals: projected, then marked Validated.
  function Intent(t: Thread): TransactionRecord {
    Project(t.id, t.txn, t.now).(state := Validated)
  }

  // The first journal entry with the id, or the journal's length.
  function EntryOf(journal: seq<JEntry>, id: uint64): (x: nat)
    ensures x <= |journal|
    ensures x < |journal| ==> journal[x].record.id == id
    ensures forall y :: 0 <= y < x ==> journal[y].record.id != id
  {
    FirstIndex(journal, (e: JEntry) => e.record.id == id)
  }

  function MaxId(journal: seq<JEntry>): (m: uint64)
    ensures forall i :: 0 <= i < |journal| ==> journal[i].record.id <= m
  {
    if journal == [] then 0 else
    var m := MaxId(journal[..|journal| - 1]);
    var id := journal[|journal| - 1].record.id;
    if id > m then id else m
  }

  // ----- recovery: replay the Committed records onto a snapshot -----

  function Replay(m: Table, records: seq<TransactionRecord>): Option<Table> {
    if records == [] then Some(m) else
    var r := records[|records| - 1];
    match Replay(m, records[..|records| - 1])
    case None => None
    case Some(m') =>
      if r.state != Committed then Some(m') else
      match Materialize(r)
      case Throw(_) => None
      case Ok(t) => Post(m', t)
  }

  function Recover(snapshot: Snapshot, journal: seq<JEntry>): Option<Table> {
    if snapshot.lsn >= |journal| then Some(snapshot.accounts)
    else Replay(snapshot.accounts, Read(journal[snapshot.lsn..]))
  }

  // ----- steps -----

  datatype Action =
    | Issue                                             // submit or process_one takes the next id
    | Spawn(id: uint64, txn: Transaction, now: int64)   // a call starts with an id taken before
    | Advance(i: nat)
    | Release(i: nat, slot: nat)
    | Checkpoint
    | Restart(k: nat)                                   // crash, then recovery from snapshot k

  ghost predicate LeafFree(threads: seq<Thread>, leaf: Leaf) {
    forall u :: 0 <= u < |threads| ==> !(threads[u].pc.Inside? && LeafOf(threads[u].pc.sec) == leaf)
  }

  ghost predicate SlotFree(threads: seq<Thread>, slot: nat) {
    forall u :: 0 <= u < |threads| ==> slot !in threads[u].holding
  }

  ghost predicate Ready(s: System, t: Thread) {
    match t.pc
    case Enter(sec) => LeafFree(s.threads, LeafOf(sec))
    case Inside(Lookup(k), _) => k < |Order(t)|
    case Inside(Load, j) => j < |Order(t)|
    case Inside(Save, j) => j < |t.loaded|
    case Inside(_, _) => true
    case AcquireAccount(k) => k < |t.slots| && SlotFree(s.threads, t.slots[k])
    case Validating => true
    case Applying => true
    case Unlocking => t.holding == {}
    case Finished => false
  }

  ghost predicate Enabled(s: System, a: Action) {
    match a
    case Issue => s.nextId < TWO_63
    case Spawn(id, _, now) => id in s.issued && now > INT64_MIN
    case Advance(i) => i < |s.threads| && Ready(s, s.threads[i])
    case Release(i, slot) => i < |s.threads| && s.threads[i].pc == Unlocking && slot in s.threads[i].holding
    case Checkpoint => AllFinished(s)
    case Restart(k) => k < |s.snapshots| && Recover(s.snapshots[k], s.journal).Some?
                       && MaxId(s.journal) < TWO_63
  }

  ghost predicate AllFinished(s: System) {
    forall u :: 0 <= u < |s.threads| ==> s.threads[u].pc == Finished
  }

  ghost function Do(s: System, a: Action): System
    requires Enabled(s, a)
  {
    match a
    case Issue => s.(nextId := s.nextId + 1, issued := s.issued + {s.nextId})
    case Spawn(id, txn, now) => s.(issued := s.issued - {id}, threads := s.threads + [NewThread(txn, id, now)])
    case Advance(i) => Advanced(s, i)
    case Release(i, slot) =>
      var t := s.threads[i];
      With(s, i, t.(holding := t.holding - {slot}))
    case Checkpoint =>
      s.(snapshots := s.snapshots + [Snapshot(|s.journal|, s.accounts)], fence := |s.journal|)
    case Restart(k) =>
      var m := Recover(s.snapshots[k], s.journal).value;
      System(m, s.journal, [], [], MaxId(s.journal) + 1, {}, map[], [], s.snapshots, m, [], |s.journal|)
  }

  function With(s: System, i: nat, t: Thread): System
    requires i < |s.threads|
  {
    s.(threads := s.threads[i := t])
  }

  ghost function Advanced(s: System, i: nat): System
    requires i < |s.threads| && Ready(s, s.threads[i])
  {
    var t := s.threads[i];
    match t.pc
    case Enter(sec) => With(s, i, t.(pc := Inside(sec, 0)))
    case Inside(Lookup(k), _) => DoLookup(s, i, k)
    case Inside(Load, j) => DoLoad(s, i, j)
    case Inside(Append, _) =>
      With(s, i, t.(pc := Applying)).(journal := s.journal + [JEntry(Intent(t), Validated)])
    case Inside(Save, j) => DoSave(s, i, j)
    case Inside(Commit, _) => DoCommit(s, i)
    case Inside(Ledger, _) =>
      With(s, i, t.(pc := Enter(Audit), result := Some(true)))
        .(ledger := s.ledger + [Intent(t).(state := Committed)])
    case Inside(Audit, _) =>
      With(s, i, t.(pc := Unlocking, audited := true)).(audit := s.audit + [t.result == Some(true)])
    case AcquireAccount(k) =>
      With(s, i, t.(holding := t.holding + {t.slots[k]},
                    pc := if k + 1 < |Order(t)| then Enter(Lookup(k + 1)) else Enter(Load)))
    case Validating =>
      With(s, i, if Validate(t.txn, t.loaded) then t.(pc := Enter(Append))
                 else t.(pc := Enter(Audit), result := Some(false)))
    case Applying =>
      var o := ApplySpan(t.txn, t.loaded);
      With(s, i, if o.thrown.None? then t.(pc := Enter(Save), loaded := o.span, original := t.loaded)
                 else t.(pc := Unlocking, loaded := o.span, original := t.loaded, result := Some(false)))
    case Unlocking =>
      With(s, i, t.(pc := if t.audited then Finished else Enter(Audit)))
    case Finished => s
  }

  // mutex_for: the slot of the account, made on first use and never replaced.
  function DoLookup(s: System, i: nat, k: nat): System
    requires i < |s.threads| && k < |Order(s.threads[i])|
  {
    var t := s.threads[i];
    var a := Order(t)[k];
    var slot := if a in s.table then s.table[a] else |s.table|;
    With(s, i, t.(pc := AcquireAccount(k), slots := t.slots + [slot])).(table := s.table[a := slot])
  }

  // find_by_id for the next account; a missing one ends the call.
  function DoLoad(s: System, i: nat, j: nat): System
    requires i < |s.threads| && j < |Order(s.threads[i])|
  {
    var t := s.threads[i];
    var a := Order(t)[j];
    if a !in s.accounts then With(s, i, t.(pc := Enter(Audit), result := Some(false))) else
    With(s, i, t.(loaded := t.loaded + [s.accounts[a]],
                  pc := if j + 1 < |Order(t)| then Inside(Load, j + 1) else Validating))
  }

  // save for the next account of the copies.
  function DoSave(s: System, i: nat, j: nat): System
    requires i < |s.threads| && j < |s.threads[i].loaded|
  {
    var t := s.threads[i];
    var a := t.loaded[j];
    if j + 1 < |t.loaded| then
      With(s, i, t.(pc := Inside(Save, j + 1))).(accounts := s.accounts[a.id := a])
    else
      With(s, i, t.(pc := Enter(Commit))).(accounts := s.accounts[a.id := a], saved := s.saved + [Intent(t)])
  }

  // mark_committed; it throws when no entry has the id.
  function DoCommit(s: System, i: nat): System
    requires i < |s.threads|
  {
    var t := s.threads[i];
    var x := EntryOf(s.journal, t.id);
    if x == |s.journal| then With(s, i, t.(pc := Unlocking, result := Some(false))) else
    With(s, i, t.(pc := Enter(Ledger))).(journal := s.journal[x := s.journal[x].(state := Committed)])
  }

  // ----- runs -----

  // A freshly provisioned bank: a first snapshot of its accounts, no journal.
  ghost predicate Init(s: System) {
    WellKeyed(s.accounts) && (forall a :: a in s.accounts ==> a < TWO_63) &&
    s == System(s.accounts, [], [], [], 1, {}, map[], [], [Snapshot(0, s.accounts)], s.accounts, [], 0)
  }

  ghost predicate IsRun(run: seq<System>, actions: seq<Action>) {
    |run| == |actions| + 1 && Init(run[0]) &&
    forall n :: 0 <= n < |actions| ==> Enabled(run[n], actions[n]) && run[n + 1] == Do(run[n], actions[n])
  }
}
