// src/concurrency/TransactionProcessor.cpp as the code one thread executes, while
// no other call is under way. Every action on the shared objects is paired with
// the step of the engine it is: `run` and `acts` record the engine run so far, and
// the objects always mirror its last state. So all that is proved about engine
// runs holds of the objects.

module Processor {
  import opened Basics
  import opened Domain
  import opened SerialBank
  import opened Wal
  import opened Journal
  import opened Engine
  import opened EngineInvariant
  import opened EngineRuns
  import opened EngineTheorems
  import opened EngineProgress
  import opened AccountLocks
  import opened Repositories
  import opened Queues
  import opened ProcessorSteps

  class TransactionProcessor {
    const accounts: InMemoryAccountRepository
    const ledger: InMemoryTransactionRepository
    const audit: InMemoryAuditRepository
    const wal: WalLogger
    const locks: AccountLockManager
    const queue: TransactionQueue
    const workerCount: nat
    var nextId: uint64
    var reserved: seq<uint64>
    var accepting: bool
    var pool: Option<ThreadPool>

    ghost var run: seq<System>
    ghost var acts: seq<Action>
    ghost var sys: System

    // Seeds the id counter above every id found in the ledger and the journal.
    constructor (workerCount: nat, accounts: InMemoryAccountRepository, ledger: InMemoryTransactionRepository,
                 audit: InMemoryAuditRepository, wal: WalLogger, ghost run: seq<System>, ghost acts: seq<Action>)
      requires wal.Valid() && IsRun(run, acts) && JustStarted(run[|acts|])
      requires accounts.accounts == run[|acts|].accounts && ledger.records == run[|acts|].ledger
      requires audit.entries == run[|acts|].audit && OnDisk(wal.file.content, run[|acts|].journal)
      ensures this.accounts == accounts && this.ledger == ledger && this.audit == audit && this.wal == wal
      ensures fresh(locks) && fresh(queue) && this.run == run && this.acts == acts && sys == run[|acts|]
      ensures History() && Mirrors() && AllFinished(sys) && locks.locked == {}
      ensures queue.queue == [] && !queue.closed && reserved == [] && accepting
      ensures this.workerCount == workerCount && Staffed() && pool.None?
    {
      assert |acts| < |run|;
      hide IsRun, OnDisk, Scan, Records, Inv;
      var loaded := wal.LoadAll();
      var max := HighestId(ledger.records, loaded);
      SeededMax(run, acts, wal.file.content);
      this.accounts, this.ledger, this.audit, this.wal := accounts, ledger, audit, wal;
      locks := new AccountLockManager();
      queue := new TransactionQueue();
      this.workerCount, reserved, accepting, pool := workerCount, [], true, None;
      nextId := max + 1;
      this.run, this.acts, this.sys := run, acts, run[|acts|];
    }

    // The recorded engine run, which ends in sys.
    ghost predicate History()
      reads `run, `acts, `sys
    {
      IsRun(run, acts) && run[|acts|] == sys
    }

    // The objects are the shared state of sys.
    ghost predicate Mirrors()
      reads `run, `acts, `sys, `nextId, accounts, ledger, audit, wal, wal.file, locks
    {
      accounts.accounts == sys.accounts && ledger.records == sys.ledger && audit.entries == sys.audit &&
      wal.Valid() && OnDisk(wal.file.content, sys.journal) &&
      locks.Valid() && locks.mutexes == sys.table && nextId == sys.nextId
    }

    // Call i is under way, alone, for this transaction; it holds what is locked.
    ghost predicate InCall(i: nat, txn: Transaction, id: uint64, now: int64)
      reads `run, `acts, `sys, `nextId, accounts, ledger, audit, wal, wal.file, locks
    {
      History() && Mirrors() && Alone(sys, i) && locks.locked == sys.threads[i].holding &&
      sys.threads[i].txn == txn && sys.threads[i].id == id && sys.threads[i].now == now
    }

    ghost predicate At(i: nat, pc: Pc)
      reads `sys
    {
      i < |sys.threads| && sys.threads[i].pc == pc
    }

    lemma SysInv()
      requires History()
      ensures run != [] && Inv(run[0].accounts, sys)
    {
      assert |acts| < |run|;
      hide Inv, IsRun;
      InvAlways(run, acts, |acts|);
    }

    // One step of the engine, remembered.
    ghost method Go(a: Action)
      requires History() && Enabled(sys, a)
      modifies this`run, this`acts, this`sys
      ensures History() && sys == Do(old(sys), a)
      ensures old(run) <= run && old(acts) <= acts
    {
      hide Do, Enabled;
      Extend(run, acts, a);
      sys := Do(sys, a);
      run := run + [sys];
      acts := acts + [a];
    }

    // Enters the next section of call i.
    ghost method GoEnter(i: nat, txn: Transaction, id: uint64, now: int64)
      requires InCall(i, txn, id, now) && sys.threads[i].pc.Enter?
      modifies this`run, this`acts, this`sys
      ensures InCall(i, txn, id, now)
      ensures Becomes(old(sys), sys, i, old(sys).threads[i].(pc := Inside(old(sys).threads[i].pc.sec, 0)))
      ensures SameStore(old(sys), sys) && SameCounter(old(sys), sys)
      ensures old(run) <= run && old(acts) <= acts
    {
      hide IsRun, Do, Enabled, OnDisk;
      EnterAlone(sys, i);
      Go(Advance(i));
      StaysAlone(old(sys), sys, i, old(sys).threads[i].(pc := Inside(old(sys).threads[i].pc.sec, 0)));
    }

    // Nothing stored has changed since the history was `before`.
    ghost predicate StoreKept(before: System, runBefore: seq<System>)
      reads `sys, `run
    {
      SameStore(before, sys) && SameCounter(before, sys) && |sys.threads| == |before.threads| && runBefore <= run
    }

    // Locks the accounts of the call one after the other, lowest id first.
    method LockAccounts(txn: Transaction, ghost i: nat, ghost id: uint64, ghost now: int64)
      returns (guards: seq<ScopedAccountLock>)
      requires InCall(i, txn, id, now) && At(i, Enter(Lookup(0))) && sys.threads[i].slots == []
      modifies this`run, this`acts, this`sys, locks
      ensures InCall(i, txn, id, now) && At(i, Enter(Load)) && StoreKept(old(sys), old(run))
      ensures Guards(guards, sys.threads[i].slots, locks)
      ensures forall k :: 0 <= k < |guards| ==> fresh(guards[k])
    {
      hide IsRun, OnDisk, Inv, LockOrder, InCall, Mirrors;
      var sorted := LockOrder(txn);
      guards := [];
      OrderNamesInvolved(txn);
      for k := 0 to |sorted|
        invariant InCall(i, txn, id, now)
        invariant At(i, if k < |sorted| then Enter(Lookup(k)) else Enter(Load))
        invariant Guards(guards, sys.threads[i].slots, locks)
        invariant forall j :: 0 <= j < |guards| ==> fresh(guards[j])
        invariant StoreKept(old(sys), old(run))
      {
        guards := LockNext(guards, sorted[k], txn, i, id, now, k);
      }
    }

    // guards.push_back(locks_.lock(account)): the new guard is moved into the
    // vector, and the temporary left empty has nothing to release.
    method LockNext(guards: seq<ScopedAccountLock>, account: uint64, txn: Transaction,
                    ghost i: nat, ghost id: uint64, ghost now: int64, ghost k: nat)
      returns (longer: seq<ScopedAccountLock>)
      requires InCall(i, txn, id, now) && At(i, Enter(Lookup(k))) && Guards(guards, sys.threads[i].slots, locks)
      requires k < |LockOrder(txn)| && account == LockOrder(txn)[k]
      modifies this`run, this`acts, this`sys, locks
      ensures InCall(i, txn, id, now) && StoreKept(old(sys), old(run))
      ensures At(i, if k + 1 < |LockOrder(txn)| then Enter(Lookup(k + 1)) else Enter(Load))
      ensures |longer| == |guards| + 1 && longer == guards + [longer[|guards|]] && fresh(longer[|guards|])
      ensures Guards(longer, sys.threads[i].slots, locks)
    {
      hide IsRun, LockOrder, InCall, Mirrors, StoreKept, AccountLockManager.Valid;
      var temporary := LockOne(account, txn, i, id, now, k);
      var guard := new ScopedAccountLock.Moved(temporary);
      longer := guards + [guard];
    }

    // The constructor of a guard is two steps of the engine: mutex_for, then the
    // lock itself.
    method LockOne(account: uint64, txn: Transaction, ghost i: nat, ghost id: uint64, ghost now: int64, ghost k: nat)
      returns (guard: ScopedAccountLock)
      requires InCall(i, txn, id, now) && At(i, Enter(Lookup(k)))
      requires k < |LockOrder(txn)| && account == LockOrder(txn)[k]
      modifies this`run, this`acts, this`sys, locks
      ensures InCall(i, txn, id, now) && StoreKept(old(sys), old(run))
      ensures At(i, if k + 1 < |LockOrder(txn)| then Enter(Lookup(k + 1)) else Enter(Load))
      ensures fresh(guard) && guard.Valid() && guard.manager == locks && guard.mutex.Some?
      ensures sys.threads[i].slots == old(sys).threads[i].slots + [guard.mutex.value]
    {
      hide IsRun, OnDisk, Inv, LockOrder, Do, Enabled, TableOk, ThreadOk, ThreadsOk, WalLogger.Valid;
      GoEnter(i, txn, id, now);
      ghost var s := sys;
      ghost var t := sys.threads[i];
      LookupAlone(s, i, k, account);
      Go(Advance(i));
      ghost var slot: nat := if account in s.table then s.table[account] else |s.table|;
      StaysAlone(s, sys, i, t.(pc := AcquireAccount(k), slots := t.slots + [slot]));
      ReadyToAcquire(i, k);
      guard := new ScopedAccountLock(locks, account);
      GoAcquire(i, k);
    }

    lemma ReadyToAcquire(i: nat, k: nat)
      requires History() && At(i, AcquireAccount(k))
      ensures k < |sys.threads[i].slots| == k + 1 && sys.threads[i].slots[k] !in sys.threads[i].holding
      ensures ThreadsOk(sys)
    {
      SysInv();
      hide IsRun, Inv, ThreadOk, ThreadsOk;
      ThreadOfSys(run[0].accounts, sys, i);
      NotYetHeld(sys, sys.threads[i], k);
    }

    ghost method GoAcquire(i: nat, k: nat)
      requires History() && Alone(sys, i) && At(i, AcquireAccount(k)) && ThreadsOk(sys)
      requires k < |sys.threads[i].slots| && sys.threads[i].slots[k] !in sys.threads[i].holding
      modifies this`run, this`acts, this`sys
      ensures History() && Alone(sys, i) && StoreKept(old(sys), old(run)) && sys.table == old(sys).table
      ensures sys.threads[i] ==
                var t := old(sys).threads[i];
                t.(holding := t.holding + {t.slots[k]},
                   pc := if k + 1 < |Order(t)| then Enter(Lookup(k + 1)) else Enter(Load))
    {
      hide IsRun, Inv, LockOrder, Do, Enabled, TableOk, ThreadOk, ThreadsOk;
      ghost var t := sys.threads[i];
      AcquireAlone(sys, i, k);
      Go(Advance(i));
      StaysAlone(old(sys), sys, i,
        t.(holding := t.holding + {t.slots[k]},
           pc := if k + 1 < |Order(t)| then Enter(Lookup(k + 1)) else Enter(Load)));
    }

    // Loads a copy of each involved account, unless one is missing.
    method LoadAccounts(txn: Transaction, ghost i: nat, ghost id: uint64, ghost now: int64)
      returns (loaded: seq<Account>, missing: bool)
      requires InCall(i, txn, id, now) && At(i, Enter(Load))
      modifies this`run, this`acts, this`sys
      ensures InCall(i, txn, id, now) && StoreKept(old(sys), old(run))
      ensures SameLocks(old(sys), sys, i)
      ensures At(i, if missing then Enter(Audit) else Validating)
      ensures missing ==> sys.threads[i].result == Some(false) && !(Involved(txn) <= sys.accounts.Keys)
      ensures fresh(loaded) && (!missing ==> Copied(loaded, i))
    {
      hide IsRun, OnDisk, Inv, LockOrder, Do, Enabled, TableOk, InCall, Mirrors;
      var sorted := LockOrder(txn);
      loaded, missing := [], false;
      OrderNamesInvolved(txn);
      NothingLoaded(i, txn, id, now);
      GoEnter(i, txn, id, now);
      assert Copied(loaded, i) && At(i, Inside(Load, 0));
      hide Copied, DistinctObjects;
      for j := 0 to |sorted|
        invariant InCall(i, txn, id, now) && StoreKept(old(sys), old(run)) && !missing
        invariant SameLocks(old(sys), sys, i)
        invariant At(i, if j < |sorted| then Inside(Load, j) else Validating)
        invariant |loaded| == j && (forall k :: 0 <= k < j ==> fresh(loaded[k]))
        invariant Copied(loaded, i)
      {
        loaded, missing := LoadNext(loaded, sorted[j], txn, i, id, now, j);
        if missing { return; }
      }
    }

    // The copies are those the call has loaded.
    ghost predicate Copied(loaded: seq<Account>, i: nat)
      reads `sys, loaded
    {
      i < |sys.threads| && DistinctObjects(loaded) && Views(loaded) == sys.threads[i].loaded
    }

    method LoadNext(loaded: seq<Account>, account: uint64, txn: Transaction,
                    ghost i: nat, ghost id: uint64, ghost now: int64, ghost j: nat)
      returns (longer: seq<Account>, missing: bool)
      requires InCall(i, txn, id, now) && At(i, Inside(Load, j)) && Copied(loaded, i)
      requires j < |LockOrder(txn)| && account == LockOrder(txn)[j]
      modifies this`run, this`acts, this`sys
      ensures InCall(i, txn, id, now) && StoreKept(old(sys), old(run)) && SameLocks(old(sys), sys, i)
      ensures missing ==> longer == loaded && At(i, Enter(Audit)) && sys.threads[i].result == Some(false) &&
                          !(Involved(txn) <= sys.accounts.Keys)
      ensures !missing ==>
                At(i, if j + 1 < |LockOrder(txn)| then Inside(Load, j + 1) else Validating) &&
                |longer| == |loaded| + 1 && longer == loaded + [longer[|loaded|]] && fresh(longer[|loaded|]) &&
                Copied(longer, i)
    {
      hide IsRun, LockOrder, InCall, Mirrors;
      OrderNamesInvolved(txn);
      ghost var views := Views(loaded);
      var found := LoadOne(account, txn, i, id, now, j);
      assert Views(loaded) == views;
      if found.None? {
        assert account in Involved(txn);
        return loaded, true;
      }
      longer := WithCopy(loaded, found.value);
      missing := false;
    }

    lemma NothingLoaded(i: nat, txn: Transaction, id: uint64, now: int64)
      requires InCall(i, txn, id, now) && At(i, Enter(Load))
      ensures sys.threads[i].loaded == []
    {
      SysInv();
      hide IsRun, Inv, ThreadOk, InCall, Mirrors;
      ThreadOfSys(run[0].accounts, sys, i);
      OnTheWay(sys, sys.threads[i]);
    }

    method LoadOne(account: uint64, txn: Transaction, ghost i: nat, ghost id: uint64, ghost now: int64, ghost j: nat)
      returns (a: Option<AccountState>)
      requires InCall(i, txn, id, now) && At(i, Inside(Load, j))
      requires j < |LockOrder(txn)| && account == LockOrder(txn)[j]
      modifies this`run, this`acts, this`sys
      ensures InCall(i, txn, id, now) && StoreKept(old(sys), old(run))
      ensures a == if account in sys.accounts then Some(sys.accounts[account]) else None
      ensures SameLocks(old(sys), sys, i)
      ensures match a
              case None => At(i, Enter(Audit)) && sys.threads[i].result == Some(false)
              case Some(x) => At(i, if j + 1 < |LockOrder(txn)| then Inside(Load, j + 1) else Validating) &&
                              sys.threads[i].loaded == old(sys).threads[i].loaded + [x]
    {
      hide IsRun, OnDisk, Inv, LockOrder, Do, Enabled;
      ghost var t := sys.threads[i];
      a := accounts.FindById(account);
      LoadAlone(sys, i, j, account);
      Go(Advance(i));
      StaysAlone(old(sys), sys, i,
        if account !in old(sys).accounts then t.(pc := Enter(Audit), result := Some(false))
        else t.(loaded := t.loaded + [old(sys).accounts[account]],
                pc := if j + 1 < |Order(t)| then Inside(Load, j + 1) else Validating));
    }

    method ValidateCopies(txn: Transaction, loaded: seq<Account>, ghost i: nat, ghost id: uint64, ghost now: int64)
      returns (valid: bool)
      requires InCall(i, txn, id, now) && At(i, Validating) && Copied(loaded, i)
      modifies this`run, this`acts, this`sys
      ensures InCall(i, txn, id, now) && StoreKept(old(sys), old(run))
      ensures valid == Validate(txn, Views(loaded)) && Copied(loaded, i)
      ensures SameLocks(old(sys), sys, i)
      ensures At(i, if valid then Enter(Append) else Enter(Audit))
      ensures !valid ==> sys.threads[i].result == Some(false)
    {
      hide IsRun, OnDisk, Inv, LockOrder, Do, Enabled, Validate;
      ghost var t := sys.threads[i];
      valid := Validate(txn, Views(loaded));
      ValidateAlone(sys, i);
      Go(Advance(i));
      StaysAlone(old(sys), sys, i, if valid then t.(pc := Enter(Append))
                                   else t.(pc := Enter(Audit), result := Some(false)));
    }

    // The store but for the journal is as before.
    ghost predicate JournalMoved(before: System, runBefore: seq<System>, journal: seq<JEntry>)
      reads `sys, `run
    {
      sys.accounts == before.accounts && sys.ledger == before.ledger && sys.audit == before.audit &&
      sys.journal == journal && SameCounter(before, sys) && |sys.threads| == |before.threads| && runBefore <= run
    }

    method AppendIntent(record: TransactionRecord, txn: Transaction, ghost i: nat, ghost id: uint64, ghost now: int64)
      requires InCall(i, txn, id, now) && At(i, Enter(Append)) && record == IntentOf(txn, id, now)
      modifies this`run, this`acts, this`sys, wal, wal.file
      ensures InCall(i, txn, id, now) && At(i, Applying)
      ensures SameLocks(old(sys), sys, i) && sys.threads[i].loaded == old(sys).threads[i].loaded
      ensures JournalMoved(old(sys), old(run), old(sys).journal + [JEntry(record, Validated)])
    {
      hide IsRun, OnDisk, Inv, LockOrder, Do, Enabled, Intent, WalLogger.Valid;
      GoEnter(i, txn, id, now);
      ghost var s := sys;
      IntentState(s.threads[i]);
      AppendOnDisk(wal, s.journal, record);
      AppendAlone(sys, i);
      Go(Advance(i));
      StaysAlone(s, sys, i, s.threads[i].(pc := Applying));
    }

    method ApplyCopies(txn: Transaction, loaded: seq<Account>, ghost i: nat, ghost id: uint64, ghost now: int64)
      returns (thrown: Option<Exception>)
      requires InCall(i, txn, id, now) && At(i, Applying) && Views(loaded) == sys.threads[i].loaded
      requires DistinctObjects(loaded)
      modifies this`run, this`acts, this`sys, loaded
      ensures InCall(i, txn, id, now) && StoreKept(old(sys), old(run))
      ensures Outcome(Views(loaded), thrown) == ApplySpan(txn, old(Views(loaded)))
      ensures SameLocks(old(sys), sys, i) && sys.threads[i].loaded == Views(loaded)
      ensures sys.threads[i].original == old(Views(loaded))
      ensures At(i, if thrown.None? then Enter(Save) else Unlocking)
      ensures thrown.Some? ==>
                sys.threads[i].result == Some(false) && sys.threads[i].audited == old(sys).threads[i].audited
    {
      hide IsRun, OnDisk, Inv, LockOrder, Do, Enabled, ApplySpan;
      ghost var t := sys.threads[i];
      thrown := Apply(txn, loaded);
      ApplyAlone(sys, i);
      Go(Advance(i));
      StaysAlone(old(sys), sys, i,
        if thrown.None? then t.(pc := Enter(Save), loaded := Views(loaded), original := t.loaded)
        else t.(pc := Unlocking, loaded := Views(loaded), original := t.loaded, result := Some(false)));
    }

    // Saves every copy.
    method SaveCopies(txn: Transaction, loaded: seq<Account>, ghost i: nat, ghost id: uint64, ghost now: int64)
      requires InCall(i, txn, id, now) && At(i, Enter(Save)) && Views(loaded) == sys.threads[i].loaded
      requires |loaded| > 0
      modifies this`run, this`acts, this`sys, accounts
      ensures InCall(i, txn, id, now) && At(i, Enter(Commit)) && SameLocks(old(sys), sys, i)
      ensures sys.journal == old(sys).journal && sys.ledger == old(sys).ledger && sys.audit == old(sys).audit
      ensures SameCounter(old(sys), sys) && |sys.threads| == |old(sys).threads| && old(run) <= run
    {
      hide InCall;
      GoEnter(i, txn, id, now);
      for j := 0 to |loaded|
        invariant InCall(i, txn, id, now) && At(i, if j < |loaded| then Inside(Save, j) else Enter(Commit))
        invariant Views(loaded) == sys.threads[i].loaded
        invariant SameLocks(old(sys), sys, i)
        invariant sys.journal == old(sys).journal && sys.ledger == old(sys).ledger && sys.audit == old(sys).audit
        invariant SameCounter(old(sys), sys) && |sys.threads| == |old(sys).threads| && old(run) <= run
      {
        SaveOne(loaded[j], txn, i, id, now, j);
      }
    }

    method SaveOne(account: Account, txn: Transaction, ghost i: nat, ghost id: uint64, ghost now: int64, ghost j: nat)
      requires InCall(i, txn, id, now) && At(i, Inside(Save, j))
      requires j < |sys.threads[i].loaded| && account.View() == sys.threads[i].loaded[j]
      modifies this`run, this`acts, this`sys, accounts
      ensures InCall(i, txn, id, now) && SameLocks(old(sys), sys, i)
      ensures sys.threads[i].loaded == old(sys).threads[i].loaded
      ensures At(i, if j + 1 < |sys.threads[i].loaded| then Inside(Save, j + 1) else Enter(Commit))
      ensures sys.journal == old(sys).journal && sys.ledger == old(sys).ledger && sys.audit == old(sys).audit
      ensures SameCounter(old(sys), sys) && |sys.threads| == |old(sys).threads| && old(run) <= run
    {
      hide IsRun, OnDisk, Inv, LockOrder, Do, Enabled;
      ghost var t := sys.threads[i];
      accounts.Save(account.View());
      SaveAlone(sys, i, j);
      Go(Advance(i));
      StaysAlone(old(sys), sys, i, t.(pc := if j + 1 < |t.loaded| then Inside(Save, j + 1) else Enter(Commit)));
    }

    // The record of the call is in the journal, as its last entry still Validated.
    lemma RecordIsLast(i: nat)
      requires History() && i < |sys.threads| && 6 <= Stage(sys.threads[i].pc) <= 10
      requires sys.journal != [] && sys.journal[|sys.journal| - 1].record.id == sys.threads[i].id
      ensures EntryOf(sys.journal, sys.threads[i].id) == |sys.journal| - 1
    {
      SysInv();
      hide IsRun;
      LastEntry(run[0].accounts, sys, i);
    }

    method MarkCommitted(txn: Transaction, ghost i: nat, id: uint64, ghost now: int64)
      returns (thrown: Option<Exception>)
      requires InCall(i, txn, id, now) && At(i, Enter(Commit))
      requires sys.journal != [] && sys.journal[|sys.journal| - 1].record.id == id
      modifies this`run, this`acts, this`sys, wal, wal.file
      ensures InCall(i, txn, id, now) && At(i, Enter(Ledger)) && thrown == None
      ensures SameLocks(old(sys), sys, i)
      ensures JournalMoved(old(sys), old(run), Flipped(old(sys).journal, |old(sys).journal| - 1))
    {
      hide IsRun, OnDisk, Inv, LockOrder, Do, Enabled, Flipped, EntryOf, WalLogger.Valid;
      GoEnter(i, txn, id, now);
      ghost var s := sys;
      RecordIsLast(i);
      thrown := CommitOnDisk(wal, s.journal, id);
      CommitAlone(sys, i);
      Go(Advance(i));
      StaysAlone(s, sys, i, s.threads[i].(pc := Enter(Ledger)));
    }

    method AppendLedger(record: TransactionRecord, txn: Transaction, ghost i: nat, ghost id: uint64, ghost now: int64)
      requires InCall(i, txn, id, now) && At(i, Enter(Ledger))
      requires record == IntentOf(txn, id, now).(state := Committed)
      modifies this`run, this`acts, this`sys, ledger
      ensures InCall(i, txn, id, now) && At(i, Enter(Audit)) && sys.threads[i].result == Some(true)
      ensures SameLocks(old(sys), sys, i)
      ensures sys.accounts == old(sys).accounts && sys.journal == old(sys).journal && sys.audit == old(sys).audit
      ensures sys.ledger == old(sys).ledger + [record]
      ensures SameCounter(old(sys), sys) && |sys.threads| == |old(sys).threads| && old(run) <= run
    {
      hide IsRun, OnDisk, Inv, LockOrder, Do, Enabled, Intent;
      GoEnter(i, txn, id, now);
      ghost var s := sys;
      IntentState(s.threads[i]);
      ledger.Append(record);
      LedgerAlone(sys, i);
      Go(Advance(i));
      StaysAlone(s, sys, i, s.threads[i].(pc := Enter(Audit), result := Some(true)));
    }

    method AppendAudit(completed: bool, txn: Transaction, ghost i: nat, ghost id: uint64, ghost now: int64)
      requires InCall(i, txn, id, now) && At(i, Enter(Audit)) && sys.threads[i].result == Some(completed)
      modifies this`run, this`acts, this`sys, audit
      ensures InCall(i, txn, id, now) && At(i, Unlocking) && sys.threads[i].audited
      ensures sys.threads[i].result == Some(completed) && SameLocks(old(sys), sys, i)
      ensures sys.accounts == old(sys).accounts && sys.journal == old(sys).journal && sys.ledger == old(sys).ledger
      ensures sys.audit == old(sys).audit + [completed]
      ensures SameCounter(old(sys), sys) && |sys.threads| == |old(sys).threads| && old(run) <= run
    {
      hide IsRun, OnDisk, Inv, LockOrder, Do, Enabled;
      GoEnter(i, txn, id, now);
      ghost var s := sys;
      audit.Append(completed);
      AuditAlone(sys, i);
      Go(Advance(i));
      StaysAlone(s, sys, i, s.threads[i].(pc := Unlocking, audited := true));
    }

    // The guards go out of scope.
    method UnlockAccounts(guards: seq<ScopedAccountLock>, ghost slots: seq<nat>, txn: Transaction,
                          ghost i: nat, ghost id: uint64, ghost now: int64)
      requires InCall(i, txn, id, now) && At(i, Unlocking) && Guarded(sys, i, slots) && Guards(guards, slots, locks)
      modifies this`run, this`acts, this`sys, locks`locked, guards
      ensures InCall(i, txn, id, now) && StoreKept(old(sys), old(run)) && locks.locked == {}
      ensures At(i, if old(sys).threads[i].audited then Finished else Enter(Audit))
      ensures sys.threads[i].result == old(sys).threads[i].result && sys.threads[i].slots == slots
      ensures sys.threads[i].holding == {}
    {
      hide IsRun, OnDisk, Inv, LockOrder, Do, Enabled, WalLogger.Valid;
      DistinctGuards(i);
      assert slots[..|slots|] == slots;
      var k := |guards|;
      while k > 0
        invariant 0 <= k <= |guards| && InCall(i, txn, id, now) && StoreKept(old(sys), old(run)) && At(i, Unlocking)
        invariant sys.threads[i].holding == SlotSet(slots[..k]) && sys.threads[i].slots == slots
        invariant forall j :: 0 <= j < k ==> guards[j].mutex == Some(slots[j])
        invariant sys.threads[i].audited == old(sys).threads[i].audited
        invariant sys.threads[i].result == old(sys).threads[i].result
      {
        k := k - 1;
        SlotSetLess(slots, k);
        UnlockOne(guards[k], txn, i, id, now);
      }
      GoUnlocked(i, txn, id, now);
    }

    ghost method GoUnlocked(i: nat, txn: Transaction, id: uint64, now: int64)
      requires InCall(i, txn, id, now) && At(i, Unlocking) && sys.threads[i].holding == {}
      modifies this`run, this`acts, this`sys
      ensures InCall(i, txn, id, now) && StoreKept(old(sys), old(run))
      ensures sys.threads[i] ==
                old(sys).threads[i].(pc := if old(sys).threads[i].audited then Finished else Enter(Audit))
    {
      hide IsRun, OnDisk, Inv, LockOrder, Do, Enabled, WalLogger.Valid;
      ghost var s := sys;
      UnlockedAlone(s, i);
      Go(Advance(i));
      StaysAlone(s, sys, i, s.threads[i].(pc := if s.threads[i].audited then Finished else Enter(Audit)));
    }

    lemma DistinctGuards(i: nat)
      requires History() && i < |sys.threads|
      ensures forall j, k :: 0 <= j < k < |sys.threads[i].slots| ==> sys.threads[i].slots[j] != sys.threads[i].slots[k]
    {
      SysInv();
      hide IsRun, Inv;
      ThreadOfSys(run[0].accounts, sys, i);
      GuardsDistinct(sys, sys.threads[i]);
    }

    method UnlockOne(guard: ScopedAccountLock, txn: Transaction, ghost i: nat, ghost id: uint64, ghost now: int64)
      requires InCall(i, txn, id, now) && At(i, Unlocking) && guard.manager == locks
      requires guard.mutex.Some? && guard.mutex.value in sys.threads[i].holding
      modifies this`run, this`acts, this`sys, locks`locked, guard`mutex
      ensures InCall(i, txn, id, now) && StoreKept(old(sys), old(run)) && At(i, Unlocking)
      ensures sys.threads[i]
           == old(sys).threads[i].(holding := old(sys).threads[i].holding - {old(guard.mutex).value})
    {
      hide IsRun, OnDisk, Inv, LockOrder, Do, Enabled, WalLogger.Valid;
      ghost var t := sys.threads[i];
      ghost var m := guard.mutex.value;
      ReleaseAlone(sys, i, m);
      guard.Release();
      Go(Release(i, m));
      StaysAlone(old(sys), sys, i, t.(holding := t.holding - {m}));
    }

    // Between calls: nothing under way, nothing locked.
    ghost predicate Resting()
      reads `run, `acts, `sys, `nextId, accounts, ledger, audit, wal, wal.file, locks
    {
      History() && Mirrors() && AllFinished(sys) && locks.locked == {}
    }

    // Call i has come to its end with the given outcome.
    ghost predicate Ended(i: nat, txn: Transaction, id: uint64, ok: bool)
      reads `sys
    {
      |sys.threads| == i + 1 && sys.threads[i].txn == txn && sys.threads[i].id == id &&
      sys.threads[i].result == Some(ok)
    }

    lemma HoldsGuards(i: nat)
      requires History() && At(i, Enter(Load))
      ensures Guarded(sys, i, sys.threads[i].slots)
    {
      SysInv();
      hide IsRun, Inv, ThreadOk;
      ThreadOfSys(run[0].accounts, sys, i);
      OnTheWay(sys, sys.threads[i]);
    }

    lemma NotAudited(i: nat)
      requires History() && At(i, Applying)
      ensures !sys.threads[i].audited
    {
      SysInv();
      hide IsRun, Inv, ThreadOk;
      ThreadOfSys(run[0].accounts, sys, i);
      OnTheWay(sys, sys.threads[i]);
    }

    // The copies decide as the whole table would.
    lemma CopiesDecide(i: nat, txn: Transaction, loaded: seq<Account>)
      requires History() && At(i, Validating) && sys.threads[i].txn == txn && Copied(loaded, i)
      ensures ApplySpan(txn, Views(loaded)).thrown.None? <==> Post(sys.accounts, txn).Some?
      ensures Validate(txn, Views(loaded)) <==> Acceptable(sys.accounts, txn)
      ensures |loaded| > 0
    {
      SysInv();
      hide IsRun, Inv, ApplySpan, Post, Validate, Acceptable;
      CopiesCover(run[0].accounts, sys, i);
      CopiesAcceptable(run[0].accounts, sys, i);
    }

    // A finished call leaves the processor at rest.
    lemma AtRest(i: nat, txn: Transaction, id: uint64, now: int64)
      requires InCall(i, txn, id, now) && At(i, Finished) && |sys.threads| == i + 1 && locks.locked == {}
      ensures Resting() && sys.threads[i].txn == txn && sys.threads[i].id == id
    {
      hide IsRun, OnDisk, Inv, WalLogger.Valid;
    }

    // A refusal before anything was journaled: audit entry, then the locks.
    method Refuse(guards: seq<ScopedAccountLock>, ghost slots: seq<nat>, txn: Transaction,
                  ghost i: nat, ghost id: uint64, ghost now: int64)
      requires InCall(i, txn, id, now) && At(i, Enter(Audit)) && |sys.threads| == i + 1
      requires sys.threads[i].result == Some(false) && Guarded(sys, i, slots) && Guards(guards, slots, locks)
      modifies this`run, this`acts, this`sys, audit, locks`locked, guards
      ensures Resting() && Ended(i, txn, id, false) && old(run) <= run
      ensures sys.accounts == old(sys).accounts && sys.journal == old(sys).journal && sys.ledger == old(sys).ledger
      ensures sys.audit == old(sys).audit + [false] && SameCounter(old(sys), sys)
    {
      hide IsRun, InCall, Resting;
      AppendAudit(false, txn, i, id, now);
      UnlockAccounts(guards, slots, txn, i, id, now);
      AtRest(i, txn, id, now);
    }

    // An exception from apply: the locks go as the stack unwinds, then the audit
    // entry is made.
    method Unwind(guards: seq<ScopedAccountLock>, ghost slots: seq<nat>, txn: Transaction,
                  ghost i: nat, ghost id: uint64, ghost now: int64)
      requires InCall(i, txn, id, now) && At(i, Unlocking) && !sys.threads[i].audited && |sys.threads| == i + 1
      requires sys.threads[i].result == Some(false) && Guarded(sys, i, slots) && Guards(guards, slots, locks)
      modifies this`run, this`acts, this`sys, audit, locks`locked, guards
      ensures Resting() && Ended(i, txn, id, false) && old(run) <= run
      ensures sys.accounts == old(sys).accounts && sys.journal == old(sys).journal && sys.ledger == old(sys).ledger
      ensures sys.audit == old(sys).audit + [false] && SameCounter(old(sys), sys)
    {
      hide IsRun, OnDisk, Inv, Do, Enabled;
      UnlockAccounts(guards, slots, txn, i, id, now);
      AppendAudit(false, txn, i, id, now);
      ghost var s := sys;
      UnlockedAlone(s, i);
      Go(Advance(i));
      StaysAlone(s, sys, i, s.threads[i].(pc := Finished));
    }

    // Ledger, audit, unlock.
    method Publish(guards: seq<ScopedAccountLock>, ghost slots: seq<nat>, record: TransactionRecord, txn: Transaction,
                   ghost i: nat, ghost id: uint64, ghost now: int64)
      requires InCall(i, txn, id, now) && At(i, Enter(Ledger)) && |sys.threads| == i + 1
      requires Guarded(sys, i, slots) && Guards(guards, slots, locks)
      requires record == IntentOf(txn, id, now).(state := Committed)
      modifies this`run, this`acts, this`sys, ledger, audit, locks`locked, guards
      ensures Resting() && Ended(i, txn, id, true) && old(run) <= run
      ensures sys.accounts == old(sys).accounts && sys.journal == old(sys).journal
      ensures sys.ledger == old(sys).ledger + [record]
      ensures sys.audit == old(sys).audit + [true] && SameCounter(old(sys), sys)
    {
      hide IsRun, InCall, Resting;
      AppendLedger(record, txn, i, id, now);
      AppendAudit(true, txn, i, id, now);
      UnlockAccounts(guards, slots, txn, i, id, now);
      AtRest(i, txn, id, now);
    }

    // Save, commit, then publish.
    method Complete(guards: seq<ScopedAccountLock>, ghost slots: seq<nat>, loaded: seq<Account>,
                    record: TransactionRecord, txn: Transaction, ghost i: nat, id: uint64, ghost now: int64)
      requires InCall(i, txn, id, now) && At(i, Enter(Save)) && |sys.threads| == i + 1
      requires Views(loaded) == sys.threads[i].loaded && |loaded| > 0
      requires Guarded(sys, i, slots) && Guards(guards, slots, locks)
      requires record == IntentOf(txn, id, now)
      requires sys.journal != [] && sys.journal[|sys.journal| - 1].record.id == id
      modifies this`run, this`acts, this`sys, accounts, wal, wal.file, ledger, audit, locks`locked, guards
      ensures Resting() && Ended(i, txn, id, true) && old(run) <= run
      ensures sys.journal == Flipped(old(sys).journal, |old(sys).journal| - 1)
      ensures sys.ledger == old(sys).ledger + [record.(state := Committed)]
      ensures sys.audit == old(sys).audit + [true] && SameCounter(old(sys), sys)
    {
      hide IsRun, Flipped, InCall, Resting;
      SaveCopies(txn, loaded, i, id, now);
      var thrown := MarkCommitted(txn, i, id, now);
      Publish(guards, slots, record.(state := Committed), txn, i, id, now);
    }

    // Between calls the accounts are what the committed transactions make of the
    // first ones.
    lemma RestingTable()
      requires History() && AllFinished(sys)
      ensures run != [] && Run(run[0].accounts, CommittedTxns(sys.journal)) == Some(sys.accounts)
    {
      assert |acts| < |run|;
      hide IsRun;
      Serializable(run, acts, |acts|);
    }

    // Starts a call in the recorded run.
    ghost method Begin(txn: Transaction, id: uint64, now: int64) returns (i: nat)
      requires Resting() && id in sys.issued && now > INT64_MIN
      modifies this`run, this`acts, this`sys
      ensures i == |old(sys).threads| && |sys.threads| == i + 1
      ensures InCall(i, txn, id, now) && At(i, Enter(Lookup(0))) && sys.threads[i].slots == []
      ensures SameStore(old(sys), sys) && sys.nextId == old(sys).nextId && sys.issued == old(sys).issued - {id}
      ensures old(run) <= run
    {
      hide IsRun, OnDisk;
      i := |sys.threads|;
      Go(Spawn(id, txn, now));
    }

    // Locks, loads and validates. A valid transaction is refused by apply exactly
    // when the whole table refuses it; an invalid one the whole table refuses.
    method Prepare(txn: Transaction, ghost i: nat, ghost id: uint64, ghost now: int64)
      returns (guards: seq<ScopedAccountLock>, ghost slots: seq<nat>, loaded: seq<Account>, valid: bool)
      requires InCall(i, txn, id, now) && At(i, Enter(Lookup(0))) && sys.threads[i].slots == []
      modifies this`run, this`acts, this`sys, locks
      ensures InCall(i, txn, id, now) && StoreKept(old(sys), old(run))
      ensures Guarded(sys, i, slots) && Guards(guards, slots, locks)
      ensures At(i, if valid then Enter(Append) else Enter(Audit))
      ensures !valid ==> sys.threads[i].result == Some(false) && Post(sys.accounts, txn).None?
      ensures valid <==> Acceptable(sys.accounts, txn)
      ensures fresh(loaded) && forall k :: 0 <= k < |guards| ==> fresh(guards[k])
      ensures valid ==> |loaded| > 0 && Copied(loaded, i) &&
                        (ApplySpan(txn, Views(loaded)).thrown.None? <==> Post(sys.accounts, txn).Some?)
    {
      hide IsRun, Inv, Post, ApplySpan, LockOrder, Validate, Acceptable, InCall, Mirrors;
      hide DistinctObjects, Copied, Views;
      guards := LockAccounts(txn, i, id, now);
      HistoryOf(i, txn, id, now);
      HoldsGuards(i);
      slots := sys.threads[i].slots;
      var missing;
      loaded, missing := LoadAccounts(txn, i, id, now);
      if missing {
        PostNeedsAccounts(sys.accounts, txn);
        return guards, slots, loaded, false;
      }
      HistoryOf(i, txn, id, now);
      CopiesDecide(i, txn, loaded);
      valid := ValidateCopies(txn, loaded, i, id, now);
      if !valid { InvalidThrows(txn, Views(loaded)); }
    }

    lemma HistoryOf(i: nat, txn: Transaction, id: uint64, now: int64)
      requires InCall(i, txn, id, now)
      ensures History() && i < |sys.threads| && sys.threads[i].txn == txn
    {
      hide Mirrors, IsRun;
    }

    // Journals the intent of a valid transaction and carries it out, or unwinds.
    method Execute(guards: seq<ScopedAccountLock>, ghost slots: seq<nat>, loaded: seq<Account>, txn: Transaction,
                   ghost i: nat, id: uint64, now: int64)
      returns (ok: bool)
      requires InCall(i, txn, id, now) && At(i, Enter(Append)) && |sys.threads| == i + 1
      requires Guarded(sys, i, slots) && Guards(guards, slots, locks)
      requires Copied(loaded, i) && |loaded| > 0
      modifies this`run, this`acts, this`sys, accounts, ledger, audit, wal, wal.file, locks`locked, loaded, guards
      ensures Resting() && Ended(i, txn, id, ok) && old(run) <= run && SameCounter(old(sys), sys)
      ensures ok <==> old(ApplySpan(txn, Views(loaded)).thrown.None?)
      ensures !ok ==> sys.accounts == old(sys).accounts
      ensures sys.ledger == old(sys).ledger + (if ok then [IntentOf(txn, id, now).(state := Committed)] else [])
      ensures sys.audit == old(sys).audit + [ok]
      ensures sys.journal == old(sys).journal + [JEntry(IntentOf(txn, id, now), if ok then Committed else Validated)]
    {
      hide IsRun, Post, ApplySpan, InCall, Resting;
      var record := IntentOf(txn, id, now);
      AppendIntent(record, txn, i, id, now);
      HistoryOf(i, txn, id, now);
      NotAudited(i);
      var thrown := ApplyCopies(txn, loaded, i, id, now);
      if thrown.Some? {
        Unwind(guards, slots, txn, i, id, now);
        return false;
      }
      FlippedLast(old(sys).journal, record);
      Complete(guards, slots, loaded, record, txn, i, id, now);
      ok := true;
    }

    lemma RestingViews()
      requires Resting()
      ensures accounts.accounts == sys.accounts && ledger.records == sys.ledger && audit.entries == sys.audit
      ensures History() && AllFinished(sys)
    {
      hide IsRun, OnDisk;
    }

    // What the call has left in the journal: a committed record if it succeeded, a
    // validated one if it was refused by an overflow after validating, else nothing.
    ghost predicate Journaled(before: System, txn: Transaction, id: uint64, now: int64, ok: bool)
      reads `sys
    {
      sys.journal == before.journal +
        (if ok then [JEntry(IntentOf(txn, id, now), Committed)]
         else if Acceptable(before.accounts, txn) then [JEntry(IntentOf(txn, id, now), Validated)] else [])
    }

    // process_impl: the transaction goes through exactly when it can on the whole
    // table; then accounts, ledger and journal have moved by it, and else accounts
    // and ledger are as before. The audit trail says which.
    method ProcessImpl(txn: Transaction, id: uint64, now: int64) returns (ok: bool)
      requires Resting() && id in sys.issued && now > INT64_MIN
      modifies this`run, this`acts, this`sys, accounts, ledger, audit, wal, wal.file, locks
      ensures Resting() && Ended(|old(sys).threads|, txn, id, ok) && old(run) <= run
      ensures ok <==> Post(old(accounts.accounts), txn).Some?
      ensures accounts.accounts == if ok then Post(old(accounts.accounts), txn).value else old(accounts.accounts)
      ensures ledger.records == old(ledger.records) + LedgerOf(old(accounts.accounts), txn, id, now)
      ensures audit.entries == old(audit.entries) + [ok] && Journaled(old(sys), txn, id, now, ok)
      ensures sys.nextId == old(sys).nextId && sys.issued == old(sys).issued - {id}
    {
      hide IsRun, Run, Post, ApplySpan, CommittedTxns, InCall, Resting, Mirrors, AllFinished, History;
      RestingViews();
      RestingTable();
      ghost var i := Begin(txn, id, now);
      var guards, slots, loaded, valid := Prepare(txn, i, id, now);
      if !valid {
        Refuse(guards, slots, txn, i, id, now);
        RestingViews();
        return false;
      }
      ok := Execute(guards, slots, loaded, txn, i, id, now);
      RestingViews();
      if ok {
        RestingTable();
        CommittedLast(run[0].accounts, old(sys).journal, IntentOf(txn, id, now), txn);
      }
    }

    // ----- the public operations, used by one thread -----

    // Reserved ids and queued transactions are as many, and each id is waiting for
    // its call.
    ghost predicate Paired()
      reads `reserved, `sys, queue
    {
      !queue.closed && |reserved| == |queue.queue| &&
      (forall k :: 0 <= k < |reserved| ==> reserved[k] in sys.issued) &&
      (forall j, k :: 0 <= j < k < |reserved| ==> reserved[j] != reserved[k])
    }

    ghost predicate Serving()
      reads `run, `acts, `sys, `nextId, `reserved, accounts, ledger, audit, wal, wal.file, locks, queue
    {
      Resting() && Paired()
    }

    lemma NextIdIsFresh()
      requires History()
      ensures sys.nextId !in sys.issued
    {
      SysInv();
      hide IsRun, Inv;
      FreshId(run[0].accounts, sys);
    }

    // next_id_.fetch_add(1)
    method FetchId() returns (id: uint64)
      requires Resting() && nextId < TWO_63
      modifies this`run, this`acts, this`sys, this`nextId
      ensures Resting() && SameStore(old(sys), sys) && sys.threads == old(sys).threads && old(run) <= run
      ensures id == old(nextId) && nextId == id + 1 && sys.issued == old(sys).issued + {id}
      ensures id !in old(sys).issued
    {
      hide IsRun, OnDisk, Inv, WalLogger.Valid;
      NextIdIsFresh();
      id := nextId;
      nextId := nextId + 1;
      Go(Issue);
    }

    method ProcessOne(txn: Transaction, now: int64) returns (ok: bool)
      requires Serving() && nextId < TWO_63 && now > INT64_MIN
      modifies this`run, this`acts, this`sys, this`nextId, accounts, ledger, audit, wal, wal.file, locks
      ensures Serving() && old(run) <= run && Ended(|old(sys).threads|, txn, old(nextId), ok)
      ensures ok <==> Post(old(accounts.accounts), txn).Some?
      ensures accounts.accounts == if ok then Post(old(accounts.accounts), txn).value else old(accounts.accounts)
      ensures ledger.records == old(ledger.records) + LedgerOf(old(accounts.accounts), txn, old(nextId), now)
      ensures audit.entries == old(audit.entries) + [ok]
      ensures Journaled(old(sys), txn, old(nextId), now, ok) && nextId == old(nextId) + 1
    {
      hide IsRun, Mirrors, History, Post, AllFinished;
      var id := FetchId();
      ok := ProcessImpl(txn, id, now);
    }

    // submit: reserves an id and queues the transaction, unless stopped.
    method Submit(txn: Transaction) returns (id: Option<uint64>)
      requires Serving() && (accepting ==> nextId < TWO_63)
      modifies this`run, this`acts, this`sys, this`nextId, this`reserved, queue
      ensures Serving() && old(run) <= run && accounts.accounts == old(accounts.accounts)
      ensures id.Some? <==> accepting
      ensures queue.queue == old(queue.queue) + (if accepting then [txn] else [])
      ensures reserved == old(reserved) + (if accepting then [id.value] else [])
    {
      hide IsRun, Mirrors, History, AllFinished;
      if !accepting { return None; }
      var fetched := FetchId();
      reserved := reserved + [fetched];
      var accepted := queue.Enqueue(txn);
      id := Some(fetched);
    }

    // take_reserved_id, with an id reserved: the oldest one.
    method TakeReservedId() returns (id: uint64)
      requires reserved != []
      modifies this`reserved
      ensures old(reserved) == [id] + reserved
    {
      id := reserved[0];
      reserved := reserved[1..];
    }

    // What process_next and consumer_loop do with a transaction they popped: it
    // runs under the oldest reserved id.
    method ProcessPopped(txn: Transaction, now: int64) returns (ok: bool)
      requires Resting() && now > INT64_MIN && reserved != [] && reserved[0] in sys.issued
      modifies this`run, this`acts, this`sys, this`reserved, accounts, ledger, audit, wal, wal.file, locks
      ensures Resting() && old(run) <= run && reserved == old(reserved)[1..]
      ensures Ended(|old(sys).threads|, txn, old(reserved)[0], ok) && sys.issued == old(sys).issued - {old(reserved)[0]}
      ensures ok <==> Post(old(accounts.accounts), txn).Some?
      ensures accounts.accounts == After(old(accounts.accounts), txn)
      ensures ledger.records == old(ledger.records) + LedgerOf(old(accounts.accounts), txn, old(reserved)[0], now)
      ensures audit.entries == old(audit.entries) + [ok] && Journaled(old(sys), txn, old(reserved)[0], now, ok)
    {
      hide IsRun, Mirrors, History, Post, AllFinished;
      var id := TakeReservedId();
      assert id == old(reserved)[0] && reserved == old(reserved)[1..];
      ok := ProcessImpl(txn, id, now);
    }

    // process_next: the oldest queued transaction runs under the oldest reserved id.
    method ProcessNext(now: int64) returns (result: Option<bool>)
      requires Serving() && now > INT64_MIN
      modifies this`run, this`acts, this`sys, this`reserved, queue`queue,
               accounts, ledger, audit, wal, wal.file, locks
      ensures Serving() && old(run) <= run
      ensures result.None? <==> old(queue.queue) == []
      ensures result.None? ==> sys == old(sys) && reserved == [] && queue.queue == []
      ensures result.None? ==> accounts.accounts == old(accounts.accounts)
      ensures result.None? ==> ledger.records == old(ledger.records) && audit.entries == old(audit.entries)
      ensures result.Some? ==>
                queue.queue == old(queue.queue)[1..] && reserved == old(reserved)[1..] &&
                Ended(|old(sys).threads|, old(queue.queue)[0], old(reserved)[0], result.value) &&
                result == Some(Post(old(accounts.accounts), old(queue.queue)[0]).Some?) &&
                accounts.accounts == After(old(accounts.accounts), old(queue.queue)[0]) &&
                ledger.records == old(ledger.records) +
                  LedgerOf(old(accounts.accounts), old(queue.queue)[0], old(reserved)[0], now) &&
                audit.entries == old(audit.entries) + [result.value] &&
                Journaled(old(sys), old(queue.queue)[0], old(reserved)[0], now, result.value)
    {
      hide IsRun, Mirrors, History, Post, AllFinished, Resting, After;
      var txn := queue.TryPop();
      if txn.None? { return None; }
      assert [txn.value] + queue.queue == old(queue.queue);
      var ok := ProcessPopped(txn.value, now);
      result := Some(ok);
    }

    // process_until_empty: every queued transaction runs once, in order, each on
    // what the ones before it left, at the time the clock shows then.
    method ProcessUntilEmpty(times: seq<int64>) returns (results: seq<bool>)
      requires Serving() && Clock(times, |queue.queue|)
      modifies this`run, this`acts, this`sys, this`reserved, queue`queue,
               accounts, ledger, audit, wal, wal.file, locks
      ensures Serving() && old(run) <= run && queue.queue == [] && reserved == []
      ensures results == Verdicts(old(accounts.accounts), old(queue.queue))
      ensures Drained(old(accounts.accounts), old(ledger.records), old(audit.entries),
                      old(queue.queue), old(reserved), times)
    {
      hide IsRun, Mirrors, History, Post, AllFinished, Ended, LedgerOf, Journaled, Resting;
      results := [];
      ghost var queued, ids := queue.queue, reserved;
      var n := 0;
      NothingDrained(queued, ids, times);
      while true
        invariant Serving() && old(run) <= run && n <= |queued| && queue.queue == queued[n..] && reserved == ids[n..]
        invariant |ids| == |queued|
        invariant results == Verdicts(old(accounts.accounts), queued[..n])
        invariant Drained(old(accounts.accounts), old(ledger.records), old(audit.entries), queued[..n], ids[..n], times)
        decreases |queue.queue|
      {
        var result := ProcessNext(if n < |times| then times[n] else 0);
        if result.None? { break; }
        OneMoreDrained(old(accounts.accounts), queued, ids, times, n);
        results := results + [result.value];
        n := n + 1;
      }
      assert queued[..n] == queued && ids[..n] == ids;
    }

    // The clock has a reading for each of n calls.
    ghost predicate Clock(times: seq<int64>, n: nat) {
      n <= |times| && forall k :: 0 <= k < |times| ==> times[k] > INT64_MIN
    }

    // The transactions of ts have run, one after the other, from these stores on.
    ghost predicate Drained(m: Table, records: seq<TransactionRecord>, entries: seq<bool>,
                            ts: seq<Transaction>, ids: seq<uint64>, times: seq<int64>)
      reads accounts, ledger, audit
    {
      |ids| == |ts| <= |times| && accounts.accounts == AfterAll(m, ts) &&
      ledger.records == records + LedgerOfAll(m, ts, ids, times) && audit.entries == entries + Verdicts(m, ts)
    }

    lemma NothingDrained(ts: seq<Transaction>, ids: seq<uint64>, times: seq<int64>)
      requires |ids| == |ts| <= |times|
      ensures Drained(accounts.accounts, ledger.records, audit.entries, ts[..0], ids[..0], times)
    {
    }

    // Draining an empty queue leaves the stores as they were.
    lemma StillDrained(m: Table, records: seq<TransactionRecord>, entries: seq<bool>, times: seq<int64>)
      requires Drained(m, records, entries, [], [], times)
      ensures accounts.accounts == m && ledger.records == records && audit.entries == entries
    {
    }

    lemma OneMoreDrained(m: Table, ts: seq<Transaction>, ids: seq<uint64>, times: seq<int64>, n: nat)
      requires n < |ts| == |ids| <= |times|
      ensures AfterAll(m, ts[..n + 1]) == After(AfterAll(m, ts[..n]), ts[n])
      ensures LedgerOfAll(m, ts[..n + 1], ids[..n + 1], times) ==
                LedgerOfAll(m, ts[..n], ids[..n], times) + LedgerOf(AfterAll(m, ts[..n]), ts[n], ids[n], times[n])
      ensures Verdicts(m, ts[..n + 1]) == Verdicts(m, ts[..n]) + [Post(AfterAll(m, ts[..n]), ts[n]).Some?]
    {
      hide Post, LedgerOf, After;
      assert ts[..n + 1][..n] == ts[..n] && ids[..n + 1][..n] == ids[..n];
    }

    // ----- start and stop -----

    // A pool exists between start and stop; until its workers get to run it holds
    // one consumer loop for each of them.
    ghost predicate Staffed()
      reads `pool, if pool.Some? then {pool.value} else {}
    {
      pool.Some? ==> !pool.value.stopping && |pool.value.tasks| == workerCount && pool.value.ran == []
    }

    method Start()
      requires Staffed()
      modifies this`accepting, this`pool
      ensures Staffed() && pool.Some?
      ensures if old(pool).Some? then pool == old(pool) && accepting == old(accepting)
              else fresh(pool.value) && accepting
    {
      if pool.Some? { return; }
      accepting := true;
      var created := new ThreadPool();
      for i := 0 to workerCount
        invariant |created.tasks| == i && !created.stopping && created.ran == [] && accepting
      {
        var submitted := created.Submit(i);
      }
      pool := Some(created);
    }

    // consumer_loop once stop was requested: it returns when the queue is drained.
    method ConsumerLoop(times: seq<int64>)
      requires Serving() && Clock(times, |queue.queue|)
      modifies this`run, this`acts, this`sys, this`reserved, queue`queue,
               accounts, ledger, audit, wal, wal.file, locks
      ensures Serving() && old(run) <= run && queue.queue == [] && reserved == []
      ensures Drained(old(accounts.accounts), old(ledger.records), old(audit.entries),
                      old(queue.queue), old(reserved), times)
    {
      hide IsRun, Mirrors, History, Post, AllFinished, Resting, Ended, LedgerOf, Journaled;
      ghost var queued, ids := queue.queue, reserved;
      var n := 0;
      NothingDrained(queued, ids, times);
      while true
        invariant Serving() && old(run) <= run && n <= |queued| && queue.queue == queued[n..] && reserved == ids[n..]
        invariant |ids| == |queued|
        invariant Drained(old(accounts.accounts), old(ledger.records), old(audit.entries), queued[..n], ids[..n], times)
        decreases |queue.queue|
      {
        var txn := queue.WaitPop(true);
        if txn.None? { break; }
        assert txn.value == queued[n];
        var ok := ProcessPopped(txn.value, times[n]);
        OneMoreDrained(old(accounts.accounts), queued, ids, times, n);
        n := n + 1;
      }
      assert queued[..n] == queued && ids[..n] == ids;
    }

    // stop, when the workers get to run only while it joins them, one after the
    // other: with a worker the queue is drained, each transaction processed on what
    // the ones before it left; without one nothing is touched.
    method Stop(times: seq<int64>)
      requires Serving() && Staffed() && Clock(times, |queue.queue|)
      modifies this`run, this`acts, this`sys, this`reserved, this`accepting, this`pool, queue`queue,
               accounts, ledger, audit, wal, wal.file, locks, if pool.Some? then {pool.value} else {}
      ensures Serving() && Staffed() && old(run) <= run && !accepting && pool.None?
      ensures queue.queue == [] <==> (old(pool).Some? && workerCount > 0) || old(queue.queue) == []
      ensures old(pool).Some? && workerCount > 0 ==>
                reserved == [] && Drained(old(accounts.accounts), old(ledger.records), old(audit.entries),
                                          old(queue.queue), old(reserved), times)
      ensures !(old(pool).Some? && workerCount > 0) ==>
                sys == old(sys) && reserved == old(reserved) && queue.queue == old(queue.queue)
    {
      hide IsRun, Mirrors, History, AllFinished, Resting, AfterAll, LedgerOfAll, Verdicts;
      accepting := false;
      if pool.None? { return; }
      pool.value.Stop();
      var consumers := pool.value.ran;
      for i := 0 to |consumers|
        invariant Serving() && old(run) <= run && pool == old(pool) && !accepting
        invariant i == 0 ==> sys == old(sys) && reserved == old(reserved) && queue.queue == old(queue.queue) &&
                             accounts.accounts == old(accounts.accounts) && ledger.records == old(ledger.records) &&
                             audit.entries == old(audit.entries)
        invariant i > 0 ==> queue.queue == [] && reserved == [] &&
                            Drained(old(accounts.accounts), old(ledger.records), old(audit.entries),
                                    old(queue.queue), old(reserved), times)
      {
        ghost var m, records, entries := accounts.accounts, ledger.records, audit.entries;
        ConsumerLoop(times);
        if i > 0 { StillDrained(m, records, entries, times); }
      }
      pool := None;
    }
  }
}
