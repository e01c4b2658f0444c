// src/concurrency: AccountLockManager, ScopedAccountLock, ScopedAccountLocks.
//
// A mutex is named by a number standing for its address; `locked` are the mutexes
// locked at the moment. Locking a locked mutex would block, so it is required not
// to happen here; how blocked threads get on is the engine's matter.

module AccountLocks {
  import opened Basics
  import opened EngineInvariant

  class AccountLockManager {
    var mutexes: map<uint64, nat>
    var locked: set<nat>

    // Different accounts have different mutexes, and only existing ones are locked.
    ghost predicate Valid()
      reads this
    {
      TableOk(mutexes) && forall m :: m in locked ==> m < |mutexes|
    }

    ghost predicate Available(id: uint64)
      reads this
    {
      id in mutexes ==> mutexes[id] !in locked
    }

    constructor ()
      ensures Valid() && mutexes == map[] && locked == {}
    {
      mutexes := map[];
      locked := {};
    }

    // Creates the account's mutex on first use and never replaces one.
    method MutexFor(id: uint64) returns (m: nat)
      requires Valid()
      modifies this`mutexes
      ensures Valid() && id in mutexes && m == mutexes[id]
      ensures mutexes == old(mutexes)[id := m]
      ensures m == if id in old(mutexes) then old(mutexes)[id] else |old(mutexes)|
      ensures forall a :: a in mutexes && mutexes[a] == m ==> a == id
    {
      if id !in mutexes {
        SlotAdded(mutexes, id);
        mutexes := mutexes[id := |mutexes|];
      }
      m := mutexes[id];
      assert old(mutexes)[id := m] == mutexes;
    }

    method Lock(m: nat)
      requires Valid() && m < |mutexes| && m !in locked
      modifies this`locked
      ensures Valid() && locked == old(locked) + {m}
    {
      locked := locked + {m};
    }

    method Unlock(m: nat)
      requires Valid() && m in locked
      modifies this`locked
      ensures Valid() && locked == old(locked) - {m}
    {
      locked := locked - {m};
    }
  }

  lemma {:induction false} SlotAdded(table: map<uint64, nat>, id: uint64)
    requires TableOk(table) && id !in table
    ensures TableOk(table[id := |table|]) && |table[id := |table|]| == |table| + 1
  {
  }

  // Owns one locked mutex, or nothing after a move or a release.
  class ScopedAccountLock {
    const manager: AccountLockManager
    var mutex: Option<nat>
    var id: uint64

    ghost predicate Valid()
      reads this, manager
    {
      manager.Valid() && (mutex.Some? ==> mutex.value in manager.locked)
    }

    constructor (manager: AccountLockManager, id: uint64)
      requires manager.Valid() && manager.Available(id)
      modifies manager
      ensures this.manager == manager && Valid() && this.id == id
      ensures mutex.Some? && mutex.value !in old(manager.locked)
      ensures manager.mutexes == old(manager.mutexes)[id := mutex.value]
      ensures mutex.value == if id in old(manager.mutexes) then old(manager.mutexes)[id] else |old(manager.mutexes)|
      ensures manager.locked == old(manager.locked) + {mutex.value}
      ensures forall a :: a in old(manager.mutexes) ==> manager.mutexes[a] == old(manager.mutexes[a])
      ensures forall a :: a != id && old(manager.Available(a)) ==> manager.Available(a)
    {
      var m := manager.MutexFor(id);
      manager.Lock(m);
      this.manager := manager;
      this.id := id;
      mutex := Some(m);
    }

    // The move constructor: the mutex changes hands and stays locked.
    constructor Moved(other: ScopedAccountLock)
      requires other.Valid()
      modifies other
      ensures manager == other.manager && mutex == old(other.mutex) && id == other.id == old(other.id)
      ensures Valid() && other.Valid() && other.mutex == None
    {
      manager := other.manager;
      mutex := other.mutex;
      id := other.id;
      new;
      other.mutex := None;
    }

    // Move assignment: lets go of its own mutex first, unless assigned to itself.
    method MoveFrom(other: ScopedAccountLock)
      requires Valid() && other.Valid() && other.manager == manager
      requires this != other && mutex.Some? ==> other.mutex != mutex
      modifies this, other, manager`locked
      ensures Valid() && other.Valid()
      ensures this == other ==> mutex == old(mutex) && id == old(id) && manager.locked == old(manager.locked)
      ensures this != other ==>
                mutex == old(other.mutex) && id == old(other.id) && other.mutex == None &&
                manager.locked == old(manager.locked) - (if old(mutex).Some? then {old(mutex).value} else {})
    {
      if this != other {
        if mutex.Some? { manager.Unlock(mutex.value); }
        mutex := other.mutex;
        id := other.id;
        other.mutex := None;
      }
    }

    // The destructor.
    method Release()
      requires Valid()
      modifies this`mutex, manager`locked
      ensures Valid() && mutex == None
      ensures manager.locked == old(manager.locked) - (if old(mutex).Some? then {old(mutex).value} else {})
    {
      if mutex.Some? {
        manager.Unlock(mutex.value);
        mutex := None;
      }
    }
  }

  // The guards own the mutexes of `slots`, one each, all of the same manager.
  ghost predicate Guards(guards: seq<ScopedAccountLock>, slots: seq<nat>, manager: AccountLockManager)
    reads guards
  {
    |guards| == |slots| &&
    (forall k :: 0 <= k < |guards| ==> guards[k].manager == manager && guards[k].mutex == Some(slots[k])) &&
    (forall j, k :: 0 <= j < k < |guards| ==> guards[j] != guards[k])
  }

  // Two accounts locked in ascending order; one mutex if they are the same.
  class ScopedAccountLocks {
    var ids: (uint64, uint64)
    var first: ScopedAccountLock
    var second: Option<ScopedAccountLock>

    constructor (manager: AccountLockManager, a: uint64, b: uint64)
      requires manager.Valid() && manager.Available(a) && manager.Available(b)
      modifies manager
      ensures ids.0 <= ids.1 && {ids.0, ids.1} == {a, b}
      ensures fresh(first) && first.manager == manager && first.Valid() && first.id == ids.0
      ensures second.Some? <==> a != b
      ensures second.Some? ==>
                fresh(second.value) && second.value != first && second.value.manager == manager &&
                second.value.Valid() && second.value.id == ids.1 && second.value.mutex != first.mutex
      ensures a in manager.mutexes && b in manager.mutexes
      ensures manager.locked == old(manager.locked) + {manager.mutexes[a], manager.mutexes[b]}
    {
      var lower, higher := a, b;
      if higher < lower { lower, higher := higher, lower; }
      ids := (lower, higher);
      var low := new ScopedAccountLock(manager, lower);
      first := low;
      if higher != lower {
        var high := new ScopedAccountLock(manager, higher);
        second := Some(high);
      } else {
        second := None;
      }
    }

    // Destruction: the higher account first.
    method Release()
      requires first.Valid() && (second.Some? ==> second.value.Valid() && second.value != first)
      requires second.Some? ==> second.value.manager == first.manager && second.value.mutex != first.mutex
      modifies first, first.manager, if second.Some? then {second.value} else {}
      ensures first.mutex == None && (second.Some? ==> second.value.mutex == None)
      ensures first.manager.locked == old(first.manager.locked)
                - (if old(first.mutex).Some? then {old(first.mutex).value} else {})
                - (if second.Some? && old(second.value.mutex).Some? then {old(second.value.mutex).value} else {})
    {
      if second.Some? { second.value.Release(); }
      first.Release();
    }
  }
}
