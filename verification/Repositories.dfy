// src/persistence: the in-memory repositories.

module Repositories {
  import opened Basics
  import opened Domain
  import opened SerialBank
  import opened EngineTheorems

  class InMemoryAccountRepository {
    var accounts: Table

    constructor (accounts: Table)
      ensures this.accounts == accounts
    {
      this.accounts := accounts;
    }

    method FindById(id: uint64) returns (a: Option<AccountState>)
      ensures a == if id in accounts then Some(accounts[id]) else None
    {
      a := if id in accounts then Some(accounts[id]) else None;
    }

    method Save(a: AccountState)
      modifies this
      ensures accounts == old(accounts)[a.id := a]
    {
      accounts := accounts[a.id := a];
    }
  }

  class InMemoryTransactionRepository {
    var records: seq<TransactionRecord>

    constructor ()
      ensures records == []
    {
      records := [];
    }

    method Append(r: TransactionRecord)
      modifies this
      ensures records == old(records) + [r]
    {
      records := records + [r];
    }

    // The records about the account, in order.
    method RecordsFor(id: uint64) returns (out: seq<TransactionRecord>)
      ensures out == ForAccount(records, id)
    {
      out := [];
      for i := 0 to |records|
        invariant out == ForAccount(records[..i], id)
      {
        assert records[..i + 1][..i] == records[..i];
        var r := records[i];
        var involves := (r.from.Some? && r.from.value == id) || (r.to.Some? && r.to.value == id);
        if involves { out := out + [r]; }
      }
      assert records[..|records|] == records;
    }
  }

  // The audit trail, as far as process_impl uses it: whether each entry is
  // "txn.completed" or "txn.failed".
  class InMemoryAuditRepository {
    var entries: seq<bool>

    constructor ()
      ensures entries == []
    {
      entries := [];
    }

    method Append(completed: bool)
      modifies this
      ensures entries == old(entries) + [completed]
    {
      entries := entries + [completed];
    }
  }

  // for_account keeps the records that name the account, and only those.
  lemma {:induction false} ForAccountKeeps(records: seq<TransactionRecord>, id: uint64, r: TransactionRecord)
    ensures r in ForAccount(records, id) <==> r in records && Involves(r, id)
    decreases |records|
  {
    if records != [] {
      var n := |records| - 1;
      ForAccountKeeps(records[..n], id, r);
      assert records == records[..n] + [records[n]];
    }
  }

  // `kept` are those of the first n records that are about the account, in order:
  // `at` lists their positions, ascending, and those of no other records.
  ghost predicate PicksAccount(records: seq<TransactionRecord>, n: nat, id: uint64,
                               kept: seq<TransactionRecord>, at: seq<nat>)
    requires n <= |records|
  {
    |at| == |kept| &&
    (forall i :: 0 <= i < |at| ==> at[i] < n && kept[i] == records[at[i]] && Names(kept[i], id)) &&
    (forall i, j :: 0 <= i < j < |at| ==> at[i] < at[j]) &&
    (forall k :: 0 <= k < n && k !in at ==> !Names(records[k], id))
  }

  predicate Names(r: TransactionRecord, id: uint64) {
    (r.from.Some? && r.from.value == id) || (r.to.Some? && r.to.value == id)
  }

  lemma {:induction false} PicksOneMore(records: seq<TransactionRecord>, n: nat, id: uint64,
                                        kept: seq<TransactionRecord>, at: seq<nat>)
    requires n < |records| && PicksAccount(records, n, id, kept, at)
    ensures if Names(records[n], id) then PicksAccount(records, n + 1, id, kept + [records[n]], at + [n])
            else PicksAccount(records, n + 1, id, kept, at)
  {
    hide Names;
    if Names(records[n], id) {
      forall k | 0 <= k < n + 1 && k !in at + [n] ensures !Names(records[k], id) {
        assert (at + [n])[|at|] == n && k !in at;
      }
    }
  }

  lemma {:induction false} ForAccountPicks(records: seq<TransactionRecord>, n: nat, id: uint64) returns (at: seq<nat>)
    requires n <= |records|
    ensures PicksAccount(records, n, id, ForAccount(records[..n], id), at)
    decreases n
  {
    hide PicksAccount;
    if n == 0 {
      at := [];
      NonePicked(records, id);
    } else {
      at := ForAccountPicks(records, n - 1, id);
      PicksOneMore(records, n - 1, id, ForAccount(records[..n - 1], id), at);
      assert records[..n][..n - 1] == records[..n - 1];
      var before := ForAccount(records[..n - 1], id);
      assert before + [] == before;
      if Names(records[n - 1], id) { at := at + [n - 1]; }
    }
  }

  lemma {:induction false} NonePicked(records: seq<TransactionRecord>, id: uint64)
    ensures PicksAccount(records, 0, id, [], [])
  {
  }
}
