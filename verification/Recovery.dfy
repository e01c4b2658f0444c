// Crash recovery as tests/test_wal.cpp performs it: load the snapshot, open the
// journal, and apply the Committed records from the snapshot's lsn on.

module Recovery {
  import opened Basics
  import opened Domain
  import opened SerialBank
  import opened Codec
  import opened Wal
  import opened Journal
  import opened Engine
  import opened SnapshotFile

  // The accounts after replaying the records, and the exception that ended it.
  function ReplaySpan(span: seq<AccountState>, records: seq<TransactionRecord>): Outcome {
    if records == [] then Outcome(span, None) else
    var o := ReplaySpan(span, records[..|records| - 1]);
    var r := records[|records| - 1];
    if o.thrown.Some? || r.state != Committed then o else
    match Materialize(r)
    case Throw(e) => Outcome(o.span, Some(e))
    case Ok(t) => ApplySpan(t, o.span)
  }

  lemma {:induction false} ReplayStops(span: seq<AccountState>, records: seq<TransactionRecord>, n: nat)
    requires n <= |records| && ReplaySpan(span, records[..n]).thrown.Some?
    ensures ReplaySpan(span, records) == ReplaySpan(span, records[..n])
    decreases |records|
  {
    hide Materialize, ApplySpan;
    if n == |records| {
      assert records[..n] == records;
    } else {
      var m := |records| - 1;
      assert records[..m][..n] == records[..n];
      ReplayStops(span, records[..m], n);
    }
  }

  // One more record of a replay that has not been stopped.
  lemma {:induction false} ReplayNext(span: seq<AccountState>, records: seq<TransactionRecord>, i: nat)
    requires i < |records| && ReplaySpan(span, records[..i]).thrown.None?
    ensures ReplaySpan(span, records[..i + 1]) ==
              var o := ReplaySpan(span, records[..i]);
              if records[i].state != Committed then o else
              match Materialize(records[i])
              case Throw(e) => Outcome(o.span, Some(e))
              case Ok(t) => ApplySpan(t, o.span)
  {
    hide Materialize, ApplySpan;
    assert records[..i + 1][..i] == records[..i];
  }

  // A replay that throws has gone through some records, and then met one that cannot
  // be materialized or applied; the accounts are as that one left them.
  lemma {:induction false} ReplayThrows(span: seq<AccountState>, records: seq<TransactionRecord>) returns (n: nat)
    requires ReplaySpan(span, records).thrown.Some?
    ensures n < |records| && records[n].state == Committed
    ensures var before := ReplaySpan(span, records[..n]);
            before.thrown.None? &&
            ReplaySpan(span, records) ==
              match Materialize(records[n])
              case Throw(e) => Outcome(before.span, Some(e))
              case Ok(t) => ApplySpan(t, before.span)
    decreases |records|
  {
    hide Materialize, ApplySpan;
    var m := |records| - 1;
    if ReplaySpan(span, records[..m]).thrown.None? {
      n := m;
    } else {
      n := ReplayThrows(span, records[..m]);
      assert records[..m][..n] == records[..n];
    }
  }

  method ReplayRecords(accounts: seq<Account>, records: seq<TransactionRecord>) returns (thrown: Option<Exception>)
    requires DistinctObjects(accounts)
    modifies accounts
    ensures Outcome(Views(accounts), thrown) == ReplaySpan(old(Views(accounts)), records)
  {
    thrown := None;
    assert ReplaySpan(Views(accounts), records[..0]) == Outcome(Views(accounts), None);
    hide Materialize, ApplySpan, ReplaySpan, Views, DistinctObjects;
    for i := 0 to |records|
      invariant thrown.None?
      invariant Outcome(Views(accounts), None) == ReplaySpan(old(Views(accounts)), records[..i])
    {
      ReplayNext(old(Views(accounts)), records, i);
      if records[i].state == Committed {
        match Materialize(records[i]) {
          case Throw(e) =>
            ReplayStops(old(Views(accounts)), records, i + 1);
            return Some(e);
          case Ok(t) =>
            thrown := Apply(t, accounts);
            if thrown.Some? {
              ReplayStops(old(Views(accounts)), records, i + 1);
              return;
            }
        }
      }
    }
    assert records[..|records|] == records;
  }

  // ----- the vector of accounts against the table -----

  ghost predicate IsMaxKey(m: Table, k: uint64) {
    k in m && forall a :: a in m ==> a <= k
  }

  lemma {:induction false} MaxKeyExists(m: Table)
    requires m != map[]
    ensures exists k :: IsMaxKey(m, k)
    decreases m
  {
    var k :| k in m;
    var rest := m - {k};
    assert forall a :: a in m ==> a == k || a in rest;
    if rest == map[] {
      assert IsMaxKey(m, k);
    } else {
      MaxKeyExists(rest);
      var l :| IsMaxKey(rest, l);
      assert IsMaxKey(m, if l > k then l else k);
    }
  }

  // InMemoryAccountRepository::all: the accounts in ascending order of their ids.
  ghost function AllOf(m: Table): (span: seq<AccountState>)
    decreases m
  {
    if m == map[] then [] else
    MaxKeyExists(m);
    var k :| IsMaxKey(m, k);
    AllOf(m - {k}) + [m[k]]
  }

  // Ascending, and holding exactly the accounts of the table.
  ghost predicate Lists(span: seq<AccountState>, m: Table) {
    (forall i, j :: 0 <= i < j < |span| ==> span[i].id < span[j].id) &&
    (forall i :: 0 <= i < |span| ==> span[i].id in m) && ToTable(span) == m
  }

  lemma {:induction false} ListsOneMore(span: seq<AccountState>, m: Table, k: uint64)
    requires IsMaxKey(m, k) && m[k].id == k && Lists(span, m - {k})
    ensures Lists(span + [m[k]], m)
  {
    var longer := span + [m[k]];
    assert longer[..|longer| - 1] == span;
    assert (m - {k})[k := m[k]] == m;
  }

  lemma {:induction false} AllOfLists(m: Table)
    requires WellKeyed(m)
    ensures Lists(AllOf(m), m)
    decreases m
  {
    if m != map[] {
      MaxKeyExists(m);
      var k :| IsMaxKey(m, k) && AllOf(m) == AllOf(m - {k}) + [m[k]];
      AllOfLists(m - {k});
      ListsOneMore(AllOf(m - {k}), m, k);
    }
  }

  lemma {:induction false} AllOfSound(m: Table)
    requires WellKeyed(m)
    ensures DistinctIds(AllOf(m)) && ToTable(AllOf(m)) == m
    ensures forall i :: 0 <= i < |AllOf(m)| ==> AllOf(m)[i].id in m && m[AllOf(m)[i].id] == AllOf(m)[i]
    ensures forall i, j :: 0 <= i < j < |AllOf(m)| ==> AllOf(m)[i].id < AllOf(m)[j].id
  {
    hide AllOf;
    AllOfLists(m);
    ToTableLookup(AllOf(m));
  }

  // ----- replaying on the vector is replaying on the table -----

  lemma {:induction false} WholeTableCovers(span: seq<AccountState>, m: Table, t: Transaction)
    requires DistinctIds(span) && ToTable(span) == m
    ensures Covers(span, m, t)
  {
    ToTableLookup(span);
  }

  lemma {:induction false} TableOfSpan(span: seq<AccountState>)
    requires DistinctIds(span)
    ensures WellKeyed(ToTable(span))
  {
    ToTableLookup(span);
  }

  lemma {:induction false} ApplyOnTable(t: Transaction, span: seq<AccountState>, m: Table)
    requires DistinctIds(span) && ToTable(span) == m
    ensures var o := ApplySpan(t, span);
            (o.thrown.None? <==> Post(m, t).Some?) &&
            (o.thrown.None? ==> DistinctIds(o.span) && ToTable(o.span) == Post(m, t).value)
  {
    TableOfSpan(span);
    WholeTableCovers(span, m, t);
    LocalViewRefinesTable(t, span, m);
    hide ApplySpan, Post;
    if ApplySpan(t, span).thrown.None? {
      SameIds(t, span);
      Overwritten(span, ApplySpan(t, span).span);
    }
  }

  // Saving a full vector over the table replaces all of it.
  lemma {:induction false} Overwritten(span: seq<AccountState>, o: seq<AccountState>)
    requires DistinctIds(span) && |o| == |span| && forall i :: 0 <= i < |span| ==> o[i].id == span[i].id
    ensures ToTable(span) + ToTable(o) == ToTable(o)
  {
    ToTableLookup(span);
    ToTableLookup(o);
    forall a | a in ToTable(span) ensures a in ToTable(o) {
      var i :| 0 <= i < |span| && span[i].id == a;
      assert o[i].id == a;
    }
  }

  lemma {:induction false} SameIds(t: Transaction, span: seq<AccountState>)
    requires DistinctIds(span) && ApplySpan(t, span).thrown.None?
    ensures var o := ApplySpan(t, span).span;
            |o| == |span| && forall i :: 0 <= i < |span| ==> o[i].id == span[i].id
  {
    ApplyMovesEach(t, span);
    hide ApplySpan;
    forall i | 0 <= i < |span| ensures ApplySpan(t, span).span[i].id == span[i].id {
      assert Moved(t, span[i]) == Ok(ApplySpan(t, span).span[i]);
      MovedKeepsId(t, span[i]);
    }
  }

  // The loop of the recovery on a vector of accounts does what Replay does on the
  // table they form: it throws when Replay is refused, and else ends in its table.
  lemma {:induction false} ReplaySpanIsReplay(span: seq<AccountState>, records: seq<TransactionRecord>)
    requires DistinctIds(span)
    ensures var o := ReplaySpan(span, records);
            var r := Replay(ToTable(span), records);
            (o.thrown.None? <==> r.Some?) &&
            (r.Some? ==> DistinctIds(o.span) && ToTable(o.span) == r.value)
    decreases |records|
  {
    if records != [] {
      var n := |records| - 1;
      ReplaySpanIsReplay(span, records[..n]);
      hide ApplySpan, Post, Materialize;
      var o := ReplaySpan(span, records[..n]);
      match Materialize(records[n]) {
        case Throw(_) =>
        case Ok(t) =>
          if o.thrown.None? { ApplyOnTable(t, o.span, Replay(ToTable(span), records[..n]).value); }
      }
    }
  }

  // ----- the whole of it, from bytes -----

  // What a checkpoint of the engine writes: all() and the size of the journal.
  ghost function Stored(snapshot: Snapshot): SnapshotData
    requires snapshot.lsn < TWO_64
  {
    SnapshotData(snapshot.lsn, AllOf(snapshot.accounts))
  }

  // What the snapshot file can hold.
  ghost predicate Storable(snapshot: Snapshot) {
    snapshot.lsn != TWO_63 &&
    forall a :: a in snapshot.accounts ==> EncodableAccount(snapshot.accounts[a])
  }

  // The accounts and exception recovery ends with, from the two files' bytes.
  function RecoverBytes(snapshotText: bytes, journalBytes: bytes): Option<Outcome> {
    match LoadText(snapshotText)
    case None => None
    case Some(s) => Some(ReplaySpan(s.accounts, RecordsFrom(Scan(journalBytes).entries, s.lsn)))
  }

  // The recovery program itself, on a snapshot file and a journal file.
  method RecoverBank(store: SnapshotStore, file: File)
      returns (accounts: Option<seq<Account>>, thrown: Option<Exception>)
    ensures store.content == old(store.content) && file.content == old(file.content)
    ensures match (if store.content.None? then None else RecoverBytes(store.content.value, file.content))
            case None => accounts == None
            case Some(o) => accounts.Some? && Views(accounts.value) == o.span && thrown == o.thrown
  {
    accounts, thrown := None, None;
    var snapshot := store.Load();
    if snapshot.None? { return; }
    var wal := new WalLogger(file);
    var recovered := NewAccounts(snapshot.value.accounts);
    var records := wal.ReplayFrom(snapshot.value.lsn);
    thrown := ReplayRecords(recovered, records);
    accounts := Some(recovered);
  }

  method NewAccounts(states: seq<AccountState>) returns (accounts: seq<Account>)
    ensures fresh(accounts) && DistinctObjects(accounts) && Views(accounts) == states
  {
    accounts := [];
    for i := 0 to |states|
      invariant |accounts| == i && fresh(accounts) && DistinctObjects(accounts)
      invariant forall k :: 0 <= k < i ==> accounts[k].View() == states[k]
    {
      var a := new Account(states[i]);
      accounts := accounts + [a];
    }
  }

  lemma {:induction false} AllOfEncodable(m: Table)
    requires WellKeyed(m)
    ensures AllEncodableAccounts(AllOf(m)) <==> forall a :: a in m ==> EncodableAccount(m[a])
  {
    hide AllOf, EncodableAccount;
    AllOfSound(m);
    ToTableLookup(AllOf(m));
    if AllEncodableAccounts(AllOf(m)) {
      forall a | a in m ensures EncodableAccount(m[a]) {
        var i :| 0 <= i < |AllOf(m)| && AllOf(m)[i].id == a;
        assert m[a] == AllOf(m)[i];
      }
    }
  }

  lemma {:induction false} StoredLoads(snapshot: Snapshot)
    requires snapshot.lsn < TWO_64 && WellKeyed(snapshot.accounts)
    ensures LoadText(SnapshotText(Stored(snapshot))) == if Storable(snapshot) then Some(Stored(snapshot)) else None
  {
    AllOfEncodable(snapshot.accounts);
    SnapshotRoundTrip(Stored(snapshot));
    hide LoadText, SnapshotText, EncodableAccount, AllOf, AllEncodableAccounts;
  }

  // Recovering from the bytes of a snapshot and of a journal with a torn last line
  // is recovering from the snapshot and the journal they stand for, when the file
  // can hold the snapshot; when it cannot, there is nothing to recover from.
  lemma {:induction false} BytesRecover(snapshot: Snapshot, j: seq<JEntry>, torn: bytes)
    requires WellKeyed(snapshot.accounts) && snapshot.lsn < TWO_64 && snapshot.lsn <= |j|
    requires AllEncodable(j) && NoNewline(torn) && Recover(snapshot, j).Some?
    ensures var o := RecoverBytes(SnapshotText(Stored(snapshot)), Image(j) + torn);
            if Storable(snapshot) then
              o.Some? && o.value.thrown == None && DistinctIds(o.value.span) &&
              ToTable(o.value.span) == Recover(snapshot, j).value
            else o == None
  {
    StoredLoads(snapshot);
    ReplayReadsJournal(j, torn, snapshot.lsn);
    AllOfSound(snapshot.accounts);
    hide LoadText, SnapshotText, Scan, Records, ReplaySpan, Replay, Image, Storable;
    ReplaySpanIsReplay(AllOf(snapshot.accounts), Read(j[snapshot.lsn..]));
    if snapshot.lsn == |j| { ReplayNothing(snapshot.accounts); }
  }

  lemma {:induction false} ReplayNothing(m: Table)
    ensures Replay(m, []) == Some(m)
  {
  }
}
