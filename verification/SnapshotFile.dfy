// src/persistence/SnapshotStore.cpp: the snapshot document.

module SnapshotFile {
  import opened Basics
  import opened Domain
  import opened JsonValue
  import opened JsonParser
  import opened JsonRefusal
  import opened JsonRoundTrip
  import opened Codec

  datatype SnapshotData = SnapshotData(lsn: uint64, accounts: seq<AccountState>)

  function AccountsJson(accounts: seq<AccountState>): seq<Value> {
    if accounts == [] then [] else
    AccountsJson(accounts[..|accounts| - 1]) + [AccountJson(accounts[|accounts| - 1])]
  }

  function SnapshotJson(s: SnapshotData): Value {
    Object([Member("lsn", Integer(ToSigned(s.lsn))), Member("accounts", Array(AccountsJson(s.accounts)))])
  }

  function SnapshotText(s: SnapshotData): bytes {
    Dump(SnapshotJson(s)) + ['\n']
  }

  // Value::items: no items unless the value is an array.
  function Items(v: Value): seq<Value> {
    if v.Array? then v.items else []
  }

  function AccountsFromJson(items: seq<Value>): Option<seq<AccountState>> {
    if items == [] then Some([]) else
    match AccountsFromJson(items[..|items| - 1])
    case None => None
    case Some(before) =>
      match AccountFromJson(items[|items| - 1])
      case None => None
      case Some(a) => Some(before + [a])
  }

  function SnapshotFromJson(v: Value): Option<SnapshotData> {
    if !v.Object? then None else
    var lsn := IntOf(v, "lsn");
    var accounts := Find(v, "accounts");
    if lsn.None? || accounts.None? then None else
    match AccountsFromJson(Items(accounts.value))
    case None => None
    case Some(list) => Some(SnapshotData(ToUnsigned(lsn.value), list))
  }

  function LoadText(text: bytes): Option<SnapshotData> {
    match Parse(text)
    case None => None
    case Some(v) => SnapshotFromJson(v)
  }

  // A snapshot file; None when there is no file. Its replacement is atomic.
  class SnapshotStore {
    var content: Option<bytes>

    constructor ()
      ensures content == None
    {
      content := None;
    }

    method Store(s: SnapshotData)
      modifies this
      ensures content == Some(SnapshotText(s))
    {
      var doc := new Document(Object([]));
      Put(doc, "lsn", Integer(ToSigned(s.lsn)));
      var accounts := new Document(Array([]));
      for i := 0 to |s.accounts|
        invariant accounts.value == Array(AccountsJson(s.accounts[..i]))
        invariant doc.value == Object([Member("lsn", Integer(ToSigned(s.lsn)))])
      {
        assert s.accounts[..i + 1][..i] == s.accounts[..i];
        var account := AccountToJson(s.accounts[i]);
        var thrown := accounts.Push(account);
      }
      assert s.accounts[..|s.accounts|] == s.accounts;
      Put(doc, "accounts", accounts.value);
      assert doc.value == SnapshotJson(s);
      var text := DumpText(doc.value);
      content := Some(text + ['\n']);
    }

    method Load() returns (s: Option<SnapshotData>)
      ensures s == if content.None? then None else LoadText(content.value)
    {
      if content.None? { return None; }
      var doc := ParseText(content.value);
      if doc.None? || !doc.value.Object? { return None; }
      var lsn := IntOf(doc.value, "lsn");
      var accounts := Find(doc.value, "accounts");
      if lsn.None? || accounts.None? { return None; }
      var items := Items(accounts.value);
      var list: seq<AccountState> := [];
      for i := 0 to |items|
        invariant AccountsFromJson(items[..i]) == Some(list)
      {
        assert items[..i + 1][..i] == items[..i];
        var account := AccountFromJson(items[i]);
        if account.None? {
          AccountsFail(items, i + 1);
          return None;
        }
        list := list + [account.value];
      }
      assert items[..|items|] == items;
      s := Some(SnapshotData(ToUnsigned(lsn.value), list));
    }
  }

  lemma {:induction false} AccountsFail(items: seq<Value>, n: nat)
    requires n <= |items| && AccountsFromJson(items[..n]).None?
    ensures AccountsFromJson(items).None?
    decreases |items|
  {
    hide AccountFromJson;
    if n == |items| {
      assert items[..n] == items;
    } else {
      var m := |items| - 1;
      assert items[..m][..n] == items[..n];
      AccountsFail(items[..m], n);
    }
  }

  // ----- round trip -----

  ghost predicate AllEncodableAccounts(accounts: seq<AccountState>) {
    forall i :: 0 <= i < |accounts| ==> EncodableAccount(accounts[i])
  }

  lemma {:induction false} AccountsFields(accounts: seq<AccountState>)
    ensures AccountsFromJson(AccountsJson(accounts)) ==
              if AllEncodableAccounts(accounts) then Some(accounts) else None
    decreases |accounts|
  {
    hide AccountFromJson, AccountJson, EncodableAccount;
    if accounts == [] {
    } else {
      var n := |accounts| - 1;
      AccountsFields(accounts[..n]);
      AccountFields(accounts[n]);
      var items := AccountsJson(accounts);
      assert items[..|items| - 1] == AccountsJson(accounts[..n]);
      assert accounts[..n] + [accounts[n]] == accounts;
      assert AllEncodableAccounts(accounts) <==> AllEncodableAccounts(accounts[..n]) && EncodableAccount(accounts[n]);
    }
  }

  lemma {:induction false} AccountsShape(accounts: seq<AccountState>)
    ensures forall i :: 0 <= i < |AccountsJson(accounts)| ==> Keyed(AccountsJson(accounts)[i])
    ensures AllEncodableAccounts(accounts) ==>
              forall i :: 0 <= i < |AccountsJson(accounts)| ==> Canonical(AccountsJson(accounts)[i])
    decreases |accounts|
  {
    hide AccountJson, Canonical, Keyed, EncodableAccount;
    if accounts == [] {
    } else {
      var n := |accounts| - 1;
      AccountsShape(accounts[..n]);
      AccountKeyed(accounts[n]);
      if AllEncodableAccounts(accounts) {
        assert AllEncodableAccounts(accounts[..n]);
        AccountCanonical(accounts[n]);
      }
    }
  }

  lemma {:induction false} SnapshotFields(s: SnapshotData)
    ensures DistinctKeys(SnapshotJson(s).members)
    ensures SnapshotFromJson(SnapshotJson(s)) == if AllEncodableAccounts(s.accounts) then Some(s) else None
  {
    AccountsFields(s.accounts);
    hide AccountsFromJson, AccountsJson, AllEncodableAccounts;
    var m := SnapshotJson(s).members;
    assert DistinctKeys(m);
    FindAt(m, 0);
    FindAt(m, 1);
    SignedRoundTrip(s.lsn);
  }

  lemma {:induction false} SnapshotShape(s: SnapshotData)
    ensures Keyed(SnapshotJson(s))
    ensures s.lsn != TWO_63 && AllEncodableAccounts(s.accounts) ==> Canonical(SnapshotJson(s))
    ensures s.lsn == TWO_63 ==> !Canonical(SnapshotJson(s))
  {
    SnapshotFields(s);
    AccountsShape(s.accounts);
    SignedRoundTrip(s.lsn);
    var m := SnapshotJson(s).members;
    hide AccountsJson, AllEncodableAccounts, AccountsFromJson;
    assert Keyed(Array(AccountsJson(s.accounts))) && Keyed(m[1].value) && Keyed(m[0].value);
    assert m[0].value == Integer(ToSigned(s.lsn));
    if s.lsn != TWO_63 && AllEncodableAccounts(s.accounts) {
      assert Canonical(m[0].value) && Canonical(Array(AccountsJson(s.accounts)));
    }
  }

  // A snapshot loads as it was stored when its lsn is not 2^63 and every account's
  // id, owner and version are below 2^63, and does not load at all when not.
  lemma {:induction false} SnapshotRoundTrip(s: SnapshotData)
    ensures LoadText(SnapshotText(s)) ==
              if s.lsn != TWO_63 && AllEncodableAccounts(s.accounts) then Some(s) else None
  {
    SnapshotFields(s);
    SnapshotShape(s);
    assert SkipSpace(['\n']) == [];
    PrintedParses(SnapshotJson(s), ['\n']);
    hide Canonical, Keyed, SnapshotJson, SnapshotFromJson, Dump, Parse;
  }
}
