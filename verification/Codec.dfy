// src/persistence/Serializer.cpp and the document format of SnapshotStore.cpp.

module Codec {
  import opened Basics
  import opened Domain
  import opened JsonValue
  import opened JsonParser
  import opened JsonRefusal
  import opened JsonRoundTrip

  // ----- Types.h: the canonical string forms -----

  function StatusText(s: AccountStatus): bytes {
    match s
    case Active => "active"
    case Frozen => "frozen"
    case Closed => "closed"
  }

  function StatusFromText(t: bytes): Option<AccountStatus> {
    if t == "active" then Some(Active)
    else if t == "frozen" then Some(Frozen)
    else if t == "closed" then Some(Closed)
    else None
  }

  function TypeText(k: TransactionType): bytes {
    match k
    case TDeposit => "deposit"
    case TWithdraw => "withdraw"
    case TTransfer => "transfer"
  }

  function TypeFromText(t: bytes): Option<TransactionType> {
    if t == "deposit" then Some(TDeposit)
    else if t == "withdraw" then Some(TWithdraw)
    else if t == "transfer" then Some(TTransfer)
    else None
  }

  function StateText(s: TransactionState): bytes {
    match s
    case Pending => "pending"
    case Validated => "validated"
    case WalWritten => "wal_written"
    case Applied => "applied"
    case Committed => "committed"
    case Failed => "failed"
    case RolledBack => "rolled_back"
  }

  function StateFromText(t: bytes): Option<TransactionState> {
    if t == "pending" then Some(Pending)
    else if t == "validated" then Some(Validated)
    else if t == "wal_written" then Some(WalWritten)
    else if t == "applied" then Some(Applied)
    else if t == "committed" then Some(Committed)
    else if t == "failed" then Some(Failed)
    else if t == "rolled_back" then Some(RolledBack)
    else None
  }

  // ----- encoding -----

  const ID_KEY: bytes := "id"
  const TS_KEY: bytes := "ts"
  const TYPE_KEY: bytes := "type"
  const STATE_KEY: bytes := "state"
  const FROM_KEY: bytes := "from"
  const TO_KEY: bytes := "to"
  const AMOUNT_KEY: bytes := "amount"
  const OWNER_KEY: bytes := "owner"
  const BALANCE_KEY: bytes := "balance"
  const STATUS_KEY: bytes := "status"
  const VERSION_KEY: bytes := "version"

  function AccountIdJson(id: Option<uint64>): Value {
    if id.Some? then Integer(ToSigned(id.value)) else Null
  }

  function TransactionJson(r: TransactionRecord): Value {
    Object([
      Member(ID_KEY, Integer(ToSigned(r.id))),
      Member(TS_KEY, Integer(r.timestamp)),
      Member(TYPE_KEY, Text(TypeText(r.kind))),
      Member(STATE_KEY, Text(StateText(r.state))),
      Member(FROM_KEY, AccountIdJson(r.from)),
      Member(TO_KEY, AccountIdJson(r.to)),
      Member(AMOUNT_KEY, Integer(r.amount))])
  }

  function AccountJson(a: AccountState): Value {
    Object([
      Member(ID_KEY, Integer(ToSigned(a.id))),
      Member(OWNER_KEY, Integer(ToSigned(a.owner))),
      Member(BALANCE_KEY, Integer(a.balance)),
      Member(STATUS_KEY, Text(StatusText(a.status))),
      Member(VERSION_KEY, Integer(ToSigned(a.version)))])
  }

  // obj.set on a key the object does not have yet.
  method Put(obj: Document, key: bytes, child: Value)
    requires obj.value.Object?
    requires forall i :: 0 <= i < |obj.value.members| ==> obj.value.members[i].key != key
    modifies obj
    ensures obj.value == Object(old(obj.value.members) + [Member(key, child)])
  {
    var thrown := obj.Set(key, child);
  }

  method TransactionToJson(r: TransactionRecord) returns (v: Value)
    ensures v == TransactionJson(r)
  {
    var obj := new Document(Object([]));
    Put(obj, ID_KEY, Integer(ToSigned(r.id)));
    Put(obj, TS_KEY, Integer(r.timestamp));
    Put(obj, TYPE_KEY, Text(TypeText(r.kind)));
    Put(obj, STATE_KEY, Text(StateText(r.state)));
    Put(obj, FROM_KEY, AccountIdJson(r.from));
    Put(obj, TO_KEY, AccountIdJson(r.to));
    Put(obj, AMOUNT_KEY, Integer(r.amount));
    v := obj.value;
  }

  method AccountToJson(a: AccountState) returns (v: Value)
    ensures v == AccountJson(a)
  {
    var obj := new Document(Object([]));
    Put(obj, ID_KEY, Integer(ToSigned(a.id)));
    Put(obj, OWNER_KEY, Integer(ToSigned(a.owner)));
    Put(obj, BALANCE_KEY, Integer(a.balance));
    Put(obj, STATUS_KEY, Text(StatusText(a.status)));
    Put(obj, VERSION_KEY, Integer(ToSigned(a.version)));
    v := obj.value;
  }

  // ----- decoding -----

  function IntOf(v: Value, key: bytes): Option<int64> {
    match Find(v, key)
    case Some(Integer(n)) => Some(n)
    case _ => None
  }

  function TextOf(v: Value, key: bytes): Option<bytes> {
    match Find(v, key)
    case Some(Text(t)) => Some(t)
    case _ => None
  }

  // A missing key is None; an explicit null is Some(None).
  function IdOf(v: Value, key: bytes): Option<Option<uint64>> {
    match Find(v, key)
    case Some(Null) => Some(None)
    case Some(Integer(n)) => if n < 0 then None else Some(Some(n))
    case _ => None
  }

  // The record of the fields read, unless one is missing or malformed.
  function RecordOfFields(id: Option<int64>, ts: Option<int64>, kindText: Option<bytes>, stateText: Option<bytes>,
                          from: Option<Option<uint64>>, to: Option<Option<uint64>>, amount: Option<int64>)
    : Option<TransactionRecord>
  {
    if id.None? || ts.None? || kindText.None? || stateText.None? || from.None? || to.None? ||
       amount.None? || amount.value < 0 then None else
    var kind := TypeFromText(kindText.value);
    var state := StateFromText(stateText.value);
    if kind.None? || state.None? then None else
    Some(TransactionRecord(ToUnsigned(id.value), ts.value, kind.value, state.value,
                           from.value, to.value, amount.value))
  }

  function TransactionFromJson(v: Value): Option<TransactionRecord> {
    if !v.Object? then None else
    RecordOfFields(IntOf(v, ID_KEY), IntOf(v, TS_KEY), TextOf(v, TYPE_KEY), TextOf(v, STATE_KEY),
                   IdOf(v, FROM_KEY), IdOf(v, TO_KEY), IntOf(v, AMOUNT_KEY))
  }

  function AccountFromJson(v: Value): Option<AccountState> {
    if !v.Object? then None else
    var id := IntOf(v, ID_KEY);
    var owner := IntOf(v, OWNER_KEY);
    var balance := IntOf(v, BALANCE_KEY);
    var statusText := TextOf(v, STATUS_KEY);
    var version := IntOf(v, VERSION_KEY);
    if id.None? || owner.None? || balance.None? || statusText.None? || version.None? then None else
    if id.value < 0 || owner.value < 0 || balance.value < 0 || version.value < 0 then None else
    var status := StatusFromText(statusText.value);
    if status.None? then None else
    Some(AccountState(id.value, owner.value, balance.value, status.value, version.value))
  }

  function SerializeTransaction(r: TransactionRecord): bytes {
    Dump(TransactionJson(r))
  }

  function DeserializeTransaction(line: bytes): Option<TransactionRecord> {
    match Parse(line)
    case None => None
    case Some(v) => TransactionFromJson(v)
  }

  function SerializeAccount(a: AccountState): bytes {
    Dump(AccountJson(a))
  }

  function DeserializeAccount(line: bytes): Option<AccountState> {
    match Parse(line)
    case None => None
    case Some(v) => AccountFromJson(v)
  }

  method WriteTransaction(r: TransactionRecord) returns (line: bytes)
    ensures line == SerializeTransaction(r)
  {
    var v := TransactionToJson(r);
    line := DumpText(v);
  }

  method ReadTransaction(line: bytes) returns (r: Option<TransactionRecord>)
    ensures r == DeserializeTransaction(line)
  {
    var v := ParseText(line);
    r := if v.None? then None else TransactionFromJson(v.value);
  }

  // ----- round trips -----

  lemma {:induction false} SignedRoundTrip(x: uint64)
    ensures ToUnsigned(ToSigned(x)) == x
    ensures ToSigned(x) >= 0 <==> x < TWO_63
    ensures x < TWO_63 ==> ToSigned(x) == x
    ensures ToSigned(x) == INT64_MIN <==> x == TWO_63
  {
  }

  predicate Below63(id: Option<uint64>) {
    id.Some? ==> id.value < TWO_63
  }

  // What a record must satisfy to survive a trip through the journal.
  predicate Encodable(r: TransactionRecord) {
    r.id != TWO_63 && r.timestamp != INT64_MIN && Below63(r.from) && Below63(r.to)
  }

  predicate EncodableAccount(a: AccountState) {
    a.id < TWO_63 && a.owner < TWO_63 && a.version < TWO_63
  }

  lemma {:induction false} FindAt(members: seq<Member>, i: nat)
    requires DistinctKeys(members) && i < |members|
    ensures Find(Object(members), members[i].key) == Some(members[i].value)
  {
  }

  lemma {:induction false} TransactionDistinct(r: TransactionRecord)
    ensures DistinctKeys(TransactionJson(r).members)
  {
  }

  lemma {:induction false} AccountDistinct(a: AccountState)
    ensures DistinctKeys(AccountJson(a).members)
  {
  }

  lemma {:induction false} TextsRoundTrip(k: TransactionType, s: TransactionState, a: AccountStatus)
    ensures TypeFromText(TypeText(k)) == Some(k)
    ensures StateFromText(StateText(s)) == Some(s)
    ensures StatusFromText(StatusText(a)) == Some(a)
  {
  }

  lemma {:induction false} TransactionCanonical(r: TransactionRecord)
    ensures Canonical(TransactionJson(r)) <==>
              ToSigned(r.id) != INT64_MIN && r.timestamp != INT64_MIN &&
              AccountIdJson(r.from) != Integer(INT64_MIN) && AccountIdJson(r.to) != Integer(INT64_MIN)
  {
    var v := TransactionJson(r);
    var m := v.members;
    TransactionDistinct(r);
    if Canonical(v) {
      assert Canonical(m[0].value) && Canonical(m[1].value) && Canonical(m[4].value) && Canonical(m[5].value);
    } else {
      var i :| 0 <= i < |m| && !Canonical(m[i].value);
      assert m[i].value == Integer(INT64_MIN);
    }
  }

  // Reading one field back.
  lemma {:induction false} FieldRead(members: seq<Member>, i: nat, n: int64, text: bytes, id: Option<uint64>)
    requires DistinctKeys(members) && i < |members|
    ensures members[i].value == Integer(n) ==> IntOf(Object(members), members[i].key) == Some(n)
    ensures members[i].value == Text(text) ==> TextOf(Object(members), members[i].key) == Some(text)
    ensures members[i].value == AccountIdJson(id) ==>
              IdOf(Object(members), members[i].key) == if Below63(id) then Some(id) else None
  {
    FindAt(members, i);
    hide Find;
  }

  lemma {:induction false} TransactionFields(r: TransactionRecord)
    ensures TransactionFromJson(TransactionJson(r)) ==
              if Below63(r.from) && Below63(r.to) then Some(r) else None
  {
    hide Find, IntOf, TextOf, IdOf, Below63, AccountIdJson, DistinctKeys, ToSigned, ToUnsigned;
    hide TypeText, TypeFromText, StateText, StateFromText;
    TransactionDistinct(r);
    TextsRoundTrip(r.kind, r.state, Active);
    SignedRoundTrip(r.id);
    var m := TransactionJson(r).members;
    FieldRead(m, 0, ToSigned(r.id), [], None);
    FieldRead(m, 1, r.timestamp, [], None);
    FieldRead(m, 2, 0, TypeText(r.kind), None);
    FieldRead(m, 3, 0, StateText(r.state), None);
    FieldRead(m, 4, 0, [], r.from);
    FieldRead(m, 5, 0, [], r.to);
    FieldRead(m, 6, r.amount, [], None);
  }

  lemma {:induction false} TransactionKeyed(r: TransactionRecord)
    ensures Keyed(TransactionJson(r))
  {
    TransactionDistinct(r);
  }

  // Encoding a record and decoding its text gives the record back when its id is
  // not 2^63, its timestamp not INT64_MIN and both account ids are below 2^63, and
  // nothing at all when not.
  lemma {:induction false} TransactionRoundTrip(r: TransactionRecord)
    ensures DeserializeTransaction(SerializeTransaction(r)) == if Encodable(r) then Some(r) else None
  {
    var v := TransactionJson(r);
    TransactionCanonical(r);
    TransactionKeyed(r);
    PrintedParses(v, []);
    assert Dump(v) + [] == Dump(v);
    SignedRoundTrip(r.id);
    if r.from.Some? { SignedRoundTrip(r.from.value); }
    if r.to.Some? { SignedRoundTrip(r.to.value); }
    TransactionFields(r);
    hide TransactionJson, TransactionFromJson, Dump, Parse, Canonical, Keyed;
  }

  // The same for an account, when id, owner and version are below 2^63; above, they
  // print as negative numbers, which the decoder rejects.
  lemma {:induction false} AccountRoundTrip(a: AccountState)
    ensures DeserializeAccount(SerializeAccount(a)) == if EncodableAccount(a) then Some(a) else None
  {
    var v := AccountJson(a);
    AccountFields(a);
    AccountKeyed(a);
    PrintedParses(v, []);
    assert Dump(v) + [] == Dump(v);
    if EncodableAccount(a) { AccountCanonical(a); }
    hide AccountJson, AccountFromJson, Dump, Parse, Canonical, Keyed;
  }

  lemma {:induction false} AccountKeyed(a: AccountState)
    ensures Keyed(AccountJson(a))
  {
    AccountDistinct(a);
  }

  lemma {:induction false} AccountCanonical(a: AccountState)
    requires EncodableAccount(a)
    ensures Canonical(AccountJson(a))
  {
    AccountKeyed(a);
    hide ToSigned;
    SignedRoundTrip(a.id);
    SignedRoundTrip(a.owner);
    SignedRoundTrip(a.version);
    var m := AccountJson(a).members;
    assert Canonical(m[0].value) && Canonical(m[1].value) && Canonical(m[2].value) && Canonical(m[4].value);
  }

  lemma {:induction false} AccountFields(a: AccountState)
    ensures AccountFromJson(AccountJson(a)) == if EncodableAccount(a) then Some(a) else None
  {
    hide Find, IntOf, TextOf, DistinctKeys, ToSigned, StatusText, StatusFromText;
    AccountDistinct(a);
    TextsRoundTrip(TDeposit, Pending, a.status);
    SignedRoundTrip(a.id);
    SignedRoundTrip(a.owner);
    SignedRoundTrip(a.version);
    var m := AccountJson(a).members;
    FieldRead(m, 0, ToSigned(a.id), [], None);
    FieldRead(m, 1, ToSigned(a.owner), [], None);
    FieldRead(m, 2, a.balance, [], None);
    FieldRead(m, 3, 0, StatusText(a.status), None);
    FieldRead(m, 4, ToSigned(a.version), [], None);
  }

  // The payload of a journal line holds no byte below 0x20, so no line break.
  lemma {:induction false} PayloadPrintable(r: TransactionRecord)
    ensures Printable(SerializeTransaction(r))
  {
    DumpPrintable(TransactionJson(r));
  }
}
