// The texts the bank writes, letter by letter, and exactly what it reads from texts
// of others: the formats of src/persistence stated without the code that makes them.

module FileFormats {
  import opened Basics
  import opened Domain
  import opened JsonValue
  import opened JsonRoundTrip
  import opened Codec
  import opened SnapshotFile
  import opened Wal

  // ----- numbers and names -----

  // A decimal numeral has no leading zero, a minus sign exactly for a negative
  // number, and the number for its value.
  lemma {:induction false} DecimalCanonical(n: int)
    ensures var ds := if n < 0 then Decimal(n)[1..] else Decimal(n);
            Decimal(n) != [] && (n < 0 <==> Decimal(n)[0] == '-') &&
            AllDigits(ds) && ds != [] && DecimalValue(0, ds) == (if n < 0 then 0 - n else n) &&
            (ds[0] == '0' ==> n == 0 && |ds| == 1)
  {
    var m: nat := if n < 0 then 0 - n else n;
    DigitsValue(m);
    DigitsLead(m);
    if n < 0 { assert Decimal(n)[1..] == Digits(m); }
  }

  lemma {:induction false} DigitsLead(n: nat)
    ensures Digits(n)[0] == '0' ==> n == 0 && |Digits(n)| == 1
  {
    if n >= 10 { DigitsLead(n / 10); }
  }

  ghost predicate PlainText(t: bytes) {
    forall i :: 0 <= i < |t| ==> t[i] as int >= 0x20 && t[i] != '"' && t[i] != '\\'
  }

  // Every byte from 0x20 on other than quote and backslash is printed as itself.
  lemma {:induction false} PlainPrinted(t: bytes)
    requires PlainText(t)
    ensures Dump(Text(t)) == "\"" + t + "\""
    decreases |t|
  {
    EscapePlain(t);
  }

  lemma {:induction false} EscapeSnoc(t: bytes, c: byte)
    ensures Escape(t + [c]) == Escape(t) + EscapeByte(c)
  {
    assert (t + [c])[..|t|] == t;
  }

  lemma {:induction false} PlainByte(c: byte)
    requires c as int >= 0x20 && c != '"' && c != '\\'
    ensures EscapeByte(c) == [c]
  {
  }

  lemma {:induction false} EscapePlain(t: bytes)
    requires PlainText(t)
    ensures Escape(t) == t
    decreases |t|
  {
    if t == [] {
    } else {
      hide Escape, EscapeByte;
      var t', c := t[..|t| - 1], t[|t| - 1];
      EscapePlain(t');
      EscapeSnoc(t', c);
      PlainByte(c);
      assert t == t' + [c];
    }
  }

  // The other bytes: those with a short escape, and the rest below 0x20.
  lemma {:induction false} ShortEscapes()
    ensures Escape(['"']) == "\\\"" && Escape(['\\']) == "\\\\" && Escape(['\n']) == "\\n" && Escape(['\r']) == "\\r"
    ensures Escape(['\t']) == "\\t" && Escape(['\U{8}']) == "\\b" && Escape(['\U{c}']) == "\\f"
  {
    EscapeOne('"');
    EscapeOne('\\');
    EscapeOne('\n');
    EscapeOne('\r');
    EscapeOne('\t');
    EscapeOne('\U{8}');
    EscapeOne('\U{c}');
    hide Escape;
  }

  lemma {:induction false} ControlEscapes(c: byte)
    requires c as int < 0x20 && c !in "\n\r\t" && c as int != 8 && c as int != 12
    ensures Escape([c]) == "\\u00" + ["0123456789abcdef"[c as int / 16], "0123456789abcdef"[c as int % 16]]
  {
    EscapeOne(c);
    hide Escape;
    HexDigits();
  }

  lemma {:induction false} EscapeOne(c: byte)
    ensures Escape([c]) == EscapeByte(c)
  {
    assert [c][..0] == [] && Escape([]) == [];
  }

  lemma {:induction false} HexDigits()
    ensures forall n :: 0 <= n < 16 ==> HexDigit(n) == "0123456789abcdef"[n]
  {
  }

  // A text is escaped byte by byte.
  lemma {:induction false} EscapeConcat(a: bytes, b: bytes)
    ensures Escape(a + b) == Escape(a) + Escape(b)
    decreases |b|
  {
    hide EscapeByte;
    if b == [] {
      assert a + b == a;
    } else {
      var b', c := b[..|b| - 1], b[|b| - 1];
      assert a + b == (a + b') + [c] && b == b' + [c];
      EscapeConcat(a, b');
      EscapeSnoc(a + b', c);
      EscapeSnoc(b', c);
    }
  }

  // ----- documents -----

  lemma {:induction false} MembersText(m: seq<Member>, k: nat)
    requires k < |m|
    ensures DumpMembers(m[..k + 1]) == DumpMembers(m[..k]) + (if k > 0 then "," else "") + DumpMember(m[k])
  {
    assert m[..k + 1][..k] == m[..k];
  }

  lemma {:induction false} LeadText(before: string, comma: string, key: string, value: string)
    ensures before + comma + ((['"'] + key + ['"']) + [':'] + value) == before + (comma + "\"" + key + "\":") + value
  {
    assert (['"'] + key + ['"']) + [':'] + value == ("\"" + key + "\":") + value;
    assert comma + (("\"" + key + "\":") + value) == (comma + "\"" + key + "\":") + value;
  }

  lemma {:induction false} MemberText(m: seq<Member>, k: nat, before: string, lead: string, value: string)
      returns (text: string)
    requires k < |m| && PlainText(m[k].key) && Dump(m[k].value) == value && DumpMembers(m[..k]) == before
    requires lead == (if k > 0 then "," else "") + "\"" + m[k].key + "\":"
    ensures text == before + lead + value && DumpMembers(m[..k + 1]) == text
  {
    text := before + lead + value;
    MembersText(m, k);
    EscapePlain(m[k].key);
    hide Dump, DumpMembers, PlainText, Escape;
    LeadText(before, if k > 0 then "," else "", m[k].key, value);
  }

  // Each member's text behind what leads up to it.
  ghost predicate LeadsTo(m: seq<Member>, l: seq<string>) {
    |l| == |m| && forall k :: 0 <= k < |m| ==>
      PlainText(m[k].key) && l[k] == (if k > 0 then "," else "") + "\"" + m[k].key + "\":"
  }

  lemma {:induction false} ObjectText(m: seq<Member>, text: string)
    requires DumpMembers(m[..|m|]) == text
    ensures Dump(Object(m)) == "{" + text + "}"
  {
    assert m[..|m|] == m;
  }

  lemma {:induction false} NoMembers(m: seq<Member>, lead: string)
    ensures DumpMembers(m[..0]) == "" && "" + lead == lead
  {
  }

  lemma {:induction false} TwoMembers(m: seq<Member>, l: seq<string>) returns (text: string)
    requires |m| >= 2 && LeadsTo(m, l)
    ensures text == l[0] + Dump(m[0].value) + l[1] + Dump(m[1].value) && DumpMembers(m[..2]) == text
  {
    hide Dump, DumpMembers, PlainText;
    NoMembers(m, l[0]);
    var t := MemberText(m, 0, "", l[0], Dump(m[0].value));
    text := MemberText(m, 1, t, l[1], Dump(m[1].value));
  }

  lemma {:induction false} FiveMembers(m: seq<Member>, l: seq<string>) returns (text: string)
    requires |m| >= 5 && LeadsTo(m, l)
    ensures text == l[0] + Dump(m[0].value) + l[1] + Dump(m[1].value) + l[2] + Dump(m[2].value) +
                    l[3] + Dump(m[3].value) + l[4] + Dump(m[4].value)
    ensures DumpMembers(m[..5]) == text
  {
    hide Dump, DumpMembers, PlainText;
    var t := TwoMembers(m, l);
    t := MemberText(m, 2, t, l[2], Dump(m[2].value));
    t := MemberText(m, 3, t, l[3], Dump(m[3].value));
    text := MemberText(m, 4, t, l[4], Dump(m[4].value));
  }

  lemma {:induction false} SevenMembers(m: seq<Member>, l: seq<string>) returns (text: string)
    requires |m| >= 7 && LeadsTo(m, l)
    ensures text == l[0] + Dump(m[0].value) + l[1] + Dump(m[1].value) + l[2] + Dump(m[2].value) +
                    l[3] + Dump(m[3].value) + l[4] + Dump(m[4].value) + l[5] + Dump(m[5].value) +
                    l[6] + Dump(m[6].value)
    ensures DumpMembers(m[..7]) == text
  {
    hide Dump, DumpMembers, PlainText;
    var t := FiveMembers(m, l);
    t := MemberText(m, 5, t, l[5], Dump(m[5].value));
    text := MemberText(m, 6, t, l[6], Dump(m[6].value));
  }

  lemma {:induction false} ScalarTexts(n: int64, id: Option<uint64>)
    ensures Dump(Integer(n)) == Decimal(n)
    ensures Dump(AccountIdJson(id)) ==
              match id
              case None => "null"
              case Some(a) => Decimal(if a < TWO_63 then a else a - TWO_64)
  {
  }

  lemma {:induction false} TypePlain(k: TransactionType)
    ensures PlainText(TypeText(k))
    ensures TypeText(k) == match k case TDeposit => "deposit" case TWithdraw => "withdraw" case TTransfer => "transfer"
  {
  }

  lemma {:induction false} StatePlain(s: TransactionState)
    ensures PlainText(StateText(s))
    ensures StateText(s) ==
              match s
              case Pending => "pending" case Validated => "validated" case WalWritten => "wal_written"
              case Applied => "applied" case Committed => "committed" case Failed => "failed"
              case RolledBack => "rolled_back"
  {
  }

  lemma {:induction false} StatusPlain(a: AccountStatus)
    ensures PlainText(StatusText(a))
    ensures StatusText(a) == match a case Active => "active" case Frozen => "frozen" case Closed => "closed"
  {
  }

  lemma {:induction false} KeysPlain(r: TransactionRecord, a: AccountState)
    ensures forall i :: 0 <= i < 7 ==> PlainText(TransactionJson(r).members[i].key)
    ensures forall i :: 0 <= i < 5 ==> PlainText(AccountJson(a).members[i].key)
  {
  }

  lemma {:induction false} TransactionLeads(r: TransactionRecord) returns (l: seq<string>)
    ensures LeadsTo(TransactionJson(r).members, l)
    ensures l == ["\"id\":", ",\"ts\":", ",\"type\":", ",\"state\":", ",\"from\":", ",\"to\":", ",\"amount\":"]
  {
    KeysPlain(r, AccountState(0, 0, 0, Active, 0));
    hide PlainText;
    l := ["\"id\":", ",\"ts\":", ",\"type\":", ",\"state\":", ",\"from\":", ",\"to\":", ",\"amount\":"];
    assert l[0] == "" + "\"" + ID_KEY + "\":";
  }

  // The payload of a journal line.
  lemma {:induction false} TransactionText(r: TransactionRecord)
    ensures SerializeTransaction(r) ==
              "{" +
              ("\"id\":" + Decimal(if r.id < TWO_63 then r.id else r.id - TWO_64) +
               ",\"ts\":" + Decimal(r.timestamp) +
               ",\"type\":" + ("\"" + (match r.kind
                                      case TDeposit => "deposit"
                                      case TWithdraw => "withdraw"
                                      case TTransfer => "transfer") + "\"") +
               ",\"state\":" + ("\"" + (match r.state
                                       case Pending => "pending"
                                       case Validated => "validated"
                                       case WalWritten => "wal_written"
                                       case Applied => "applied"
                                       case Committed => "committed"
                                       case Failed => "failed"
                                       case RolledBack => "rolled_back") + "\"") +
               ",\"from\":" + (match r.from
                               case None => "null"
                               case Some(a) => Decimal(if a < TWO_63 then a else a - TWO_64)) +
               ",\"to\":" + (match r.to
                             case None => "null"
                             case Some(a) => Decimal(if a < TWO_63 then a else a - TWO_64)) +
               ",\"amount\":" + Decimal(r.amount)) +
              "}"
  {
    TransactionShape(r);
    TypePlain(r.kind);
    StatePlain(r.state);
    hide Decimal, SerializeTransaction, TypeText, StateText;
    ScalarTexts(0, r.from);
    ScalarTexts(0, r.to);
    hide Dump, AccountIdJson;
  }

  lemma {:induction false} TransactionShape(r: TransactionRecord)
    ensures SerializeTransaction(r) ==
              "{" +
              ("\"id\":" + Decimal(ToSigned(r.id)) + ",\"ts\":" + Decimal(r.timestamp) +
               ",\"type\":" + ("\"" + TypeText(r.kind) + "\"") + ",\"state\":" + ("\"" + StateText(r.state) + "\"") +
               ",\"from\":" + Dump(AccountIdJson(r.from)) + ",\"to\":" + Dump(AccountIdJson(r.to)) +
               ",\"amount\":" + Decimal(r.amount)) +
              "}"
  {
    var m := TransactionJson(r).members;
    ScalarTexts(ToSigned(r.id), None);
    ScalarTexts(r.timestamp, None);
    ScalarTexts(r.amount, None);
    TypePlain(r.kind);
    StatePlain(r.state);
    PlainPrinted(TypeText(r.kind));
    PlainPrinted(StateText(r.state));
    TransactionMembers(r);
    hide Decimal, DumpMembers, Dump, PlainText, TransactionJson, AccountIdJson, LeadsTo, TypeText, StateText;
    hide SerializeTransaction, ToSigned;
    var l := TransactionLeads(r);
    var text := SevenMembers(m, l);
    ObjectText(m, text);
  }

  lemma {:induction false} TransactionMembers(r: TransactionRecord)
    ensures var m := TransactionJson(r).members;
            |m| == 7 && m[0].value == Integer(ToSigned(r.id)) && m[1].value == Integer(r.timestamp) &&
            m[2].value == Text(TypeText(r.kind)) && m[3].value == Text(StateText(r.state)) &&
            m[4].value == AccountIdJson(r.from) && m[5].value == AccountIdJson(r.to) && m[6].value == Integer(r.amount)
    ensures SerializeTransaction(r) == Dump(Object(TransactionJson(r).members))
  {
  }

  lemma {:induction false} AccountLeads(a: AccountState) returns (l: seq<string>)
    ensures LeadsTo(AccountJson(a).members, l)
    ensures l == ["\"id\":", ",\"owner\":", ",\"balance\":", ",\"status\":", ",\"version\":"]
  {
    KeysPlain(Project(0, Deposit(0, 0), 0), a);
    hide PlainText;
    l := ["\"id\":", ",\"owner\":", ",\"balance\":", ",\"status\":", ",\"version\":"];
    assert l[0] == "" + "\"" + ID_KEY + "\":";
  }

  // An account, as a snapshot holds it.
  lemma {:induction false} AccountText(a: AccountState)
    ensures Dump(AccountJson(a)) == SerializeAccount(a) ==
              "{" +
              ("\"id\":" + Decimal(if a.id < TWO_63 then a.id else a.id - TWO_64) +
               ",\"owner\":" + Decimal(if a.owner < TWO_63 then a.owner else a.owner - TWO_64) +
               ",\"balance\":" + Decimal(a.balance) +
               ",\"status\":" + ("\"" + (match a.status
                                        case Active => "active"
                                        case Frozen => "frozen"
                                        case Closed => "closed") + "\"") +
               ",\"version\":" + Decimal(if a.version < TWO_63 then a.version else a.version - TWO_64)) +
              "}"
  {
    var m := AccountJson(a).members;
    ScalarTexts(ToSigned(a.id), None);
    ScalarTexts(ToSigned(a.owner), None);
    ScalarTexts(a.balance, None);
    ScalarTexts(ToSigned(a.version), None);
    StatusPlain(a.status);
    PlainPrinted(StatusText(a.status));
    AccountMembers(a);
    hide Decimal, DumpMembers, Dump, PlainText, AccountJson, LeadsTo, StatusText;
    var l := AccountLeads(a);
    var text := FiveMembers(m, l);
    ObjectText(m, text);
  }

  lemma {:induction false} AccountMembers(a: AccountState)
    ensures var m := AccountJson(a).members;
            |m| == 5 && m[0].value == Integer(ToSigned(a.id)) && m[1].value == Integer(ToSigned(a.owner)) &&
            m[2].value == Integer(a.balance) && m[3].value == Text(StatusText(a.status)) &&
            m[4].value == Integer(ToSigned(a.version))
    ensures Dump(AccountJson(a)) == Dump(Object(AccountJson(a).members))
  {
  }

  // Texts with commas between them.
  function CommaSeparated(texts: seq<string>): string {
    if texts == [] then "" else if |texts| == 1 then texts[0]
    else texts[0] + "," + CommaSeparated(texts[1..])
  }

  lemma {:induction false} CommaSeparatedSnoc(texts: seq<string>, t: string)
    ensures CommaSeparated(texts + [t]) == if texts == [] then t else CommaSeparated(texts) + "," + t
    decreases |texts|
  {
    if |texts| > 0 {
      assert (texts + [t])[1..] == texts[1..] + [t];
      CommaSeparatedSnoc(texts[1..], t);
    }
  }

  lemma {:induction false} ItemsText(accounts: seq<AccountState>, texts: seq<string>)
    requires |texts| == |accounts| && forall i :: 0 <= i < |accounts| ==> texts[i] == SerializeAccount(accounts[i])
    ensures DumpItems(AccountsJson(accounts)) == CommaSeparated(texts)
    decreases |accounts|
  {
    hide Dump, AccountJson, CommaSeparated, SerializeAccount;
    if accounts == [] {
      NothingSeparated(texts);
    } else {
      var n := |accounts| - 1;
      ItemsText(accounts[..n], texts[..n]);
      CommaSeparatedSnoc(texts[..n], texts[n]);
      assert texts == texts[..n] + [texts[n]];
      ItemsTextSnoc(accounts);
    }
  }

  lemma {:induction false} NothingSeparated(texts: seq<string>)
    ensures CommaSeparated([]) == "" && DumpItems(AccountsJson([])) == ""
  {
  }

  lemma {:induction false} ItemsTextSnoc(accounts: seq<AccountState>)
    requires accounts != []
    ensures var n := |accounts| - 1;
            DumpItems(AccountsJson(accounts)) ==
              DumpItems(AccountsJson(accounts[..n])) + (if n > 0 then "," else "") + SerializeAccount(accounts[n])
  {
    hide AccountJson;
    var n := |accounts| - 1;
    var items := AccountsJson(accounts);
    AccountsCount(accounts[..n]);
    assert items[..|items| - 1] == AccountsJson(accounts[..n]);
  }

  lemma {:induction false} AccountsCount(accounts: seq<AccountState>)
    ensures |AccountsJson(accounts)| == |accounts|
    decreases |accounts|
  {
    if accounts != [] { AccountsCount(accounts[..|accounts| - 1]); }
  }

  // A snapshot file.
  lemma {:induction false} SnapshotFileText(s: SnapshotData)
    ensures SnapshotText(s) ==
              "{" +
              ("\"lsn\":" + Decimal(if s.lsn < TWO_63 then s.lsn else s.lsn - TWO_64) +
               ",\"accounts\":" + ("[" + CommaSeparated(seq(|s.accounts|, i requires 0 <= i < |s.accounts| =>
                                                              SerializeAccount(s.accounts[i]))) + "]")) +
              "}" + "\n"
  {
    var texts := seq(|s.accounts|, i requires 0 <= i < |s.accounts| => SerializeAccount(s.accounts[i]));
    var m := SnapshotJson(s).members;
    ScalarTexts(ToSigned(s.lsn), None);
    ItemsText(s.accounts, texts);
    assert Dump(Array(AccountsJson(s.accounts))) == "[" + DumpItems(AccountsJson(s.accounts)) + "]";
    SnapshotMembers(s);
    hide Decimal, DumpMembers, DumpItems, Dump, PlainText, SnapshotJson, LeadsTo;
    hide CommaSeparated, SerializeAccount, AccountsJson;
    var l := SnapshotLeads(s);
    var text := TwoMembers(m, l);
    ObjectText(m, text);
  }

  lemma {:induction false} SnapshotMembers(s: SnapshotData)
    ensures var m := SnapshotJson(s).members;
            |m| == 2 && m[0].value == Integer(ToSigned(s.lsn)) && m[1].value == Array(AccountsJson(s.accounts))
    ensures SnapshotText(s) == Dump(Object(SnapshotJson(s).members)) + "\n"
  {
  }

  lemma {:induction false} SnapshotLeads(s: SnapshotData) returns (l: seq<string>)
    ensures LeadsTo(SnapshotJson(s).members, l)
    ensures l == ["\"lsn\":", ",\"accounts\":"]
  {
    hide AccountsJson;
    l := ["\"lsn\":", ",\"accounts\":"];
    assert l[0] == "" + "\"" + "lsn" + "\":";
  }

  // ----- what is read -----

  lemma {:induction false} FieldsIff(v: Value, key: bytes, n: int64, t: bytes, id: Option<uint64>)
    ensures IntOf(v, key) == Some(n) <==> Find(v, key) == Some(Integer(n))
    ensures TextOf(v, key) == Some(t) <==> Find(v, key) == Some(Text(t))
    ensures IdOf(v, key) == Some(id) <==> Below63(id) && Find(v, key) == Some(AccountIdJson(id))
  {
    hide Find;
  }

  lemma {:induction false} NamesIff(t: bytes, k: TransactionType, s: TransactionState, a: AccountStatus)
    ensures TypeFromText(t) == Some(k) <==> t == TypeText(k)
    ensures StatusFromText(t) == Some(a) <==> t == StatusText(a)
  {
  }

  lemma {:induction false} StateIff(t: bytes, s: TransactionState)
    ensures StateFromText(t) == Some(s) <==> t == StateText(s)
  {
    if t == StateText(s) {
      TextsRoundTrip(TDeposit, s, Active);
    } else if StateFromText(t) == Some(s) {
      match s {
        case Pending => case Validated => case WalWritten => case Applied =>
        case Committed => case Failed => case RolledBack =>
      }
    }
  }

  lemma {:induction false} SignedIff(n: int64, x: uint64)
    ensures ToUnsigned(n) == x <==> n == ToSigned(x)
  {
  }

  // The first member with the key has this position.
  ghost predicate KeyAt(members: seq<Member>, key: string, i: int) {
    0 <= i < |members| && members[i].key == key && forall j :: 0 <= j < i ==> members[j].key != key
  }

  ghost predicate Has(v: Value, key: string, child: Value) {
    v.Object? && exists i :: KeyAt(v.members, key, i) && v.members[i].value == child
  }

  ghost predicate HasText(v: Value, key: string, text: string) {
    v.Object? && exists i :: KeyAt(v.members, key, i) && v.members[i].value.Text? && v.members[i].value.text == text
  }

  lemma {:induction false} HasIsObject(v: Value, key: string, child: Value)
    ensures Has(v, key, child) ==> v.Object?
  {
  }

  lemma {:induction false} FoundAt(members: seq<Member>, key: bytes, i: int)
    ensures KeyAt(members, key, i) <==> i == KeyIndex(members, key) < |members|
  {
    var k := KeyIndex(members, key);
    assert k < |members| ==> members[k].key == key;
  }

  lemma {:induction false} FindIff(v: Value, key: bytes, child: Value, text: bytes)
    ensures Find(v, key) == Some(child) <==> Has(v, key, child)
    ensures Find(v, key) == Some(Text(text)) <==> HasText(v, key, text)
  {
    hide KeyAt, KeyIndex;
    if v.Object? {
      FoundAt(v.members, key, KeyIndex(v.members, key));
      forall i | KeyAt(v.members, key, i) ensures i == KeyIndex(v.members, key) < |v.members| {
        FoundAt(v.members, key, i);
      }
    }
  }

  // The members a document must have to be read as a transaction record; it may
  // have others, in any order.
  ghost predicate HasTransaction(v: Value, r: TransactionRecord) {
    (r.from.Some? ==> r.from.value < TWO_63) && (r.to.Some? ==> r.to.value < TWO_63) &&
    Has(v, "id", Integer(if r.id < TWO_63 then r.id else r.id - TWO_64)) &&
    Has(v, "ts", Integer(r.timestamp)) &&
    HasText(v, "type", match r.kind
                       case TDeposit => "deposit"
                       case TWithdraw => "withdraw"
                       case TTransfer => "transfer") &&
    HasText(v, "state", match r.state
                        case Pending => "pending"
                        case Validated => "validated"
                        case WalWritten => "wal_written"
                        case Applied => "applied"
                        case Committed => "committed"
                        case Failed => "failed"
                        case RolledBack => "rolled_back") &&
    Has(v, "from", if r.from.None? then Null else Integer(r.from.value)) &&
    Has(v, "to", if r.to.None? then Null else Integer(r.to.value)) &&
    Has(v, "amount", Integer(r.amount))
  }

  // A document is read as this record exactly when it has those members.
  lemma {:induction false} TransactionReadIff(v: Value, r: TransactionRecord)
    ensures TransactionFromJson(v) == Some(r) <==> HasTransaction(v, r)
  {
    hide Find, TransactionFromJson, TypeText, StateText, Has, HasText, ToSigned;
    TransactionFieldsIff(v, r);
    TypePlain(r.kind);
    StatePlain(r.state);
    FindIff(v, ID_KEY, Integer(ToSigned(r.id)), []);
    FindIff(v, TS_KEY, Integer(r.timestamp), []);
    FindIff(v, TYPE_KEY, Null, TypeText(r.kind));
    FindIff(v, STATE_KEY, Null, StateText(r.state));
    FindIff(v, FROM_KEY, AccountIdJson(r.from), []);
    FindIff(v, TO_KEY, AccountIdJson(r.to), []);
    FindIff(v, AMOUNT_KEY, Integer(r.amount), []);
    SignedIff(if r.id < TWO_63 then r.id else r.id - TWO_64, r.id);
    if r.from.Some? { SignedRoundTrip(r.from.value); }
    if r.to.Some? { SignedRoundTrip(r.to.value); }
    HasIsObject(v, "ts", Integer(r.timestamp));
  }

  lemma {:induction false} TransactionFieldsIff(v: Value, r: TransactionRecord)
    ensures TransactionFromJson(v) == Some(r) <==>
              v.Object? && Below63(r.from) && Below63(r.to) &&
              Find(v, ID_KEY) == Some(Integer(ToSigned(r.id))) && Find(v, TS_KEY) == Some(Integer(r.timestamp)) &&
              Find(v, TYPE_KEY) == Some(Text(TypeText(r.kind))) &&
              Find(v, STATE_KEY) == Some(Text(StateText(r.state))) &&
              Find(v, FROM_KEY) == Some(AccountIdJson(r.from)) && Find(v, TO_KEY) == Some(AccountIdJson(r.to)) &&
              Find(v, AMOUNT_KEY) == Some(Integer(r.amount))
  {
    hide Find, IntOf, TextOf, IdOf, TypeText, StateText, TypeFromText, StateFromText;
    hide ToSigned, ToUnsigned, AccountIdJson;
    if v.Object? {
      FieldsIff(v, ID_KEY, ToSigned(r.id), [], None);
      FieldsIff(v, TS_KEY, r.timestamp, [], None);
      FieldsIff(v, TYPE_KEY, 0, TypeText(r.kind), None);
      FieldsIff(v, STATE_KEY, 0, StateText(r.state), None);
      FieldsIff(v, FROM_KEY, 0, [], r.from);
      FieldsIff(v, TO_KEY, 0, [], r.to);
      FieldsIff(v, AMOUNT_KEY, r.amount, [], None);
      SignedIff(ToSigned(r.id), r.id);
      TextsRoundTrip(r.kind, r.state, Active);
      if TransactionFromJson(v).Some? {
        NamesIff(TextOf(v, TYPE_KEY).value, r.kind, r.state, Active);
        StateIff(TextOf(v, STATE_KEY).value, r.state);
        SignedIff(IntOf(v, ID_KEY).value, r.id);
      }
    }
  }

  ghost predicate HasAccount(v: Value, a: AccountState) {
    a.id < TWO_63 && a.owner < TWO_63 && a.version < TWO_63 &&
    Has(v, "id", Integer(a.id)) && Has(v, "owner", Integer(a.owner)) && Has(v, "balance", Integer(a.balance)) &&
    HasText(v, "status", match a.status
                         case Active => "active"
                         case Frozen => "frozen"
                         case Closed => "closed") &&
    Has(v, "version", Integer(a.version))
  }

  lemma {:induction false} AccountReadIff(v: Value, a: AccountState)
    ensures AccountFromJson(v) == Some(a) <==> HasAccount(v, a)
  {
    AccountFieldsIff(v, a);
    StatusPlain(a.status);
    if a.id < TWO_63 && a.owner < TWO_63 && a.version < TWO_63 {
      FindIff(v, ID_KEY, Integer(a.id), []);
      FindIff(v, OWNER_KEY, Integer(a.owner), []);
      FindIff(v, VERSION_KEY, Integer(a.version), []);
    }
    FindIff(v, BALANCE_KEY, Integer(a.balance), []);
    FindIff(v, STATUS_KEY, Null, StatusText(a.status));
    hide Find, AccountFromJson, StatusText, Has, HasText;
  }

  lemma {:induction false} AccountFieldsIff(v: Value, a: AccountState)
    ensures AccountFromJson(v) == Some(a) <==>
              v.Object? && a.id < TWO_63 && a.owner < TWO_63 && a.version < TWO_63 &&
              Find(v, ID_KEY) == Some(Integer(a.id)) && Find(v, OWNER_KEY) == Some(Integer(a.owner)) &&
              Find(v, BALANCE_KEY) == Some(Integer(a.balance)) &&
              Find(v, STATUS_KEY) == Some(Text(StatusText(a.status))) &&
              Find(v, VERSION_KEY) == Some(Integer(a.version))
  {
    hide Find, IntOf, TextOf, StatusText, StatusFromText;
    if v.Object? {
      if a.id < TWO_63 && a.owner < TWO_63 && a.version < TWO_63 {
        FieldsIff(v, ID_KEY, a.id, [], None);
        FieldsIff(v, OWNER_KEY, a.owner, [], None);
        FieldsIff(v, VERSION_KEY, a.version, [], None);
      }
      FieldsIff(v, BALANCE_KEY, a.balance, [], None);
      FieldsIff(v, STATUS_KEY, 0, StatusText(a.status), None);
      TextsRoundTrip(TDeposit, Pending, a.status);
      if TextOf(v, STATUS_KEY).Some? { NamesIff(TextOf(v, STATUS_KEY).value, TDeposit, Pending, a.status); }
    }
  }

  // A document is read as a snapshot exactly when it has an integer lsn and every
  // item of its accounts, if those are a list, is read as an account.
  lemma {:induction false} SnapshotReadIff(v: Value, s: SnapshotData)
    ensures SnapshotFromJson(v) == Some(s) <==>
              Has(v, "lsn", Integer(if s.lsn < TWO_63 then s.lsn else s.lsn - TWO_64)) &&
              exists x :: Has(v, "accounts", x) && AreAccounts(if x.Array? then x.items else [], s.accounts)
  {
    hide Find, IntOf, AccountsFromJson, Has, HasText, AreAccounts;
    FindIff(v, "lsn", Integer(ToSigned(s.lsn)), []);
    FieldsIff(v, "lsn", ToSigned(s.lsn), [], None);
    SignedIff(ToSigned(s.lsn), s.lsn);
    if IntOf(v, "lsn").Some? {
      SignedIff(IntOf(v, "lsn").value, s.lsn);
      FieldsIff(v, "lsn", IntOf(v, "lsn").value, [], None);
    }
    if Find(v, "accounts").Some? {
      FindIff(v, "accounts", Find(v, "accounts").value, []);
      AccountsReadIff(Items(Find(v, "accounts").value), s.accounts);
    }
    forall x | Has(v, "accounts", x) ensures Find(v, "accounts") == Some(x) { FindIff(v, "accounts", x, []); }
    HasIsObject(v, "lsn", Integer(ToSigned(s.lsn)));
  }

  ghost predicate AreAccounts(items: seq<Value>, accounts: seq<AccountState>) {
    |items| == |accounts| && forall i :: 0 <= i < |items| ==> HasAccount(items[i], accounts[i])
  }

  lemma {:induction false} AccountsReadIff(items: seq<Value>, accounts: seq<AccountState>)
    ensures AccountsFromJson(items) == Some(accounts) <==> AreAccounts(items, accounts)
    decreases |items|
  {
    hide HasAccount, AccountFromJson;
    if items == [] {
    } else {
      var n := |items| - 1;
      if |accounts| == n + 1 {
        AccountsReadIff(items[..n], accounts[..n]);
        AccountReadIff(items[n], accounts[n]);
        assert accounts == accounts[..n] + [accounts[n]];
      } else if AccountsFromJson(items).Some? {
        AccountsReadCount(items);
      }
    }
  }

  lemma {:induction false} AccountsReadCount(items: seq<Value>)
    requires AccountsFromJson(items).Some?
    ensures |AccountsFromJson(items).value| == |items|
    decreases |items|
  {
    hide AccountFromJson;
    if items != [] { AccountsReadCount(items[..|items| - 1]); }
  }

  // ----- journal lines -----

  // v without its last k hex digits.
  function Shifted(v: nat, k: nat): nat {
    if k == 0 then v else Shifted(v / 16, k - 1)
  }

  lemma {:induction false} HexFieldDigit(v: nat, width: nat, i: nat)
    requires i < width
    ensures HexField(v, width)[i] == HexDigit(Shifted(v, width - 1 - i) % 16)
    decreases width
  {
    if i < width - 1 { HexFieldDigit(v / 16, width - 1, i); }
  }

  // The first 17 bytes of a line: the id in lower-case hex, most significant digit
  // first, and one digit for the state.
  ghost predicate Header(line: bytes, id: uint64, state: TransactionState) {
    |line| >= 17 &&
    (forall i :: 0 <= i < 16 ==> line[i] == "0123456789abcdef"[Shifted(id, 15 - i) % 16]) &&
    line[16] == match state
                case Pending => '0'
                case Validated => '1'
                case WalWritten => '2'
                case Applied => '3'
                case Committed => '4'
                case Failed => '5'
                case RolledBack => '6'
  }

  lemma {:induction false} IdFieldDigits(id: uint64, field: bytes)
    requires |field| == 16
    ensures field == IdField(id) <==>
              forall i :: 0 <= i < 16 ==> field[i] == "0123456789abcdef"[Shifted(id, 15 - i) % 16]
  {
    HexDigits();
    forall i | 0 <= i < 16 ensures IdField(id)[i] == "0123456789abcdef"[Shifted(id, 15 - i) % 16] {
      HexFieldDigit(id, 16, i);
    }
    hide HexField;
  }

  lemma {:induction false} StateBytes(state: TransactionState, c: byte)
    ensures StateFromByte(c) == Some(state) <==>
              c == match state
                   case Pending => '0'
                   case Validated => '1'
                   case WalWritten => '2'
                   case Applied => '3'
                   case Committed => '4'
                   case Failed => '5'
                   case RolledBack => '6'
  {
  }

  // The lines the logger writes.
  lemma {:induction false} LineText(id: uint64, state: TransactionState, payload: bytes)
    ensures var line := Line(id, state, payload);
            Header(line, id, state) && line[17..] == payload + "\n"
  {
    var line := Line(id, state, payload);
    assert line[..16] == IdField(id) && line[16] == StateByte(state);
    IdFieldDigits(id, line[..16]);
    StateBytes(state, StateByte(state));
    StateByteBijection(state, '0');
    forall i | 0 <= i < 16 ensures line[i] == line[..16][i] {}
  }

  // A complete line is read exactly when it starts with a header, and then as the
  // entry the header and the rest of the line say.
  lemma {:induction false} LineReadIff(line: bytes, offset: nat, e: Entry)
    ensures ParseLine(line, offset) == [e] <==>
              Header(line, e.id, e.state) && e.offset == offset && e.payload == line[17..]
    ensures ParseLine(line, offset) == [] || exists x :: ParseLine(line, offset) == [x]
  {
    if |line| >= 17 {
      var field := line[..16];
      forall i | 0 <= i < 16 ensures line[i] == field[i] {}
      IdFieldDigits(e.id, field);
      IdFieldBijection(e.id, field);
      StateBytes(e.state, line[16]);
      if IdFromField(field).Some? && StateFromByte(line[16]).Some? {
        assert ParseLine(line, offset) == [ParseLine(line, offset)[0]];
      }
    }
    hide IdFromField, HexField, StateFromByte;
  }

  // One more complete line, well formed or not, leaves what was read before it and
  // adds its own entry, if it has one; a fragment behind it adds nothing.
  lemma {:induction false} ScanAnyLine(kept: bytes, line: bytes, torn: bytes)
    requires Scan(kept).tail == |kept| && NoNewline(line) && NoNewline(torn)
    ensures Scan(kept + line + ['\n']) ==
              Scanned(Scan(kept).entries + ParseLine(line, |kept|), |kept| + |line| + 1)
    ensures Scan(kept + torn) == Scan(kept)
    ensures Scan([]) == Scanned([], 0)
  {
    SplitAppendLine(kept, 0, line);
    SplitTornTail(kept, 0, torn);
    EntriesSnoc(Split(kept, 0).lines, RawLine(|kept|, line));
    hide ParseLine, NewlineFrom;
  }
}
