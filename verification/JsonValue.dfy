// src/persistence/Json.cpp: the document model, and the printer.

module JsonValue {
  import opened Basics

  datatype Member = Member(key: bytes, value: Value)

  datatype Value =
    | Null
    | Integer(n: int64)
    | Text(text: bytes)
    | Array(items: seq<Value>)
    | Object(members: seq<Member>)

  // Value::find: the position of the first member with the key.
  function KeyIndex(members: seq<Member>, key: bytes): (i: nat)
    ensures i <= |members|
    ensures i < |members| ==> members[i].key == key
    ensures forall j :: 0 <= j < i ==> members[j].key != key
  {
    FirstIndex(members, (m: Member) => m.key == key)
  }

  function Find(v: Value, key: bytes): Option<Value> {
    if !v.Object? then None else
    var i := KeyIndex(v.members, key);
    if i < |v.members| then Some(v.members[i].value) else None
  }

  // Value::set: replace the member with the key, or append one.
  function SetMember(members: seq<Member>, key: bytes, child: Value): seq<Member> {
    var i := KeyIndex(members, key);
    if i < |members| then members[i := Member(key, child)] else members + [Member(key, child)]
  }

  ghost predicate DistinctKeys(members: seq<Member>) {
    forall i, j :: 0 <= i < j < |members| ==> members[i].key != members[j].key
  }

  // Setting a key keeps the keys distinct, makes the key find the new child and
  // leaves every other key alone.
  lemma {:induction false} SetThenFind(members: seq<Member>, key: bytes, child: Value, other: bytes)
    requires DistinctKeys(members)
    ensures var s := SetMember(members, key, child);
            DistinctKeys(s) &&
            Find(Object(s), key) == Some(child) &&
            (other != key ==> Find(Object(s), other) == Find(Object(members), other))
  {
    var s := SetMember(members, key, child);
    var i := KeyIndex(members, key);
    assert s[i] == Member(key, child);
    assert KeyIndex(s, key) == i;
    if other != key {
      var k, l := KeyIndex(members, other), KeyIndex(s, other);
      if k < |members| { assert s[k] == members[k]; }
      if l < |s| { assert l != i && s[l] == members[l]; }
    }
  }

  // A member that is there already is replaced in its place; a new one goes to the
  // end. No other member moves or changes.
  lemma {:induction false} SetInPlace(members: seq<Member>, key: bytes, child: Value, i: nat)
    ensures i < |members| && members[i].key == key && (forall j :: 0 <= j < i ==> members[j].key != key) ==>
              SetMember(members, key, child) == members[..i] + [Member(key, child)] + members[i + 1..]
    ensures (forall j :: 0 <= j < |members| ==> members[j].key != key) ==>
              SetMember(members, key, child) == members + [Member(key, child)]
  {
    var k := KeyIndex(members, key);
    assert k < |members| ==> members[k].key == key;
    hide KeyIndex;
  }

  // A JSON value under construction: the mutable side of class Value.
  class Document {
    var value: Value

    constructor (v: Value)
      ensures value == v
    {
      value := v;
    }

    method Set(key: bytes, child: Value) returns (thrown: Option<Exception>)
      modifies this
      ensures !old(value).Object? ==> thrown == Some(LogicError) && value == old(value)
      ensures old(value).Object? ==>
                thrown == None && value == Object(SetMember(old(value).members, key, child))
    {
      if !value.Object? { return Some(LogicError); }
      var members := value.members;
      var i := 0;
      while i < |members|
        invariant i <= |members|
        invariant forall j :: 0 <= j < i ==> members[j].key != key
      {
        if members[i].key == key {
          assert KeyIndex(members, key) == i;
          value := Object(members[i := Member(key, child)]);
          return None;
        }
        i := i + 1;
      }
      value := Object(members + [Member(key, child)]);
      thrown := None;
    }

    method Push(child: Value) returns (thrown: Option<Exception>)
      modifies this
      ensures !old(value).Array? ==> thrown == Some(LogicError) && value == old(value)
      ensures old(value).Array? ==> thrown == None && value == Array(old(value).items + [child])
    {
      if !value.Array? { return Some(LogicError); }
      value := Array(value.items + [child]);
      thrown := None;
    }
  }

  // ----- the printer -----

  const BACKSPACE: byte := '\U{8}'
  const FORMFEED: byte := '\U{c}'

  function HexDigit(n: int): byte
    requires 0 <= n < 16
  {
    if n < 10 then Chr('0' as int + n) else Chr('a' as int + n - 10)
  }

  function EscapeByte(c: byte): bytes {
    if c == '"' then "\\\""
    else if c == '\\' then "\\\\"
    else if c == BACKSPACE then "\\b"
    else if c == FORMFEED then "\\f"
    else if c == '\n' then "\\n"
    else if c == '\r' then "\\r"
    else if c == '\t' then "\\t"
    else if c as int < 0x20 then ['\\', 'u', '0', '0', HexDigit(c as int / 16), HexDigit(c as int % 16)]
    else [c]
  }

  function Escape(text: bytes): bytes {
    if text == [] then [] else Escape(text[..|text| - 1]) + EscapeByte(text[|text| - 1])
  }

  function Quoted(text: bytes): bytes {
    ['"'] + Escape(text) + ['"']
  }

  // std::to_string
  function Digits(n: nat): (ds: bytes)
    ensures ds != []
  {
    if n < 10 then [Chr('0' as int + n)] else Digits(n / 10) + [Chr('0' as int + n % 10)]
  }

  function Decimal(n: int): bytes {
    if n < 0 then ['-'] + Digits(-n) else Digits(n)
  }

  function Dump(v: Value): bytes {
    match v
    case Null => "null"
    case Integer(n) => Decimal(n)
    case Text(t) => Quoted(t)
    case Array(items) => ['['] + DumpItems(items) + [']']
    case Object(members) => ['{'] + DumpMembers(members) + ['}']
  }

  function DumpItems(items: seq<Value>): bytes {
    if items == [] then [] else
    DumpItems(items[..|items| - 1]) + Comma(|items| > 1) + Dump(items[|items| - 1])
  }

  function DumpMember(m: Member): bytes {
    Quoted(m.key) + [':'] + Dump(m.value)
  }

  function DumpMembers(members: seq<Member>): bytes {
    if members == [] then [] else
    DumpMembers(members[..|members| - 1]) + Comma(|members| > 1) + DumpMember(members[|members| - 1])
  }

  function Comma(needed: bool): bytes {
    if needed then [','] else []
  }

  // The std::string the printer appends to.
  class Buffer {
    var text: bytes

    constructor ()
      ensures text == []
    {
      text := [];
    }

    method Append(s: bytes)
      modifies this
      ensures text == old(text) + s
    {
      text := text + s;
    }
  }

  lemma {:induction false} AppendAssoc(a: bytes, b: bytes, c: bytes, d: bytes)
    ensures a + (b + c + d) == a + b + c + d
  {
  }

  method AppendEscaped(out: Buffer, text: bytes)
    modifies out
    ensures out.text == old(out.text) + Quoted(text)
  {
    out.Append(['"']);
    for i := 0 to |text|
      invariant out.text == old(out.text) + ['"'] + Escape(text[..i])
    {
      out.Append(EscapeByte(text[i]));
      assert text[..i + 1][..i] == text[..i];
    }
    assert text[..|text|] == text;
    out.Append(['"']);
  }

  method DumpInto(v: Value, out: Buffer)
    modifies out
    ensures out.text == old(out.text) + Dump(v)
    decreases v
  {
    match v {
      case Null => out.Append("null");
      case Integer(n) => out.Append(Decimal(n));
      case Text(t) => AppendEscaped(out, t);
      case Array(items) =>
        out.Append(['[']);
        DumpItemsInto(items, out);
        out.Append([']']);
        AppendAssoc(old(out.text), ['['], DumpItems(items), [']']);
      case Object(members) =>
        out.Append(['{']);
        DumpMembersInto(members, out);
        out.Append(['}']);
        AppendAssoc(old(out.text), ['{'], DumpMembers(members), ['}']);
    }
  }

  method DumpItemsInto(items: seq<Value>, out: Buffer)
    modifies out
    ensures out.text == old(out.text) + DumpItems(items)
    decreases items
  {
    var first := true;
    for i := 0 to |items|
      invariant first <==> i == 0
      invariant out.text == old(out.text) + DumpItems(items[..i])
    {
      assert items[..i + 1][..i] == items[..i];
      if !first { out.Append([',']); }
      first := false;
      DumpInto(items[i], out);
      AppendAssoc(old(out.text), DumpItems(items[..i]), Comma(i > 0), Dump(items[i]));
    }
    assert items[..|items|] == items;
  }

  method DumpMembersInto(members: seq<Member>, out: Buffer)
    modifies out
    ensures out.text == old(out.text) + DumpMembers(members)
    decreases members
  {
    var first := true;
    for i := 0 to |members|
      invariant first <==> i == 0
      invariant out.text == old(out.text) + DumpMembers(members[..i])
    {
      assert members[..i + 1][..i] == members[..i];
      if !first { out.Append([',']); }
      first := false;
      DumpMemberInto(members[i], out);
      AppendAssoc(old(out.text), DumpMembers(members[..i]), Comma(i > 0), DumpMember(members[i]));
    }
    assert members[..|members|] == members;
  }

  method DumpMemberInto(m: Member, out: Buffer)
    modifies out
    ensures out.text == old(out.text) + DumpMember(m)
    decreases m
  {
    AppendEscaped(out, m.key);
    out.Append([':']);
    DumpInto(m.value, out);
    AppendAssoc(old(out.text), Quoted(m.key), [':'], Dump(m.value));
  }

  method DumpText(v: Value) returns (text: bytes)
    ensures text == Dump(v)
  {
    var out := new Buffer();
    DumpInto(v, out);
    text := out.text;
  }

  // ----- the printer's output never breaks a line -----

  ghost predicate Printable(s: bytes) {
    forall i :: 0 <= i < |s| ==> s[i] as int >= 0x20
  }

  lemma {:induction false} EscapePrintable(text: bytes)
    ensures Printable(Escape(text))
  {
    if text != [] { EscapePrintable(text[..|text| - 1]); }
  }

  lemma {:induction false} DigitsPrintable(n: nat)
    ensures Printable(Digits(n))
  {
    if n >= 10 { DigitsPrintable(n / 10); }
  }

  // No byte below 0x20 is ever printed, whatever the value holds.
  lemma {:induction false} DumpPrintable(v: Value)
    ensures Printable(Dump(v))
  {
    match v {
      case Null =>
      case Integer(n) => DigitsPrintable(if n < 0 then 0 - n as int else n);
      case Text(t) => EscapePrintable(t);
      case Array(items) => ItemsPrintable(items);
      case Object(members) => MembersPrintable(members);
    }
  }

  lemma {:induction false} ItemsPrintable(items: seq<Value>)
    ensures Printable(DumpItems(items))
  {
    if items != [] {
      ItemsPrintable(items[..|items| - 1]);
      DumpPrintable(items[|items| - 1]);
    }
  }

  lemma {:induction false} MemberPrintable(m: Member)
    ensures Printable(DumpMember(m))
  {
    EscapePrintable(m.key);
    DumpPrintable(m.value);
    hide Escape, Dump;
    assert Printable(Quoted(m.key));
  }

  lemma {:induction false} MembersPrintable(members: seq<Member>)
    ensures Printable(DumpMembers(members))
  {
    hide DumpMember;
    if members != [] {
      MembersPrintable(members[..|members| - 1]);
      MemberPrintable(members[|members| - 1]);
    }
  }
}
