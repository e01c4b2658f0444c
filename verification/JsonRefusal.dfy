// What the parser does with text other than what the printer makes of canonical
// values: it refuses INT64_MIN wherever it stands, and accepts raw control
// characters inside strings.

module JsonRefusal {
  import opened Basics
  import opened JsonValue
  import opened JsonParser
  import opened JsonRoundTrip

  // Keys are distinct at every level; integers may be anything.
  ghost predicate Keyed(v: Value) {
    match v
    case Array(items) => forall i :: 0 <= i < |items| ==> Keyed(items[i])
    case Object(members) =>
      DistinctKeys(members) && forall i :: 0 <= i < |members| ==> Keyed(members[i].value)
    case _ => true
  }

  ghost predicate SomeRefused(items: seq<Value>) {
    exists i :: 0 <= i < |items| && !Canonical(items[i])
  }

  ghost predicate SomeMemberRefused(members: seq<Member>) {
    exists i :: 0 <= i < |members| && !Canonical(members[i].value)
  }

  lemma {:induction false} MinRefused(rest: bytes)
    requires NoDigitAhead(rest)
    ensures ParseValue(Dump(Integer(INT64_MIN)) + rest) == Fail
  {
    hide IntegerLoop, ParseInteger, ParseArray, ParseObject, StringLoop, Digits;
    var ds := Digits(TWO_63);
    DigitsValue(TWO_63);
    ParseIntegerExact(true, ds, rest);
    assert Dump(Integer(INT64_MIN)) + rest == Sign(true) + (ds + rest);
  }

  // A value holding INT64_MIN anywhere prints as a text the parser refuses.
  lemma {:induction false} ValueRefused(v: Value, rest: bytes)
    requires Keyed(v) && !Canonical(v) && NoDigitAhead(rest)
    ensures ParseValue(Dump(v) + rest) == Fail
    decreases v, 1
  {
    hide IntegerLoop, ParseInteger, StringLoop, DumpItems, DumpMembers;
    match v {
      case Integer(n) => MinRefused(rest);
      case Array(items) =>
        hide ParseValue, ArrayLoop;
        Regroup(['['], DumpItems(items), [']'], rest);
        OpenBracket('[', DumpItems(items) + ([']'] + rest));
        ItemsHead(items);
        SkipNothing(DumpItems(items) + ([']'] + rest));
        ItemsRefused(items, [']'] + rest);
      case Object(members) =>
        hide ParseValue, ObjectLoop;
        Regroup(['{'], DumpMembers(members), ['}'], rest);
        OpenBracket('{', DumpMembers(members) + (['}'] + rest));
        MembersHead(members);
        SkipNothing(DumpMembers(members) + (['}'] + rest));
        MembersRefused(members, ['}'] + rest);
    }
  }

  lemma {:induction false} ItemsRefused(items: seq<Value>, more: bytes)
    requires SomeRefused(items) && NoDigitAhead(more)
    requires forall i :: 0 <= i < |items| ==> Keyed(items[i])
    ensures ArrayLoop(DumpItems(items) + more, []) == Fail
    decreases items, 0
  {
    hide ParseValue, Dump, DumpItems, Canonical, Keyed;
    var init, last := items[..|items| - 1], items[|items| - 1];
    var one := Dump(last) + more;
    ItemsSplit(items, more);
    if SomeRefused(init) {
      ItemsRefused(init, [','] + one);
    } else {
      assert forall i :: 0 <= i < |init| ==> init[i] == items[i];
      ValueRefused(last, more);
      DumpHead(last);
      SkipNothing(one);
      if init != [] {
        ItemsRead(init, [','] + one);
        ArrayTailComma(one, init);
      }
    }
  }

  lemma {:induction false} MemberRefused(init: seq<Member>, last: Member, more: bytes)
    requires Keyed(last.value) && !Canonical(last.value) && NoDigitAhead(more)
    ensures ObjectLoop(DumpMember(last) + more, init) == Fail
    decreases last, 2
  {
    hide ParseValue, StringLoop, Dump, Canonical, Keyed, Escape;
    var s := DumpMember(last) + more;
    var text := Dump(last.value) + more;
    assert s == Quoted(last.key) + ([':'] + text);
    QuotedRead(last.key, [':'] + text);
    DumpHead(last.value);
    ValueRefused(last.value, more);
    SkipNothing(s);
    SkipNothing([':'] + text);
    assert ([':'] + text)[1..] == text;
    SkipNothing(text);
  }

  lemma {:induction false} MembersRefused(members: seq<Member>, more: bytes)
    requires SomeMemberRefused(members) && NoDigitAhead(more) && DistinctKeys(members)
    requires forall i :: 0 <= i < |members| ==> Keyed(members[i].value)
    ensures ObjectLoop(DumpMembers(members) + more, []) == Fail
    decreases members, 0
  {
    hide ObjectLoop, Dump, DumpMember, DumpMembers, Canonical, Keyed;
    var init, last := members[..|members| - 1], members[|members| - 1];
    var one := DumpMember(last) + more;
    MembersSplit(members, more);
    if SomeMemberRefused(init) {
      MembersRefused(init, [','] + one);
    } else {
      assert forall i :: 0 <= i < |init| ==> init[i] == members[i];
      MemberRefused(init, last, more);
      if init != [] {
        MembersRead(init, [','] + one);
        ObjectTailComma(one, init);
      }
    }
  }

  // With distinct keys the printed text parses exactly when no integer in it is
  // INT64_MIN, and then to the value printed.
  lemma {:induction false} PrintedParses(v: Value, rest: bytes)
    requires Keyed(v) && NoDigitAhead(rest) && SkipSpace(rest) == []
    ensures Parse(Dump(v) + rest) == if Canonical(v) then Some(v) else None
  {
    hide ParseValue, Dump, Canonical, Keyed;
    if Canonical(v) {
      ParseDumpWith(v, rest);
    } else {
      DumpHead(v);
      SkipNothing(Dump(v) + rest);
      ValueRefused(v, rest);
    }
  }

  // ----- raw characters inside strings -----

  ghost predicate Plain(t: bytes) {
    forall i :: 0 <= i < |t| ==> t[i] != '"' && t[i] != '\\'
  }

  lemma {:induction false} PlainRead(t: bytes, rest: bytes, out: bytes)
    requires Plain(t)
    ensures StringLoop(t + (['"'] + rest), out) == Got(out + t, rest)
    decreases |t|
  {
    var s := t + (['"'] + rest);
    if t == [] {
      assert s == ['"'] + rest && s[1..] == rest && out + t == out;
    } else {
      assert s[1..] == t[1..] + (['"'] + rest);
      PlainRead(t[1..], rest, out + [t[0]]);
      assert out + [t[0]] + t[1..] == out + t;
    }
  }

  // Any bytes other than quote and backslash, control characters included, stand
  // for themselves between quotes.
  lemma {:induction false} RawStringParses(t: bytes)
    requires Plain(t)
    ensures Parse(['"'] + t + ['"']) == Some(Text(t))
  {
    hide StringLoop;
    var s := ['"'] + t + ['"'];
    assert s[1..] == t + (['"'] + []);
    PlainRead(t, [], []);
    SkipNothing(s);
    assert [] + t == t;
  }

  // A raw tab and a raw line feed, which the printer would have escaped.
  lemma {:induction false} RawControlsParse()
    ensures Parse("\"\t\n\"") == Some(Text("\t\n")) && Dump(Text("\t\n")) == "\"\\t\\n\""
  {
    RawStringParses("\t\n");
    assert ['"'] + "\t\n" + ['"'] == "\"\t\n\"";
    assert "\t\n"[..1] == "\t" && "\t"[..0] == "";
    assert Escape("") == "" && Escape("\t") == "\\t";
  }
}
