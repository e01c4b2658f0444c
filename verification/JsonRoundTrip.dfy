// The parser undoes the printer.

module JsonRoundTrip {
  import opened Basics
  import opened JsonValue
  import opened JsonParser

  // A value the parser can produce: object keys are distinct at every level and
  // no integer is INT64_MIN, whose magnitude the integer loop refuses.
  ghost predicate Canonical(v: Value) {
    match v
    case Null => true
    case Integer(n) => n > INT64_MIN
    case Text(_) => true
    case Array(items) => forall i :: 0 <= i < |items| ==> Canonical(items[i])
    case Object(members) =>
      DistinctKeys(members) && forall i :: 0 <= i < |members| ==> Canonical(members[i].value)
  }

  // ----- integers -----

  ghost predicate AllDigits(ds: bytes) {
    forall i :: 0 <= i < |ds| ==> IsDigit(ds[i])
  }

  function DigitValue(c: byte): (d: int)
    requires IsDigit(c)
    ensures 0 <= d < 10
  {
    c as int - '0' as int
  }

  // The decimal value of a run of digits read after the value v.
  ghost function DecimalValue(v: nat, ds: bytes): nat
    requires AllDigits(ds)
    decreases |ds|
  {
    if ds == [] then v else DecimalValue(v * 10 + DigitValue(ds[0]), ds[1..])
  }

  lemma {:induction false} DecimalValueGrows(v: nat, ds: bytes)
    requires AllDigits(ds)
    ensures DecimalValue(v, ds) >= v
    decreases |ds|
  {
    if ds != [] { DecimalValueGrows(v * 10 + DigitValue(ds[0]), ds[1..]); }
  }

  ghost predicate NoDigitAhead(s: bytes) {
    s == [] || !IsDigit(s[0])
  }

  // The loop's divided overflow test is exact: a run of digits is accepted if and
  // only if its value fits, and then that value is returned.
  lemma {:induction false} IntegerLoopExact(ds: bytes, rest: bytes, v: int64)
    requires v >= 0 && NoDigitAhead(rest)
    requires AllDigits(ds)
    ensures IntegerLoop(ds + rest, v) ==
              if DecimalValue(v, ds) <= INT64_MAX then Got(DecimalValue(v, ds) as int64, rest) else Fail
    decreases |ds|
  {
    if ds == [] {
      assert ds + rest == rest;
    } else {
      var digit := DigitValue(ds[0]);
      assert (ds + rest)[1..] == ds[1..] + rest;
      if v > (INT64_MAX - digit) / 10 {
        DecimalValueGrows(v * 10 + digit, ds[1..]);
      } else {
        IntegerLoopExact(ds[1..], rest, v * 10 + digit);
      }
    }
  }

  // parse_integer on an optional minus sign and a non-empty run of digits.
  lemma {:induction false} ParseIntegerExact(negative: bool, ds: bytes, rest: bytes)
    requires ds != [] && AllDigits(ds) && NoDigitAhead(rest)
    ensures var n := DecimalValue(0, ds);
            ParseInteger(Sign(negative) + (ds + rest)) ==
              if n <= INT64_MAX then Got(Integer(if negative then 0 - n else n), rest) else Fail
  {
    var t := ds + rest;
    var s := Sign(negative) + t;
    assert t[0] == ds[0];
    if negative { assert s[1..] == t; } else { assert s == t; }
    IntegerLoopExact(ds, rest, 0);
  }

  // The digits a text starts with.
  function DigitRun(s: bytes): (ds: bytes)
    ensures |ds| <= |s| && AllDigits(ds) && s == ds + s[|ds|..] && NoDigitAhead(s[|ds|..])
  {
    s[..DigitCount(s)]
  }

  function DigitCount(s: bytes): (n: nat)
    ensures n <= |s| && (forall i :: 0 <= i < n ==> IsDigit(s[i])) && (n < |s| ==> !IsDigit(s[n]))
  {
    if s == [] || !IsDigit(s[0]) then 0 else 1 + DigitCount(s[1..])
  }

  // parse_integer on any text: it takes an optional minus sign and the whole digit
  // run behind it, and succeeds exactly when the run is not empty and its decimal
  // value at most INT64_MAX.
  lemma {:induction false} ParseIntegerIff(s: bytes)
    ensures var negative := s != [] && s[0] == '-';
            var body := if negative then s[1..] else s;
            var ds := DigitRun(body);
            var n := DecimalValue(0, ds);
            ParseInteger(s) ==
              if ds != [] && n <= INT64_MAX
              then Got(Integer(if negative then 0 - n else n), body[|ds|..]) else Fail
  {
    var negative := s != [] && s[0] == '-';
    var body := if negative then s[1..] else s;
    var ds := DigitRun(body);
    if ds != [] {
      assert Sign(negative) + (ds + body[|ds|..]) == s;
      ParseIntegerExact(negative, ds, body[|ds|..]);
    }
  }

  function Sign(negative: bool): bytes {
    if negative then ['-'] else []
  }

  lemma {:induction false} DigitsValue(n: nat)
    ensures AllDigits(Digits(n))
    ensures DecimalValue(0, Digits(n)) == n
  {
    if n >= 10 {
      DigitsValue(n / 10);
      var last: bytes := [Chr('0' as int + n % 10)];
      DecimalValueConcat(0, Digits(n / 10), last);
      assert DecimalValue(n / 10, last) == DecimalValue(n / 10 * 10 + n % 10, last[1..]);
    }
  }

  lemma {:induction false} DecimalValueConcat(v: nat, x: bytes, y: bytes)
    requires AllDigits(x) && AllDigits(y)
    ensures DecimalValue(v, x + y) == DecimalValue(DecimalValue(v, x), y)
    decreases |x|
  {
    if x == [] {
      assert x + y == y;
    } else {
      assert (x + y)[1..] == x[1..] + y;
      DecimalValueConcat(v * 10 + DigitValue(x[0]), x[1..], y);
    }
  }

  // ----- strings -----

  lemma {:induction false} EscapedByteRead(c: byte, more: bytes, out: bytes)
    ensures StringLoop(EscapeByte(c) + more, out) == StringLoop(more, out + [c])
  {
    var e := EscapeByte(c);
    var s := e + more;
    if |e| == 1 {
      assert s[1..] == more;
    } else if |e| == 2 {
      assert s[2..] == more;
      assert Unescaped(e[1]) == Some(c);
    } else {
      ControlEscapeRead(c, more);
      assert s[2..] == e[2..] + more;
    }
  }

  lemma {:induction false} ControlEscapeRead(c: byte, more: bytes)
    requires |EscapeByte(c)| == 6
    ensures EscapeByte(c)[1] == 'u'
    ensures UnicodeEscape(EscapeByte(c)[2..] + more) == Got([c], more)
  {
    var s := EscapeByte(c)[2..] + more;
    assert s[0] == '0' && s[1] == '0' && s[2] == HexDigit(c as int / 16) && s[3] == HexDigit(c as int % 16);
    assert HexPrefix(s, 0) == Some(0);
    assert HexPrefix(s, 1) == Some(0);
    assert HexPrefix(s, 2) == Some(0);
    assert HexPrefix(s, 3) == Some(c as int / 16);
    assert HexPrefix(s, 4) == Some(c as int);
    assert s[4..] == more;
    assert Chr(c as int) == c;
  }

  lemma {:induction false} EscapeRead(t: bytes, more: bytes, out: bytes)
    ensures StringLoop(Escape(t) + more, out) == StringLoop(more, out + t)
    decreases |t|
  {
    hide StringLoop, EscapeByte;
    if t == [] {
      assert Escape(t) + more == more && out + t == out;
    } else {
      var t', c := t[..|t| - 1], t[|t| - 1];
      assert Escape(t) + more == Escape(t') + (EscapeByte(c) + more);
      EscapeRead(t', EscapeByte(c) + more, out);
      EscapedByteRead(c, more, out + t');
      assert out + t' + [c] == out + t;
    }
  }

  lemma {:induction false} QuotedRead(t: bytes, rest: bytes)
    ensures var s := Quoted(t) + rest;
            s[0] == '"' && StringLoop(s[1..], []) == Got(t, rest)
  {
    var s := Quoted(t) + rest;
    assert s[1..] == Escape(t) + (['"'] + rest);
    EscapeRead(t, ['"'] + rest, []);
    assert (['"'] + rest)[1..] == rest;
    assert [] + t == t;
  }

  // ----- values -----

  // The first byte printed tells the parser which routine to take.
  lemma {:induction false} DumpHead(v: Value)
    ensures Dump(v) != []
    ensures var c := Dump(v)[0];
            !IsSpace(c) && c != ']' && c != '}' &&
            (v.Null? ==> c == 'n') && (v.Text? ==> c == '"') &&
            (v.Array? ==> c == '[') && (v.Object? ==> c == '{') &&
            (v.Integer? ==> IsDigit(c) || c == '-')
  {
    if v.Integer? { DigitsValue(if v.n < 0 then 0 - v.n as int else v.n); }
  }

  lemma {:induction false} SkipNothing(s: bytes)
    requires s != [] && !IsSpace(s[0])
    ensures SkipSpace(s) == s
  {
  }

  lemma {:induction false} OpenBracket(c: byte, s: bytes)
    requires c == '[' || c == '{'
    ensures ParseValue([c] + s) == if c == '[' then ParseArray(s) else ParseObject(s)
  {
    assert ([c] + s)[1..] == s;
  }

  lemma {:induction false} ValueRead(v: Value, rest: bytes)
    requires Canonical(v) && NoDigitAhead(rest)
    ensures ParseValue(Dump(v) + rest) == Got(v, rest)
    decreases v, 1
  {
    hide IntegerLoop, ArrayLoop, ObjectLoop, StringLoop, ParseInteger, DumpItems, DumpMembers, Escape, Digits;
    DumpHead(v);
    var s := Dump(v) + rest;
    assert s[0] == Dump(v)[0];
    match v {
      case Null =>
        assert s[..4] == "null" && s[4..] == rest;
      case Integer(n) =>
        var m: nat := if n < 0 then 0 - n as int else n;
        DigitsValue(m);
        ParseIntegerExact(n < 0, Digits(m), rest);
        assert s == Sign(n < 0) + (Digits(m) + rest);
      case Text(t) =>
        QuotedRead(t, rest);
      case Array(items) =>
        ArrayRead(items, rest);
        Regroup(['['], DumpItems(items), [']'], rest);
        OpenBracket('[', DumpItems(items) + ([']'] + rest));
      case Object(members) =>
        ObjectRead(members, rest);
        Regroup(['{'], DumpMembers(members), ['}'], rest);
        OpenBracket('{', DumpMembers(members) + (['}'] + rest));
    }
  }

  lemma {:induction false} ArrayRead(items: seq<Value>, rest: bytes)
    requires forall i :: 0 <= i < |items| ==> Canonical(items[i])
    ensures ParseArray(DumpItems(items) + ([']'] + rest)) == Got(Array(items), rest)
    decreases items, 2
  {
    var more := [']'] + rest;
    SkipNothing(more);
    assert more[1..] == rest;
    if items == [] {
      assert DumpItems(items) + more == more;
    } else {
      ItemsHead(items);
      SkipNothing(DumpItems(items) + more);
      ItemsRead(items, more);
    }
  }

  lemma {:induction false} ItemsHead(items: seq<Value>)
    requires items != []
    ensures DumpItems(items) != [] && !IsSpace(DumpItems(items)[0]) && DumpItems(items)[0] != ']'
    decreases |items|
  {
    if |items| == 1 {
      DumpHead(items[0]);
      assert DumpItems(items[..0]) == [];
    } else {
      ItemsHead(items[..|items| - 1]);
    }
  }

  lemma {:induction false} ArrayLoopStep(s: bytes, items: seq<Value>, v: Value, rest: bytes)
    requires s != [] && !IsSpace(s[0]) && ParseValue(s) == Got(v, rest)
    ensures ArrayLoop(s, items) == ArrayTail(rest, items + [v])
  {
  }

  lemma {:induction false} ArrayTailComma(s: bytes, items: seq<Value>)
    ensures ArrayTail([','] + s, items) == ArrayLoop(s, items)
  {
    SkipNothing([','] + s);
    assert ([','] + s)[1..] == s;
  }

  lemma {:induction false} ItemsSplit(items: seq<Value>, more: bytes)
    requires items != []
    ensures var init, last := items[..|items| - 1], items[|items| - 1];
            DumpItems(items) + more ==
              if init == [] then Dump(last) + more else DumpItems(init) + ([','] + (Dump(last) + more))
  {
    var init, last := items[..|items| - 1], items[|items| - 1];
    Regroup(DumpItems(init), Comma(|items| > 1), Dump(last), more);
    if init == [] { assert DumpItems(items) == Dump(last); }
  }

  lemma {:induction false} Regroup(a: bytes, b: bytes, c: bytes, d: bytes)
    ensures (a + b + c) + d == a + (b + (c + d))
  {
  }

  // After the items comes something that is no digit, so the last one ends there.
  lemma {:induction false} ItemsRead(items: seq<Value>, more: bytes)
    requires items != [] && NoDigitAhead(more)
    requires forall i :: 0 <= i < |items| ==> Canonical(items[i])
    ensures ArrayLoop(DumpItems(items) + more, []) == ArrayTail(more, items)
    decreases items, 1
  {
    var init, last := items[..|items| - 1], items[|items| - 1];
    assert init + [last] == items;
    DumpHead(last);
    ValueRead(last, more);
    ArrayLoopStep(Dump(last) + more, init, last, more);
    ItemsSplit(items, more);
    if init != [] {
      ItemsRead(init, [','] + (Dump(last) + more));
      ArrayTailComma(Dump(last) + more, init);
    }
  }

  lemma {:induction false} ObjectRead(members: seq<Member>, rest: bytes)
    requires DistinctKeys(members) && forall i :: 0 <= i < |members| ==> Canonical(members[i].value)
    ensures ParseObject(DumpMembers(members) + (['}'] + rest)) == Got(Object(members), rest)
    decreases members, 2
  {
    var more := ['}'] + rest;
    SkipNothing(more);
    assert more[1..] == rest;
    if members == [] {
      assert DumpMembers(members) + more == more;
    } else {
      MembersHead(members);
      SkipNothing(DumpMembers(members) + more);
      MembersRead(members, more);
    }
  }

  lemma {:induction false} MembersHead(members: seq<Member>)
    requires members != []
    ensures DumpMembers(members) != [] && DumpMembers(members)[0] == '"'
    decreases |members|
  {
    if |members| > 1 { MembersHead(members[..|members| - 1]); }
  }

  lemma {:induction false} FreshKeyAppends(init: seq<Member>, last: Member)
    requires DistinctKeys(init + [last])
    ensures SetMember(init, last.key, last.value) == init + [last]
  {
    var i := KeyIndex(init, last.key);
    forall j | 0 <= j < |init| ensures init[j].key != last.key {
      assert (init + [last])[j].key != (init + [last])[|init|].key;
    }
  }

  lemma {:induction false} ObjectLoopStep(s: bytes, members: seq<Member>, key: bytes, text: bytes, v: Value, rest: bytes)
    requires s != [] && s[0] == '"' && StringLoop(s[1..], []) == Got(key, [':'] + text)
    requires text != [] && !IsSpace(text[0]) && ParseValue(text) == Got(v, rest)
    ensures ObjectLoop(s, members) == ObjectTail(rest, SetMember(members, key, v))
  {
    SkipNothing(s);
    SkipNothing([':'] + text);
    assert ([':'] + text)[1..] == text;
    SkipNothing(text);
  }

  lemma {:induction false} ObjectTailComma(s: bytes, members: seq<Member>)
    ensures ObjectTail([','] + s, members) == ObjectLoop(s, members)
  {
    SkipNothing([','] + s);
    assert ([','] + s)[1..] == s;
  }

  // One member, read after the members before it.
  lemma {:induction false} MemberRead(init: seq<Member>, last: Member, more: bytes)
    requires DistinctKeys(init + [last]) && Canonical(last.value) && NoDigitAhead(more)
    ensures ObjectLoop(DumpMember(last) + more, init) == ObjectTail(more, init + [last])
    decreases last, 2
  {
    var s := DumpMember(last) + more;
    var text := Dump(last.value) + more;
    assert s == Quoted(last.key) + ([':'] + text);
    QuotedRead(last.key, [':'] + text);
    DumpHead(last.value);
    ValueRead(last.value, more);
    ObjectLoopStep(s, init, last.key, text, last.value, more);
    FreshKeyAppends(init, last);
  }

  lemma {:induction false} MembersSplit(members: seq<Member>, more: bytes)
    requires members != []
    ensures var init, last := members[..|members| - 1], members[|members| - 1];
            DumpMembers(members) + more ==
              if init == [] then DumpMember(last) + more
              else DumpMembers(init) + ([','] + (DumpMember(last) + more))
  {
    var init, last := members[..|members| - 1], members[|members| - 1];
    Regroup(DumpMembers(init), Comma(|members| > 1), DumpMember(last), more);
    if init == [] { assert DumpMembers(members) == DumpMember(last); }
  }

  lemma {:induction false} MembersRead(members: seq<Member>, more: bytes)
    requires members != [] && NoDigitAhead(more)
    requires DistinctKeys(members) && forall i :: 0 <= i < |members| ==> Canonical(members[i].value)
    ensures ObjectLoop(DumpMembers(members) + more, []) == ObjectTail(more, members)
    decreases members, 1
  {
    hide ObjectLoop, ObjectTail, Dump, DumpMember, DumpMembers, Canonical;
    var init, last := members[..|members| - 1], members[|members| - 1];
    var one := DumpMember(last) + more;
    assert init + [last] == members;
    MemberRead(init, last, more);
    MembersSplit(members, more);
    if init != [] {
      MembersRead(init, [','] + one);
      ObjectTailComma(one, init);
    }
  }

  // ----- what the parser produces -----

  lemma {:induction false} ParsedIsCanonical(s: bytes)
    ensures ParseValue(s).Got? ==> Canonical(ParseValue(s).value)
    decreases |s|, 0
  {
    if s != [] && s[0] == '[' {
      var t := SkipSpace(s[1..]);
      if t == [] || t[0] != ']' { ArrayLoopCanonical(t, []); }
    }
    if s != [] && s[0] == '{' {
      var t := SkipSpace(s[1..]);
      if t == [] || t[0] != '}' { ObjectLoopCanonical(t, []); }
    }
  }

  lemma {:induction false} ArrayLoopCanonical(s: bytes, items: seq<Value>)
    requires forall i :: 0 <= i < |items| ==> Canonical(items[i])
    ensures ArrayLoop(s, items).Got? ==> Canonical(ArrayLoop(s, items).value)
    decreases |s|, 1
  {
    ParsedIsCanonical(SkipSpace(s));
    var r := ParseValue(SkipSpace(s));
    if r.Got? {
      var t := SkipSpace(r.rest);
      if t != [] && t[0] == ',' { ArrayLoopCanonical(t[1..], items + [r.value]); }
    }
  }

  lemma {:induction false} ObjectLoopCanonical(s: bytes, members: seq<Member>)
    requires DistinctKeys(members) && forall i :: 0 <= i < |members| ==> Canonical(members[i].value)
    ensures ObjectLoop(s, members).Got? ==> Canonical(ObjectLoop(s, members).value)
    decreases |s|, 1
  {
    var t := SkipSpace(s);
    if t != [] && t[0] == '"' {
      var key := StringLoop(t[1..], []);
      if key.Got? {
        var u := SkipSpace(key.rest);
        if u != [] && u[0] == ':' {
          var x := SkipSpace(u[1..]);
          ParsedIsCanonical(x);
          var r := ParseValue(x);
          if r.Got? {
            SetThenFind(members, key.value, r.value, key.value);
            var w := SkipSpace(r.rest);
            if w != [] && w[0] == ',' {
              ObjectLoopCanonical(w[1..], SetMember(members, key.value, r.value));
            }
          }
        }
      }
    }
  }

  // ----- the main results -----

  lemma {:induction false} ParseDumpWith(v: Value, rest: bytes)
    requires Canonical(v) && NoDigitAhead(rest) && SkipSpace(rest) == []
    ensures Parse(Dump(v) + rest) == Some(v)
  {
    DumpHead(v);
    SkipNothing(Dump(v) + rest);
    ValueRead(v, rest);
  }

  // Printing and parsing back gives the value again exactly when its keys are
  // distinct and no integer is INT64_MIN.
  lemma {:induction false} RoundTrip(v: Value)
    ensures Parse(Dump(v)) == Some(v) <==> Canonical(v)
  {
    if Canonical(v) {
      ParseDumpWith(v, []);
      assert Dump(v) + [] == Dump(v);
    } else {
      ParsedIsCanonical(SkipSpace(Dump(v)));
    }
  }

  // Whatever was parsed survives being printed and parsed again.
  lemma {:induction false} ReparseStable(text: bytes)
    ensures Parse(text).Some? ==> Parse(Dump(Parse(text).value)) == Parse(text)
  {
    ParsedIsCanonical(SkipSpace(text));
    if Parse(text).Some? { RoundTrip(Parse(text).value); }
  }
}
