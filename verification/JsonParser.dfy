// src/persistence/Json.cpp: the recursive-descent parser.
//
// The functions say what each parsing routine makes of the remaining text; the
// methods of class Parser are the routines themselves, advancing text_ in place.

module JsonParser {
  import opened Basics
  import opened JsonValue

  // A routine either fails or yields a value and the text left to read.
  datatype Step<+T> = Fail | Got(value: T, rest: bytes)

  predicate IsSpace(c: byte) {
    c == ' ' || c == '\t' || c == '\n' || c == '\r'
  }

  predicate IsDigit(c: byte) {
    '0' <= c <= '9'
  }

  function HexValue(c: byte): (h: int)
    ensures -1 <= h < 16
  {
    if '0' <= c <= '9' then c as int - '0' as int
    else if 'a' <= c <= 'f' then c as int - 'a' as int + 10
    else if 'A' <= c <= 'F' then c as int - 'A' as int + 10
    else -1
  }

  function SkipSpace(s: bytes): (r: bytes)
    ensures |r| <= |s|
    ensures r != [] ==> !IsSpace(r[0])
  {
    if s != [] && IsSpace(s[0]) then SkipSpace(s[1..]) else s
  }

  function ParseValue(s: bytes): (r: Step<Value>)
    ensures r.Got? ==> |r.rest| < |s|
    decreases |s|, 0
  {
    if s == [] then Fail
    else if s[0] == '{' then ParseObject(s[1..])
    else if s[0] == '[' then ParseArray(s[1..])
    else if s[0] == '"' then
      match StringLoop(s[1..], [])
      case Fail => Fail
      case Got(t, rest) => Got(Text(t), rest)
    else if s[0] == 'n' then
      if |s| >= 4 && s[..4] == "null" then Got(Null, s[4..]) else Fail
    else if IsDigit(s[0]) || s[0] == '-' then ParseInteger(s)
    else Fail
  }

  function ParseInteger(s: bytes): (r: Step<Value>)
    ensures r.Got? ==> |r.rest| < |s|
  {
    var negative := s != [] && s[0] == '-';
    var t := if negative then s[1..] else s;
    if t == [] || !IsDigit(t[0]) then Fail else
    match IntegerLoop(t, 0)
    case Fail => Fail
    case Got(n, rest) => Got(Integer(if negative then 0 - n else n), rest)
  }

  // The overflow test divides before it multiplies, so every intermediate value
  // is itself an int64_t.
  function IntegerLoop(s: bytes, value: int64): (r: Step<int64>)
    requires value >= 0
    ensures r.Got? ==> r.value >= 0 && |r.rest| <= |s|
    ensures r.Got? && s != [] && IsDigit(s[0]) ==> |r.rest| < |s|
  {
    if s == [] || !IsDigit(s[0]) then Got(value, s) else
    var digit := s[0] as int - '0' as int;
    if value > (INT64_MAX - digit) / 10 then Fail
    else IntegerLoop(s[1..], value * 10 + digit)
  }

  function Unescaped(c: byte): Option<byte> {
    if c == '"' then Some('"')
    else if c == '\\' then Some('\\')
    else if c == '/' then Some('/')
    else if c == 'b' then Some(BACKSPACE)
    else if c == 'f' then Some(FORMFEED)
    else if c == 'n' then Some('\n')
    else if c == 'r' then Some('\r')
    else if c == 't' then Some('\t')
    else None
  }

  // The code point spelled by the first n characters, all hex digits.
  function HexPrefix(s: bytes, n: nat): (r: Option<nat>)
    requires n <= |s|
    decreases n
  {
    if n == 0 then Some(0) else
    match HexPrefix(s, n - 1)
    case None => None
    case Some(cp) => if HexValue(s[n - 1]) < 0 then None else Some(cp * 16 + HexValue(s[n - 1]))
  }

  lemma {:induction false} HexPrefixBound(s: bytes, n: nat)
    requires n <= |s| && n <= 4 && HexPrefix(s, n).Some?
    ensures HexPrefix(s, n).value < (if n == 0 then 1 else if n == 1 then 16 else if n == 2 then 256
                                     else if n == 3 then 4096 else 65536)
  {
    if n > 0 { HexPrefixBound(s, n - 1); }
  }

  // append_utf8; the masks and shifts of the source written as arithmetic.
  function Utf8(cp: nat): bytes
    requires cp < 0x11_0000
  {
    if cp <= 0x7F then [Chr(cp)]
    else if cp <= 0x7FF then [Chr(0xC0 + cp / 64), Chr(0x80 + cp % 64)]
    else if cp <= 0xFFFF then
      [Chr(0xE0 + cp / 4096), Chr(0x80 + cp / 64 % 64), Chr(0x80 + cp % 64)]
    else
      [Chr(0xF0 + cp / 262144), Chr(0x80 + cp / 4096 % 64), Chr(0x80 + cp / 64 % 64), Chr(0x80 + cp % 64)]
  }

  // What follows "\u": four hex digits naming a code point that is no surrogate.
  function UnicodeEscape(s: bytes): (r: Step<bytes>)
    ensures r.Got? ==> |r.rest| + 4 == |s|
  {
    if |s| < 4 || HexPrefix(s, 4).None? then Fail else
    var cp := HexPrefix(s, 4).value;
    HexPrefixBound(s, 4);
    if 0xD800 <= cp <= 0xDFFF then Fail else Got(Utf8(cp), s[4..])
  }

  // The body of a string, after its opening quote.
  function StringLoop(s: bytes, out: bytes): (r: Step<bytes>)
    ensures r.Got? ==> |r.rest| < |s|
    decreases |s|
  {
    if s == [] then Fail
    else if s[0] == '"' then Got(out, s[1..])
    else if s[0] != '\\' then StringLoop(s[1..], out + [s[0]])
    else if |s| == 1 then Fail
    else if s[1] == 'u' then
      match UnicodeEscape(s[2..])
      case Fail => Fail
      case Got(encoded, rest) => StringLoop(rest, out + encoded)
    else
      match Unescaped(s[1])
      case None => Fail
      case Some(c) => StringLoop(s[2..], out + [c])
  }

  function ParseArray(s: bytes): (r: Step<Value>)
    ensures r.Got? ==> |r.rest| < |s|
    decreases |s|, 3
  {
    var t := SkipSpace(s);
    if t != [] && t[0] == ']' then Got(Array([]), t[1..]) else ArrayLoop(t, [])
  }

  function ArrayLoop(s: bytes, items: seq<Value>): (r: Step<Value>)
    ensures r.Got? ==> |r.rest| < |s|
    decreases |s|, 2
  {
    match ParseValue(SkipSpace(s))
    case Fail => Fail
    case Got(item, rest) => ArrayTail(rest, items + [item])
  }

  function ArrayTail(s: bytes, items: seq<Value>): (r: Step<Value>)
    ensures r.Got? ==> |r.rest| < |s|
    decreases |s|, 1
  {
    var t := SkipSpace(s);
    if t != [] && t[0] == ',' then ArrayLoop(t[1..], items)
    else if t != [] && t[0] == ']' then Got(Array(items), t[1..])
    else Fail
  }

  function ParseObject(s: bytes): (r: Step<Value>)
    ensures r.Got? ==> |r.rest| < |s|
    decreases |s|, 3
  {
    var t := SkipSpace(s);
    if t != [] && t[0] == '}' then Got(Object([]), t[1..]) else ObjectLoop(t, [])
  }

  function ObjectLoop(s: bytes, members: seq<Member>): (r: Step<Value>)
    ensures r.Got? ==> |r.rest| < |s|
    decreases |s|, 2
  {
    var t := SkipSpace(s);
    if t == [] || t[0] != '"' then Fail else
    match StringLoop(t[1..], [])
    case Fail => Fail
    case Got(key, afterKey) =>
      var u := SkipSpace(afterKey);
      if u == [] || u[0] != ':' then Fail else
      match ParseValue(SkipSpace(u[1..]))
      case Fail => Fail
      case Got(value, rest) => ObjectTail(rest, SetMember(members, key, value))
  }

  function ObjectTail(s: bytes, members: seq<Member>): (r: Step<Value>)
    ensures r.Got? ==> |r.rest| < |s|
    decreases |s|, 1
  {
    var t := SkipSpace(s);
    if t != [] && t[0] == ',' then ObjectLoop(t[1..], members)
    else if t != [] && t[0] == '}' then Got(Object(members), t[1..])
    else Fail
  }

  // json::parse
  function Parse(text: bytes): Option<Value> {
    match ParseValue(SkipSpace(text))
    case Fail => None
    case Got(v, rest) => if SkipSpace(rest) == [] then Some(v) else None
  }

  // ----- the routines -----

  ghost predicate Delivers<T>(spec: Step<T>, got: Option<T>, text: bytes) {
    match spec
    case Fail => got == None
    case Got(v, rest) => got == Some(v) && text == rest
  }

  class Parser {
    var text: bytes

    constructor (text: bytes)
      ensures this.text == text
    {
      this.text := text;
    }

    predicate Peek(c: byte)
      reads this
    {
      text != [] && text[0] == c
    }

    method Advance()
      modifies this
      ensures text == if old(text) == [] then [] else old(text)[1..]
    {
      if text != [] { text := text[1..]; }
    }

    method SkipWhitespace()
      modifies this
      ensures text == SkipSpace(old(text))
    {
      while text != [] && IsSpace(text[0])
        invariant SkipSpace(text) == SkipSpace(old(text))
        decreases |text|
      {
        Advance();
      }
    }

    method Run() returns (v: Option<Value>)
      modifies this
      ensures v == Parse(old(text))
    {
      SkipWhitespace();
      v := ReadValue();
      if v.None? { return; }
      SkipWhitespace();
      if text != [] { return None; }
    }

    method ReadValue() returns (v: Option<Value>)
      modifies this
      ensures Delivers(ParseValue(old(text)), v, text)
      decreases |text|, 1
    {
      if text == [] { return None; }
      if text[0] == '{' {
        v := ReadObject();
      } else if text[0] == '[' {
        v := ReadArray();
      } else if text[0] == '"' {
        var s := ReadString();
        v := if s.None? then None else Some(Text(s.value));
      } else if text[0] == 'n' {
        v := ReadKeyword("null", Null);
      } else if IsDigit(text[0]) || text[0] == '-' {
        v := ReadInteger();
      } else {
        v := None;
      }
    }

    method ReadKeyword(keyword: bytes, value: Value) returns (v: Option<Value>)
      modifies this
      ensures Delivers(if |old(text)| >= |keyword| && old(text)[..|keyword|] == keyword
                       then Got(value, old(text)[|keyword|..]) else Fail, v, text)
    {
      if |text| < |keyword| || text[..|keyword|] != keyword { return None; }
      text := text[|keyword|..];
      v := Some(value);
    }

    method ReadInteger() returns (v: Option<Value>)
      modifies this
      ensures Delivers(ParseInteger(old(text)), v, text)
    {
      var negative := false;
      if Peek('-') {
        Advance();
        negative := true;
      }
      if text == [] || !IsDigit(text[0]) { return None; }
      ghost var start := text;
      var value: int64 := 0;
      while text != [] && IsDigit(text[0])
        invariant value >= 0
        invariant IntegerLoop(start, 0) == IntegerLoop(text, value)
        decreases |text|
      {
        var digit: int64 := text[0] as int - '0' as int;
        if value > (INT64_MAX - digit) / 10 { return None; }
        value := value * 10 + digit;
        Advance();
      }
      v := Some(Integer(if negative then 0 - value else value));
    }

    method ReadHex4() returns (cp: Option<nat>)
      requires |text| >= 4
      modifies this
      ensures cp == HexPrefix(old(text), 4)
      ensures cp.Some? ==> text == old(text)[4..]
    {
      var sum: nat := 0;
      for i := 0 to 4
        invariant text == old(text)[i..]
        invariant HexPrefix(old(text), i) == Some(sum)
      {
        var h := HexValue(text[0]);
        if h < 0 {
          HexPrefixFails(old(text), i + 1, 4);
          return None;
        }
        sum := sum * 16 + h;
        Advance();
      }
      cp := Some(sum);
    }

    method ReadString() returns (s: Option<bytes>)
      requires text != []
      modifies this
      ensures Delivers(StringLoop(old(text)[1..], []), s, text)
    {
      Advance();
      var out: bytes := [];
      while text != []
        invariant StringLoop(text, out) == StringLoop(old(text)[1..], [])
        decreases |text|
      {
        ghost var here := text;
        var c := text[0];
        Advance();
        if c == '"' { return Some(out); }
        if c != '\\' {
          out := out + [c];
          continue;
        }
        if text == [] { return None; }
        var escaped := text[0];
        Advance();
        assert text == here[2..];
        if escaped == 'u' {
          if |text| < 4 { return None; }
          var cp := ReadHex4();
          if cp.None? { return None; }
          HexPrefixBound(here[2..], 4);
          if 0xD800 <= cp.value <= 0xDFFF { return None; }
          out := out + Utf8(cp.value);
        } else {
          var plain := Unescaped(escaped);
          if plain.None? { return None; }
          out := out + [plain.value];
        }
      }
      s := None;
    }

    method ReadArray() returns (v: Option<Value>)
      requires text != []
      modifies this
      ensures Delivers(ParseArray(old(text)[1..]), v, text)
      decreases |text|, 0
    {
      Advance();
      SkipWhitespace();
      if Peek(']') {
        Advance();
        return Some(Array([]));
      }
      ghost var start := text;
      assert ParseArray(old(text)[1..]) == ArrayLoop(start, []);
      var items: seq<Value> := [];
      while true
        invariant |text| < |old(text)|
        invariant ArrayLoop(text, items) == ArrayLoop(start, [])
        decreases |text|
      {
        SkipWhitespace();
        var item := ReadValue();
        if item.None? { return None; }
        items := items + [item.value];
        SkipWhitespace();
        if Peek(',') {
          Advance();
          continue;
        }
        if Peek(']') {
          Advance();
          return Some(Array(items));
        }
        return None;
      }
    }

    method ReadObject() returns (v: Option<Value>)
      requires text != []
      modifies this
      ensures Delivers(ParseObject(old(text)[1..]), v, text)
      decreases |text|, 0
    {
      Advance();
      SkipWhitespace();
      if Peek('}') {
        Advance();
        return Some(Object([]));
      }
      ghost var start := text;
      assert ParseObject(old(text)[1..]) == ObjectLoop(start, []);
      var members: seq<Member> := [];
      while true
        invariant |text| < |old(text)|
        invariant ObjectLoop(text, members) == ObjectLoop(start, [])
        decreases |text|
      {
        SkipWhitespace();
        if !Peek('"') { return None; }
        var key := ReadString();
        if key.None? { return None; }
        SkipWhitespace();
        if !Peek(':') { return None; }
        Advance();
        SkipWhitespace();
        var value := ReadValue();
        if value.None? { return None; }
        members := SetMember(members, key.value, value.value);
        SkipWhitespace();
        if Peek(',') {
          Advance();
          continue;
        }
        if Peek('}') {
          Advance();
          return Some(Object(members));
        }
        return None;
      }
    }
  }

  lemma {:induction false} HexPrefixFails(s: bytes, m: nat, n: nat)
    requires m <= n <= |s| && HexPrefix(s, m).None?
    ensures HexPrefix(s, n).None?
    decreases n
  {
    if m < n { HexPrefixFails(s, m, n - 1); }
  }

  method ParseText(text: bytes) returns (v: Option<Value>)
    ensures v == Parse(text)
  {
    var p := new Parser(text);
    v := p.Run();
  }
}
