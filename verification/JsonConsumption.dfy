// What the parser leaves unread is always the end of what it was given.

module JsonConsumption {
  import opened Basics
  import opened JsonValue
  import opened JsonParser

  ghost predicate EndsIn(s: bytes, r: bytes) {
    |r| <= |s| && s[|s| - |r|..] == r
  }

  lemma {:induction false} EndsInChain(s: bytes, t: bytes, r: bytes)
    requires EndsIn(s, t) && EndsIn(t, r)
    ensures EndsIn(s, r)
  {
    assert s[|s| - |t|..][|t| - |r|..] == s[|s| - |r|..];
  }

  lemma {:induction false} EndsInDrop(s: bytes, n: nat)
    requires n <= |s|
    ensures EndsIn(s, s[n..])
  {
  }

  // After a step of n bytes.
  lemma {:induction false} EndsInAfter(s: bytes, n: nat, r: bytes)
    requires n <= |s| && EndsIn(s[n..], r)
    ensures EndsIn(s, r)
  {
    EndsInDrop(s, n);
    EndsInChain(s, s[n..], r);
  }

  lemma {:induction false} SkipSpaceEnds(s: bytes)
    ensures EndsIn(s, SkipSpace(s))
    decreases |s|
  {
    if s != [] && IsSpace(s[0]) {
      SkipSpaceEnds(s[1..]);
      EndsInAfter(s, 1, SkipSpace(s[1..]));
    }
  }

  lemma {:induction false} IntegerLoopEnds(s: bytes, value: int64)
    requires value >= 0
    ensures IntegerLoop(s, value).Got? ==> EndsIn(s, IntegerLoop(s, value).rest)
    decreases |s|
  {
    if s != [] && IsDigit(s[0]) && IntegerLoop(s, value).Got? {
      IntegerLoopEnds(s[1..], value * 10 + (s[0] as int - '0' as int));
      EndsInAfter(s, 1, IntegerLoop(s, value).rest);
    }
  }

  lemma {:induction false} IntegerEnds(s: bytes)
    ensures ParseInteger(s).Got? ==> EndsIn(s, ParseInteger(s).rest)
  {
    if ParseInteger(s).Got? {
      if s[0] == '-' {
        IntegerLoopEnds(s[1..], 0);
        EndsInAfter(s, 1, ParseInteger(s).rest);
      } else {
        IntegerLoopEnds(s, 0);
      }
    }
  }

  lemma {:induction false} StringLoopEnds(s: bytes, out: bytes)
    ensures StringLoop(s, out).Got? ==> EndsIn(s, StringLoop(s, out).rest)
    decreases |s|
  {
    hide Utf8, HexPrefix, Unescaped, EndsIn;
    var r := StringLoop(s, out);
    if r.Got? {
      if s[0] == '"' {
        EndsInDrop(s, 1);
      } else if s[0] != '\\' {
        StringLoopEnds(s[1..], out + [s[0]]);
        EndsInAfter(s, 1, r.rest);
      } else if s[1] == 'u' {
        var e := UnicodeEscape(s[2..]);
        assert e.rest == s[6..];
        StringLoopEnds(e.rest, out + e.value);
        EndsInAfter(s, 6, r.rest);
      } else {
        StringLoopEnds(s[2..], out + [Unescaped(s[1]).value]);
        EndsInAfter(s, 2, r.rest);
      }
    }
  }

  // Every successful parse consumes a prefix, and a non-empty one at that.
  lemma {:induction false} ParseConsumes(s: bytes)
    ensures ParseValue(s).Got? ==> EndsIn(s, ParseValue(s).rest) && |ParseValue(s).rest| < |s|
    decreases |s|, 0
  {
    hide EndsIn, StringLoop, ParseInteger;
    var r := ParseValue(s);
    if r.Got? {
      if s[0] == '{' {
        ObjectEnds(s[1..]);
        EndsInAfter(s, 1, r.rest);
      } else if s[0] == '[' {
        ArrayEnds(s[1..]);
        EndsInAfter(s, 1, r.rest);
      } else if s[0] == '"' {
        StringLoopEnds(s[1..], []);
        EndsInAfter(s, 1, r.rest);
      } else if s[0] == 'n' {
        EndsInDrop(s, 4);
      } else {
        IntegerEnds(s);
      }
    }
  }

  lemma {:induction false} ArrayEnds(s: bytes)
    ensures ParseArray(s).Got? ==> EndsIn(s, ParseArray(s).rest)
    decreases |s|, 3
  {
    hide EndsIn, ArrayLoop;
    var t := SkipSpace(s);
    SkipSpaceEnds(s);
    if ParseArray(s).Got? {
      if t != [] && t[0] == ']' { EndsInDrop(t, 1); } else { ArrayLoopEnds(t, []); }
      EndsInChain(s, t, ParseArray(s).rest);
    }
  }

  lemma {:induction false} ArrayLoopEnds(s: bytes, items: seq<Value>)
    ensures ArrayLoop(s, items).Got? ==> EndsIn(s, ArrayLoop(s, items).rest)
    decreases |s|, 2
  {
    hide EndsIn, ParseValue, ArrayTail;
    var t := SkipSpace(s);
    var r := ArrayLoop(s, items);
    if r.Got? {
      SkipSpaceEnds(s);
      var item := ParseValue(t);
      ParseConsumes(t);
      ArrayTailEnds(item.rest, items + [item.value]);
      EndsInChain(t, item.rest, r.rest);
      EndsInChain(s, t, r.rest);
    }
  }

  lemma {:induction false} ArrayTailEnds(s: bytes, items: seq<Value>)
    ensures ArrayTail(s, items).Got? ==> EndsIn(s, ArrayTail(s, items).rest)
    decreases |s|, 1
  {
    hide EndsIn, ArrayLoop;
    var t := SkipSpace(s);
    var r := ArrayTail(s, items);
    if r.Got? {
      SkipSpaceEnds(s);
      if t[0] == ',' {
        ArrayLoopEnds(t[1..], items);
        EndsInAfter(t, 1, r.rest);
      } else {
        EndsInDrop(t, 1);
      }
      EndsInChain(s, t, r.rest);
    }
  }

  lemma {:induction false} ObjectEnds(s: bytes)
    ensures ParseObject(s).Got? ==> EndsIn(s, ParseObject(s).rest)
    decreases |s|, 3
  {
    hide EndsIn, ObjectLoop;
    var t := SkipSpace(s);
    SkipSpaceEnds(s);
    if ParseObject(s).Got? {
      if t != [] && t[0] == '}' { EndsInDrop(t, 1); } else { ObjectLoopEnds(t, []); }
      EndsInChain(s, t, ParseObject(s).rest);
    }
  }

  // A key and its colon, up to where the value starts.
  lemma {:induction false} KeyEnds(t: bytes)
    requires t != [] && StringLoop(t[1..], []).Got?
    ensures var u := SkipSpace(StringLoop(t[1..], []).rest);
            EndsIn(t, u) && (u != [] ==> EndsIn(t, SkipSpace(u[1..])))
  {
    hide EndsIn, StringLoop;
    var key := StringLoop(t[1..], []);
    var u := SkipSpace(key.rest);
    StringLoopEnds(t[1..], []);
    EndsInAfter(t, 1, key.rest);
    SkipSpaceEnds(key.rest);
    EndsInChain(t, key.rest, u);
    if u != [] {
      SkipSpaceEnds(u[1..]);
      EndsInAfter(u, 1, SkipSpace(u[1..]));
      EndsInChain(t, u, SkipSpace(u[1..]));
    }
  }

  lemma {:induction false} ObjectLoopEnds(s: bytes, members: seq<Member>)
    ensures ObjectLoop(s, members).Got? ==> EndsIn(s, ObjectLoop(s, members).rest)
    decreases |s|, 2
  {
    hide EndsIn, ParseValue, ObjectTail, StringLoop, SetMember;
    var t := SkipSpace(s);
    var r := ObjectLoop(s, members);
    if r.Got? {
      SkipSpaceEnds(s);
      var key := StringLoop(t[1..], []);
      var u := SkipSpace(key.rest);
      var v := SkipSpace(u[1..]);
      KeyEnds(t);
      ParseConsumes(v);
      var value := ParseValue(v);
      ObjectTailEnds(value.rest, SetMember(members, key.value, value.value));
      EndsInChain(v, value.rest, r.rest);
      EndsInChain(t, v, r.rest);
      EndsInChain(s, t, r.rest);
    }
  }

  lemma {:induction false} ObjectTailEnds(s: bytes, members: seq<Member>)
    ensures ObjectTail(s, members).Got? ==> EndsIn(s, ObjectTail(s, members).rest)
    decreases |s|, 1
  {
    hide EndsIn, ObjectLoop;
    var t := SkipSpace(s);
    var r := ObjectTail(s, members);
    if r.Got? {
      SkipSpaceEnds(s);
      if t[0] == ',' {
        ObjectLoopEnds(t[1..], members);
        EndsInAfter(t, 1, r.rest);
      } else {
        EndsInDrop(t, 1);
      }
      EndsInChain(s, t, r.rest);
    }
  }
}
