// The language the parser accepts, as a grammar: a tree says how a text is put
// together, down to its white space and escapes. The parser accepts exactly the
// texts that some tree spells, and gives the value the tree means.

module JsonGrammar {
  import opened Basics
  import opened JsonValue
  import opened JsonParser
  import opened JsonRoundTrip
  import opened Utf8Encoding

  // One character of a string: itself, a backslash and a letter, or \u and four
  // hex digits with their values.
  datatype Piece = Raw(c: byte) | Short(letter: byte) | Hex(digits: bytes, values: seq<nat>)

  datatype Tree =
    | NullTree
    | Number(negative: bool, digits: bytes)
    | Quote(pieces: seq<Piece>)
    | List(gap: bytes, items: seq<Spaced>)
    | Record(gap: bytes, fields: seq<Field>)

  datatype Spaced = Spaced(before: bytes, tree: Tree, after: bytes)
  datatype Field = Field(before: bytes, name: seq<Piece>, between: bytes, value: Spaced)

  // ----- which trees are proper -----

  ghost predicate White(s: bytes) {
    forall i :: 0 <= i < |s| ==> s[i] == ' ' || s[i] == '\t' || s[i] == '\n' || s[i] == '\r'
  }

  ghost predicate HexOf(c: byte, n: nat) {
    n < 16 && (c == "0123456789abcdef"[n] || c == "0123456789ABCDEF"[n])
  }

  function CodeOf(values: seq<nat>): nat
    requires |values| == 4
  {
    values[0] * 4096 + values[1] * 256 + values[2] * 16 + values[3]
  }

  ghost predicate ProperPiece(p: Piece) {
    match p
    case Raw(c) => c != '"' && c != '\\'
    case Short(letter) => letter in "\"\\/bfnrt"
    case Hex(digits, values) =>
      |digits| == 4 == |values| && (forall i :: 0 <= i < 4 ==> HexOf(digits[i], values[i])) &&
      !(0xD800 <= CodeOf(values) < 0xE000) && CodeOf(values) < 0x1_0000
  }

  ghost predicate ProperPieces(ps: seq<Piece>) {
    forall i :: 0 <= i < |ps| ==> ProperPiece(ps[i])
  }

  ghost predicate ProperDigits(ds: bytes) {
    ds != [] && (forall i :: 0 <= i < |ds| ==> '0' <= ds[i] <= '9') && DecimalValue(0, ds) <= INT64_MAX
  }

  ghost predicate Proper(t: Tree) {
    match t
    case NullTree => true
    case Number(_, digits) => ProperDigits(digits)
    case Quote(pieces) => ProperPieces(pieces)
    case List(gap, items) =>
      White(gap) &&
      (forall i :: 0 <= i < |items| ==> White(items[i].before) && White(items[i].after) && Proper(items[i].tree))
    case Record(gap, fields) =>
      White(gap) &&
      (forall i :: 0 <= i < |fields| ==>
         White(fields[i].before) && White(fields[i].between) && ProperPieces(fields[i].name) &&
         White(fields[i].value.before) && White(fields[i].value.after) && Proper(fields[i].value.tree))
  }

  ghost predicate ProperSpaced(x: Spaced) {
    White(x.before) && White(x.after) && Proper(x.tree)
  }

  ghost predicate ProperField(f: Field) {
    White(f.before) && White(f.between) && ProperPieces(f.name) && ProperSpaced(f.value)
  }

  ghost predicate ProperItems(items: seq<Spaced>) {
    forall i :: 0 <= i < |items| ==> ProperSpaced(items[i])
  }

  ghost predicate ProperFields(fields: seq<Field>) {
    forall i :: 0 <= i < |fields| ==> ProperField(fields[i])
  }

  // ----- how a tree is spelled -----

  function SpelledPiece(p: Piece): bytes {
    match p
    case Raw(c) => [c]
    case Short(letter) => ['\\', letter]
    case Hex(digits, _) => ['\\', 'u'] + digits
  }

  function SpelledPieces(ps: seq<Piece>): bytes {
    if ps == [] then [] else SpelledPiece(ps[0]) + SpelledPieces(ps[1..])
  }

  function Spelled(t: Tree): bytes {
    match t
    case NullTree => "null"
    case Number(negative, digits) => (if negative then ['-'] else []) + digits
    case Quote(pieces) => ['"'] + (SpelledPieces(pieces) + ['"'])
    case List(gap, items) => ['['] + (if items == [] then gap + [']'] else SpelledItems(items))
    case Record(gap, fields) => ['{'] + (if fields == [] then gap + ['}'] else SpelledFields(fields))
  }

  function SpelledSpaced(x: Spaced): bytes {
    x.before + (Spelled(x.tree) + x.after)
  }

  // The items with commas between them, and the closing bracket.
  function SpelledItems(items: seq<Spaced>): bytes {
    if items == [] then [']']
    else if |items| == 1 then SpelledSpaced(items[0]) + [']']
    else SpelledSpaced(items[0]) + ([','] + SpelledItems(items[1..]))
  }

  function NameAndValue(f: Field): bytes
    decreases f, 0
  {
    ['"'] + (SpelledPieces(f.name) + (['"'] + (f.between + ([':'] + SpelledSpaced(f.value)))))
  }

  function SpelledField(f: Field): bytes
    decreases f, 1
  {
    f.before + NameAndValue(f)
  }

  function SpelledFields(fields: seq<Field>): bytes {
    if fields == [] then ['}']
    else if |fields| == 1 then SpelledField(fields[0]) + ['}']
    else SpelledField(fields[0]) + ([','] + SpelledFields(fields[1..]))
  }

  // ----- what a tree means -----

  ghost function PieceMeaning(p: Piece): bytes
    requires ProperPiece(p)
  {
    match p
    case Raw(c) => [c]
    case Short(letter) =>
      [if letter == 'b' then '\U{8}' else if letter == 'f' then '\U{c}' else if letter == 'n' then '\n'
       else if letter == 'r' then '\r' else if letter == 't' then '\t' else letter]
    case Hex(_, values) => Utf8(CodeOf(values))
  }

  ghost function TextMeaning(ps: seq<Piece>): bytes
    requires ProperPieces(ps)
  {
    if ps == [] then [] else PieceMeaning(ps[0]) + TextMeaning(ps[1..])
  }

  ghost function Meaning(t: Tree): Value
    requires Proper(t)
  {
    match t
    case NullTree => Null
    case Number(negative, digits) =>
      var n: int64 := DecimalValue(0, digits);
      Integer(if negative then 0 - n else n)
    case Quote(pieces) => Text(TextMeaning(pieces))
    case List(_, items) => Array(ItemsMeaning(items))
    case Record(_, fields) => Object(FieldsMeaning([], fields))
  }

  ghost function ItemsMeaning(items: seq<Spaced>): seq<Value>
    requires ProperItems(items)
  {
    if items == [] then [] else [Meaning(items[0].tree)] + ItemsMeaning(items[1..])
  }

  // Of two fields with the same name the later one counts, in the place of the
  // earlier.
  ghost function FieldsMeaning(members: seq<Member>, fields: seq<Field>): seq<Member>
    requires ProperFields(fields)
    decreases fields
  {
    if fields == [] then members else
    FieldsMeaning(SetMember(members, TextMeaning(fields[0].name), Meaning(fields[0].value.tree)), fields[1..])
  }

  // ----- white space -----

  lemma {:induction false} SkipWhite(w: bytes, s: bytes)
    requires White(w) && (s == [] || !IsSpace(s[0]))
    ensures SkipSpace(w + s) == s
    decreases |w|
  {
    if w == [] {
      assert w + s == s;
    } else {
      assert (w + s)[1..] == w[1..] + s;
      SkipWhite(w[1..], s);
    }
  }

  lemma {:induction false} SkippedWhite(s: bytes) returns (w: bytes)
    ensures White(w) && s == w + SkipSpace(s)
    decreases |s|
  {
    w := [];
    if s != [] && IsSpace(s[0]) {
      var v := SkippedWhite(s[1..]);
      w := [s[0]] + v;
    }
  }

  // ----- strings -----

  lemma {:induction false} HexOfValue(c: byte)
    ensures HexValue(c) >= 0 ==> HexOf(c, HexValue(c))
    ensures forall n :: HexOf(c, n) ==> HexValue(c) == n
  {
  }

  // Four hex digits and their values.
  lemma {:induction false} HexDigitsIff(digits: bytes, values: seq<nat>)
    requires |digits| == 4 == |values|
    ensures (forall i :: 0 <= i < 4 ==> HexOf(digits[i], values[i])) <==>
              FourHexDigits(digits) && values == ValuesOf(digits)
    ensures FourHexDigits(digits) && values == ValuesOf(digits) ==> HexNumber(digits) == CodeOf(values)
  {
    HexOfValue(digits[0]);
    HexOfValue(digits[1]);
    HexOfValue(digits[2]);
    HexOfValue(digits[3]);
    hide HexOf, HexValue;
    if FourHexDigits(digits) {
      forall i | 0 <= i < 4 && values == ValuesOf(digits) ensures HexOf(digits[i], values[i]) {}
    }
  }

  function ValuesOf(digits: bytes): seq<int>
    requires |digits| == 4
  {
    [HexValue(digits[0]), HexValue(digits[1]), HexValue(digits[2]), HexValue(digits[3])]
  }

  lemma {:induction false} EscapePrefix(digits: bytes, rest: bytes)
    requires |digits| == 4
    ensures FourHexDigits(digits + rest) <==> FourHexDigits(digits)
    ensures HexNumber(digits + rest) == HexNumber(digits)
  {
    hide HexValue;
  }

  lemma {:induction false} HexPieceRead(digits: bytes, values: seq<nat>, rest: bytes)
    requires ProperPiece(Hex(digits, values))
    ensures UnicodeEscape(digits + rest) == Got(Utf8(CodeOf(values)), rest)
  {
    HexDigitsIff(digits, values);
    hide HexOf;
    EscapePrefix(digits, rest);
    HexPrefixNumber(digits + rest);
    hide HexNumber, HexPrefix, FourHexDigits, CodeOf, Utf8;
    assert (digits + rest)[4..] == rest;
  }

  lemma {:induction false} PieceRead(p: Piece, rest: bytes, out: bytes)
    requires ProperPiece(p)
    ensures StringLoop(SpelledPiece(p) + rest, out) == StringLoop(rest, out + PieceMeaning(p))
  {
    hide HexOf, CodeOf, Utf8, UnicodeEscape;
    var s := SpelledPiece(p) + rest;
    match p
    case Raw(c) => assert s[1..] == rest;
    case Short(letter) => assert s[2..] == rest;
    case Hex(digits, values) =>
      assert s[2..] == digits + rest;
      HexPieceRead(digits, values, rest);
  }

  lemma {:induction false} TextRead(ps: seq<Piece>, rest: bytes, out: bytes)
    requires ProperPieces(ps)
    ensures StringLoop(SpelledPieces(ps) + (['"'] + rest), out) == Got(out + TextMeaning(ps), rest)
    decreases |ps|
  {
    var more := ['"'] + rest;
    if ps == [] {
      assert SpelledPieces(ps) + more == more && more[1..] == rest;
      assert out + [] == out;
    } else {
      var p, tail := ps[0], ps[1..];
      PiecesCons(p, tail);
      assert ps == [p] + tail;
      hide StringLoop, SpelledPiece, SpelledPieces, PieceMeaning, TextMeaning, ProperPiece;
      Assoc(SpelledPiece(p), SpelledPieces(tail), more);
      PieceRead(p, SpelledPieces(tail) + more, out);
      TextRead(tail, rest, out + PieceMeaning(p));
      Assoc(out, PieceMeaning(p), TextMeaning(tail));
    }
  }

  // The first piece of a string the parser reads.
  lemma {:induction false} FirstPiece(s: bytes, out: bytes) returns (p: Piece, rest: bytes)
    requires s != [] && s[0] != '"' && StringLoop(s, out).Got?
    ensures ProperPiece(p) && s == SpelledPiece(p) + rest && |rest| < |s|
    ensures StringLoop(s, out) == StringLoop(rest, out + PieceMeaning(p))
  {
    if s[0] != '\\' {
      p, rest := Raw(s[0]), s[1..];
    } else if s[1] == 'u' {
      p, rest := FirstHex(s[2..]);
      assert s == ['\\', 'u'] + s[2..];
      hide HexOf, CodeOf, Utf8, UnicodeEscape;
    } else {
      p, rest := Short(s[1]), s[2..];
      assert s == ['\\', s[1]] + rest;
    }
  }

  lemma {:induction false} FirstHex(h: bytes) returns (p: Piece, rest: bytes)
    requires UnicodeEscape(h).Got?
    ensures p.Hex? && ProperPiece(p) && h == p.digits + rest && |rest| < |h|
    ensures UnicodeEscape(h) == Got(PieceMeaning(p), rest)
  {
    UnicodeEscapeDecodes(h);
    var digits := h[..4];
    rest := h[4..];
    assert h == digits + rest;
    EscapePrefix(digits, rest);
    HexPrefixNumber(h);
    p := Hex(digits, ValuesOf(digits));
    HexDigitsIff(digits, p.values);
    hide HexOf, HexNumber, HexPrefix, FourHexDigits, CodeOf, Utf8;
  }

  lemma {:induction false} Assoc<T>(a: seq<T>, b: seq<T>, c: seq<T>)
    ensures (a + b) + c == a + (b + c)
  {
  }

  lemma {:induction false} PiecesCons(p: Piece, more: seq<Piece>)
    requires ProperPiece(p) && ProperPieces(more)
    ensures ProperPieces([p] + more) && SpelledPieces([p] + more) == SpelledPiece(p) + SpelledPieces(more)
    ensures TextMeaning([p] + more) == PieceMeaning(p) + TextMeaning(more)
  {
    hide ProperPiece, SpelledPiece, PieceMeaning;
    assert ([p] + more)[1..] == more;
  }

  lemma {:induction false} NoPieces(s: bytes, out: bytes)
    requires s != [] && s[0] == '"'
    ensures StringLoop(s, out).Got? && s == SpelledPieces([]) + (['"'] + StringLoop(s, out).rest)
    ensures StringLoop(s, out).value == out + TextMeaning([])
  {
    assert s == ['"'] + s[1..];
  }

  lemma {:induction false} TextSound(s: bytes, out: bytes) returns (ps: seq<Piece>)
    requires StringLoop(s, out).Got?
    ensures ProperPieces(ps) && s == SpelledPieces(ps) + (['"'] + StringLoop(s, out).rest)
    ensures StringLoop(s, out).value == out + TextMeaning(ps)
    decreases |s|
  {
    if s[0] == '"' {
      ps := [];
      NoPieces(s, out);
    } else {
      hide SpelledPieces, SpelledPiece, PieceMeaning, TextMeaning, ProperPiece;
      var p, rest := FirstPiece(s, out);
      hide StringLoop;
      var more := TextSound(rest, out + PieceMeaning(p));
      PiecesCons(p, more);
      ps := [p] + more;
      Assoc(SpelledPiece(p), SpelledPieces(more), ['"'] + StringLoop(s, out).rest);
      Assoc(out, PieceMeaning(p), TextMeaning(more));
    }
  }

  // ----- a proper tree is read as what it means -----

  lemma {:induction false} SpelledHead(t: Tree, rest: bytes)
    requires Proper(t)
    ensures Spelled(t) != [] && !IsSpace(Spelled(t)[0]) && Spelled(t)[0] != ']' && Spelled(t)[0] != '}'
  {
  }

  // White space, then something other than a digit.
  lemma {:induction false} WhiteEnds(w: bytes, s: bytes)
    requires White(w) && s != [] && !IsDigit(s[0])
    ensures NoDigitAhead(w + s)
  {
  }

  lemma {:induction false} TreeRead(t: Tree, rest: bytes)
    requires Proper(t) && NoDigitAhead(rest)
    ensures ParseValue(Spelled(t) + rest) == Got(Meaning(t), rest)
    decreases t, 1
  {
    hide ParseValue, ProperPieces;
    match t
    case NullTree => NullRead(rest);
    case Number(negative, digits) =>
      hide DecimalValue;
      Assoc(Sign(negative), digits, rest);
      NumberRead(negative, digits, rest);
    case Quote(pieces) => QuoteRead(pieces, rest);
    case List(gap, items) =>
      var body := if items == [] then gap + [']'] else SpelledItems(items);
      hide SpelledItems, ItemsMeaning;
      assert ProperItems(items);
      ListRead(gap, items, rest);
      Assoc(['['], body, rest);
      OpenBracket('[', body + rest);
    case Record(gap, fields) =>
      var body := if fields == [] then gap + ['}'] else SpelledFields(fields);
      hide SpelledFields, FieldsMeaning;
      assert ProperFields(fields);
      RecordRead(gap, fields, rest);
      Assoc(['{'], body, rest);
      OpenBracket('{', body + rest);
  }

  lemma {:induction false} NullRead(rest: bytes)
    ensures ParseValue(Spelled(NullTree) + rest) == Got(Null, rest)
  {
    var s := Spelled(NullTree) + rest;
    assert s[0] == 'n' && s[..4] == "null" && s[4..] == rest;
  }

  lemma {:induction false} QuoteRead(pieces: seq<Piece>, rest: bytes)
    requires ProperPieces(pieces)
    ensures ParseValue(Spelled(Quote(pieces)) + rest) == Got(Text(TextMeaning(pieces)), rest)
  {
    hide StringLoop, SpelledPieces, TextMeaning, ProperPieces;
    var s := Spelled(Quote(pieces)) + rest;
    assert s[0] == '"' && s[1..] == SpelledPieces(pieces) + (['"'] + rest);
    TextRead(pieces, rest, []);
    assert [] + TextMeaning(pieces) == TextMeaning(pieces);
  }

  lemma {:induction false} NumberRead(negative: bool, digits: bytes, rest: bytes)
    requires ProperDigits(digits) && NoDigitAhead(rest)
    ensures ParseValue(Sign(negative) + (digits + rest)) == Got(Meaning(Number(negative, digits)), rest)
  {
    ParseIntegerExact(negative, digits, rest);
    var s := Sign(negative) + (digits + rest);
    assert s[0] == (if negative then '-' else digits[0]);
  }

  lemma {:induction false} SkipTwice(s: bytes, items: seq<Value>, members: seq<Member>)
    ensures ArrayLoop(SkipSpace(s), items) == ArrayLoop(s, items)
    ensures ObjectLoop(SkipSpace(s), members) == ObjectLoop(s, members)
  {
    var t := SkipSpace(s);
    assert SkipSpace(t) == t;
  }

  lemma {:induction false} ListRead(gap: bytes, items: seq<Spaced>, rest: bytes)
    requires White(gap) && ProperItems(items)
    ensures ParseArray((if items == [] then gap + [']'] else SpelledItems(items)) + rest)
         == Got(Array(ItemsMeaning(items)), rest)
    decreases items, 3
  {
    if items == [] {
      var s := [']'] + rest;
      assert gap + [']'] + rest == gap + s && s[1..] == rest;
      SkipWhite(gap, s);
    } else {
      var s := SpelledItems(items) + rest;
      ItemsHeadWhite(items, rest);
      SkipTwice(s, [], []);
      ItemsReadTree(items, rest, []);
      assert [] + ItemsMeaning(items) == ItemsMeaning(items);
    }
  }

  lemma {:induction false} SpacedRead(x: Spaced, more: bytes)
    requires ProperSpaced(x) && more != [] && !IsDigit(more[0]) && !IsSpace(more[0])
    ensures ParseValue(SkipSpace(SpelledSpaced(x) + more)) == Got(Meaning(x.tree), x.after + more)
    ensures SkipSpace(x.after + more) == more
    decreases x, 2
  {
    var s := Spelled(x.tree) + (x.after + more);
    SpelledHead(x.tree, []);
    assert SpelledSpaced(x) + more == x.before + s;
    SkipWhite(x.before, s);
    WhiteEnds(x.after, more);
    TreeRead(x.tree, x.after + more);
    SkipWhite(x.after, more);
  }

  // One round of the array loop.
  lemma {:induction false} ItemStep(s: bytes, out: seq<Value>, v: Value, after: bytes, more: bytes)
    requires ParseValue(SkipSpace(s)) == Got(v, after) && SkipSpace(after) == more && more != []
    ensures more[0] == ']' ==> ArrayLoop(s, out) == Got(Array(out + [v]), more[1..])
    ensures more[0] == ',' ==> ArrayLoop(s, out) == ArrayLoop(more[1..], out + [v])
  {
    assert ArrayLoop(s, out) == ArrayTail(after, out + [v]);
  }

  // What is behind the first of some items.
  function ItemsBehind(items: seq<Spaced>, rest: bytes): bytes
    requires items != []
  {
    if |items| == 1 then [']'] + rest else [','] + (SpelledItems(items[1..]) + rest)
  }

  lemma {:induction false} ItemsCons(items: seq<Spaced>, rest: bytes)
    requires items != [] && ProperItems(items)
    ensures ItemsMeaning(items) == [Meaning(items[0].tree)] + ItemsMeaning(items[1..])
    ensures SpelledItems(items) + rest == SpelledSpaced(items[0]) + ItemsBehind(items, rest)
    ensures var b := ItemsBehind(items, rest);
            b != [] && if |items| == 1 then b[0] == ']' && b[1..] == rest && ItemsMeaning(items[1..]) == []
                       else b[0] == ',' && b[1..] == SpelledItems(items[1..]) + rest
  {
    hide SpelledSpaced, Meaning, ProperSpaced;
    Assoc(SpelledSpaced(items[0]), if |items| == 1 then [']'] else [','] + SpelledItems(items[1..]), rest);
    if |items| > 1 { Assoc([','], SpelledItems(items[1..]), rest); }
  }

  // Behind white space, the first item starts.
  lemma {:induction false} ItemsHeadWhite(items: seq<Spaced>, rest: bytes)
    requires items != [] && ProperItems(items)
    ensures var t := SkipSpace(SpelledItems(items) + rest); t != [] && t[0] != ']'
  {
    ItemsCons(items, rest);
    hide SpelledItems, ItemsBehind, ItemsMeaning, SpelledSpaced;
    SpacedHead(items[0], ItemsBehind(items, rest));
  }

  lemma {:induction false} SpacedHead(x: Spaced, more: bytes)
    requires ProperSpaced(x)
    ensures var t := SkipSpace(SpelledSpaced(x) + more); t != [] && t[0] != ']'
  {
    SpelledHead(x.tree, []);
    hide Spelled, Proper;
    Assoc(Spelled(x.tree), x.after, more);
    Assoc(x.before, Spelled(x.tree) + x.after, more);
    var s := Spelled(x.tree) + (x.after + more);
    SkipWhite(x.before, s);
    assert s[0] == Spelled(x.tree)[0];
  }

  lemma {:induction false} FirstItemRead(items: seq<Spaced>, rest: bytes, out: seq<Value>)
    requires items != [] && ProperItems(items)
    ensures ArrayLoop(SpelledItems(items) + rest, out) ==
              if |items| == 1 then Got(Array(out + [Meaning(items[0].tree)]), rest)
              else ArrayLoop(SpelledItems(items[1..]) + rest, out + [Meaning(items[0].tree)])
    decreases items, 1
  {
    var x, more := items[0], ItemsBehind(items, rest);
    ItemsCons(items, rest);
    hide ParseValue, ArrayLoop, SpelledItems, SpelledSpaced, ItemsMeaning, Meaning, ProperSpaced, ItemsBehind;
    SpacedRead(x, more);
    ItemStep(SpelledItems(items) + rest, out, Meaning(x.tree), x.after + more, more);
  }

  lemma {:induction false} ItemsReadTree(items: seq<Spaced>, rest: bytes, out: seq<Value>)
    requires items != [] && ProperItems(items)
    ensures ArrayLoop(SpelledItems(items) + rest, out) == Got(Array(out + ItemsMeaning(items)), rest)
    decreases items, 2
  {
    var v, tail := Meaning(items[0].tree), items[1..];
    ItemsCons(items, rest);
    hide ParseValue, ArrayLoop, SpelledItems, SpelledSpaced, ItemsMeaning, Meaning, ProperSpaced, ItemsBehind;
    FirstItemRead(items, rest, out);
    Assoc(out, [v], ItemsMeaning(tail));
    if |items| == 1 {
      assert [v] + ItemsMeaning(tail) == [v];
    } else {
      ItemsReadTree(tail, rest, out + [v]);
    }
  }

  lemma {:induction false} RecordRead(gap: bytes, fields: seq<Field>, rest: bytes)
    requires White(gap) && ProperFields(fields)
    ensures ParseObject((if fields == [] then gap + ['}'] else SpelledFields(fields)) + rest)
         == Got(Object(FieldsMeaning([], fields)), rest)
    decreases fields, 2
  {
    if fields == [] {
      var s := ['}'] + rest;
      assert gap + ['}'] + rest == gap + s && s[1..] == rest;
      SkipWhite(gap, s);
    } else {
      var s := SpelledFields(fields) + rest;
      FieldsHeadWhite(fields, rest);
      SkipTwice(s, [], []);
      FieldsReadTree(fields, rest, []);
    }
  }

  lemma {:induction false} FieldsHeadWhite(fields: seq<Field>, rest: bytes)
    requires fields != [] && ProperFields(fields)
    ensures var t := SkipSpace(SpelledFields(fields) + rest); t != [] && t[0] == '"'
  {
    var f := fields[0];
    FieldsCons([], fields, rest);
    assert NameAndValue(f)[0] == '"';
    hide NameAndValue, SpelledFields, FieldsBehind;
    Assoc(f.before, NameAndValue(f), FieldsBehind(fields, rest));
    SkipWhite(f.before, NameAndValue(f) + FieldsBehind(fields, rest));
  }

  // What is behind the first of some fields.
  function FieldsBehind(fields: seq<Field>, rest: bytes): bytes
    requires fields != []
  {
    if |fields| == 1 then ['}'] + rest else [','] + (SpelledFields(fields[1..]) + rest)
  }

  lemma {:induction false} FieldsCons(out: seq<Member>, fields: seq<Field>, rest: bytes)
    requires fields != [] && ProperFields(fields)
    ensures FieldsMeaning(out, fields) ==
              FieldsMeaning(SetMember(out, TextMeaning(fields[0].name), Meaning(fields[0].value.tree)), fields[1..])
    ensures SpelledFields(fields) + rest == SpelledField(fields[0]) + FieldsBehind(fields, rest)
    ensures var b := FieldsBehind(fields, rest);
            b != [] && if |fields| == 1 then b[0] == '}' && b[1..] == rest
                       else b[0] == ',' && b[1..] == SpelledFields(fields[1..]) + rest
    ensures |fields| == 1 ==>
              FieldsMeaning(out, fields) == SetMember(out, TextMeaning(fields[0].name), Meaning(fields[0].value.tree))
  {
    hide SpelledField, Meaning, TextMeaning, SetMember, ProperField;
    Assoc(SpelledField(fields[0]), if |fields| == 1 then ['}'] else [','] + SpelledFields(fields[1..]), rest);
    if |fields| > 1 { Assoc([','], SpelledFields(fields[1..]), rest); }
  }

  // One round of the object loop, as far as the value.
  lemma {:induction false} NameStep(s: bytes, out: seq<Member>, name: bytes, key: bytes, after: bytes, x: bytes)
    requires SkipSpace(s) == ['"'] + name && StringLoop(name, []) == Got(key, after)
    requires SkipSpace(after) == [':'] + x
    ensures ObjectLoop(s, out) ==
              match ParseValue(SkipSpace(x))
              case Fail => Fail
              case Got(v, rest) => ObjectTail(rest, SetMember(out, key, v))
  {
    assert (['"'] + name)[1..] == name && ([':'] + x)[1..] == x;
    hide ParseValue, StringLoop, SetMember;
  }

  // A field is read up to the colon, then its value.
  lemma {:induction false} FieldRead(f: Field, more: bytes, out: seq<Member>)
    requires ProperField(f) && more != [] && !IsDigit(more[0]) && !IsSpace(more[0])
    ensures ObjectLoop(SpelledField(f) + more, out) ==
              ObjectTail(f.value.after + more, SetMember(out, TextMeaning(f.name), Meaning(f.value.tree)))
    ensures SkipSpace(f.value.after + more) == more
    decreases f, 3
  {
    hide ParseValue, StringLoop, SpelledPieces, SpelledSpaced, TextMeaning, Meaning, ObjectLoop, ObjectTail, SetMember;
    hide ProperPieces, Proper;
    var x := SpelledSpaced(f.value) + more;
    var u := [':'] + x;
    var name := SpelledPieces(f.name) + (['"'] + (f.between + u));
    var s := ['"'] + name;
    assert SpelledField(f) + more == f.before + s;
    SkipWhite(f.before, s);
    TextRead(f.name, f.between + u, []);
    assert [] + TextMeaning(f.name) == TextMeaning(f.name);
    SkipWhite(f.between, u);
    SpacedRead(f.value, more);
    NameStep(SpelledField(f) + more, out, name, TextMeaning(f.name), f.between + u, x);
  }

  lemma {:induction false} FieldsReadTree(fields: seq<Field>, rest: bytes, out: seq<Member>)
    requires fields != [] && ProperFields(fields)
    ensures ObjectLoop(SpelledFields(fields) + rest, out) == Got(Object(FieldsMeaning(out, fields)), rest)
    decreases fields, 1
  {
    var f, tail, more := fields[0], fields[1..], FieldsBehind(fields, rest);
    FieldsCons(out, fields, rest);
    hide ObjectLoop, SpelledFields, SpelledField, FieldsMeaning, Meaning, TextMeaning, ProperField;
    hide SetMember, FieldsBehind;
    FieldRead(f, more, out);
    if |fields| > 1 { FieldsReadTree(tail, rest, SetMember(out, TextMeaning(f.name), Meaning(f.value.tree))); }
  }

  // ----- whatever is read is spelled by a proper tree -----

  lemma {:induction false} NumberSpelled(negative: bool, ds: bytes, body: bytes, rest: bytes)
    requires body == ds + rest
    ensures Sign(negative) + body == Spelled(Number(negative, ds)) + rest
  {
    Assoc(Sign(negative), ds, rest);
  }

  lemma {:induction false} NumberMeans(negative: bool, ds: bytes)
    requires ds != [] && AllDigits(ds) && DecimalValue(0, ds) <= INT64_MAX
    ensures Proper(Number(negative, ds))
    ensures Meaning(Number(negative, ds)) == Integer(if negative then 0 - DecimalValue(0, ds) else DecimalValue(0, ds))
  {
    hide DecimalValue;
  }

  lemma {:induction false} NumberSound(s: bytes) returns (t: Tree)
    requires ParseInteger(s).Got?
    ensures Proper(t) && s == Spelled(t) + ParseInteger(s).rest && Meaning(t) == ParseInteger(s).value
  {
    ParseIntegerIff(s);
    hide ParseInteger, DecimalValue, Proper, Spelled, Meaning;
    var negative := s != [] && s[0] == '-';
    var body := if negative then s[1..] else s;
    assert s == Sign(negative) + body;
    var ds := DigitRun(body);
    hide DigitRun;
    t := Number(negative, ds);
    NumberSpelled(negative, ds, body, ParseInteger(s).rest);
    NumberMeans(negative, ds);
  }

  lemma {:induction false} ValueSound(s: bytes) returns (t: Tree)
    requires ParseValue(s).Got?
    ensures Proper(t) && s == Spelled(t) + ParseValue(s).rest && Meaning(t) == ParseValue(s).value
    decreases |s|, 0
  {
    hide ParseInteger, StringLoop, ParseArray, ParseObject, SpelledPieces, TextMeaning, ProperPieces;
    assert s == [s[0]] + s[1..];
    if s[0] == '{' {
      t := RecordSound(s[1..]);
      hide Spelled, Proper, Meaning, ParseValue;
    } else if s[0] == '[' {
      t := ListSound(s[1..]);
      hide Spelled, Proper, Meaning, ParseValue;
    } else if s[0] == '"' {
      var ps := TextSound(s[1..], []);
      t := Quote(ps);
      assert [] + TextMeaning(ps) == TextMeaning(ps);
      QuoteSpelled(ps, s, ParseValue(s).rest);
    } else if s[0] == 'n' {
      t := NullTree;
      assert s == s[..4] + s[4..];
    } else {
      t := NumberSound(s);
      hide Spelled, Proper, Meaning;
    }
  }

  lemma {:induction false} QuoteSpelled(ps: seq<Piece>, s: bytes, rest: bytes)
    requires s == ['"'] + (SpelledPieces(ps) + (['"'] + rest))
    ensures s == Spelled(Quote(ps)) + rest
  {
    hide SpelledPieces;
    Assoc(SpelledPieces(ps), ['"'], rest);
    Assoc(['"'], SpelledPieces(ps) + ['"'], rest);
  }

  lemma {:induction false} EmptySpelled(open: byte, close: byte, gap: bytes, s: bytes, rest: bytes)
    requires s == gap + ([close] + rest)
    ensures [open] + s == ([open] + (gap + [close])) + rest
  {
    Assoc(gap, [close], rest);
    Assoc([open], gap + [close], rest);
  }

  lemma {:induction false} ListShape(gap: bytes, items: seq<Spaced>)
    requires White(gap) && ProperItems(items)
    ensures Proper(List(gap, items)) && Meaning(List(gap, items)) == Array(ItemsMeaning(items))
    ensures items == [] ==> ItemsMeaning(items) == []
    ensures Spelled(List(gap, items)) == ['['] + if items == [] then gap + [']'] else SpelledItems(items)
  {
    hide White, SpelledItems;
  }

  lemma {:induction false} ListSound(s: bytes) returns (t: Tree)
    requires ParseArray(s).Got?
    ensures Proper(t) && ['['] + s == Spelled(t) + ParseArray(s).rest && Meaning(t) == ParseArray(s).value
    decreases |s|, 3
  {
    hide ArrayLoop, SpelledItems, ItemsMeaning, ProperSpaced, Proper, Spelled, Meaning;
    var u, rest := SkipSpace(s), ParseArray(s).rest;
    if u != [] && u[0] == ']' {
      var gap := SkippedWhite(s);
      t := List(gap, []);
      ListShape(gap, []);
      assert u == [']'] + rest;
      EmptySpelled('[', ']', gap, s, rest);
    } else {
      SkipTwice(s, [], []);
      var items := ItemsSound(s, []);
      hide ParseArray;
      t := List([], items);
      ListShape([], items);
      assert [] + ItemsMeaning(items) == ItemsMeaning(items);
      Assoc(['['], SpelledItems(items), rest);
    }
  }

  // One item with the white space around it, and what is behind it.
  lemma {:induction false} SpacedSound(s: bytes) returns (x: Spaced, more: bytes)
    requires ParseValue(SkipSpace(s)).Got?
    ensures ProperSpaced(x) && more == SkipSpace(ParseValue(SkipSpace(s)).rest) && s == SpelledSpaced(x) + more
    ensures Meaning(x.tree) == ParseValue(SkipSpace(s)).value && |more| < |s|
    decreases |s|, 1
  {
    var before := SkippedWhite(s);
    var t := ValueSound(SkipSpace(s));
    var after := SkippedWhite(ParseValue(SkipSpace(s)).rest);
    more := SkipSpace(ParseValue(SkipSpace(s)).rest);
    x := Spaced(before, t, after);
    hide ParseValue, Spelled, Proper, Meaning, SkipSpace;
    Assoc(Spelled(t), after, more);
    Assoc(before, Spelled(t) + after, more);
  }

  lemma {:induction false} ItemsSound(s: bytes, out: seq<Value>) returns (items: seq<Spaced>)
    requires ArrayLoop(s, out).Got?
    ensures items != [] && ProperItems(items) && s == SpelledItems(items) + ArrayLoop(s, out).rest
    ensures ArrayLoop(s, out).value == Array(out + ItemsMeaning(items))
    decreases |s|, 2
  {
    var x, more := SpacedSound(s);
    var v := Meaning(x.tree);
    assert more != [] && (more[0] == ']' || more[0] == ',');
    ItemStep(s, out, v, ParseValue(SkipSpace(s)).rest, more);
    assert more == [more[0]] + more[1..];
    hide ParseValue, SpelledSpaced, Meaning, ProperSpaced, SkipSpace, ArrayLoop;
    if more[0] == ']' {
      items := [x];
      OneItem(x);
      Assoc(SpelledSpaced(x), [']'], more[1..]);
    } else {
      var tail := ItemsSound(more[1..], out + [v]);
      items := [x] + tail;
      MoreItems(x, tail, ArrayLoop(s, out).rest);
      Assoc(out, [v], ItemsMeaning(tail));
    }
  }

  lemma {:induction false} OneItem(x: Spaced)
    requires ProperSpaced(x)
    ensures ProperItems([x]) && SpelledItems([x]) == SpelledSpaced(x) + [']'] && ItemsMeaning([x]) == [Meaning(x.tree)]
  {
    hide SpelledSpaced, Meaning, ProperSpaced;
    assert [x][1..] == [];
  }

  lemma {:induction false} MoreItems(x: Spaced, tail: seq<Spaced>, rest: bytes)
    requires ProperSpaced(x) && ProperItems(tail) && tail != []
    ensures ProperItems([x] + tail) && ItemsMeaning([x] + tail) == [Meaning(x.tree)] + ItemsMeaning(tail)
    ensures SpelledItems([x] + tail) + rest == SpelledSpaced(x) + ([','] + (SpelledItems(tail) + rest))
  {
    hide SpelledSpaced, Meaning, ProperSpaced;
    assert ([x] + tail)[1..] == tail;
    ItemsCons([x] + tail, rest);
  }

  lemma {:induction false} RecordShape(gap: bytes, fields: seq<Field>)
    requires White(gap) && ProperFields(fields)
    ensures Proper(Record(gap, fields)) && Meaning(Record(gap, fields)) == Object(FieldsMeaning([], fields))
    ensures Spelled(Record(gap, fields)) == ['{'] + if fields == [] then gap + ['}'] else SpelledFields(fields)
  {
    hide White, ProperPieces, FieldsMeaning, SpelledFields;
  }

  lemma {:induction false} RecordSound(s: bytes) returns (t: Tree)
    requires ParseObject(s).Got?
    ensures Proper(t) && ['{'] + s == Spelled(t) + ParseObject(s).rest && Meaning(t) == ParseObject(s).value
    decreases |s|, 4
  {
    hide ObjectLoop, SpelledFields, FieldsMeaning, ProperField, Proper, Spelled, Meaning;
    var u, rest := SkipSpace(s), ParseObject(s).rest;
    if u != [] && u[0] == '}' {
      var gap := SkippedWhite(s);
      t := Record(gap, []);
      RecordShape(gap, []);
      LastField([]);
      assert u == ['}'] + rest;
      EmptySpelled('{', '}', gap, s, rest);
    } else {
      SkipTwice(s, [], []);
      var fields := FieldsSound(s, []);
      hide ParseObject;
      t := Record([], fields);
      RecordShape([], fields);
      Assoc(['{'], SpelledFields(fields), rest);
    }
  }

  lemma {:induction false} ObjectHead(s: bytes, out: seq<Member>) returns (name: bytes, x: bytes)
    requires ObjectLoop(s, out).Got?
    ensures SkipSpace(s) == ['"'] + name && StringLoop(name, []).Got?
    ensures SkipSpace(StringLoop(name, []).rest) == [':'] + x && ParseValue(SkipSpace(x)).Got?
    ensures ObjectLoop(s, out) == ObjectTail(ParseValue(SkipSpace(x)).rest,
                                    SetMember(out, StringLoop(name, []).value, ParseValue(SkipSpace(x)).value))
  {
    hide ParseValue, StringLoop, SetMember, ObjectTail;
    var t := SkipSpace(s);
    name := t[1..];
    assert t == [t[0]] + name;
    var u := SkipSpace(StringLoop(name, []).rest);
    x := u[1..];
    assert u == [u[0]] + x;
  }

  // A name, up to the value behind the colon.
  lemma {:induction false} NameSound(s: bytes, out: seq<Member>)
      returns (before: bytes, ps: seq<Piece>, between: bytes, x: bytes)
    requires ObjectLoop(s, out).Got?
    ensures White(before) && White(between) && ProperPieces(ps) && |x| < |s|
    ensures s == before + (['"'] + (SpelledPieces(ps) + (['"'] + (between + ([':'] + x)))))
    ensures ParseValue(SkipSpace(x)).Got?
    ensures ObjectLoop(s, out) ==
              ObjectTail(ParseValue(SkipSpace(x)).rest, SetMember(out, TextMeaning(ps), ParseValue(SkipSpace(x)).value))
  {
    var name;
    name, x := ObjectHead(s, out);
    hide ParseValue, StringLoop, SetMember, ObjectLoop, ObjectTail, SpelledPieces, TextMeaning, ProperPieces, SkipSpace;
    before := SkippedWhite(s);
    ps := TextSound(name, []);
    assert [] + TextMeaning(ps) == TextMeaning(ps);
    between := SkippedWhite(StringLoop(name, []).rest);
  }

  // One field, and what is behind it.
  lemma {:induction false} FieldSound(s: bytes, out: seq<Member>) returns (f: Field, more: bytes)
    requires ObjectLoop(s, out).Got?
    ensures ProperField(f) && s == SpelledField(f) + more && |more| < |s|
    ensures more != [] && (more[0] == '}' || more[0] == ',')
    ensures var out' := SetMember(out, TextMeaning(f.name), Meaning(f.value.tree));
            (more[0] == '}' ==> ObjectLoop(s, out) == Got(Object(out'), more[1..])) &&
            (more[0] == ',' ==> ObjectLoop(s, out) == ObjectLoop(more[1..], out'))
    decreases |s|, 2
  {
    hide ParseValue, SpelledSpaced, Meaning, Proper, SkipSpace, ObjectLoop, SetMember;
    hide SpelledPieces, TextMeaning, ProperPieces;
    var before, ps, between, x := NameSound(s, out);
    var value;
    value, more := SpacedSound(x);
    f := Field(before, ps, between, value);
    FieldTail(ParseValue(SkipSpace(x)).rest, SetMember(out, TextMeaning(ps), Meaning(value.tree)), more);
    FieldSpelled(f, x, more);
  }

  lemma {:induction false} FieldsSound(s: bytes, out: seq<Member>) returns (fields: seq<Field>)
    requires ObjectLoop(s, out).Got?
    ensures fields != [] && ProperFields(fields) && s == SpelledFields(fields) + ObjectLoop(s, out).rest
    ensures ObjectLoop(s, out).value == Object(FieldsMeaning(out, fields))
    decreases |s|, 3
  {
    hide Meaning, TextMeaning, ObjectLoop, SetMember, SpelledField, Proper, ProperPieces, FieldsMeaning, SpelledFields;
    var f, more := FieldSound(s, out);
    assert more == [more[0]] + more[1..];
    if more[0] == '}' {
      fields := [f];
      assert [f] + [] == [f];
      MoreFields(f, [], more[1..], out);
      LastField(SetMember(out, TextMeaning(f.name), Meaning(f.value.tree)));
    } else {
      var tail := FieldsSound(more[1..], SetMember(out, TextMeaning(f.name), Meaning(f.value.tree)));
      fields := [f] + tail;
      MoreFields(f, tail, ObjectLoop(s, out).rest, out);
    }
  }

  lemma {:induction false} LastField(members: seq<Member>)
    ensures FieldsMeaning(members, []) == members
  {
  }

  lemma {:induction false} FieldTail(s: bytes, members: seq<Member>, more: bytes)
    requires SkipSpace(s) == more && ObjectTail(s, members).Got?
    ensures more != [] && (more[0] == '}' || more[0] == ',')
    ensures more[0] == '}' ==> ObjectTail(s, members) == Got(Object(members), more[1..])
    ensures more[0] == ',' ==> ObjectTail(s, members) == ObjectLoop(more[1..], members)
  {
  }

  lemma {:induction false} FieldSpelled(f: Field, x: bytes, more: bytes)
    requires x == SpelledSpaced(f.value) + more
    ensures f.before + (['"'] + (SpelledPieces(f.name) + (['"'] + (f.between + ([':'] + x))))) == SpelledField(f) + more
  {
    hide SpelledSpaced, SpelledPieces;
    Assoc([':'], SpelledSpaced(f.value), more);
    Assoc(f.between, [':'] + SpelledSpaced(f.value), more);
    Assoc(['"'], f.between + ([':'] + SpelledSpaced(f.value)), more);
    Assoc(SpelledPieces(f.name), ['"'] + (f.between + ([':'] + SpelledSpaced(f.value))), more);
    Assoc(['"'], SpelledPieces(f.name) + (['"'] + (f.between + ([':'] + SpelledSpaced(f.value)))), more);
    Assoc(f.before, NameAndValue(f), more);
  }

  lemma {:induction false} MoreFields(f: Field, tail: seq<Field>, rest: bytes, out: seq<Member>)
    requires ProperField(f) && ProperFields(tail)
    ensures ProperFields([f] + tail)
    ensures FieldsMeaning(out, [f] + tail) ==
              FieldsMeaning(SetMember(out, TextMeaning(f.name), Meaning(f.value.tree)), tail)
    ensures SpelledFields([f] + tail) + rest ==
              SpelledField(f) + (if tail == [] then ['}'] + rest else [','] + (SpelledFields(tail) + rest))
  {
    hide SpelledField, Meaning, TextMeaning, ProperField, SetMember;
    assert ([f] + tail)[1..] == tail;
    FieldsCons(out, [f] + tail, rest);
  }

  // ----- the parser and the grammar -----

  // The text is a value's tree with white space around it.
  ghost predicate Spells(text: bytes, v: Value, before: bytes, t: Tree, after: bytes) {
    White(before) && White(after) && Proper(t) && Meaning(t) == v && text == before + (Spelled(t) + after)
  }

  // The parser accepts exactly the texts of the grammar, and gives the value that
  // the text means.
  lemma {:induction false} ParseIff(text: bytes, v: Value)
    ensures Parse(text) == Some(v) <==> exists before, t, after :: Spells(text, v, before, t, after)
  {
    hide ParseValue, Proper, Meaning, Spelled;
    if Parse(text) == Some(v) {
      var before := SkippedWhite(text);
      var t := ValueSound(SkipSpace(text));
      var after := SkippedWhite(ParseValue(SkipSpace(text)).rest);
      assert after + [] == after;
      assert Spells(text, v, before, t, after);
    }
    forall before, t, after | Spells(text, v, before, t, after) ensures Parse(text) == Some(v) {
      SpelledParses(v, before, t, after);
    }
  }

  lemma {:induction false} SpelledParses(v: Value, before: bytes, t: Tree, after: bytes)
    requires White(before) && White(after) && Proper(t) && Meaning(t) == v
    ensures Parse(before + (Spelled(t) + after)) == Some(v)
  {
    SpelledHead(t, after);
    hide ParseValue, Proper, Meaning, Spelled;
    SkipWhite(before, Spelled(t) + after);
    TreeRead(t, after);
    SkipWhite(after, []);
    assert after + [] == after;
  }

  // Behind a printed value the parser tolerates white space and nothing else.
  lemma {:induction false} TrailingText(v: Value, rest: bytes)
    requires Canonical(v) && NoDigitAhead(rest)
    ensures Parse(Dump(v) + rest).Some? <==>
              forall i :: 0 <= i < |rest| ==> rest[i] == ' ' || rest[i] == '\t' || rest[i] == '\n' || rest[i] == '\r'
  {
    hide ParseValue, Canonical;
    DumpHead(v);
    hide Dump;
    SkipNothing(Dump(v) + rest);
    ValueRead(v, rest);
    var w := SkippedWhite(rest);
    if White(rest) {
      SkipWhite(rest, []);
      assert rest + [] == rest;
    } else {
      assert rest == w ==> White(rest);
      assert w + [] == w;
    }
  }
}
