// src/persistence/WalLogger.cpp: the journal as a byte file and its in-memory
// index.

module Wal {
  import opened Basics
  import opened Domain
  import opened JsonValue
  import opened Codec

  const ID_WIDTH := 16
  const HEADER_SIZE := 17

  // ----- header fields -----

  function StateNumber(s: TransactionState): (n: int)
    ensures 0 <= n <= 6
  {
    match s
    case Pending => 0
    case Validated => 1
    case WalWritten => 2
    case Applied => 3
    case Committed => 4
    case Failed => 5
    case RolledBack => 6
  }

  function StateByte(s: TransactionState): byte {
    Chr('0' as int + StateNumber(s))
  }

  function StateFromByte(c: byte): Option<TransactionState> {
    if c == '0' then Some(Pending)
    else if c == '1' then Some(Validated)
    else if c == '2' then Some(WalWritten)
    else if c == '3' then Some(Applied)
    else if c == '4' then Some(Committed)
    else if c == '5' then Some(Failed)
    else if c == '6' then Some(RolledBack)
    else None
  }

  lemma {:induction false} StateByteBijection(s: TransactionState, c: byte)
    ensures StateFromByte(StateByte(s)) == Some(s)
    ensures StateFromByte(c) == Some(s) ==> StateByte(s) == c
  {
    assert StateFromByte(StateByte(s)) == Some(s);
    if StateFromByte(c) == Some(s) { assert c as int == StateByte(s) as int; }
  }

  // "%016llx": the low hex digits of v, most significant first.
  function HexField(v: nat, width: nat): (f: bytes)
    ensures |f| == width
  {
    if width == 0 then [] else HexField(v / 16, width - 1) + [HexDigit(v % 16)]
  }

  function IdField(id: uint64): bytes {
    HexField(id, ID_WIDTH)
  }

  function Nibble(c: byte): (h: int)
    ensures -1 <= h < 16
  {
    if '0' <= c <= '9' then c as int - '0' as int
    else if 'a' <= c <= 'f' then c as int - 'a' as int + 10
    else -1
  }

  function IdFromField(field: bytes): Option<nat> {
    if field == [] then Some(0) else
    var n := |field| - 1;
    match IdFromField(field[..n])
    case None => None
    case Some(v) => if Nibble(field[n]) < 0 then None else Some(v * 16 + Nibble(field[n]))
  }

  lemma {:induction false} NibbleInvertsHexDigit(h: int, c: byte)
    ensures 0 <= h < 16 ==> Nibble(HexDigit(h)) == h
    ensures Nibble(c) >= 0 ==> HexDigit(Nibble(c)) == c
  {
    if Nibble(c) >= 0 { assert HexDigit(Nibble(c)) as int == c as int; }
  }

  function Pow16(n: nat): (p: nat)
    ensures p > 0
  {
    if n == 0 then 1 else 16 * Pow16(n - 1)
  }

  lemma {:induction false} HexFieldReads(v: nat, width: nat)
    requires v < Pow16(width)
    ensures IdFromField(HexField(v, width)) == Some(v)
    decreases width
  {
    if width > 0 {
      HexFieldReads(v / 16, width - 1);
      NibbleInvertsHexDigit(v % 16, '0');
      assert HexField(v, width)[..width - 1] == HexField(v / 16, width - 1);
    }
  }

  lemma {:induction false} FieldIsHex(field: bytes)
    requires IdFromField(field).Some?
    ensures IdFromField(field).value < Pow16(|field|)
    ensures HexField(IdFromField(field).value, |field|) == field
    decreases |field|
  {
    if field != [] {
      var n := |field| - 1;
      FieldIsHex(field[..n]);
      NibbleInvertsHexDigit(0, field[n]);
      var v, h := IdFromField(field[..n]).value, Nibble(field[n]);
      assert (v * 16 + h) / 16 == v && (v * 16 + h) % 16 == h;
      assert field == field[..n] + [field[n]];
    }
  }

  lemma {:induction false} Pow16Of16()
    ensures Pow16(16) == TWO_64
  {
    assert Pow16(4) == 65536;
    assert Pow16(8) == 65536 * 65536;
    assert Pow16(12) == 65536 * 65536 * 65536;
  }

  // The id field is a bijection between 64-bit ids and 16 lower-case hex digits.
  lemma {:induction false} IdFieldBijection(id: uint64, field: bytes)
    ensures |IdField(id)| == ID_WIDTH && IdFromField(IdField(id)) == Some(id)
    ensures |field| == ID_WIDTH && IdFromField(field).Some? ==>
              IdFromField(field).value < TWO_64 && HexField(IdFromField(field).value, ID_WIDTH) == field
  {
    Pow16Of16();
    HexFieldReads(id, ID_WIDTH);
    if |field| == ID_WIDTH && IdFromField(field).Some? { FieldIsHex(field); }
  }

  lemma {:induction false} HexFieldPrintable(v: nat, width: nat)
    ensures Printable(HexField(v, width))
    decreases width
  {
    if width > 0 { HexFieldPrintable(v / 16, width - 1); }
  }

  method ReadIdField(field: bytes) returns (id: Option<nat>)
    ensures id == IdFromField(field)
  {
    var value: nat := 0;
    for i := 0 to |field|
      invariant IdFromField(field[..i]) == Some(value)
    {
      assert field[..i + 1][..i] == field[..i];
      var nibble := Nibble(field[i]);
      if nibble < 0 {
        FieldFails(field, i + 1);
        return None;
      }
      value := value * 16 + nibble;
    }
    assert field[..|field|] == field;
    id := Some(value);
  }

  lemma {:induction false} FieldFails(field: bytes, n: nat)
    requires n <= |field| && IdFromField(field[..n]).None?
    ensures IdFromField(field).None?
    decreases |field|
  {
    if n == |field| {
      assert field[..n] == field;
    } else {
      var m := |field| - 1;
      assert field[..m][..n] == field[..n];
      FieldFails(field[..m], n);
    }
  }

  // ----- lines -----

  datatype Entry = Entry(id: uint64, state: TransactionState, offset: nat, payload: bytes)

  function Line(id: uint64, state: TransactionState, payload: bytes): bytes {
    IdField(id) + [StateByte(state)] + payload + ['\n']
  }

  // The entry a complete line contributes, if its header is well formed.
  function ParseLine(line: bytes, offset: nat): seq<Entry> {
    if |line| < HEADER_SIZE then [] else
    var id := IdFromField(line[..ID_WIDTH]);
    var state := StateFromByte(line[ID_WIDTH]);
    if id.None? || state.None? then [] else
    IdFieldBijection(0, line[..ID_WIDTH]);
    [Entry(id.value, state.value, offset, line[HEADER_SIZE..])]
  }

  // data.find('\n', start), with |data| for npos.
  function NewlineFrom(data: bytes, start: nat): (p: nat)
    requires start <= |data|
    ensures start <= p <= |data|
    ensures p < |data| ==> data[p] == '\n'
    ensures forall i :: start <= i < p ==> data[i] != '\n'
    decreases |data| - start
  {
    if start == |data| || data[start] == '\n' then start else NewlineFrom(data, start + 1)
  }

  // A file cut at its newlines: the complete lines with their offsets, and where
  // the unterminated last line starts.
  datatype RawLine = RawLine(offset: nat, text: bytes)
  datatype Cut = Cut(lines: seq<RawLine>, tail: nat)

  function Split(data: bytes, start: nat): (r: Cut)
    requires start <= |data|
    ensures start <= r.tail <= |data|
    decreases |data| - start
  {
    var pos := NewlineFrom(data, start);
    if pos == |data| then Cut([], start) else
    var r := Split(data, pos + 1);
    Cut([RawLine(start, data[start..pos])] + r.lines, r.tail)
  }

  function Entries(lines: seq<RawLine>): seq<Entry> {
    if lines == [] then [] else
    Entries(lines[..|lines| - 1]) + ParseLine(lines[|lines| - 1].text, lines[|lines| - 1].offset)
  }

  datatype Scanned = Scanned(entries: seq<Entry>, tail: nat)

  // What the constructor makes of a file.
  function Scan(data: bytes): (r: Scanned)
    ensures r.tail <= |data|
  {
    Scanned(Entries(Split(data, 0).lines), Split(data, 0).tail)
  }

  lemma {:induction false} NewlineUnique(data: bytes, start: nat, p: nat)
    requires start <= p <= |data|
    requires p < |data| ==> data[p] == '\n'
    requires forall i :: start <= i < p ==> data[i] != '\n'
    ensures NewlineFrom(data, start) == p
  {
    var q := NewlineFrom(data, start);
    assert q < |data| ==> data[q] == '\n';
    assert p < |data| ==> data[p] == '\n';
  }

  ghost predicate NoNewline(s: bytes) {
    forall i :: 0 <= i < |s| ==> s[i] != '\n'
  }

  // Bytes appended after a file whose last line is complete form lines of their
  // own: first a whole line ...
  lemma {:induction false} SplitAppendLine(data: bytes, start: nat, line: bytes)
    requires start <= |data| && Split(data, start).tail == |data| && NoNewline(line)
    ensures Split(data + line + ['\n'], start) ==
              Cut(Split(data, start).lines + [RawLine(|data|, line)], |data| + |line| + 1)
    decreases |data| - start
  {
    hide NewlineFrom;
    var file := data + line + ['\n'];
    var pos := NewlineFrom(data, start);
    if pos == |data| {
      NewlineUnique(file, start, |data| + |line|);
      assert file[start..|data| + |line|] == line;
    } else {
      NewlineUnique(file, start, pos);
      SplitAppendLine(data, pos + 1, line);
      assert file[start..pos] == data[start..pos];
    }
  }

  // ... or a torn one, which the scan sets aside.
  lemma {:induction false} SplitTornTail(data: bytes, start: nat, torn: bytes)
    requires start <= |data| && Split(data, start).tail == |data| && NoNewline(torn)
    ensures Split(data + torn, start) == Split(data, start)
    decreases |data| - start
  {
    var file := data + torn;
    var pos := NewlineFrom(data, start);
    if pos == |data| {
      NewlineUnique(file, start, |file|);
    } else {
      NewlineUnique(file, start, pos);
      SplitTornTail(data, pos + 1, torn);
      assert file[start..pos] == data[start..pos];
    }
  }

  // Cutting a file at the start of its torn line leaves exactly its lines.
  lemma {:induction false} SplitTruncate(data: bytes, start: nat)
    requires start <= |data|
    ensures Split(data[..Split(data, start).tail], start) == Split(data, start)
    decreases |data| - start
  {
    var file := data[..Split(data, start).tail];
    var pos := NewlineFrom(data, start);
    if pos == |data| {
      NewlineUnique(file, start, |file|);
    } else {
      SplitTruncate(data, pos + 1);
      NewlineUnique(file, start, pos);
      assert file[start..pos] == data[start..pos];
    }
  }

  // Every line is the stretch of the file at its offset, and holds no newline.
  lemma {:induction false} LinePlace(data: bytes, start: nat, l: nat)
    requires start <= |data| && l < |Split(data, start).lines|
    ensures var line := Split(data, start).lines[l];
            start <= line.offset && line.offset + |line.text| < |data| &&
            data[line.offset..line.offset + |line.text|] == line.text && NoNewline(line.text)
    decreases |data| - start
  {
    var pos := NewlineFrom(data, start);
    if l > 0 { LinePlace(data, pos + 1, l - 1); }
  }

  function Patched(line: RawLine, j: nat, c: byte): RawLine
    requires j < |line.text|
  {
    RawLine(line.offset, line.text[j := c])
  }

  ghost predicate PatchedAt(r: Cut, r': Cut, l: nat, j: nat, c: byte)
    requires l < |r.lines| && j < |r.lines[l].text|
  {
    r'.tail == r.tail && |r'.lines| == |r.lines| && r'.lines[l] == Patched(r.lines[l], j, c) &&
    forall i :: 0 <= i < |r.lines| && i != l ==> r'.lines[i] == r.lines[i]
  }

  lemma {:induction false} PatchFirst(data: bytes, start: nat, j: nat, c: byte)
    requires start <= |data| && |Split(data, start).lines| > 0 && c != '\n'
    requires j < |Split(data, start).lines[0].text|
    ensures start + j < |data| && Split(data, start).lines[0].offset == start
    ensures PatchedAt(Split(data, start), Split(data[start + j := c], start), 0, j, c)
  {
    var pos := NewlineFrom(data, start);
    var data' := data[start + j := c];
    NewlineUnique(data', start, pos);
    assert data'[start..pos] == data[start..pos][j := c];
    SplitSame(data, data', pos + 1);
  }

  lemma {:induction false} PatchLater(data: bytes, start: nat, at: nat, l: nat, j: nat, c: byte)
    requires start <= |data| && NewlineFrom(data, start) < at < |data|
    requires var rest := Split(data, NewlineFrom(data, start) + 1);
             l < |rest.lines| && j < |rest.lines[l].text| &&
             PatchedAt(rest, Split(data[at := c], NewlineFrom(data, start) + 1), l, j, c)
    ensures l + 1 < |Split(data, start).lines| && Split(data, start).lines[l + 1] == Split(data, NewlineFrom(data, start) + 1).lines[l]
    ensures PatchedAt(Split(data, start), Split(data[at := c], start), l + 1, j, c)
  {
    hide NewlineFrom;
    var pos := NewlineFrom(data, start);
    var data' := data[at := c];
    NewlineUnique(data', start, pos);
    assert data'[start..pos] == data[start..pos];
  }

  // Overwriting a byte of line l, other than by a newline, changes that line only.
  lemma {:induction false} SplitUpdate(data: bytes, start: nat, l: nat, j: nat, c: byte)
    requires start <= |data| && l < |Split(data, start).lines| && c != '\n'
    requires j < |Split(data, start).lines[l].text|
    ensures var at := Split(data, start).lines[l].offset + j;
            at < |data| && PatchedAt(Split(data, start), Split(data[at := c], start), l, j, c)
    decreases |data| - start
  {
    hide Split, NewlineFrom, PatchedAt;
    if l == 0 {
      PatchFirst(data, start, j, c);
    } else {
      LaterLine(data, start, l);
      var pos := NewlineFrom(data, start);
      LinePlace(data, pos + 1, l - 1);
      SplitUpdate(data, pos + 1, l - 1, j, c);
      PatchLater(data, start, Split(data, start).lines[l].offset + j, l - 1, j, c);
    }
  }

  lemma {:induction false} LaterLine(data: bytes, start: nat, l: nat)
    requires start <= |data| && 0 < l < |Split(data, start).lines|
    ensures var pos := NewlineFrom(data, start);
            pos < |data| && l - 1 < |Split(data, pos + 1).lines| &&
            Split(data, start).lines[l] == Split(data, pos + 1).lines[l - 1]
  {
  }

  lemma {:induction false} SplitSame(data: bytes, data': bytes, start: nat)
    requires start <= |data| == |data'|
    requires forall i :: start <= i < |data| ==> data[i] == data'[i]
    ensures Split(data, start) == Split(data', start)
    decreases |data| - start
  {
    var pos := NewlineFrom(data, start);
    NewlineUnique(data', start, pos);
    if pos < |data| {
      assert data[start..pos] == data'[start..pos];
      SplitSame(data, data', pos + 1);
    }
  }

  // The line an entry came from.
  function LineOf(lines: seq<RawLine>, k: nat): (l: nat)
    requires k < |Entries(lines)|
    ensures l < |lines| && ParseLine(lines[l].text, lines[l].offset) == [Entries(lines)[k]]
    ensures |Entries(lines[..l])| == k
  {
    var n := |lines| - 1;
    if k < |Entries(lines[..n])| then
      var l := LineOf(lines[..n], k);
      assert lines[..n][..l] == lines[..l];
      l
    else n
  }

  lemma {:induction false} EntriesUpdate(lines: seq<RawLine>, l: nat, line: RawLine, e: Entry)
    requires l < |lines| && |ParseLine(lines[l].text, lines[l].offset)| == 1
    requires ParseLine(line.text, line.offset) == [e]
    ensures var k := |Entries(lines[..l])|;
            k < |Entries(lines)| && Entries(lines[l := line]) == Entries(lines)[k := e]
    decreases |lines|
  {
    hide ParseLine;
    var n := |lines| - 1;
    var lines' := lines[l := line];
    if l < n {
      EntriesUpdate(lines[..n], l, line, e);
      assert lines[..n][..l] == lines[..l];
      assert lines'[..n] == lines[..n][l := line];
    } else {
      assert lines'[..n] == lines[..n];
    }
  }

  lemma {:induction false} FlippedLine(text: bytes, offset: nat, state: TransactionState)
    requires |ParseLine(text, offset)| == 1
    ensures ID_WIDTH < |text| && ParseLine(text, offset)[0].offset == offset
    ensures ParseLine(text[ID_WIDTH := StateByte(state)], offset)
         == [ParseLine(text, offset)[0].(state := state)]
    ensures text[ID_WIDTH] == StateByte(ParseLine(text, offset)[0].state)
  {
    var text' := text[ID_WIDTH := StateByte(state)];
    StateByteBijection(state, '0');
    StateByteBijection(ParseLine(text, offset)[0].state, text[ID_WIDTH]);
    assert text'[..ID_WIDTH] == text[..ID_WIDTH];
    assert text'[HEADER_SIZE..] == text[HEADER_SIZE..];
  }

  // Overwriting the state byte of one entry changes the state of that entry and
  // nothing else the scan sees; the byte there is the one of its state.
  lemma {:induction false} ScanFlip(data: bytes, k: nat, state: TransactionState)
    requires k < |Scan(data).entries|
    ensures var r := Scan(data);
            var at := r.entries[k].offset + ID_WIDTH;
            at < |data| && data[at] == StateByte(r.entries[k].state) &&
            Scan(data[at := StateByte(state)]) == Scanned(r.entries[k := r.entries[k].(state := state)], r.tail)
  {
    hide ParseLine, Entries, Split;
    var lines := Split(data, 0).lines;
    var l := LineOf(lines, k);
    var line := lines[l];
    var e := Scan(data).entries[k];
    LinePlace(data, 0, l);
    FlippedLine(line.text, line.offset, state);
    assert data[line.offset + ID_WIDTH] == line.text[ID_WIDTH];
    SplitUpdate(data, 0, l, ID_WIDTH, StateByte(state));
    var line' := Patched(line, ID_WIDTH, StateByte(state));
    EntriesUpdate(lines, l, line', e.(state := state));
    assert Split(data[e.offset + ID_WIDTH := StateByte(state)], 0).lines == lines[l := line'];
  }

  // A line the logger writes is scanned back as the entry it was written for.
  lemma {:induction false} ParseWrittenLine(id: uint64, state: TransactionState, payload: bytes, offset: nat)
    requires Printable(payload)
    ensures var body := IdField(id) + [StateByte(state)] + payload;
            NoNewline(body) && ParseLine(body, offset) == [Entry(id, state, offset, payload)]
  {
    var body := IdField(id) + [StateByte(state)] + payload;
    HexFieldPrintable(id, ID_WIDTH);
    IdFieldBijection(id, []);
    StateByteBijection(state, '0');
    assert body[..ID_WIDTH] == IdField(id);
    assert body[HEADER_SIZE..] == payload;
  }

  lemma {:induction false} ScanLine(kept: bytes, id: uint64, state: TransactionState, payload: bytes)
    requires Scan(kept).tail == |kept| && Printable(payload)
    ensures Scan(kept + Line(id, state, payload)) ==
              Scanned(Scan(kept).entries + [Entry(id, state, |kept|, payload)],
                      |kept| + |Line(id, state, payload)|)
  {
    var body := IdField(id) + [StateByte(state)] + payload;
    ParseWrittenLine(id, state, payload, |kept|);
    SplitAppendLine(kept, 0, body);
    assert kept + body + ['\n'] == kept + Line(id, state, payload);
    var lines := Split(kept, 0).lines;
    assert (lines + [RawLine(|kept|, body)])[..|lines|] == lines;
  }

  // ----- lookups in the index -----

  // The first entry with the id, or the number of entries.
  function FirstWithId(entries: seq<Entry>, id: uint64): (i: nat)
    ensures i <= |entries|
    ensures i < |entries| ==> entries[i].id == id
    ensures forall j :: 0 <= j < i ==> entries[j].id != id
  {
    FirstIndex(entries, (e: Entry) => e.id == id)
  }

  // Records of the readable entries, the header state taking precedence.
  function Records(entries: seq<Entry>): seq<TransactionRecord> {
    if entries == [] then [] else
    var e := entries[|entries| - 1];
    var before := Records(entries[..|entries| - 1]);
    match DeserializeTransaction(e.payload)
    case None => before
    case Some(r) => before + [r.(state := e.state)]
  }

  function RecordsFrom(entries: seq<Entry>, lsn: nat): seq<TransactionRecord> {
    if lsn >= |entries| then [] else Records(entries[lsn..])
  }

  // The record read from an entry: its payload's, in the state of its header.
  ghost predicate ReadsAs(e: Entry, r: TransactionRecord) {
    match DeserializeTransaction(e.payload)
    case None => false
    case Some(d) => r == d.(state := e.state)
  }

  // The records of the readable entries from position `from` to `to`: `at` lists
  // the positions, ascending, of the entries that can be read and of no others.
  ghost predicate PicksReadable(entries: seq<Entry>, from: nat, to: nat, records: seq<TransactionRecord>, at: seq<nat>)
    requires to <= |entries|
  {
    |at| == |records| &&
    (forall i :: 0 <= i < |at| ==> from <= at[i] < to && ReadsAs(entries[at[i]], records[i])) &&
    (forall i, j :: 0 <= i < j < |at| ==> at[i] < at[j]) &&
    (forall k :: from <= k < to && k !in at ==> DeserializeTransaction(entries[k].payload).None?)
  }

  lemma {:induction false} NothingPicked(entries: seq<Entry>, from: nat, to: nat)
    requires to <= from && to <= |entries|
    ensures PicksReadable(entries, from, to, [], [])
  {
  }

  lemma {:induction false} PicksOne(entries: seq<Entry>, from: nat, to: nat,
                                    records: seq<TransactionRecord>, at: seq<nat>)
    requires from <= to < |entries| && PicksReadable(entries, from, to, records, at)
    ensures match DeserializeTransaction(entries[to].payload)
            case None => PicksReadable(entries, from, to + 1, records, at)
            case Some(d) => PicksReadable(entries, from, to + 1, records + [d.(state := entries[to].state)], at + [to])
  {
    hide DeserializeTransaction;
    match DeserializeTransaction(entries[to].payload)
    case None =>
    case Some(d) =>
      assert ReadsAs(entries[to], d.(state := entries[to].state));
      forall k | from <= k < to + 1 && k !in at + [to] ensures DeserializeTransaction(entries[k].payload).None? {
        assert (at + [to])[|at|] == to && k !in at;
      }
  }

  // Records picks the readable entries and no others.
  lemma {:induction false} RecordsPicked(entries: seq<Entry>, n: nat) returns (at: seq<nat>)
    requires n <= |entries|
    ensures PicksReadable(entries, 0, n, Records(entries[..n]), at)
  {
    hide DeserializeTransaction, PicksReadable;
    if n == 0 {
      at := [];
      NothingPicked(entries, 0, 0);
    } else {
      at := RecordsPicked(entries, n - 1);
      PicksOne(entries, 0, n - 1, Records(entries[..n - 1]), at);
      assert entries[..n][..n - 1] == entries[..n - 1];
      if DeserializeTransaction(entries[n - 1].payload).Some? { at := at + [n - 1]; }
    }
  }

  // ----- the logger -----

  // The scan loop has cut the file up to the start of a line.
  ghost predicate LinesSoFar(data: bytes, lines: seq<RawLine>, lineStart: nat)
    requires lineStart <= |data|
  {
    Split(data, 0) == Cut(lines + Split(data, lineStart).lines, Split(data, lineStart).tail)
  }

  lemma {:induction false} NextLine(data: bytes, lines: seq<RawLine>, lineStart: nat)
    requires lineStart <= |data| && LinesSoFar(data, lines, lineStart)
    requires NewlineFrom(data, lineStart) < |data|
    ensures var pos := NewlineFrom(data, lineStart);
            LinesSoFar(data, lines + [RawLine(lineStart, data[lineStart..pos])], pos + 1)
  {
    var pos := NewlineFrom(data, lineStart);
    var line := RawLine(lineStart, data[lineStart..pos]);
    var rest := Split(data, pos + 1).lines;
    assert lines + ([line] + rest) == (lines + [line]) + rest;
  }

  // The body of the constructor's scan loop: one complete line.
  method ReadLine(line: bytes, offset: nat) returns (parsed: seq<Entry>)
    ensures parsed == ParseLine(line, offset)
  {
    parsed := [];
    if |line| >= HEADER_SIZE {
      var id := ReadIdField(line[..ID_WIDTH]);
      if id.Some? {
        var state := StateFromByte(line[ID_WIDTH]);
        if state.Some? {
          IdFieldBijection(0, line[..ID_WIDTH]);
          parsed := [Entry(id.value, state.value, offset, line[HEADER_SIZE..])];
        }
      }
    }
  }

  // The constructor's scan loop: one entry for each well-formed complete line, and
  // where the rest begins.
  method ScanLines(data: bytes) returns (found: seq<Entry>, lineStart: nat)
    ensures Scanned(found, lineStart) == Scan(data)
  {
    hide ParseLine, NewlineFrom, Split, Entries, LinesSoFar;
    found := [];
    ghost var lines: seq<RawLine> := [];
    lineStart := 0;
    var pos := NewlineFrom(data, 0);
    NoLinesYet(data);
    while pos != |data|
      invariant lineStart <= pos <= |data| && pos == NewlineFrom(data, lineStart)
      invariant LinesSoFar(data, lines, lineStart)
      invariant found == Entries(lines)
      decreases |data| - lineStart
    {
      var line := data[lineStart..pos];
      NextLine(data, lines, lineStart);
      EntriesSnoc(lines, RawLine(lineStart, line));
      lines := lines + [RawLine(lineStart, line)];
      var parsed := ReadLine(line, lineStart);
      found := found + parsed;
      lineStart := pos + 1;
      pos := NewlineFrom(data, lineStart);
    }
    NoMoreLines(data, lines, lineStart);
  }

  lemma {:induction false} NoLinesYet(data: bytes)
    ensures LinesSoFar(data, [], 0) && Entries([]) == []
  {
    assert [] + Split(data, 0).lines == Split(data, 0).lines;
  }

  lemma {:induction false} NoMoreLines(data: bytes, lines: seq<RawLine>, lineStart: nat)
    requires lineStart <= |data| && LinesSoFar(data, lines, lineStart) && NewlineFrom(data, lineStart) == |data|
    ensures Scan(data) == Scanned(Entries(lines), lineStart)
  {
    hide Entries, NewlineFrom;
    assert lines + [] == lines;
  }

  lemma {:induction false} EntriesSnoc(lines: seq<RawLine>, line: RawLine)
    ensures Entries(lines + [line]) == Entries(lines) + ParseLine(line.text, line.offset)
  {
    assert (lines + [line])[..|lines|] == lines;
  }

  // A file on disk; it outlives the loggers opened on it.
  class File {
    var content: bytes

    constructor (content: bytes)
      ensures this.content == content
    {
      this.content := content;
    }
  }

  class WalLogger {
    const file: File
    var entries: seq<Entry>
    var nextOffset: nat
    var dropTail: bool
    var validLength: nat

    // The index is what a fresh scan of the file would give, and the offsets
    // point behind its last complete line.
    ghost predicate Valid()
      reads this, file
    {
      var r := Scan(file.content);
      entries == r.entries && nextOffset == r.tail &&
      (dropTail <==> r.tail < |file.content|) && (dropTail ==> validLength == r.tail)
    }

    constructor (file: File)
      ensures this.file == file && file.content == old(file.content)
      ensures Valid()
    {
      hide Scan;
      this.file := file;
      var found, lineStart := ScanLines(file.content);
      entries := found;
      if lineStart < |file.content| {
        dropTail := true;
        validLength := lineStart;
        nextOffset := lineStart;
      } else {
        dropTail := false;
        validLength := 0;
        nextOffset := |file.content|;
      }
    }

    method TruncateInterruptedTail()
      requires Valid() && dropTail
      modifies this, file
      ensures Valid() && !dropTail && entries == old(entries)
      ensures file.content == old(file.content)[..old(Scan(file.content).tail)]
    {
      SplitTruncate(file.content, 0);
      file.content := file.content[..validLength];
      dropTail := false;
      nextOffset := validLength;
    }

    // Drops a torn last line, then adds one complete line behind everything else.
    method Append(r: TransactionRecord)
      requires Valid()
      modifies this, file
      ensures Valid() && !dropTail
      ensures var tail := old(Scan(file.content).tail);
              file.content == old(file.content)[..tail] + Line(r.id, r.state, SerializeTransaction(r)) &&
              entries == old(entries) + [Entry(r.id, r.state, tail, SerializeTransaction(r))]
    {
      if dropTail { TruncateInterruptedTail(); }
      ghost var kept := file.content;
      assert kept == old(file.content)[..old(Scan(file.content).tail)];
      var payload := WriteTransaction(r);
      var line := IdField(r.id) + [StateByte(r.state)] + payload + ['\n'];
      PayloadPrintable(r);
      ScanLine(kept, r.id, r.state, payload);
      file.content := file.content + line;
      entries := entries + [Entry(r.id, r.state, nextOffset, payload)];
      nextOffset := nextOffset + |line|;
    }

    // Finds the first entry with the id and, unless it is Committed already,
    // overwrites its state byte; fails when there is no such entry.
    method MarkCommitted(id: uint64) returns (thrown: Option<Exception>)
      requires Valid()
      modifies this, file
      ensures Valid()
      ensures nextOffset == old(nextOffset) && dropTail == old(dropTail) && validLength == old(validLength)
      ensures var k := FirstWithId(old(entries), id);
              if k == |old(entries)| then
                thrown == Some(LogicError) && entries == old(entries) && file.content == old(file.content)
              else
                thrown == None &&
                entries == old(entries)[k := old(entries)[k].(state := Committed)] &&
                old(entries)[k].offset + ID_WIDTH < |old(file.content)| &&
                file.content == old(file.content)[old(entries)[k].offset + ID_WIDTH := StateByte(Committed)]
    {
      hide Scan;
      var i := 0;
      while i < |entries|
        invariant i <= |entries|
        invariant forall j :: 0 <= j < i ==> entries[j].id != id
      {
        var entry := entries[i];
        if entry.id == id {
          assert FirstWithId(entries, id) == i;
          ScanFlip(file.content, i, Committed);
          if entry.state == Committed {
            assert entries[i := entry.(state := Committed)] == entries;
            return None;
          }
          file.content := file.content[entry.offset + ID_WIDTH := StateByte(Committed)];
          entries := entries[i := entry.(state := Committed)];
          return None;
        }
        i := i + 1;
      }
      thrown := Some(LogicError);
    }

    method LoadAll() returns (records: seq<TransactionRecord>)
      requires Valid()
      ensures records == Records(Scan(file.content).entries)
      ensures exists at :: PicksReadable(Scan(file.content).entries, 0, |Scan(file.content).entries|, records, at)
    {
      hide DeserializeTransaction, Scan, PicksReadable;
      records := [];
      ghost var at: seq<nat> := [];
      NothingPicked(entries, 0, 0);
      for i := 0 to |entries|
        invariant records == Records(entries[..i]) && PicksReadable(entries, 0, i, records, at)
      {
        PicksOne(entries, 0, i, records, at);
        assert entries[..i + 1][..i] == entries[..i];
        var record := ReadTransaction(entries[i].payload);
        if record.Some? {
          records := records + [record.value.(state := entries[i].state)];
          at := at + [i];
        }
      }
      assert entries[..|entries|] == entries;
    }

    method ReplayFrom(lsn: nat) returns (records: seq<TransactionRecord>)
      requires Valid()
      ensures records == RecordsFrom(Scan(file.content).entries, lsn)
      ensures exists at :: PicksReadable(Scan(file.content).entries, lsn, |Scan(file.content).entries|, records, at)
    {
      hide DeserializeTransaction, Scan, PicksReadable;
      records := [];
      ghost var at: seq<nat> := [];
      if lsn >= |entries| {
        NothingPicked(entries, lsn, |entries|);
        return;
      }
      ghost var replayed := entries[lsn..];
      NothingPicked(entries, lsn, lsn);
      for i := lsn to |entries|
        invariant records == Records(replayed[..i - lsn]) && PicksReadable(entries, lsn, i, records, at)
      {
        PicksOne(entries, lsn, i, records, at);
        assert replayed[..i + 1 - lsn][..i - lsn] == replayed[..i - lsn];
        var record := ReadTransaction(entries[i].payload);
        if record.Some? {
          records := records + [record.value.(state := entries[i].state)];
          at := at + [i];
        }
      }
      assert replayed[..|replayed|] == replayed;
    }
  }
}
