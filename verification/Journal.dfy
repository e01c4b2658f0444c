// The journal as a list of records, and the bytes that stand for it on disk.

module Journal {
  import opened Basics
  import opened Domain
  import opened Codec
  import opened Wal

  // A record as it was appended, with the state its header carries now.
  datatype JEntry = JEntry(record: TransactionRecord, state: TransactionState)

  function Image(j: seq<JEntry>): bytes {
    if j == [] then [] else
    var e := j[|j| - 1];
    Image(j[..|j| - 1]) + Line(e.record.id, e.state, SerializeTransaction(e.record))
  }

  function Index(j: seq<JEntry>): (es: seq<Entry>)
    ensures |es| == |j|
    ensures forall i :: 0 <= i < |j| ==>
              es[i].id == j[i].record.id && es[i].state == j[i].state &&
              es[i].payload == SerializeTransaction(j[i].record)
  {
    if j == [] then [] else
    var n := |j| - 1;
    Index(j[..n]) + [Entry(j[n].record.id, j[n].state, |Image(j[..n])|, SerializeTransaction(j[n].record))]
  }

  lemma {:induction false} ImageScan(j: seq<JEntry>)
    ensures Scan(Image(j)) == Scanned(Index(j), |Image(j)|)
    decreases |j|
  {
    if j != [] {
      var n := |j| - 1;
      ImageScan(j[..n]);
      PayloadPrintable(j[n].record);
      ScanLine(Image(j[..n]), j[n].record.id, j[n].state, SerializeTransaction(j[n].record));
    } else {
      assert NewlineFrom([], 0) == 0;
    }
  }

  // A journal followed by a torn line scans as the journal alone.
  lemma {:induction false} TornImageScan(j: seq<JEntry>, torn: bytes)
    requires NoNewline(torn)
    ensures Scan(Image(j) + torn) == Scanned(Index(j), |Image(j)|)
  {
    ImageScan(j);
    SplitTornTail(Image(j), 0, torn);
  }

  // An append interrupted after m of its bytes leaves either the whole new line
  // or a fragment without a newline.
  lemma {:induction false} InterruptedAppend(e: JEntry, m: nat)
    requires m <= |Line(e.record.id, e.state, SerializeTransaction(e.record))|
    ensures var line := Line(e.record.id, e.state, SerializeTransaction(e.record));
            m == |line| || NoNewline(line[..m])
  {
    PayloadPrintable(e.record);
    HexFieldPrintable(e.record.id, ID_WIDTH);
  }

  // The number of records of j whose line lies within the first n bytes.
  function Surviving(j: seq<JEntry>, n: nat): (k: nat)
    ensures k <= |j|
  {
    if j == [] then 0
    else if n >= |Image(j)| then |j|
    else Surviving(j[..|j| - 1], n)
  }

  // Any byte prefix of a journal is the journal of the records whose newline
  // survived, followed by a fragment of the next line.
  lemma {:induction false} PrefixIsJournal(j: seq<JEntry>, n: nat)
    requires n <= |Image(j)|
    ensures var k := Surviving(j, n);
            |Image(j[..k])| <= n && Image(j)[..|Image(j[..k])|] == Image(j[..k]) &&
            NoNewline(Image(j)[|Image(j[..k])|..n])
    decreases |j|
  {
    hide SerializeTransaction, Line, DeserializeTransaction;
    if j == [] {
    } else if n == |Image(j)| {
      assert j[..|j|] == j;
    } else {
      var m := |j| - 1;
      var e := j[m];
      var before := Image(j[..m]);
      var line := Line(e.record.id, e.state, SerializeTransaction(e.record));
      assert Image(j) == before + line;
      var k := Surviving(j[..m], n);
      if n < |before| {
        PrefixIsJournal(j[..m], n);
        assert j[..m][..k] == j[..k];
        assert Image(j)[..|Image(j[..k])|] == before[..|Image(j[..k])|];
        assert Image(j)[|Image(j[..k])|..n] == before[|Image(j[..k])|..n];
      } else {
        SurvivingAll(j[..m], n);
        InterruptedAppend(e, n - |before|);
        assert Image(j)[|before|..n] == line[..n - |before|];
        assert j[..m][..m] == j[..m];
      }
    }
  }

  lemma {:induction false} SurvivingAll(j: seq<JEntry>, n: nat)
    requires n >= |Image(j)|
    ensures Surviving(j, n) == |j|
  {
  }

  // Where the state byte of record k sits.
  function StateOffset(j: seq<JEntry>, k: nat): nat
    requires k < |j|
  {
    |Image(j[..k])| + ID_WIDTH
  }

  lemma {:induction false} ImageSnoc(j: seq<JEntry>)
    requires j != []
    ensures var n := |j| - 1;
            var payload := SerializeTransaction(j[n].record);
            Image(j) == Image(j[..n]) + Line(j[n].record.id, j[n].state, payload) &&
            Index(j) == Index(j[..n]) + [Entry(j[n].record.id, j[n].state, |Image(j[..n])|, payload)]
  {
  }

  // Flipping that byte turns the image into the image of the journal in which
  // record k has the new state.
  lemma {:induction false} ImageFlip(j: seq<JEntry>, k: nat, state: TransactionState)
    requires k < |j|
    ensures StateOffset(j, k) < |Image(j)|
    ensures Image(j)[StateOffset(j, k) := StateByte(state)] == Image(j[k := j[k].(state := state)])
    ensures Index(j)[k].offset + ID_WIDTH == StateOffset(j, k)
    decreases |j|
  {
    hide SerializeTransaction, Line, Image, Index;
    var n := |j| - 1;
    var e := j[n];
    var j' := j[k := j[k].(state := state)];
    var line := Line(e.record.id, e.state, SerializeTransaction(e.record));
    ImageSnoc(j);
    ImageSnoc(j');
    if k < n {
      ImageFlip(j[..n], k, state);
      assert j[..n][..k] == j[..k];
      assert j'[..n] == j[..n][k := j[k].(state := state)];
      UpdateLeft(Image(j[..n]), line, StateOffset(j, k), StateByte(state));
    } else {
      assert j'[..n] == j[..n];
      FlipLine(e.record.id, e.state, state, SerializeTransaction(e.record));
      UpdateRight(Image(j[..n]), line, ID_WIDTH, StateByte(state));
    }
  }

  lemma {:induction false} UpdateLeft(a: bytes, b: bytes, i: nat, c: byte)
    requires i < |a|
    ensures (a + b)[i := c] == a[i := c] + b
  {
  }

  lemma {:induction false} UpdateRight(a: bytes, b: bytes, i: nat, c: byte)
    requires i < |b|
    ensures (a + b)[|a| + i := c] == a + b[i := c]
  {
  }

  lemma {:induction false} FlipLine(id: uint64, before: TransactionState, after: TransactionState, payload: bytes)
    ensures ID_WIDTH < |Line(id, before, payload)|
    ensures Line(id, before, payload)[ID_WIDTH := StateByte(after)] == Line(id, after, payload)
  {
  }

  // ----- reading a journal back -----

  function Read(j: seq<JEntry>): (rs: seq<TransactionRecord>)
    ensures |rs| == |j|
    ensures forall i :: 0 <= i < |j| ==> rs[i] == j[i].record.(state := j[i].state)
  {
    if j == [] then [] else Read(j[..|j| - 1]) + [j[|j| - 1].record.(state := j[|j| - 1].state)]
  }

  ghost predicate AllEncodable(j: seq<JEntry>) {
    forall i :: 0 <= i < |j| ==> Encodable(j[i].record)
  }

  lemma {:induction false} RecordsOfIndex(es: seq<Entry>, j: seq<JEntry>)
    requires |es| == |j| && AllEncodable(j)
    requires forall i :: 0 <= i < |j| ==>
               es[i].state == j[i].state && es[i].payload == SerializeTransaction(j[i].record)
    ensures Records(es) == Read(j)
    decreases |j|
  {
    hide SerializeTransaction, DeserializeTransaction, Encodable;
    if j != [] {
      var n := |j| - 1;
      RecordsOfIndex(es[..n], j[..n]);
      TransactionRoundTrip(j[n].record);
    }
  }

  lemma {:induction false} ReplayIndex(j: seq<JEntry>, lsn: nat)
    requires AllEncodable(j) && lsn <= |j|
    ensures RecordsFrom(Index(j), lsn) == Read(j[lsn..])
  {
    hide DeserializeTransaction;
    hide SerializeTransaction;
    if lsn < |j| {
      var es, rest := Index(j)[lsn..], j[lsn..];
      assert forall i :: 0 <= i < |rest| ==> rest[i] == j[lsn + i] && es[i] == Index(j)[lsn + i];
      assert AllEncodable(rest);
      RecordsOfIndex(es, rest);
    }
  }

  // Replaying from any position gives exactly the records appended from there on,
  // each with its current header state.
  lemma {:induction false} ReplayReadsJournal(j: seq<JEntry>, torn: bytes, lsn: nat)
    requires NoNewline(torn) && AllEncodable(j) && lsn <= |j|
    ensures RecordsFrom(Scan(Image(j) + torn).entries, lsn) == Read(j[lsn..])
  {
    TornImageScan(j, torn);
    ReplayIndex(j, lsn);
  }

  ghost function Flipped(j: seq<JEntry>, k: nat): seq<JEntry>
    requires k < |j|
  {
    j[k := j[k].(state := Committed)]
  }

  // What Append leaves on disk, as a journal.
  lemma {:induction false} AppendImage(j: seq<JEntry>, torn: bytes, r: TransactionRecord)
    ensures (Image(j) + torn)[..|Image(j)|] + Line(r.id, r.state, SerializeTransaction(r))
         == Image(j + [JEntry(r, r.state)])
  {
    assert (j + [JEntry(r, r.state)])[..|j|] == j;
    assert (Image(j) + torn)[..|Image(j)|] == Image(j);
  }

  // What MarkCommitted leaves on disk, as a journal.
  lemma {:induction false} CommitImage(j: seq<JEntry>, torn: bytes, id: uint64, k: nat)
    requires NoNewline(torn) && k < |j| && j[k].record.id == id
    requires forall i :: 0 <= i < k ==> j[i].record.id != id
    ensures FirstWithId(Index(j), id) == k
    ensures var at := Index(j)[k].offset + ID_WIDTH;
            at < |Image(j)| &&
            (Image(j) + torn)[at := StateByte(Committed)] == Image(Flipped(j, k)) + torn
  {
    FirstOccurrence(Index(j), id, k);
    ImageFlip(j, k, Committed);
    UpdateLeft(Image(j), torn, StateOffset(j, k), StateByte(Committed));
  }

  // Opening a journal torn anywhere, committing a record from before the tear and
  // then appending another leaves the bytes of exactly the journal so changed.
  method ReopenCommitAppend(file: File, ghost j: seq<JEntry>, ghost torn: bytes,
                            id: uint64, ghost k: nat, r: TransactionRecord)
    requires file.content == Image(j) + torn && NoNewline(torn)
    requires k < |j| && j[k].record.id == id && forall i :: 0 <= i < k ==> j[i].record.id != id
    modifies file
    ensures file.content == Image(Flipped(j, k) + [JEntry(r, r.state)])
  {
    var log := new WalLogger(file);
    TornImageScan(j, torn);
    CommitImage(j, torn, id, k);
    var thrown := log.MarkCommitted(id);
    TornImageScan(Flipped(j, k), torn);
    AppendImage(Flipped(j, k), torn, r);
    log.Append(r);
  }

  lemma {:induction false} FirstOccurrence(es: seq<Entry>, id: uint64, k: nat)
    requires k < |es| && es[k].id == id && forall i :: 0 <= i < k ==> es[i].id != id
    ensures FirstWithId(es, id) == k
  {
    var f := FirstWithId(es, id);
    assert f < |es| ==> es[f].id == id;
  }
}
