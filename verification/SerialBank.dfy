// The reference meaning of a transaction: its effect on the whole account
// table, and of a list of transactions: their effects one at a time.

module SerialBank {
  import opened Basics
  import opened Domain

  type Table = map<uint64, AccountState>

  ghost predicate WellKeyed(m: Table) {
    forall a :: a in m ==> m[a].id == a
  }

  // The accounts a transaction rewrites, with their new values, or None when
  // the transaction is refused.
  function Delta(m: Table, t: Transaction): Option<Table> {
    match t
    case Deposit(a, amount) =>
      if a in m && m[a].status == Active && amount > 0 && Deposited(m[a], amount).Ok?
      then Some(map[a := Deposited(m[a], amount).value]) else None
    case Withdraw(a, amount) =>
      if a in m && amount > 0 && Withdrawn(m[a], amount).Ok?
      then Some(map[a := Withdrawn(m[a], amount).value]) else None
    case Transfer(from, to, amount) =>
      if from != to && from in m && to in m && amount > 0 && m[to].status == Active
         && Withdrawn(m[from], amount).Ok? && Deposited(m[to], amount).Ok?
      then Some(map[from := Withdrawn(m[from], amount).value, to := Deposited(m[to], amount).value])
      else None
  }

  function Post(m: Table, t: Transaction): Option<Table> {
    match Delta(m, t)
    case Some(d) => Some(m + d)
    case None => None
  }

  // Transactions applied one at a time, in order; None as soon as one is refused.
  function Run(m: Table, ts: seq<Transaction>): (r: Option<Table>)
    decreases |ts|
  {
    if ts == [] then Some(m) else
    match Run(m, ts[..|ts| - 1])
    case None => None
    case Some(m') => Post(m', ts[|ts| - 1])
  }

  // ----- locality and commutation -----

  ghost predicate AgreeOn(m: Table, n: Table, s: set<uint64>) {
    forall a :: a in s ==> (a in m <==> a in n) && (a in m ==> m[a] == n[a])
  }

  lemma {:induction false} DeltaShape(m: Table, t: Transaction)
    requires Delta(m, t).Some?
    ensures Delta(m, t).value.Keys == Involved(t) <= m.Keys
    ensures WellKeyed(m) ==> WellKeyed(Delta(m, t).value)
  {
  }

  lemma {:induction false} DeltaLocal(m: Table, n: Table, t: Transaction)
    requires AgreeOn(m, n, Involved(t))
    ensures Delta(m, t) == Delta(n, t)
  {
    match t {
      case Deposit(a, _) => assert a in Involved(t);
      case Withdraw(a, _) => assert a in Involved(t);
      case Transfer(from, to, _) => assert from in Involved(t) && to in Involved(t);
    }
  }

  function Then(m: Option<Table>, t: Transaction): Option<Table> {
    if m.None? then None else Post(m.value, t)
  }

  lemma {:induction false} PostCommutes(m: Table, t: Transaction, u: Transaction)
    requires Involved(t) !! Involved(u)
    ensures Then(Post(m, t), u) == Then(Post(m, u), t)
  {
    if Delta(m, t).Some? {
      DeltaShape(m, t);
      DeltaLocal(m, m + Delta(m, t).value, u);
    }
    if Delta(m, u).Some? {
      DeltaShape(m, u);
      DeltaLocal(m, m + Delta(m, u).value, t);
    }
    if Delta(m, t).Some? && Delta(m, u).Some? {
      var d, e := Delta(m, t).value, Delta(m, u).value;
      assert d.Keys !! e.Keys;
      assert (m + d) + e == (m + e) + d;
    }
  }

  lemma {:induction false} RunSnoc(m: Table, ts: seq<Transaction>, t: Transaction)
    ensures Run(m, ts + [t]) == Then(Run(m, ts), t)
  {
    assert (ts + [t])[..|ts|] == ts;
  }

  lemma {:induction false} RunConcat(m: Table, p: seq<Transaction>, q: seq<Transaction>)
    ensures Run(m, p + q) == if Run(m, p).None? then None else Run(Run(m, p).value, q)
    decreases |q|
  {
    if q == [] {
      assert p + q == p;
    } else {
      var q', u := q[..|q| - 1], q[|q| - 1];
      assert p + q == (p + q') + [u] && q == q' + [u];
      RunConcat(m, p, q');
      RunSnoc(m, p + q', u);
      if Run(m, p).Some? { RunSnoc(Run(m, p).value, q', u); }
    }
  }

  ghost predicate DisjointFromAll(t: Transaction, ts: seq<Transaction>) {
    forall u :: u in ts ==> Involved(t) !! Involved(u)
  }

  // A transaction sharing no account with its successors may be made last: the
  // run succeeds or fails alike and ends in the same table.
  lemma {:induction false} MoveToEnd(m: Table, p: seq<Transaction>, t: Transaction, q: seq<Transaction>)
    requires DisjointFromAll(t, q)
    ensures Run(m, p + [t] + q) == Then(Run(m, p + q), t)
    decreases |q|
  {
    if q == [] {
      assert p + [t] + q == p + [t] && p + q == p;
      RunSnoc(m, p, t);
    } else {
      var q', u := q[..|q| - 1], q[|q| - 1];
      assert p + [t] + q == (p + [t] + q') + [u] && p + q == (p + q') + [u];
      assert u in q && forall x :: x in q' ==> x in q;
      MoveToEnd(m, p, t, q');
      RunSnoc(m, p + [t] + q', u);
      RunSnoc(m, p + q', u);
      var r := Run(m, p + q');
      if r.Some? { PostCommutes(r.value, t, u); }
    }
  }

  // ----- what every run keeps -----

  // The tables have the same accounts, with the same owners and status, and are
  // the same on the accounts outside s.
  ghost predicate SameBut(m: Table, r: Table, s: set<uint64>) {
    r.Keys == m.Keys && WellKeyed(r) &&
    forall a :: a in m ==> r[a].owner == m[a].owner && r[a].status == m[a].status && (a !in s ==> r[a] == m[a])
  }

  function AllInvolved(ts: seq<Transaction>): set<uint64> {
    if ts == [] then {} else AllInvolved(ts[..|ts| - 1]) + Involved(ts[|ts| - 1])
  }

  lemma {:induction false} PostKeeps(m: Table, t: Transaction)
    requires WellKeyed(m) && Post(m, t).Some?
    ensures SameBut(m, Post(m, t).value, Involved(t))
  {
    DeltaShape(m, t);
  }

  // A transaction changes balances and versions of the accounts it names and
  // nothing else.
  lemma {:induction false} RunKeeps(m: Table, ts: seq<Transaction>)
    requires WellKeyed(m) && Run(m, ts).Some?
    ensures SameBut(m, Run(m, ts).value, AllInvolved(ts))
    decreases |ts|
  {
    if ts == [] {
    } else {
      hide Post, Involved;
      RunKeeps(m, ts[..|ts| - 1]);
      PostKeeps(Run(m, ts[..|ts| - 1]).value, ts[|ts| - 1]);
    }
  }

  // ----- conservation -----

  ghost function Total(m: Table): int
    decreases m
  {
    if m == map[] then 0 else
    var a :| a in m;
    m[a].balance + Total(m - {a})
  }

  lemma {:induction false} TotalSplit(m: Table, a: uint64)
    requires a in m
    ensures Total(m) == m[a].balance + Total(m - {a})
    decreases m
  {
    var b :| b in m && Total(m) == m[b].balance + Total(m - {b});
    if a != b {
      TotalSplit(m - {b}, a);
      TotalSplit(m - {a}, b);
      assert m - {a} - {b} == m - {b} - {a};
    }
  }

  lemma {:induction false} TotalUpdate(m: Table, a: uint64, x: AccountState)
    requires a in m
    ensures Total(m[a := x]) == Total(m) - m[a].balance + x.balance
  {
    TotalSplit(m, a);
    TotalSplit(m[a := x], a);
    assert m[a := x] - {a} == m - {a};
  }

  // Money a transaction brings in from outside, net of what it takes out.
  function Inflow(t: Transaction): int {
    match t
    case Deposit(_, amount) => amount as int
    case Withdraw(_, amount) => 0 - amount as int
    case Transfer(_, _, _) => 0
  }

  function TotalInflow(ts: seq<Transaction>): int {
    if ts == [] then 0 else TotalInflow(ts[..|ts| - 1]) + Inflow(ts[|ts| - 1])
  }

  lemma {:induction false} PostConserves(m: Table, t: Transaction)
    requires Post(m, t).Some?
    ensures Total(Post(m, t).value) == Total(m) + Inflow(t)
  {
    match t {
      case Deposit(a, amount) =>
        var x := Deposited(m[a], amount).value;
        TotalUpdate(m, a, x);
        assert m + map[a := x] == m[a := x];
      case Withdraw(a, amount) =>
        var x := Withdrawn(m[a], amount).value;
        TotalUpdate(m, a, x);
        assert m + map[a := x] == m[a := x];
      case Transfer(from, to, amount) =>
        var x, y := Withdrawn(m[from], amount).value, Deposited(m[to], amount).value;
        TotalUpdate(m, from, x);
        TotalUpdate(m[from := x], to, y);
        assert m + map[from := x, to := y] == m[from := x][to := y];
    }
  }

  lemma {:induction false} RunConserves(m: Table, ts: seq<Transaction>)
    requires Run(m, ts).Some?
    ensures Total(Run(m, ts).value) == Total(m) + TotalInflow(ts)
    decreases |ts|
  {
    if ts != [] {
      RunConserves(m, ts[..|ts| - 1]);
      PostConserves(Run(m, ts[..|ts| - 1]).value, ts[|ts| - 1]);
    }
  }

  // ----- local view: a span of accounts against the whole table -----

  ghost predicate DistinctIds(span: seq<AccountState>) {
    forall i, j :: 0 <= i < j < |span| ==> span[i].id != span[j].id
  }

  function ToTable(span: seq<AccountState>): Table {
    if span == [] then map[] else ToTable(span[..|span| - 1])[span[|span| - 1].id := span[|span| - 1]]
  }

  // The span holds current copies of all the involved accounts.
  ghost predicate Covers(span: seq<AccountState>, m: Table, t: Transaction) {
    DistinctIds(span) &&
    (forall i :: 0 <= i < |span| ==> span[i].id in m && m[span[i].id] == span[i]) &&
    (forall a :: a in Involved(t) && a in m ==> exists i :: 0 <= i < |span| && span[i].id == a)
  }

  lemma {:induction false} ToTableLookup(span: seq<AccountState>)
    requires DistinctIds(span)
    ensures forall i :: 0 <= i < |span| ==> span[i].id in ToTable(span) && ToTable(span)[span[i].id] == span[i]
    ensures forall a :: a in ToTable(span) ==> exists i :: 0 <= i < |span| && span[i].id == a
    decreases |span|
  {
    if span != [] {
      var s := span[..|span| - 1];
      ToTableLookup(s);
      forall a | a in ToTable(span) ensures exists i :: 0 <= i < |span| && span[i].id == a {
        if a in ToTable(s) {
          var i :| 0 <= i < |s| && s[i].id == a;
          assert span[i].id == a;
        } else {
          assert span[|span| - 1].id == a;
        }
      }
    }
  }

  lemma {:induction false} FoundIn(span: seq<AccountState>, m: Table, t: Transaction, a: uint64)
    requires Covers(span, m, t) && a in Involved(t)
    ensures a in m <==> IndexOf(span, a) < |span|
    ensures a in m ==> span[IndexOf(span, a)] == m[a]
  {
  }

  // Replacing an account by one with the same id leaves every lookup where it was.
  lemma {:induction false} UpdateKeepsIndex(span: seq<AccountState>, i: nat, x: AccountState, id: uint64)
    requires i < |span| && x.id == span[i].id
    ensures IndexOf(span[i := x], id) == IndexOf(span, id)
  {
    var s := span[i := x];
    var k, l := IndexOf(span, id), IndexOf(s, id);
    assert forall j :: 0 <= j < |s| ==> s[j].id == span[j].id;
    assert l < |s| ==> span[l].id == id;
    assert k < |span| ==> s[k].id == id;
  }

  // The new value of one account under a transaction that went through.
  function Moved(t: Transaction, x: AccountState): Result<AccountState> {
    if CreditAccount(t) == Some(x.id) then Deposited(x, t.amount)
    else if DebitAccount(t) == Some(x.id) then Withdrawn(x, t.amount)
    else Ok(x)
  }

  lemma {:induction false} TransferSteps(t: Transaction, span: seq<AccountState>)
    requires t.Transfer? && DistinctIds(span) && Validate(t, span)
    ensures var i, j := IndexOf(span, t.from), IndexOf(span, t.to);
            Debit(span, t.from, t.amount) == Outcome(span[i := Withdrawn(span[i], t.amount).value], None) &&
            i != j && ApplySpan(t, span) == Credit(span[i := Withdrawn(span[i], t.amount).value], t.to, t.amount) &&
            IndexOf(span[i := Withdrawn(span[i], t.amount).value], t.to) == j
  {
    var i := IndexOf(span, t.from);
    UpdateKeepsIndex(span, i, Withdrawn(span[i], t.amount).value, t.to);
  }

  // After a true validate the only thing that can still go wrong is an overflow
  // of the credited balance; then the debit leg of the copy has already moved.
  lemma {:induction false} ApplyFailsOnlyByOverflow(t: Transaction, span: seq<AccountState>)
    requires DistinctIds(span)
    ensures ApplySpan(t, span).thrown == (
              if !Validate(t, span) then Some(DomainError)
              else if CreditAccount(t).Some? &&
                      span[IndexOf(span, CreditAccount(t).value)].balance + t.amount > INT64_MAX
              then Some(OverflowError) else None)
    ensures ApplySpan(t, span).thrown == Some(DomainError) ==> ApplySpan(t, span).span == span
    ensures ApplySpan(t, span).thrown == Some(OverflowError) ==>
              |ApplySpan(t, span).span| == |span| &&
              forall i :: 0 <= i < |span| ==>
                ApplySpan(t, span).span[i] ==
                  if t.Transfer? && span[i].id == t.from
                  then span[i].(balance := span[i].balance - t.amount, version := (span[i].version + 1) % TWO_64)
                  else span[i]
  {
    if t.Transfer? && Validate(t, span) { TransferSteps(t, span); }
  }

  // The account with this id is there, and is active.
  ghost predicate ActiveAt(span: seq<AccountState>, id: uint64, i: int) {
    0 <= i < |span| && span[i].id == id && span[i].status == Active
  }

  // A transaction validates exactly when its amount is positive, the accounts it
  // names are there, active, and for a transfer two, and the debited one has the
  // money. Whether a credited balance overflows is not asked.
  lemma {:induction false} ValidateIff(t: Transaction, span: seq<AccountState>)
    requires DistinctIds(span)
    ensures Validate(t, span) <==>
              t.amount > 0 && (t.Transfer? ==> t.from != t.to) &&
              (DebitAccount(t).Some? ==>
                 exists i :: ActiveAt(span, DebitAccount(t).value, i) && t.amount <= span[i].balance) &&
              (CreditAccount(t).Some? ==> exists i :: ActiveAt(span, CreditAccount(t).value, i))
  {
    if DebitAccount(t).Some? { ActiveFound(span, DebitAccount(t).value); }
    if CreditAccount(t).Some? { ActiveFound(span, CreditAccount(t).value); }
    hide IndexOf;
  }

  lemma {:induction false} ActiveFound(span: seq<AccountState>, id: uint64)
    requires DistinctIds(span)
    ensures var k := IndexOf(span, id);
            (k < |span| && span[k].status == Active ==> ActiveAt(span, id, k)) &&
            forall i :: ActiveAt(span, id, i) ==> i == k
  {
    var k := IndexOf(span, id);
    assert k < |span| ==> span[k].id == id;
    hide IndexOf;
  }

  // A successful apply moves each account of the span by its own leg.
  lemma {:induction false} ApplyMovesEach(t: Transaction, span: seq<AccountState>)
    requires DistinctIds(span) && ApplySpan(t, span).thrown.None?
    ensures |ApplySpan(t, span).span| == |span|
    ensures forall i :: 0 <= i < |span| ==> Moved(t, span[i]) == Ok(ApplySpan(t, span).span[i])
  {
    if t.Transfer? { TransferSteps(t, span); }
  }

  // txn::validate and txn::apply on copies of the involved accounts decide and
  // do what they would on the whole table: the span succeeds exactly when Post
  // does, and saving it back gives Post's table.
  lemma {:induction false} LocalViewRefinesTable(t: Transaction, span: seq<AccountState>, m: Table)
    requires WellKeyed(m) && Covers(span, m, t)
    ensures var o := ApplySpan(t, span);
            (o.thrown.None? <==> Post(m, t).Some?) &&
            (o.thrown.None? ==> |o.span| == |span| && DistinctIds(o.span) &&
                                m + ToTable(o.span) == Post(m, t).value)
  {
    LocalDecision(t, span, m);
    if ApplySpan(t, span).thrown.None? { SavedBack(t, span, m); }
  }

  lemma {:induction false} LocalDecision(t: Transaction, span: seq<AccountState>, m: Table)
    requires WellKeyed(m) && Covers(span, m, t)
    ensures ApplySpan(t, span).thrown.None? <==> Post(m, t).Some?
  {
    ApplyFailsOnlyByOverflow(t, span);
    if DebitAccount(t).Some? { FoundIn(span, m, t, DebitAccount(t).value); }
    if CreditAccount(t).Some? { FoundIn(span, m, t, CreditAccount(t).value); }
    hide ApplySpan, IndexOf, Covers;
  }

  lemma {:induction false} DeltaMovesEach(m: Table, t: Transaction)
    requires WellKeyed(m) && Delta(m, t).Some?
    ensures forall a :: a in m ==> Moved(t, m[a]) == Ok((m + Delta(m, t).value)[a])
  {
    DeltaShape(m, t);
  }

  // Saving copies that hold the new values of all accounts that changed.
  lemma {:induction false} SaveGives(span: seq<AccountState>, m: Table, r: Table)
    requires DistinctIds(span) && m.Keys == r.Keys
    requires forall i :: 0 <= i < |span| ==> span[i].id in r && span[i] == r[span[i].id]
    requires forall a :: a in m && m[a] != r[a] ==> exists i :: 0 <= i < |span| && span[i].id == a
    ensures m + ToTable(span) == r
  {
    ToTableLookup(span);
    forall a | a in r ensures r[a] == (m + ToTable(span))[a] {
      if m[a] != r[a] {
        var i :| 0 <= i < |span| && span[i].id == a;
      }
    }
    assert m + ToTable(span) == r;
  }

  // The copies, as a successful apply leaves them, are the posted accounts.
  lemma {:induction false} CopiesPosted(t: Transaction, span: seq<AccountState>, m: Table)
    requires WellKeyed(m) && Covers(span, m, t)
    requires ApplySpan(t, span).thrown.None? && Post(m, t).Some?
    ensures var o, r := ApplySpan(t, span).span, Post(m, t).value;
            |o| == |span| &&
            forall i :: 0 <= i < |o| ==> o[i].id == span[i].id && o[i].id in r && o[i] == r[o[i].id]
  {
    ApplyMovesEach(t, span);
    DeltaMovesEach(m, t);
    DeltaShape(m, t);
    var o, r := ApplySpan(t, span).span, Post(m, t).value;
    assert r == m + Delta(m, t).value;
    hide ApplySpan, Delta, Post;
    forall i | 0 <= i < |o| ensures o[i].id == span[i].id && o[i].id in r && o[i] == r[o[i].id] {
      assert Moved(t, span[i]) == Ok(o[i]);
      MovedKeepsId(t, span[i]);
    }
  }

  lemma {:induction false} SavedBack(t: Transaction, span: seq<AccountState>, m: Table)
    requires WellKeyed(m) && Covers(span, m, t)
    requires ApplySpan(t, span).thrown.None? && Post(m, t).Some?
    ensures var o := ApplySpan(t, span).span;
            |o| == |span| && DistinctIds(o) && m + ToTable(o) == Post(m, t).value
  {
    hide ApplySpan, Post, Involved, ToTable;
    CopiesPosted(t, span, m);
    PostKeeps(m, t);
    var o, r := ApplySpan(t, span).span, Post(m, t).value;
    forall a | a in m && m[a] != r[a] ensures exists i :: 0 <= i < |o| && o[i].id == a {
      assert a in Involved(t);
      var i :| 0 <= i < |span| && span[i].id == a;
      assert o[i].id == a;
    }
    SaveGives(o, m, r);
  }

  lemma {:induction false} MovedKeepsId(t: Transaction, x: AccountState)
    ensures Moved(t, x).Ok? ==> Moved(t, x).value.id == x.id
  {
  }
}
