// src/domain: money, accounts, transactions, and the rules for applying one to
// a span of accounts.

module Domain {
  import opened Basics

  // ----- Money.h -----

  type Money = m: int | 0 <= m <= 0x7FFF_FFFF_FFFF_FFFF

  function Plus(a: Money, b: Money): Result<Money> {
    if b > INT64_MAX - a then Throw(OverflowError) else Ok(a + b)
  }

  function Minus(a: Money, b: Money): Result<Money> {
    if b > a then Throw(UnderflowError) else Ok(a - b)
  }

  // ----- Account.h -----

  datatype AccountStatus = Active | Frozen | Closed

  // The value of an account: what a repository stores and a load copies.
  datatype AccountState = AccountState(
    id: uint64, owner: uint64, balance: Money, status: AccountStatus, version: uint64)

  function Bumped(version: uint64): uint64 {
    (version + 1) % TWO_64
  }

  predicate CanWithdraw(a: AccountState, amount: Money) {
    a.status == Active && amount <= a.balance
  }

  function Deposited(a: AccountState, amount: Money): Result<AccountState> {
    if amount == 0 then Ok(a) else
    match Plus(a.balance, amount)
    case Ok(sum) => Ok(a.(balance := sum, version := Bumped(a.version)))
    case Throw(e) => Throw(e)
  }

  function Withdrawn(a: AccountState, amount: Money): Result<AccountState> {
    if a.status != Active then Throw(DomainError)
    else if amount > a.balance then Throw(DomainError)
    else match Minus(a.balance, amount)
    case Ok(rest) => Ok(a.(balance := rest, version := Bumped(a.version)))
    case Throw(e) => Throw(e)
  }

  class Account {
    const id: uint64
    const owner: uint64
    var balance: Money
    var status: AccountStatus
    var version: uint64

    constructor (state: AccountState)
      ensures View() == state
    {
      id, owner, balance, status, version :=
        state.id, state.owner, state.balance, state.status, state.version;
    }

    function View(): AccountState
      reads this
    {
      AccountState(id, owner, balance, status, version)
    }

    method Deposit(amount: Money) returns (thrown: Option<Exception>)
      modifies this
      ensures match Deposited(old(View()), amount)
              case Ok(a) => thrown == None && View() == a
              case Throw(e) => thrown == Some(e) && View() == old(View())
      ensures status == old(status)
      ensures thrown == if old(balance) + amount > INT64_MAX then Some(OverflowError) else None
      ensures balance == if thrown.None? then old(balance) + amount else old(balance)
      ensures version == if thrown.None? && amount > 0 then (old(version) + 1) % TWO_64 else old(version)
    {
      if amount == 0 { return None; }
      match Plus(balance, amount) {
        case Ok(sum) =>
          balance := sum;
          version := Bumped(version);
          thrown := None;
        case Throw(e) =>
          thrown := Some(e);
      }
    }

    method Withdraw(amount: Money) returns (thrown: Option<Exception>)
      modifies this
      ensures match Withdrawn(old(View()), amount)
              case Ok(a) => thrown == None && View() == a
              case Throw(e) => thrown == Some(e) && View() == old(View())
      ensures status == old(status)
      ensures thrown == if status == Active && amount <= old(balance) then None else Some(DomainError)
      ensures balance == if thrown.None? then old(balance) - amount else old(balance)
      ensures version == if thrown.None? then (old(version) + 1) % TWO_64 else old(version)
    {
      if status != Active { return Some(DomainError); }
      if amount > balance { return Some(DomainError); }
      match Minus(balance, amount) {
        case Ok(rest) =>
          balance := rest;
          version := Bumped(version);
          thrown := None;
        case Throw(e) =>
          thrown := Some(e);
      }
    }

    method SetStatus(newStatus: AccountStatus)
      modifies this
      ensures status == newStatus && balance == old(balance)
      ensures version == if old(status) == newStatus then old(version) else (old(version) + 1) % TWO_64
    {
      if status == newStatus { return; }
      status := newStatus;
      version := Bumped(version);
    }
  }

  // A deposit goes through exactly when it does not overflow. A withdrawal of the
  // same amount then goes through exactly when the account is active, and cancels
  // the deposit in everything but the version, which counts both; a deposit of
  // nothing is not counted.
  lemma {:induction false} DepositThenWithdraw(a: AccountState, amount: Money)
    ensures Deposited(a, amount).Ok? <==> a.balance + amount <= INT64_MAX
    ensures Deposited(a, amount).Ok? ==>
              Withdrawn(Deposited(a, amount).value, amount) ==
                if a.status != Active then Throw(DomainError)
                else Ok(a.(version := (a.version + if amount == 0 then 1 else 2) % TWO_64))
  {
    if Deposited(a, amount).Ok? && amount > 0 {
      var d := Deposited(a, amount).value;
      assert d.version == (a.version + 1) % TWO_64;
      assert Bumped(d.version) == (a.version + 2) % TWO_64;
    }
  }

  // ----- Transaction.h, TransactionOps.cpp -----

  datatype TransactionType = TDeposit | TWithdraw | TTransfer

  // The order of the constructors is the on-disk state number.
  datatype TransactionState =
    Pending | Validated | WalWritten | Applied | Committed | Failed | RolledBack

  datatype Transaction =
    | Deposit(account: uint64, amount: Money)
    | Withdraw(account: uint64, amount: Money)
    | Transfer(from: uint64, to: uint64, amount: Money)

  function TypeOf(t: Transaction): TransactionType {
    match t
    case Deposit(_, _) => TDeposit
    case Withdraw(_, _) => TWithdraw
    case Transfer(_, _, _) => TTransfer
  }

  function DebitAccount(t: Transaction): Option<uint64> {
    match t
    case Deposit(_, _) => None
    case Withdraw(a, _) => Some(a)
    case Transfer(from, _, _) => Some(from)
  }

  function CreditAccount(t: Transaction): Option<uint64> {
    match t
    case Deposit(a, _) => Some(a)
    case Withdraw(_, _) => None
    case Transfer(_, to, _) => Some(to)
  }

  // The accounts a transaction names, as a set.
  function Involved(t: Transaction): (s: set<uint64>) {
    (if DebitAccount(t).Some? then {DebitAccount(t).value} else {}) +
    (if CreditAccount(t).Some? then {CreditAccount(t).value} else {})
  }

  function PushUnique(ids: seq<uint64>, maybe: Option<uint64>): seq<uint64> {
    if maybe.Some? && maybe.value !in ids then ids + [maybe.value] else ids
  }

  function InvolvedAccounts(t: Transaction): seq<uint64> {
    PushUnique(PushUnique([], DebitAccount(t)), CreditAccount(t))
  }

  // std::sort on the at most two ids of a transaction.
  function Sorted(ids: seq<uint64>): seq<uint64>
    requires |ids| <= 2
  {
    if |ids| == 2 && ids[1] < ids[0] then [ids[1], ids[0]] else ids
  }

  // The order in which process_impl locks, loads and saves accounts.
  function LockOrder(t: Transaction): seq<uint64> {
    Sorted(InvolvedAccounts(t))
  }

  predicate StrictlyAscending(ids: seq<uint64>) {
    forall i, j :: 0 <= i < j < |ids| ==> ids[i] < ids[j]
  }

  // The accounts to lock are exactly those named, each once, in ascending order,
  // and there is always at least one, so the "names no accounts" exit is dead.
  lemma {:induction false} LockOrderSound(t: Transaction)
    ensures 1 <= |LockOrder(t)| <= 2
    ensures StrictlyAscending(LockOrder(t))
    ensures (set a | a in LockOrder(t)) == Involved(t)
  {
    var o := LockOrder(t);
    forall a ensures a in o <==> a in Involved(t) {
      if a in o { assert a == o[0] || a == o[|o| - 1]; }
      if a in Involved(t) { assert o[0] == a || o[|o| - 1] == a; }
    }
  }

  // find_account / require_account: the first position holding the id.
  function IndexOf(span: seq<AccountState>, id: uint64): (i: nat)
    ensures i <= |span|
    ensures i < |span| ==> span[i].id == id
    ensures forall j :: 0 <= j < i ==> span[j].id != id
  {
    FirstIndex(span, (a: AccountState) => a.id == id)
  }

  predicate Validate(t: Transaction, span: seq<AccountState>) {
    match t
    case Deposit(a, amount) =>
      var i := IndexOf(span, a);
      i < |span| && span[i].status == Active && amount > 0
    case Withdraw(a, amount) =>
      var i := IndexOf(span, a);
      i < |span| && amount > 0 && CanWithdraw(span[i], amount)
    case Transfer(from, to, amount) =>
      from != to && amount > 0 &&
      var i := IndexOf(span, from);
      var j := IndexOf(span, to);
      i < |span| && j < |span| &&
      span[i].status == Active && span[j].status == Active && amount <= span[i].balance
  }

  // The span after txn::apply and the exception it threw, if any. A transfer
  // whose credit overflows leaves the span with the debit already made.
  datatype Outcome = Outcome(span: seq<AccountState>, thrown: Option<Exception>)

  function Credit(span: seq<AccountState>, id: uint64, amount: Money): Outcome {
    var i := IndexOf(span, id);
    if i == |span| then Outcome(span, Some(OutOfRange)) else
    match Deposited(span[i], amount)
    case Ok(a) => Outcome(span[i := a], None)
    case Throw(e) => Outcome(span, Some(e))
  }

  function Debit(span: seq<AccountState>, id: uint64, amount: Money): Outcome {
    var i := IndexOf(span, id);
    if i == |span| then Outcome(span, Some(OutOfRange)) else
    match Withdrawn(span[i], amount)
    case Ok(a) => Outcome(span[i := a], None)
    case Throw(e) => Outcome(span, Some(e))
  }

  function ApplySpan(t: Transaction, span: seq<AccountState>): Outcome {
    if !Validate(t, span) then Outcome(span, Some(DomainError)) else
    match t
    case Deposit(a, amount) => Credit(span, a, amount)
    case Withdraw(a, amount) => Debit(span, a, amount)
    case Transfer(from, to, amount) =>
      var d := Debit(span, from, amount);
      if d.thrown.Some? then d else Credit(d.span, to, amount)
  }

  function Views(accounts: seq<Account>): (s: seq<AccountState>)
    reads accounts
    ensures |s| == |accounts|
    ensures forall i :: 0 <= i < |s| ==> s[i] == accounts[i].View()
  {
    if accounts == [] then [] else [accounts[0].View()] + Views(accounts[1..])
  }

  // The elements of a span are different objects.
  ghost predicate DistinctObjects(accounts: seq<Account>) {
    forall i, j :: 0 <= i < j < |accounts| ==> accounts[i] != accounts[j]
  }

  method FindAccount(accounts: seq<Account>, id: uint64) returns (i: nat)
    ensures i == IndexOf(Views(accounts), id)
  {
    i := 0;
    ghost var span := Views(accounts);
    while i < |accounts|
      invariant i <= |accounts|
      invariant forall j :: 0 <= j < i ==> span[j].id != id
    {
      if accounts[i].id == id {
        assert span[i].id == id;
        return;
      }
      i := i + 1;
    }
  }

  // txn::apply, mutating the accounts of the span one by one.
  method Apply(t: Transaction, accounts: seq<Account>) returns (thrown: Option<Exception>)
    requires DistinctObjects(accounts)
    modifies accounts
    ensures Outcome(Views(accounts), thrown) == ApplySpan(t, old(Views(accounts)))
  {
    if !Validate(t, Views(accounts)) { return Some(DomainError); }
    match t {
      case Deposit(a, amount) =>
        thrown := CreditOne(accounts, a, amount);
      case Withdraw(a, amount) =>
        thrown := DebitOne(accounts, a, amount);
      case Transfer(from, to, amount) =>
        thrown := DebitOne(accounts, from, amount);
        if thrown.None? {
          thrown := CreditOne(accounts, to, amount);
        }
    }
  }

  method CreditOne(accounts: seq<Account>, id: uint64, amount: Money) returns (thrown: Option<Exception>)
    requires DistinctObjects(accounts)
    modifies accounts
    ensures Outcome(Views(accounts), thrown) == Credit(old(Views(accounts)), id, amount)
  {
    var i := FindAccount(accounts, id);
    if i == |accounts| { return Some(OutOfRange); }
    thrown := accounts[i].Deposit(amount);
  }

  method DebitOne(accounts: seq<Account>, id: uint64, amount: Money) returns (thrown: Option<Exception>)
    requires DistinctObjects(accounts)
    modifies accounts
    ensures Outcome(Views(accounts), thrown) == Debit(old(Views(accounts)), id, amount)
  {
    var i := FindAccount(accounts, id);
    if i == |accounts| { return Some(OutOfRange); }
    thrown := accounts[i].Withdraw(amount);
  }

  // ----- Transaction.cpp -----

  // Timestamps are whole milliseconds since the epoch, as every store keeps them.
  datatype TransactionRecord = TransactionRecord(
    id: uint64, timestamp: int64, kind: TransactionType, state: TransactionState,
    from: Option<uint64>, to: Option<uint64>, amount: Money)

  function Project(id: uint64, t: Transaction, now: int64): TransactionRecord {
    TransactionRecord(id, now, TypeOf(t), Pending, DebitAccount(t), CreditAccount(t), t.amount)
  }

  function Materialize(r: TransactionRecord): Result<Transaction> {
    match r.kind
    case TDeposit =>
      if r.to.None? then Throw(InvalidArgument) else Ok(Deposit(r.to.value, r.amount))
    case TWithdraw =>
      if r.from.None? then Throw(InvalidArgument) else Ok(Withdraw(r.from.value, r.amount))
    case TTransfer =>
      if r.from.None? || r.to.None? then Throw(InvalidArgument)
      else Ok(Transfer(r.from.value, r.to.value, r.amount))
  }

  // A record materializes to exactly the transaction it was projected from; and a
  // record is a projection precisely when it materializes and has no spare leg.
  lemma {:induction false} MaterializeInvertsProject(id: uint64, t: Transaction, now: int64)
    ensures Materialize(Project(id, t, now)) == Ok(t)
  {
  }

  // Which leg is the credited one and which the debited; and a record lacking a
  // leg its type needs is an invalid argument.
  lemma {:induction false} ProjectLegs(id: uint64, t: Transaction, now: int64, r: TransactionRecord)
    ensures Project(id, t, now) ==
              match t
              case Deposit(a, amount) => TransactionRecord(id, now, TDeposit, Pending, None, Some(a), amount)
              case Withdraw(a, amount) => TransactionRecord(id, now, TWithdraw, Pending, Some(a), None, amount)
              case Transfer(a, b, amount) => TransactionRecord(id, now, TTransfer, Pending, Some(a), Some(b), amount)
    ensures Materialize(r) == Throw(InvalidArgument) <==>
              (r.kind != TWithdraw && r.to.None?) || (r.kind != TDeposit && r.from.None?)
    ensures Materialize(r).Throw? ==> Materialize(r) == Throw(InvalidArgument)
  {
  }

  lemma {:induction false} ProjectInvertsMaterialize(r: TransactionRecord)
    ensures (exists t :: Project(r.id, t, r.timestamp) == r.(state := Pending)) <==>
            (Materialize(r).Ok? &&
             (r.kind == TDeposit ==> r.from.None?) && (r.kind == TWithdraw ==> r.to.None?))
  {
    if Materialize(r).Ok? && (r.kind == TDeposit ==> r.from.None?) && (r.kind == TWithdraw ==> r.to.None?) {
      assert Project(r.id, Materialize(r).value, r.timestamp) == r.(state := Pending);
    }
  }
}
