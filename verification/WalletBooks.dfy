/**
 The wallet as a bookkeeper would describe it: balances in units of 10^-8, an
 audit log, and what one credit, debit or transfer does to both when it runs
 alone.  The interleaved transactions of WalletMachine are proved against it.
 */
module WalletBooks {
  import opened Prelude

  type Account = string
  type Ref = string

  datatype Op =
    | Credit(to: Account, amount: int, ref: Ref)
    | Debit(from: Account, amount: int, ref: Ref)
    | Transfer(from: Account, to: Account, amount: int, ref: Ref)
  {
    predicate HasSource() { Debit? || Transfer? }
    predicate HasTarget() { Credit? || Transfer? }
    predicate SameAccount() { Transfer? && from == to }

    /** The operation updates the row of this account. */
    predicate Touches(a: Account) { (HasTarget() && to == a) || (HasSource() && from == a) }

    function Touched(): set<Account> {
      (if HasTarget() then {to} else {}) + (if HasSource() then {from} else {})
    }

    /** What the operation adds to one account. */
    function Delta(a: Account): int {
      (if HasTarget() && to == a then amount else 0) - (if HasSource() && from == a then amount else 0)
    }

    function Row(): AuditRow {
      AuditRow(if HasSource() then Some(from) else None, if HasTarget() then Some(to) else None, amount, ref)
    }
  }

  datatype AuditRow = AuditRow(from: Option<Account>, to: Option<Account>, amount: int, ref: Ref)
  {
    function Delta(a: Account): int {
      (if to == Some(a) then amount else 0) - (if from == Some(a) then amount else 0)
    }
  }

  datatype Books = Books(accounts: map<Account, int>, audit: seq<AuditRow>)

  datatype Refusal =
    | SameAccount
    | AlreadyProcessed(ref: Ref)
    | NotFound(account: Account)
    | Insufficient(available: int)

  predicate HasRef(audit: seq<AuditRow>, ref: Ref) {
    exists i :: 0 <= i < |audit| && audit[i].ref == ref
  }

  predicate DistinctRefs(audit: seq<AuditRow>) {
    forall i, j :: 0 <= i < j < |audit| ==> audit[i].ref != audit[j].ref
  }

  /** Balances after the operation: every touched account moves by its delta, no other row changes. */
  function Moved(accounts: map<Account, int>, op: Op): map<Account, int> {
    map a | a in accounts.Keys + op.Touched() :: Get(accounts, a) + op.Delta(a)
  }

  /** One operation run alone. */
  function Apply(b: Books, op: Op): Result<Books, Refusal> {
    if op.SameAccount() then Failure(SameAccount)
    else if HasRef(b.audit, op.ref) then Failure(AlreadyProcessed(op.ref))
    else if op.HasSource() && op.from !in b.accounts then Failure(NotFound(op.from))
    else if op.HasSource() && b.accounts[op.from] < op.amount then Failure(Insufficient(b.accounts[op.from]))
    else Success(Books(Moved(b.accounts, op), b.audit + [op.Row()]))
  }

  /** Operations run one at a time, in order; it fails as soon as one is refused. */
  function Replay(b: Books, ops: seq<Op>): Result<Books, Refusal> {
    if ops == [] then Success(b)
    else
      match Replay(b, ops[..|ops| - 1])
      case Failure(e) => Failure(e)
      case Success(c) => Apply(c, ops[|ops| - 1])
  }

  lemma ReplayNext(b: Books, ops: seq<Op>, c: Books, op: Op, d: Books)
    requires Replay(b, ops) == Success(c) && Apply(c, op) == Success(d)
    ensures Replay(b, ops + [op]) == Success(d)
  {
    hide Apply;
    assert (ops + [op])[..|ops|] == ops;
  }

  /** The net amount that a list of audit rows moves into an account. */
  function Net(rows: seq<AuditRow>, a: Account): int {
    if rows == [] then 0 else Net(rows[..|rows| - 1], a) + rows[|rows| - 1].Delta(a)
  }

  /** Money entering or leaving the system: credits minus debits; transfers count for nothing. */
  function External(rows: seq<AuditRow>): int {
    if rows == [] then 0
    else
      var r := rows[|rows| - 1];
      External(rows[..|rows| - 1])
      + (if r.from.None? then r.amount else 0) - (if r.to.None? then r.amount else 0)
  }

  /** The gateway in front of the store admits positive amounts only. */
  predicate AllPositive(ops: seq<Op>) {
    forall i :: 0 <= i < |ops| ==> ops[i].amount > 0
  }

  predicate NoDebt(b: Books) {
    forall a :: a in b.accounts ==> b.accounts[a] >= 0
  }

  /** A transfer is a withdrawal followed by a deposit. */
  lemma TransferInTwo(accounts: map<Account, int>, op: Op)
    requires op.Transfer? && op.from != op.to
    ensures var mid := accounts[op.from := Get(accounts, op.from) - op.amount];
      Moved(accounts, op) == mid[op.to := Get(mid, op.to) + op.amount]
  {
    var mid := accounts[op.from := Get(accounts, op.from) - op.amount];
    var out := mid[op.to := Get(mid, op.to) + op.amount];
    var moved := Moved(accounts, op);
    assert moved.Keys == out.Keys;
    forall a | a in moved ensures moved[a] == out[a] {
    }
  }

  lemma OneAccountMoves(accounts: map<Account, int>, op: Op, a: Account)
    requires (op.Credit? && a == op.to) || (op.Debit? && a == op.from)
    ensures Moved(accounts, op) == accounts[a := Get(accounts, a) + op.Delta(a)]
  {
  }

  /** The total after one operation moves by the money it brings in or takes out. */
  lemma {:induction false} TotalMoved(accounts: map<Account, int>, op: Op)
    requires !op.SameAccount()
    ensures Total(Moved(accounts, op))
         == Total(accounts) + (if op.HasTarget() then op.amount else 0) - (if op.HasSource() then op.amount else 0)
  {
    if op.Transfer? {
      var mid := accounts[op.from := Get(accounts, op.from) - op.amount];
      TotalUpdate(accounts, op.from, Get(accounts, op.from) - op.amount);
      TotalUpdate(mid, op.to, Get(mid, op.to) + op.amount);
      TransferInTwo(accounts, op);
      hide Total, Moved;
    } else {
      var a := if op.Credit? then op.to else op.from;
      TotalUpdate(accounts, a, Get(accounts, a) + op.Delta(a));
      OneAccountMoves(accounts, op, a);
      hide Total, Moved;
    }
  }

  /** The log only grows, by one row per operation, in the order of the operations. */
  lemma {:induction false} AuditGrows(b: Books, ops: seq<Op>)
    requires Replay(b, ops).Success?
    ensures Replay(b, ops).value.audit == b.audit + seq(|ops|, i requires 0 <= i < |ops| => ops[i].Row())
  {
    if ops != [] {
      var n := |ops| - 1;
      AuditGrows(b, ops[..n]);
      assert seq(|ops|, i requires 0 <= i < |ops| => ops[i].Row())
          == seq(n, i requires 0 <= i < n => ops[..n][i].Row()) + [ops[n].Row()];
    }
  }

  /**
   The balance audit over a whole serial run: every balance is its seed plus the
   audited amounts into it minus those out of it, and the grand total moves by
   credits and debits alone, so transfers conserve it.
   */
  lemma {:induction false} BalanceAudit(b: Books, ops: seq<Op>)
    requires Replay(b, ops).Success?
    ensures var c := Replay(b, ops).value;
      && |b.audit| <= |c.audit|
      && (forall a :: Get(c.accounts, a) == Get(b.accounts, a) + Net(c.audit[|b.audit|..], a))
      && Total(c.accounts) == Total(b.accounts) + External(c.audit[|b.audit|..])
  {
    AuditGrows(b, ops);
    if ops == [] {
    } else {
      var rest, op := ops[..|ops| - 1], ops[|ops| - 1];
      BalanceAudit(b, rest);
      var m, c := Replay(b, rest).value, Replay(b, ops).value;
      assert c == Apply(m, op).value;
      var rows, was := c.audit[|b.audit|..], m.audit[|b.audit|..];
      assert rows == was + [op.Row()];
      AuditStep(m.accounts, op, was);
      assert rows[..|rows| - 1] == was;
    }
  }

  lemma AuditStep(accounts: map<Account, int>, op: Op, rows: seq<AuditRow>)
    requires !op.SameAccount()
    ensures Total(Moved(accounts, op)) - Total(accounts) == External(rows + [op.Row()]) - External(rows)
    ensures forall a :: Get(Moved(accounts, op), a) - Get(accounts, a) == Net(rows + [op.Row()], a) - Net(rows, a)
  {
    TotalMoved(accounts, op);
    assert (rows + [op.Row()])[..|rows|] == rows;
    forall a ensures Get(Moved(accounts, op), a) == Get(accounts, a) + op.Delta(a) {
    }
    assert forall a :: op.Row().Delta(a) == op.Delta(a);
  }

  /** Reference ids stay unique in the log. */
  lemma {:induction false} RefsStayDistinct(b: Books, ops: seq<Op>)
    requires Replay(b, ops).Success? && DistinctRefs(b.audit)
    ensures DistinctRefs(Replay(b, ops).value.audit)
  {
    if ops != [] {
      RefsStayDistinct(b, ops[..|ops| - 1]);
    }
  }

  /** With admitted amounts and seeds that are not in debt, no balance is ever negative. */
  lemma {:induction false} NeverInDebt(b: Books, ops: seq<Op>)
    requires Replay(b, ops).Success? && NoDebt(b) && AllPositive(ops)
    ensures NoDebt(Replay(b, ops).value)
  {
    if ops != [] {
      NeverInDebt(b, ops[..|ops| - 1]);
    }
  }

  /** How many log rows carry a reference id. */
  function RefCount(rows: seq<AuditRow>, ref: Ref): nat {
    if rows == [] then 0 else RefCount(rows[..|rows| - 1], ref) + if rows[|rows| - 1].ref == ref then 1 else 0
  }

  /** Distinct references: every id occurs at most once, and exactly once when it occurs. */
  lemma {:induction false} RefCountOfDistinct(rows: seq<AuditRow>, ref: Ref)
    requires DistinctRefs(rows)
    ensures RefCount(rows, ref) == if HasRef(rows, ref) then 1 else 0
  {
    if rows != [] {
      var front, last := rows[..|rows| - 1], rows[|rows| - 1];
      RefCountOfDistinct(front, ref);
      if HasRef(front, ref) {
        var i :| 0 <= i < |front| && front[i].ref == ref;
        assert rows[i].ref == ref;
      }
    }
  }

  // ---------- what a balance means ----------

  /** Some row of the log credits the account. */
  predicate Credited(rows: seq<AuditRow>, a: Account) {
    exists i :: 0 <= i < |rows| && rows[i].to == Some(a)
  }

  /** The wallet knows exactly the accounts it was seeded with and those that were ever credited. */
  lemma {:induction false} KnownAccounts(b: Books, ops: seq<Op>, a: Account)
    requires Replay(b, ops).Success?
    ensures var c := Replay(b, ops).value;
      |b.audit| <= |c.audit| && (a in c.accounts <==> a in b.accounts || Credited(c.audit[|b.audit|..], a))
  {
    AuditGrows(b, ops);
    if ops != [] {
      var rest, op := ops[..|ops| - 1], ops[|ops| - 1];
      KnownAccounts(b, rest, a);
      AuditGrows(b, rest);
      var m, c := Replay(b, rest).value, Replay(b, ops).value;
      assert c.audit[|b.audit|..] == m.audit[|b.audit|..] + [op.Row()];
      hide Replay;
      CreditedNext(m.audit[|b.audit|..], op.Row(), a);
      assert a in c.accounts <==> a in m.accounts || (op.HasTarget() && op.to == a);
    }
  }

  lemma CreditedNext(rows: seq<AuditRow>, row: AuditRow, a: Account)
    ensures Credited(rows + [row], a) <==> Credited(rows, a) || row.to == Some(a)
  {
    if Credited(rows, a) {
      var i :| 0 <= i < |rows| && rows[i].to == Some(a);
      assert (rows + [row])[i].to == Some(a);
    }
    assert (rows + [row])[|rows|] == row;
  }
}
