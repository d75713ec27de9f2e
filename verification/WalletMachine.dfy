/**
 The wallet store as interleaved database transactions at READ COMMITTED.

 Committed rows are in `books`.  An uncommitted row version sits in `drafts` under
 the transaction that wrote it, `rowLocks` and `refLocks` say who holds a row lock
 or an uncommitted entry of the unique index on reference ids, and each
 transaction is at one SQL statement of the store's code.
 */
module WalletMachine {
  import opened Prelude
  import opened WalletBooks
  import opened AccountOrder

  type Tid = nat

  /** The statement a transaction executes next. */
  datatype Pc =
    | CheckRef | InsertRow | LockFirst | LockSecond | UpdateFrom | UpdateTo | InsertAudit | Commit
    | Committed | Aborted

  /** `locks` is the code's local map of balances read under lock. */
  datatype Txn = Txn(op: Op, pc: Pc, locks: map<Account, int>)
  {
    predicate Active() { !pc.Committed? && !pc.Aborted? }

    /** The lower and the higher account id of a transfer; otherwise the only account. */
    function First(): Account {
      match op
      case Credit(to, _, _) => to
      case Debit(from, _, _) => from
      case Transfer(from, to, _, _) => if Less(to, from) then to else from
    }

    function Second(): Account {
      match op
      case Credit(to, _, _) => to
      case Debit(from, _, _) => from
      case Transfer(from, to, _, _) => if Less(to, from) then from else to
    }

    /** The row that the transaction asks to lock at its present statement. */
    function Wanted(): Account {
      if pc.LockFirst? then First() else Second()
    }
  }

  datatype Draft = Draft(owner: Tid, balance: int)

  datatype Done = Done(tid: Tid, op: Op)

  datatype State = State(
    books: Books,
    drafts: map<Account, Draft>,
    rowLocks: map<Account, Tid>,
    refLocks: map<Ref, Tid>,
    txns: map<Tid, Txn>,
    history: seq<Done>)  // committed transactions, in commit order

  predicate ActiveIn(s: State, t: Tid) {
    t in s.txns && s.txns[t].Active()
  }

  predicate OwnDraft(s: State, t: Tid, a: Account) {
    a in s.drafts && s.drafts[a].owner == t
  }

  /** READ COMMITTED: committed rows and one's own. */
  predicate Visible(s: State, t: Tid, a: Account) {
    a in s.books.accounts || OwnDraft(s, t, a)
  }

  function View(s: State, t: Tid, a: Account): int {
    if OwnDraft(s, t, a) then s.drafts[a].balance else Get(s.books.accounts, a)
  }

  // ---------- waiting ----------

  /** The transaction must wait: for an uncommitted insert of the same key, a row lock, or a reference id. */
  predicate MustWait(s: State, t: Tid)
    requires t in s.txns
  {
    var x := s.txns[t];
    match x.pc
    case InsertRow => x.op.HasTarget() && x.op.to !in s.books.accounts && x.op.to in s.drafts &&
      s.drafts[x.op.to].owner != t
    case LockFirst => Visible(s, t, x.Wanted()) && x.Wanted() in s.rowLocks && s.rowLocks[x.Wanted()] != t
    case LockSecond => Visible(s, t, x.Wanted()) && x.Wanted() in s.rowLocks && s.rowLocks[x.Wanted()] != t
    case InsertAudit => x.op.ref in s.refLocks && s.refLocks[x.op.ref] != t
    case _ => false
  }

  // ---------- statements ----------

  function Goto(s: State, t: Tid, pc: Pc): State
    requires t in s.txns
  {
    s.(txns := s.txns[t := s.txns[t].(pc := pc)])
  }

  /** Forget everything a transaction holds or has written, and end it. */
  function Release(s: State, t: Tid, pc: Pc): State
    requires t in s.txns
  {
    s.(drafts := map a | a in s.drafts && s.drafts[a].owner != t :: s.drafts[a],
       rowLocks := map a | a in s.rowLocks && s.rowLocks[a] != t :: s.rowLocks[a],
       refLocks := map r | r in s.refLocks && s.refLocks[r] != t :: s.refLocks[r],
       txns := s.txns[t := Txn(s.txns[t].op, pc, map[])])
  }

  function Rollback(s: State, t: Tid): State
    requires t in s.txns
  {
    Release(s, t, Aborted)
  }

  /** The committed accounts once the drafts of a transaction are installed. */
  function Installed(s: State, t: Tid): map<Account, int> {
    map a | a in s.books.accounts.Keys + s.drafts.Keys && Visible(s, t, a) :: View(s, t, a)
  }

  function CommitTxn(s: State, t: Tid): State
    requires t in s.txns
  {
    var op := s.txns[t].op;
    Release(s, t, Committed).(
      books := Books(Installed(s, t), s.books.audit + [op.Row()]),
      history := s.history + [Done(t, op)])
  }

  function LockRow(s: State, t: Tid): State
    requires t in s.txns
  {
    var x := s.txns[t];
    var a := x.Wanted();
    if !Visible(s, t, a) then Rollback(s, t)
    else
      var next :=
        if x.pc.LockFirst? && x.op.Transfer? then LockSecond
        else if x.op.HasSource() then UpdateFrom
        else UpdateTo;
      s.(rowLocks := s.rowLocks[a := t],
         txns := s.txns[t := Txn(x.op, next, x.locks[a := View(s, t, a)])])
  }

  function WriteRow(s: State, t: Tid, a: Account, balance: int, next: Pc): State
    requires t in s.txns
  {
    Goto(s.(drafts := s.drafts[a := Draft(t, balance)]), t, next)
  }

  function CheckReference(s: State, t: Tid): State
    requires t in s.txns
  {
    var x := s.txns[t];
    if HasRef(s.books.audit, x.op.ref) then Rollback(s, t)
    else Goto(s, t, if x.op.HasTarget() then InsertRow else LockFirst)
  }

  /** INSERT ... ON CONFLICT DO NOTHING of the recipient. */
  function InsertRecipient(s: State, t: Tid): State
    requires t in s.txns
  {
    var x := s.txns[t];
    if !x.op.HasTarget() || x.op.to in s.books.accounts then Goto(s, t, LockFirst)
    else WriteRow(s, t, x.op.to, 0, LockFirst)
  }

  function PaySource(s: State, t: Tid): State
    requires t in s.txns
  {
    var x := s.txns[t];
    if !x.op.HasSource() then s
    else if Get(x.locks, x.op.from) < x.op.amount then Rollback(s, t)
    else WriteRow(s, t, x.op.from, Get(x.locks, x.op.from) - x.op.amount, if x.op.Debit? then InsertAudit else UpdateTo)
  }

  function PayTarget(s: State, t: Tid): State
    requires t in s.txns
  {
    var x := s.txns[t];
    if !x.op.HasTarget() then s
    else WriteRow(s, t, x.op.to, Get(x.locks, x.op.to) + x.op.amount, InsertAudit)
  }

  /** The unique index refuses a committed duplicate. */
  function LogTransfer(s: State, t: Tid): State
    requires t in s.txns
  {
    var x := s.txns[t];
    if HasRef(s.books.audit, x.op.ref) then Rollback(s, t)
    else Goto(s.(refLocks := s.refLocks[x.op.ref := t]), t, Commit)
  }

  /** One statement of an active transaction that does not have to wait, with the Go code between it and the next. */
  function Advance(s: State, t: Tid): State
    requires ActiveIn(s, t)
  {
    match s.txns[t].pc
    case CheckRef => CheckReference(s, t)
    case InsertRow => InsertRecipient(s, t)
    case LockFirst => LockRow(s, t)
    case LockSecond => LockRow(s, t)
    case UpdateFrom => PaySource(s, t)
    case UpdateTo => PayTarget(s, t)
    case InsertAudit => LogTransfer(s, t)
    case Commit => CommitTxn(s, t)
    case Committed => s
    case Aborted => s
  }

  // ---------- runs ----------

  function Start(b: Books): State {
    State(b, map[], map[], map[], map[], [])
  }

  datatype Step =
    | Begin(t: Tid, op: Op)   // a transfer to the same account ends before it begins
    | Statement(t: Tid)
    | Kill(t: Tid)            // crash, lost connection, expired context or SQL error

  predicate Enabled(s: State, step: Step) {
    match step
    case Begin(t, _) => t !in s.txns
    case Statement(t) => ActiveIn(s, t) && !MustWait(s, t)
    case Kill(t) => ActiveIn(s, t)
  }

  function Do(s: State, step: Step): State
    requires Enabled(s, step)
  {
    match step
    case Begin(t, op) => s.(txns := s.txns[t := Txn(op, if op.SameAccount() then Aborted else CheckRef, map[])])
    case Statement(t) => Advance(s, t)
    case Kill(t) => Rollback(s, t)
  }

  ghost predicate Next(s: State, s': State) {
    exists step :: Enabled(s, step) && s' == Do(s, step)
  }

  ghost predicate Run(b: Books, run: seq<State>) {
    && run != []
    && run[0] == Start(b)
    && forall i :: 0 <= i < |run| - 1 ==> Next(run[i], run[i + 1])
  }
}
