/**
 What a transaction is told, and when: the check of the reference is its first statement,
 a used reference ends it there, and any other refusal means that the reference had not
 been used when it was checked.  Also: rows are locked in ascending order of account ids.
 */
module WalletRefusal {
  import opened Prelude
  import opened WalletBooks
  import opened AccountOrder
  import opened WalletMachine
  import opened WalletSerial

  // ---------- a statement moves its own transaction only ----------

  ghost predicate OwnTxn(s: State, s': State, t: Tid) {
    && t in s.txns && t in s'.txns && s'.txns == s.txns[t := s'.txns[t]] && s'.txns[t].op == s.txns[t].op
  }

  lemma RollbackTxn(s: State, t: Tid)
    requires t in s.txns
    ensures OwnTxn(s, Rollback(s, t), t)
  {
  }

  lemma CheckReferenceTxn(s: State, t: Tid)
    requires t in s.txns
    ensures OwnTxn(s, CheckReference(s, t), t)
  {
  }

  lemma InsertRecipientTxn(s: State, t: Tid)
    requires t in s.txns
    ensures OwnTxn(s, InsertRecipient(s, t), t)
  {
  }

  lemma LockRowTxn(s: State, t: Tid)
    requires t in s.txns
    ensures OwnTxn(s, LockRow(s, t), t)
  {
    hide Visible, View;
  }

  lemma PayTxn(s: State, t: Tid)
    requires t in s.txns
    ensures OwnTxn(s, PaySource(s, t), t) && OwnTxn(s, PayTarget(s, t), t)
  {
    hide Get;
  }

  lemma LogTransferTxn(s: State, t: Tid)
    requires t in s.txns
    ensures OwnTxn(s, LogTransfer(s, t), t)
  {
    hide HasRef;
  }

  lemma CommitOwnTxn(s: State, t: Tid)
    requires t in s.txns
    ensures OwnTxn(s, CommitTxn(s, t), t)
  {
    hide Installed;
  }

  lemma AdvanceTxn(s: State, t: Tid)
    requires ActiveIn(s, t)
    ensures OwnTxn(s, Advance(s, t), t)
  {
    hide OwnTxn, CheckReference, InsertRecipient, LockRow, PaySource, PayTarget, LogTransfer, CommitTxn;
    match s.txns[t].pc
    case CheckRef => CheckReferenceTxn(s, t);
    case InsertRow => InsertRecipientTxn(s, t);
    case LockFirst => LockRowTxn(s, t);
    case LockSecond => LockRowTxn(s, t);
    case UpdateFrom => PayTxn(s, t);
    case UpdateTo => PayTxn(s, t);
    case InsertAudit => LogTransferTxn(s, t);
    case Commit => CommitOwnTxn(s, t);
  }

  /** A transaction keeps its operation, and moves only by its own steps. */
  lemma TxnStays(s: State, step: Step, u: Tid)
    requires Enabled(s, step) && u in s.txns
    ensures u in Do(s, step).txns && Do(s, step).txns[u].op == s.txns[u].op
    ensures u != step.t ==> Do(s, step).txns[u] == s.txns[u]
  {
    hide MustWait, Advance, Rollback;
    match step
    case Begin(_, _) =>
    case Statement(t) => AdvanceTxn(s, t);
    case Kill(t) => RollbackTxn(s, t);
  }

  // ---------- the first statement ----------

  /**
   A transaction that checks a reference which the log already has ends there: it waits for
   nothing, touches no table, holds no lock and no row, and its caller is told that the
   reference was already processed.  With an unused reference it goes on.
   */
  lemma FirstStatement(s: State, t: Tid)
    requires ActiveIn(s, t) && s.txns[t].pc.CheckRef?
    ensures Enabled(s, Statement(t))
    ensures var s' := Do(s, Statement(t));
      if exists k :: 0 <= k < |s.books.audit| && s.books.audit[k].ref == s.txns[t].op.ref then
        && EndsAborted(s', t) && NoTrace(s', t) && s'.books == s.books && s'.history == s.history
        && Reason(s, t) == AlreadyProcessed(s.txns[t].op.ref)
      else
        ActiveIn(s', t) && s'.txns[t].pc == (if s.txns[t].op.Debit? then LockFirst else InsertRow)
  {
  }

  /** At `i` the transaction executed its check, and the log did not have its reference. */
  ghost predicate PassedCheck(run: seq<State>, i: nat, t: Tid, op: Op) {
    && i + 1 < |run| && ActiveIn(run[i], t) && run[i].txns[t].pc.CheckRef? && run[i].txns[t].op == op
    && run[i + 1] == Do(run[i], Statement(t))
    && forall k :: 0 <= k < |run[i].books.audit| ==> run[i].books.audit[k].ref != op.ref
  }

  ghost predicate PastCheck(s: State, t: Tid) {
    ActiveIn(s, t) && !s.txns[t].pc.CheckRef?
  }

  /** A transaction that gets past the check in this step has just passed it. */
  lemma GetsPast(s: State, step: Step, t: Tid)
    requires Enabled(s, step) && PastCheck(Do(s, step), t) && !PastCheck(s, t)
    requires t in s.txns ==> ActiveIn(s, t)
    ensures ActiveIn(s, t) && s.txns[t].pc.CheckRef? && step == Statement(t) && !HasRef(s.books.audit, s.txns[t].op.ref)
  {
    if t in s.txns {
      TxnStays(s, step, t);
      hide MustWait, HasRef;
    } else {
      Arrives(s, step, t);
    }
  }

  /** A transaction begins before its check. */
  lemma Arrives(s: State, step: Step, t: Tid)
    requires Enabled(s, step) && t !in s.txns
    ensures !PastCheck(Do(s, step), t)
  {
    match step
    case Begin(_, _) =>
    case Statement(u) => AdvanceTxn(s, u); hide MustWait, Advance;
    case Kill(u) => RollbackTxn(s, u); hide MustWait, Rollback;
  }

  /** A transaction that has ended does not move. */
  lemma EndedStays(s: State, step: Step, t: Tid)
    requires Enabled(s, step) && t in s.txns && !s.txns[t].Active()
    ensures t in Do(s, step).txns && Do(s, step).txns[t] == s.txns[t]
  {
    TxnStays(s, step, t);
    hide Do, MustWait;
  }

  lemma OneStep(b: Books, run: seq<State>, i: nat) returns (step: Step)
    requires Run(b, run) && i + 1 < |run|
    ensures Enabled(run[i], step) && run[i + 1] == Do(run[i], step)
  {
    hide Enabled, Do;
    assert Next(run[i], run[i + 1]);
    step :| Enabled(run[i], step) && run[i + 1] == Do(run[i], step);
  }

  lemma {:induction false} CheckPassedBefore(b: Books, run: seq<State>, j: nat, t: Tid)
    requires Run(b, run) && j < |run| && PastCheck(run[j], t)
    ensures exists i :: 0 <= i < j && PassedCheck(run, i, t, run[j].txns[t].op)
  {
    assert j > 0;
    var s := run[j - 1];
    var step := OneStep(b, run, j - 1);
    if PastCheck(s, t) {
      TxnStays(s, step, t);
      hide Run, Enabled, Do, PassedCheck;
      CheckPassedBefore(b, run, j - 1, t);
    } else {
      if t in s.txns && !s.txns[t].Active() {
        EndedStays(s, step, t);
      } else {
        GetsPast(s, step, t);
        TxnStays(s, step, t);
        assert run[j - 1 + 1] == Do(run[j - 1], Statement(t));
        hide Run, Enabled, Do, Advance, MustWait;
        assert PassedCheck(run, j - 1, t, run[j].txns[t].op);
      }
    }
  }

  /**
   What a caller is told in a run: the refusal that the operation would meet alone on the
   committed books of that moment, or, when its reference was used since it was checked,
   a refusal that the operation would have met but for that; and whatever it is told but
   that the reference was already processed, the log did not have the reference when it
   was checked.
   */
  lemma RefusalInRun(b: Books, run: seq<State>, j: nat, t: Tid)
    requires Run(b, run) && j < |run| && ActiveIn(run[j], t) && EndsAborted(Advance(run[j], t), t)
    ensures var s, op := run[j], run[j].txns[t].op;
      && Apply(s.books, op) == Failure(if HasRef(s.books.audit, op.ref) then AlreadyProcessed(op.ref) else Reason(s, t))
      && (Reason(s, t) != AlreadyProcessed(op.ref) ==> exists i :: 0 <= i < j && PassedCheck(run, i, t, op))
  {
    RunInvariant(b, run, j);
    assert TxnOk(run[j], t);
    hide Run, TxnOk, Advance, Inv, Serial, HistoryOk, OwnersOk, PassedCheck, Apply;
    RefusalIsSerial(run[j], t);
    if Reason(run[j], t) != AlreadyProcessed(run[j].txns[t].op.ref) {
      CheckPassedBefore(b, run, j, t);
    }
  }

  // ---------- the order of the locks ----------

  /** The ids agree in their first `n` characters, and there the first one ends or has the smaller character. */
  predicate Before(a: string, b: string, n: nat) {
    n <= |a| && n < |b| && a[..n] == b[..n] && (n == |a| || a[n] < b[n])
  }

  /** The order is the one of the characters at the first place where two ids differ; a proper beginning comes first. */
  lemma {:induction false} LessIs(a: string, b: string)
    ensures Less(a, b) <==> exists n: nat :: Before(a, b, n)
    decreases a
  {
    if a != "" && b != "" && a[0] == b[0] {
      LessIs(a[1..], b[1..]);
      if Less(a[1..], b[1..]) {
        var n: nat :| Before(a[1..], b[1..], n);
        OneMore(a, b, n);
        assert Before(a, b, n + 1);
      }
      if m: nat :| Before(a, b, m) {
        assert m > 0;
        OneMore(a, b, m - 1);
        assert Before(a[1..], b[1..], m - 1);
      }
    } else if b != "" {
      assert a[..0] == b[..0];
      assert Less(a, b) ==> Before(a, b, 0);
      if m: nat :| Before(a, b, m) {
        assert m > 0 ==> a[..m][0] == b[..m][0];
      }
    }
  }

  lemma OneMore(a: string, b: string, n: nat)
    requires a != "" && b != "" && a[0] == b[0]
    ensures Before(a, b, n + 1) <==> Before(a[1..], b[1..], n)
  {
    if n < |a| && n < |b| {
      assert a[..n + 1] == [a[0]] + a[1..][..n] && b[..n + 1] == [b[0]] + b[1..][..n];
      assert a[1..][..n] == a[..n + 1][1..] && b[1..][..n] == b[..n + 1][1..];
    }
  }

  lemma LockedOneIsLess(s: State, t: Tid, a: Account)
    requires t in s.txns && TxnOk(s, t) && s.txns[t].pc.LockSecond? && a in s.txns[t].locks
    ensures var x := s.txns[t];
      && x.op.Transfer? && Less(a, x.Wanted())
      && ((a == x.op.from && x.Wanted() == x.op.to) || (a == x.op.to && x.Wanted() == x.op.from))
  {
    hide DraftsOk, SourceOk, RefOk, Less;
    assert HasLocked(s.txns[t], a);
    LessTotal(s.txns[t].op.from, s.txns[t].op.to);
  }

  /** A transaction that asks for its second row holds one lock, on an account with a smaller id. */
  lemma LocksAscend(b: Books, run: seq<State>, i: nat, t: Tid, a: Account)
    requires Run(b, run) && i < |run| && t in run[i].txns && run[i].txns[t].pc.LockSecond? && a in run[i].txns[t].locks
    ensures var x := run[i].txns[t];
      && x.op.Transfer? && Less(a, x.Wanted())
      && ((a == x.op.from && x.Wanted() == x.op.to) || (a == x.op.to && x.Wanted() == x.op.from))
  {
    RunInvariant(b, run, i);
    assert TxnOk(run[i], t);
    hide Run, Inv, Serial;
    LockedOneIsLess(run[i], t, a);
  }
}
