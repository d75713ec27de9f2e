/**
 Serializability: whatever the interleaving, the committed rows and the audit log
 are those of the committed transactions run one at a time in commit order, and a
 transaction that ended otherwise has left nothing behind.
 */
module WalletSerial {
  import opened Prelude
  import opened WalletBooks
  import opened WalletMachine

  // ---------- what one transaction knows at each statement ----------

  ghost predicate Paying(pc: Pc) {
    pc.UpdateTo? || pc.InsertAudit? || pc.Commit?
  }

  /** The transaction has locked this row. */
  ghost predicate HasLocked(x: Txn, a: Account) {
    if x.pc.UpdateFrom? || Paying(x.pc) then x.op.Touches(a)
    else x.pc.LockSecond? && a == x.First()
  }

  /** The transaction has written this row's new balance. */
  ghost predicate HasUpdated(x: Txn, a: Account) {
    if x.pc.UpdateTo? then x.op.HasSource() && a == x.op.from
    else (x.pc.InsertAudit? || x.pc.Commit?) && x.op.Touches(a)
  }

  ghost predicate PcFits(x: Txn) {
    && (x.Active() ==> !x.op.SameAccount())
    && (x.pc.LockSecond? ==> x.op.Transfer?)
    && (x.pc.InsertRow? || x.pc.UpdateTo? ==> x.op.HasTarget())
    && (x.pc.UpdateFrom? ==> x.op.HasSource())
  }

  ghost predicate LocksOk(s: State, t: Tid)
    requires t in s.txns
  {
    var x := s.txns[t];
    && (forall a :: HasLocked(x, a) ==> a in x.locks)
    && (forall a :: a in x.locks ==>
      && HasLocked(x, a) && a in s.rowLocks && s.rowLocks[a] == t
      && Visible(s, t, a) && x.locks[a] == Get(s.books.accounts, a))
  }

  ghost predicate DraftsOk(s: State, t: Tid)
    requires t in s.txns
  {
    var x := s.txns[t];
    && (forall a :: OwnDraft(s, t, a) ==>
      && x.Active() && !x.pc.CheckRef? && !x.pc.InsertRow?
      && (if HasUpdated(x, a) then s.drafts[a].balance == Get(s.books.accounts, a) + x.op.Delta(a)
          else a !in s.books.accounts && s.drafts[a].balance == 0)
      && (if a in s.books.accounts then a in x.locks else x.op.HasTarget() && a == x.op.to))
    && (forall a :: HasUpdated(x, a) ==> OwnDraft(s, t, a))
  }

  ghost predicate SourceOk(s: State, t: Tid)
    requires t in s.txns
  {
    var x := s.txns[t];
    && (x.op.HasTarget() && x.Active() && !x.pc.CheckRef? && !x.pc.InsertRow? ==> Visible(s, t, x.op.to))
    && (x.op.HasSource() && Paying(x.pc) ==>
          x.op.from in s.books.accounts && s.books.accounts[x.op.from] >= x.op.amount)
  }

  ghost predicate RefOk(s: State, t: Tid)
    requires t in s.txns
  {
    var x := s.txns[t];
    x.pc.Commit? ==> x.op.ref in s.refLocks && s.refLocks[x.op.ref] == t && !HasRef(s.books.audit, x.op.ref)
  }

  ghost predicate TxnOk(s: State, t: Tid)
    requires t in s.txns
  {
    PcFits(s.txns[t]) && LocksOk(s, t) && DraftsOk(s, t) && SourceOk(s, t) && RefOk(s, t)
  }

  // ---------- the tables as a whole ----------

  ghost predicate OwnersOk(s: State) {
    && (forall a :: a in s.rowLocks ==> s.rowLocks[a] in s.txns && a in s.txns[s.rowLocks[a]].locks)
    && (forall a :: a in s.drafts ==> s.drafts[a].owner in s.txns)
    && (forall r :: r in s.refLocks ==>
          s.refLocks[r] in s.txns && s.txns[s.refLocks[r]].pc.Commit? && s.txns[s.refLocks[r]].op.ref == r)
  }

  ghost predicate HistoryOk(s: State) {
    && (forall i :: 0 <= i < |s.history| ==>
          && s.history[i].tid in s.txns
          && s.txns[s.history[i].tid].pc.Committed? && s.txns[s.history[i].tid].op == s.history[i].op)
    && (forall i, j :: 0 <= i < j < |s.history| ==> s.history[i].tid != s.history[j].tid)
    && (forall t :: t in s.txns && s.txns[t].pc.Committed? ==>
         exists i :: 0 <= i < |s.history| && s.history[i].tid == t)
  }

  ghost predicate Inv(s: State) {
    && OwnersOk(s)
    && HistoryOk(s)
    && forall t :: t in s.txns ==> TxnOk(s, t)
  }

  ghost function Ops(history: seq<Done>): seq<Op> {
    seq(|history|, i requires 0 <= i < |history| => history[i].op)
  }

  // ---------- one transaction's step leaves the others alone ----------

  /** From `s` to `s'` only entries owned by transaction `t` came, changed or went. */
  ghost predicate OnlyMoves(s: State, s': State, t: Tid) {
    && (forall u :: u in s.txns && u != t ==> u in s'.txns && s'.txns[u] == s.txns[u])
    && (forall a :: a in s.drafts && s.drafts[a].owner != t ==> a in s'.drafts && s'.drafts[a] == s.drafts[a])
    && (forall a :: a in s'.drafts && s'.drafts[a].owner != t ==> a in s.drafts && s'.drafts[a] == s.drafts[a])
    && (forall a :: a in s.rowLocks && s.rowLocks[a] != t ==> a in s'.rowLocks && s'.rowLocks[a] == s.rowLocks[a])
    && (forall r :: r in s.refLocks && s.refLocks[r] != t ==> r in s'.refLocks && s'.refLocks[r] == s.refLocks[r])
    && (forall a :: a in s.books.accounts ==> a in s'.books.accounts)
    && (forall a :: a in s'.books.accounts && !OwnDraft(s, t, a) ==>
          a in s.books.accounts && s'.books.accounts[a] == s.books.accounts[a])
    && (s'.books.audit == s.books.audit
        || (t in s.txns && s.txns[t].pc.Commit? && s'.books.audit == s.books.audit + [s.txns[t].op.Row()]))
  }

  lemma LockedElsewhere(s: State, t: Tid, u: Tid, a: Account)
    requires Inv(s) && u in s.txns && u != t && a in s.txns[u].locks
    ensures !OwnDraft(s, t, a)
  {
    assert TxnOk(s, u);
    assert t in s.txns ==> TxnOk(s, t);
  }

  lemma LocksUnmoved(s: State, s': State, t: Tid, u: Tid)
    requires Inv(s) && OnlyMoves(s, s', t) && u in s.txns && u != t
    ensures LocksOk(s', u)
  {
    assert TxnOk(s, u);
    forall a | a in s.txns[u].locks ensures !OwnDraft(s, t, a) {
      LockedElsewhere(s, t, u, a);
    }
  }

  lemma DraftsUnmoved(s: State, s': State, t: Tid, u: Tid)
    requires Inv(s) && OnlyMoves(s, s', t) && u in s.txns && u != t
    ensures DraftsOk(s', u)
  {
    assert TxnOk(s, u);
    forall a ensures OwnDraft(s, u, a) <==> OwnDraft(s', u, a) {
    }
    forall a | OwnDraft(s, u, a) ensures !OwnDraft(s, t, a) {
    }
    forall a | OwnDraft(s', u, a) ensures s'.drafts[a] == s.drafts[a] && OwnDraft(s, u, a) {
    }
  }

  lemma SourceUnmoved(s: State, s': State, t: Tid, u: Tid)
    requires Inv(s) && OnlyMoves(s, s', t) && u in s.txns && u != t
    ensures SourceOk(s', u)
  {
    var x := s.txns[u];
    assert TxnOk(s, u);
    if x.op.HasSource() && Paying(x.pc) {
      assert x.op.from in x.locks;
      LockedElsewhere(s, t, u, x.op.from);
    }
    assert forall a :: Visible(s, u, a) ==> Visible(s', u, a);
  }

  lemma HasRefAppend(audit: seq<AuditRow>, row: AuditRow, ref: Ref)
    ensures HasRef(audit + [row], ref) <==> HasRef(audit, ref) || row.ref == ref
  {
    if HasRef(audit, ref) {
      var i :| 0 <= i < |audit| && audit[i].ref == ref;
      assert (audit + [row])[i].ref == ref;
    }
    assert (audit + [row])[|audit|] == row;
  }

  lemma RefUnmoved(s: State, s': State, t: Tid, u: Tid)
    requires OnlyMoves(s, s', t) && u in s.txns && u != t && RefOk(s, u) && (t in s.txns ==> RefOk(s, t))
    ensures RefOk(s', u)
  {
    if s'.books.audit != s.books.audit {
      HasRefAppend(s.books.audit, s.txns[t].op.Row(), s.txns[u].op.ref);
    }
  }

  lemma OthersUnmoved(s: State, s': State, t: Tid)
    requires Inv(s) && OnlyMoves(s, s', t)
    ensures forall u :: u in s.txns && u != t ==> TxnOk(s', u)
  {
    forall u | u in s.txns && u != t ensures TxnOk(s', u) {
      assert TxnOk(s, u) && (t in s.txns ==> TxnOk(s, t));
      LocksUnmoved(s, s', t, u);
      DraftsUnmoved(s, s', t, u);
      SourceUnmoved(s, s', t, u);
      RefUnmoved(s, s', t, u);
    }
  }

  // ---------- every step keeps the invariant ----------

  /** What remains to be shown of a step that does not commit. */
  ghost predicate OwnEntriesOk(s: State, s': State, t: Tid) {
    && t in s'.txns && s'.txns.Keys == s.txns.Keys + {t} && s'.history == s.history
    && !s'.txns[t].pc.Committed? && (t in s.txns ==> s.txns[t].Active() && s'.txns[t].op == s.txns[t].op)
    && (forall a :: a in s'.rowLocks ==>
          if s'.rowLocks[a] == t then a in s'.txns[t].locks else a in s.rowLocks && s.rowLocks[a] == s'.rowLocks[a])
    && (forall r :: r in s'.refLocks ==>
          if s'.refLocks[r] == t then s'.txns[t].pc.Commit? && s'.txns[t].op.ref == r
          else r in s.refLocks && s.refLocks[r] == s'.refLocks[r])
  }

  lemma OwnersRebuilt(s: State, s': State, t: Tid)
    requires OwnersOk(s) && OnlyMoves(s, s', t) && OwnEntriesOk(s, s', t)
    ensures OwnersOk(s')
  {
  }

  lemma HistoryRebuilt(s: State, s': State, t: Tid)
    requires HistoryOk(s) && OnlyMoves(s, s', t) && OwnEntriesOk(s, s', t)
    ensures HistoryOk(s')
  {
  }

  ghost predicate OwnStep(s: State, s': State, t: Tid) {
    OnlyMoves(s, s', t) && OwnEntriesOk(s, s', t) && TxnOk(s', t)
  }

  lemma Rebuild(s: State, s': State, t: Tid)
    requires Inv(s) && OwnStep(s, s', t)
    ensures Inv(s')
  {
    OthersUnmoved(s, s', t);
    OwnersRebuilt(s, s', t);
    HistoryRebuilt(s, s', t);
  }

  lemma BeginOwn(s: State, t: Tid, op: Op)
    requires OwnersOk(s) && t !in s.txns
    ensures OwnStep(s, Do(s, Begin(t, op)), t)
  {
  }

  lemma RollbackOwn(s: State, t: Tid)
    requires ActiveIn(s, t)
    ensures OwnStep(s, Rollback(s, t), t)
  {
  }

  lemma WriteRowMoves(s: State, t: Tid, a: Account, balance: int, next: Pc)
    requires ActiveIn(s, t) && OwnersOk(s) && !s.txns[t].pc.Commit? && !next.Committed?
    requires a in s.drafts ==> s.drafts[a].owner == t
    ensures OnlyMoves(s, WriteRow(s, t, a, balance, next), t)
    ensures OwnEntriesOk(s, WriteRow(s, t, a, balance, next), t)
  {
  }

  lemma GotoMoves(s: State, t: Tid, next: Pc)
    requires ActiveIn(s, t) && OwnersOk(s) && !s.txns[t].pc.Commit? && !next.Committed?
    ensures OnlyMoves(s, Goto(s, t, next), t) && OwnEntriesOk(s, Goto(s, t, next), t)
  {
  }

  lemma GotoTxnOk(s: State, t: Tid, next: Pc)
    requires t in s.txns && TxnOk(s, t) && s.txns[t].Active()
    requires var x := s.txns[t];
      || (x.pc.CheckRef? && next == if x.op.HasTarget() then InsertRow else LockFirst)
      || (x.pc.InsertRow? && next == LockFirst && Visible(s, t, x.op.to))
    ensures TxnOk(Goto(s, t, next), t)
  {
  }

  lemma InsertTxnOk(s: State, t: Tid)
    requires t in s.txns && TxnOk(s, t) && s.txns[t].pc.InsertRow? && s.txns[t].op.to !in s.books.accounts
    ensures TxnOk(WriteRow(s, t, s.txns[t].op.to, 0, LockFirst), t)
  {
  }

  lemma LockLocksOk(s: State, t: Tid)
    requires t in s.txns && TxnOk(s, t) && (s.txns[t].pc.LockFirst? || s.txns[t].pc.LockSecond?)
    requires Visible(s, t, s.txns[t].Wanted())
    ensures LocksOk(LockRow(s, t), t)
  {
    var x, s' := s.txns[t], LockRow(s, t);
    assert View(s, t, x.Wanted()) == Get(s.books.accounts, x.Wanted());
    assert forall a :: Visible(s', t, a) <==> Visible(s, t, a);
    assert forall a :: HasLocked(s'.txns[t], a) <==> HasLocked(x, a) || a == x.Wanted();
  }

  lemma LockTxnOk(s: State, t: Tid)
    requires t in s.txns && TxnOk(s, t) && (s.txns[t].pc.LockFirst? || s.txns[t].pc.LockSecond?)
    requires Visible(s, t, s.txns[t].Wanted())
    ensures TxnOk(LockRow(s, t), t)
  {
    LockLocksOk(s, t);
    var x, s' := s.txns[t], LockRow(s, t);
    assert forall a :: HasUpdated(x, a) <==> HasUpdated(s'.txns[t], a);
    assert s'.drafts == s.drafts && s'.books == s.books;
    assert DraftsOk(s', t);
  }

  /** Writing one more of the operation's new balances. */
  lemma WriteDraftsOk(s: State, t: Tid, a: Account, balance: int, next: Pc)
    requires t in s.txns && DraftsOk(s, t) && s.txns[t].op.Touches(a)
    requires next.UpdateTo? || next.InsertAudit?
    requires forall k :: HasUpdated(s.txns[t].(pc := next), k) <==> HasUpdated(s.txns[t], k) || k == a
    requires balance == Get(s.books.accounts, a) + s.txns[t].op.Delta(a)
    requires if a in s.books.accounts then a in s.txns[t].locks else OwnDraft(s, t, a)
    ensures t in WriteRow(s, t, a, balance, next).txns && DraftsOk(WriteRow(s, t, a, balance, next), t)
  {
    var s' := WriteRow(s, t, a, balance, next);
    assert s'.txns[t] == s.txns[t].(pc := next) && s'.books == s.books && s'.drafts == s.drafts[a := Draft(t, balance)];
    hide WriteRow, HasUpdated;
  }

  lemma PaySourceLocksOk(s: State, t: Tid)
    requires t in s.txns && TxnOk(s, t) && s.txns[t].pc.UpdateFrom?
    requires Get(s.txns[t].locks, s.txns[t].op.from) >= s.txns[t].op.amount
    ensures t in PaySource(s, t).txns && LocksOk(PaySource(s, t), t)
  {
    hide DraftsOk, SourceOk, RefOk;
  }

  /** What the transaction knows of its source under lock. */
  lemma SourceIsLocked(s: State, t: Tid)
    requires t in s.txns && TxnOk(s, t) && s.txns[t].pc.UpdateFrom?
    ensures var x := s.txns[t];
      && !x.op.Credit? && (x.op.Transfer? ==> x.op.from != x.op.to)
      && x.op.from in x.locks && x.locks[x.op.from] == Get(s.books.accounts, x.op.from)
      && Visible(s, t, x.op.from) && DraftsOk(s, t)
  {
    assert HasLocked(s.txns[t], s.txns[t].op.from);
    assert PcFits(s.txns[t]) && LocksOk(s, t);
    hide DraftsOk, SourceOk, RefOk;
  }

  lemma SourceUpdates(x: Txn, k: Account)
    requires x.pc.UpdateFrom? && !x.op.Credit?
    ensures HasUpdated(x.(pc := if x.op.Debit? then InsertAudit else UpdateTo), k) <==>
      HasUpdated(x, k) || k == x.op.from
  {
  }

  lemma SourceDelta(op: Op)
    requires !op.Credit? && (op.Transfer? ==> op.from != op.to)
    ensures op.Touches(op.from) && op.Delta(op.from) == -op.amount
  {
  }

  lemma PaySourceDraftsOk(s: State, t: Tid)
    requires t in s.txns && TxnOk(s, t) && s.txns[t].pc.UpdateFrom?
    requires Get(s.txns[t].locks, s.txns[t].op.from) >= s.txns[t].op.amount
    ensures t in PaySource(s, t).txns && DraftsOk(PaySource(s, t), t)
  {
    var x := s.txns[t];
    var next := if x.op.Debit? then InsertAudit else UpdateTo;
    SourceIsLocked(s, t);
    PaySourceIs(s, t);
    SourceDelta(x.op);
    hide TxnOk, PaySource, WriteRow, HasUpdated, DraftsOk, Rollback, x.op.Delta, x.op.Touches;
    forall k ensures HasUpdated(x.(pc := next), k) <==> HasUpdated(x, k) || k == x.op.from {
      SourceUpdates(x, k);
    }
    WriteDraftsOk(s, t, x.op.from, Get(x.locks, x.op.from) - x.op.amount, next);
  }

  lemma PaySourceRestOk(s: State, t: Tid)
    requires t in s.txns && TxnOk(s, t) && s.txns[t].pc.UpdateFrom?
    requires Get(s.txns[t].locks, s.txns[t].op.from) >= s.txns[t].op.amount
    ensures t in PaySource(s, t).txns && PcFits(PaySource(s, t).txns[t])
    ensures SourceOk(PaySource(s, t), t) && RefOk(PaySource(s, t), t)
  {
  }

  lemma PaySourceTxnOk(s: State, t: Tid)
    requires t in s.txns && TxnOk(s, t) && s.txns[t].pc.UpdateFrom?
    requires Get(s.txns[t].locks, s.txns[t].op.from) >= s.txns[t].op.amount
    ensures TxnOk(PaySource(s, t), t)
  {
    PaySourceLocksOk(s, t);
    PaySourceDraftsOk(s, t);
    PaySourceRestOk(s, t);
    hide LocksOk, DraftsOk, SourceOk, RefOk, PcFits, PaySource;
  }

  lemma PayTargetLocksOk(s: State, t: Tid)
    requires t in s.txns && TxnOk(s, t) && s.txns[t].pc.UpdateTo?
    ensures t in PayTarget(s, t).txns && LocksOk(PayTarget(s, t), t)
  {
    hide DraftsOk, SourceOk, RefOk;
  }

  lemma PayTargetDraftsOk(s: State, t: Tid)
    requires t in s.txns && TxnOk(s, t) && s.txns[t].pc.UpdateTo?
    ensures t in PayTarget(s, t).txns && DraftsOk(PayTarget(s, t), t)
  {
    var x := s.txns[t];
    assert forall k :: HasUpdated(x.(pc := InsertAudit), k) <==> HasUpdated(x, k) || k == x.op.to;
    assert HasLocked(x, x.op.to) && PcFits(x) && LocksOk(s, t) && DraftsOk(s, t);
    assert PayTarget(s, t) == WriteRow(s, t, x.op.to, Get(x.locks, x.op.to) + x.op.amount, InsertAudit);
    hide TxnOk, PayTarget, WriteRow, HasUpdated, SourceOk, RefOk;
    WriteDraftsOk(s, t, x.op.to, Get(x.locks, x.op.to) + x.op.amount, InsertAudit);
  }

  lemma PayTargetRestOk(s: State, t: Tid)
    requires t in s.txns && TxnOk(s, t) && s.txns[t].pc.UpdateTo?
    ensures t in PayTarget(s, t).txns && PcFits(PayTarget(s, t).txns[t])
    ensures SourceOk(PayTarget(s, t), t) && RefOk(PayTarget(s, t), t)
  {
    hide DraftsOk;
  }

  lemma PayTargetTxnOk(s: State, t: Tid)
    requires t in s.txns && TxnOk(s, t) && s.txns[t].pc.UpdateTo?
    ensures TxnOk(PayTarget(s, t), t)
  {
    PayTargetLocksOk(s, t);
    PayTargetDraftsOk(s, t);
    PayTargetRestOk(s, t);
    hide LocksOk, DraftsOk, SourceOk, RefOk, PcFits, PayTarget;
  }

  lemma LogLocksOk(s: State, t: Tid)
    requires t in s.txns && TxnOk(s, t) && s.txns[t].pc.InsertAudit? && !HasRef(s.books.audit, s.txns[t].op.ref)
    ensures t in LogTransfer(s, t).txns && LocksOk(LogTransfer(s, t), t)
  {
    hide DraftsOk, SourceOk, RefOk;
  }

  lemma LogDraftsOk(s: State, t: Tid)
    requires t in s.txns && TxnOk(s, t) && s.txns[t].pc.InsertAudit? && !HasRef(s.books.audit, s.txns[t].op.ref)
    ensures t in LogTransfer(s, t).txns && DraftsOk(LogTransfer(s, t), t)
  {
    var x, s' := s.txns[t], LogTransfer(s, t);
    assert forall k :: HasUpdated(s'.txns[t], k) <==> HasUpdated(x, k);
    assert s'.drafts == s.drafts && s'.books == s.books && s'.txns[t].locks == x.locks && s'.txns[t].op == x.op;
    hide LogTransfer, LocksOk, SourceOk, RefOk, HasUpdated;
  }

  lemma LogRestOk(s: State, t: Tid)
    requires t in s.txns && TxnOk(s, t) && s.txns[t].pc.InsertAudit? && !HasRef(s.books.audit, s.txns[t].op.ref)
    ensures t in LogTransfer(s, t).txns && PcFits(LogTransfer(s, t).txns[t])
    ensures SourceOk(LogTransfer(s, t), t) && RefOk(LogTransfer(s, t), t)
  {
    hide DraftsOk;
  }

  lemma LogTxnOk(s: State, t: Tid)
    requires t in s.txns && TxnOk(s, t) && s.txns[t].pc.InsertAudit? && !HasRef(s.books.audit, s.txns[t].op.ref)
    ensures TxnOk(LogTransfer(s, t), t)
  {
    LogLocksOk(s, t);
    LogDraftsOk(s, t);
    LogRestOk(s, t);
    hide LocksOk, DraftsOk, SourceOk, RefOk, PcFits, LogTransfer;
  }

  lemma CheckReferenceOwn(s: State, t: Tid)
    requires OwnersOk(s) && t in s.txns && TxnOk(s, t) && s.txns[t].pc.CheckRef?
    ensures OwnStep(s, CheckReference(s, t), t)
  {
    var x := s.txns[t];
    if HasRef(s.books.audit, x.op.ref) {
      RollbackOwn(s, t);
    } else {
      GotoTxnOk(s, t, if x.op.HasTarget() then InsertRow else LockFirst);
      GotoMoves(s, t, if x.op.HasTarget() then InsertRow else LockFirst);
    }
  }

  lemma InsertRecipientOwn(s: State, t: Tid)
    requires OwnersOk(s) && t in s.txns && TxnOk(s, t) && s.txns[t].pc.InsertRow? && !MustWait(s, t)
    ensures OwnStep(s, InsertRecipient(s, t), t)
  {
    var x := s.txns[t];
    if x.op.to in s.books.accounts {
      GotoTxnOk(s, t, LockFirst);
      GotoMoves(s, t, LockFirst);
    } else {
      InsertTxnOk(s, t);
      WriteRowMoves(s, t, x.op.to, 0, LockFirst);
    }
  }

  lemma LockRowMoves(s: State, t: Tid)
    requires OwnersOk(s) && ActiveIn(s, t)
    requires (s.txns[t].pc.LockFirst? || s.txns[t].pc.LockSecond?) && !MustWait(s, t)
    requires Visible(s, t, s.txns[t].Wanted())
    ensures OnlyMoves(s, LockRow(s, t), t) && OwnEntriesOk(s, LockRow(s, t), t)
  {
  }

  lemma LockRowOwn(s: State, t: Tid)
    requires OwnersOk(s) && t in s.txns && TxnOk(s, t)
    requires (s.txns[t].pc.LockFirst? || s.txns[t].pc.LockSecond?) && !MustWait(s, t)
    ensures OwnStep(s, LockRow(s, t), t)
  {
    if !Visible(s, t, s.txns[t].Wanted()) {
      RollbackOwn(s, t);
    } else {
      LockTxnOk(s, t);
      LockRowMoves(s, t);
    }
  }

  /** A row that the transaction has locked carries no other transaction's draft. */
  lemma LockedDraftIsOwn(s: State, t: Tid, a: Account)
    requires Inv(s) && t in s.txns && a in s.txns[t].locks && a in s.drafts
    ensures s.drafts[a].owner == t
  {
    assert TxnOk(s, t) && TxnOk(s, s.drafts[a].owner);
  }

  lemma WriteRowOwn(s: State, t: Tid, a: Account, balance: int, next: Pc)
    requires ActiveIn(s, t) && OwnersOk(s) && !s.txns[t].pc.Commit? && !next.Committed?
    requires a in s.drafts ==> s.drafts[a].owner == t
    requires TxnOk(WriteRow(s, t, a, balance, next), t)
    ensures OwnStep(s, WriteRow(s, t, a, balance, next), t)
  {
    WriteRowMoves(s, t, a, balance, next);
    hide OnlyMoves, OwnEntriesOk, TxnOk, WriteRow, OwnersOk;
  }

  /** The updates are reached only by operations that have the account in question. */
  lemma EndsAreThere(s: State, t: Tid)
    requires t in s.txns && TxnOk(s, t)
    ensures s.txns[t].pc.UpdateFrom? ==> !s.txns[t].op.Credit?
    ensures s.txns[t].pc.UpdateTo? ==> !s.txns[t].op.Debit?
  {
  }

  lemma PaySourceIs(s: State, t: Tid)
    requires t in s.txns && s.txns[t].pc.UpdateFrom? && !s.txns[t].op.Credit?
    ensures var x := s.txns[t];
      && ActiveIn(s, t)
      && PaySource(s, t) ==
           if Get(x.locks, x.op.from) < x.op.amount then Rollback(s, t)
           else WriteRow(s, t, x.op.from, Get(x.locks, x.op.from) - x.op.amount, if x.op.Debit? then InsertAudit
             else UpdateTo)
  {
    hide Rollback, WriteRow, Get;
  }

  lemma PaySourceOwn(s: State, t: Tid)
    requires OwnersOk(s) && t in s.txns && TxnOk(s, t) && s.txns[t].pc.UpdateFrom?
    requires s.txns[t].op.from in s.drafts ==> s.drafts[s.txns[t].op.from].owner == t
    ensures OwnStep(s, PaySource(s, t), t)
  {
    hide *;
    var x := s.txns[t];
    EndsAreThere(s, t);
    PaySourceIs(s, t);
    if Get(x.locks, x.op.from) < x.op.amount {
      RollbackOwn(s, t);
    } else {
      PaySourceTxnOk(s, t);
      WriteRowOwn(s, t, x.op.from, Get(x.locks, x.op.from) - x.op.amount, if x.op.Debit? then InsertAudit
        else UpdateTo);
    }
  }

  lemma PayTargetIs(s: State, t: Tid)
    requires t in s.txns && s.txns[t].pc.UpdateTo? && !s.txns[t].op.Debit?
    ensures var x := s.txns[t];
      ActiveIn(s, t) && PayTarget(s, t) == WriteRow(s, t, x.op.to, Get(x.locks, x.op.to) + x.op.amount, InsertAudit)
  {
    hide WriteRow, Get;
  }

  lemma PayTargetOwn(s: State, t: Tid)
    requires OwnersOk(s) && t in s.txns && TxnOk(s, t) && s.txns[t].pc.UpdateTo?
    requires s.txns[t].op.to in s.drafts ==> s.drafts[s.txns[t].op.to].owner == t
    ensures OwnStep(s, PayTarget(s, t), t)
  {
    hide *;
    var x := s.txns[t];
    EndsAreThere(s, t);
    PayTargetIs(s, t);
    PayTargetTxnOk(s, t);
    WriteRowOwn(s, t, x.op.to, Get(x.locks, x.op.to) + x.op.amount, InsertAudit);
  }

  lemma LogTransferMoves(s: State, t: Tid)
    requires OwnersOk(s) && ActiveIn(s, t) && s.txns[t].pc.InsertAudit? && !MustWait(s, t)
    requires !HasRef(s.books.audit, s.txns[t].op.ref)
    ensures OnlyMoves(s, LogTransfer(s, t), t) && OwnEntriesOk(s, LogTransfer(s, t), t)
  {
  }

  lemma LogTransferOwn(s: State, t: Tid)
    requires OwnersOk(s) && t in s.txns && TxnOk(s, t) && s.txns[t].pc.InsertAudit? && !MustWait(s, t)
    ensures OwnStep(s, LogTransfer(s, t), t)
  {
    if HasRef(s.books.audit, s.txns[t].op.ref) {
      RollbackOwn(s, t);
    } else {
      LogTxnOk(s, t);
      LogTransferMoves(s, t);
    }
  }

  // ---------- commit ----------

  /** Before the commit the transaction's drafts are the operation's new balances. */
  lemma DraftsAtCommit(s: State, t: Tid)
    requires t in s.txns && TxnOk(s, t) && s.txns[t].pc.Commit?
    ensures forall a :: OwnDraft(s, t, a) <==> s.txns[t].op.Touches(a)
    ensures forall a :: OwnDraft(s, t, a) ==> View(s, t, a) == Get(s.books.accounts, a) + s.txns[t].op.Delta(a)
  {
    assert DraftsOk(s, t) && PcFits(s.txns[t]);
    hide TxnOk, LocksOk, SourceOk, RefOk;
  }

  lemma TouchedIs(op: Op, a: Account)
    ensures a in op.Touched() <==> op.Touches(a)
    ensures !op.Touches(a) ==> op.Delta(a) == 0
  {
  }

  /** The committed accounts become what the operation, run alone on them, makes of them. */
  lemma CommitMoves(s: State, t: Tid)
    requires t in s.txns && TxnOk(s, t) && s.txns[t].pc.Commit?
    ensures Installed(s, t) == Moved(s.books.accounts, s.txns[t].op)
  {
    var op := s.txns[t].op;
    DraftsAtCommit(s, t);
    hide TxnOk, op.Touched, op.Touches, op.Delta;
    forall a
      ensures a in Installed(s, t) <==> a in Moved(s.books.accounts, op)
      ensures a in Installed(s, t) ==> Installed(s, t)[a] == Moved(s.books.accounts, op)[a]
    {
      TouchedIs(op, a);
      assert OwnDraft(s, t, a) ==> a in s.drafts;
    }
  }

  lemma CommitApplies(s: State, t: Tid)
    requires t in s.txns && TxnOk(s, t) && s.txns[t].pc.Commit?
    ensures Apply(s.books, s.txns[t].op) == Success(CommitTxn(s, t).books)
  {
    CommitMoves(s, t);
  }

  lemma CommitOnlyMoves(s: State, t: Tid)
    requires OwnersOk(s) && t in s.txns && s.txns[t].pc.Commit?
    ensures OnlyMoves(s, CommitTxn(s, t), t) && OwnersOk(CommitTxn(s, t)) && TxnOk(CommitTxn(s, t), t)
  {
  }

  lemma CommitHistory(s: State, t: Tid)
    requires HistoryOk(s) && t in s.txns && s.txns[t].pc.Commit?
    ensures HistoryOk(CommitTxn(s, t))
  {
    var s' := CommitTxn(s, t);
    forall u | u in s'.txns && s'.txns[u].pc.Committed?
      ensures exists i :: 0 <= i < |s'.history| && s'.history[i].tid == u
    {
      if u == t {
        assert s'.history[|s.history|].tid == t;
      } else {
        var i :| 0 <= i < |s.history| && s.history[i].tid == u;
        assert s'.history[i].tid == u;
      }
    }
  }

  lemma CommitKeeps(s: State, t: Tid)
    requires Inv(s) && t in s.txns && s.txns[t].pc.Commit?
    ensures Inv(CommitTxn(s, t))
  {
    CommitOnlyMoves(s, t);
    CommitHistory(s, t);
    OthersUnmoved(s, CommitTxn(s, t), t);
  }

  ghost predicate EndsAborted(s: State, t: Tid) {
    t in s.txns && s.txns[t].pc.Aborted?
  }

  /** What the caller is told by a transaction that rolls itself back at its present statement. */
  function Reason(s: State, t: Tid): Refusal
    requires t in s.txns
  {
    var x := s.txns[t];
    match x.pc
    case LockFirst => NotFound(x.Wanted())
    case LockSecond => NotFound(x.Wanted())
    case UpdateFrom => Insufficient(if x.op.HasSource() then Get(x.locks, x.op.from) else 0)
    case _ => AlreadyProcessed(x.op.ref)
  }

  /** The refusal of the operation run alone: the same, unless its reference has been used meanwhile. */
  function Alone(s: State, t: Tid): Refusal
    requires t in s.txns
  {
    if HasRef(s.books.audit, s.txns[t].op.ref) then AlreadyProcessed(s.txns[t].op.ref) else Reason(s, t)
  }

  lemma LockRefusalIsSerial(s: State, t: Tid)
    requires t in s.txns && TxnOk(s, t) && (s.txns[t].pc.LockFirst? || s.txns[t].pc.LockSecond?)
    requires EndsAborted(LockRow(s, t), t)
    ensures Apply(s.books, s.txns[t].op) == Failure(Alone(s, t))
  {
    var x := s.txns[t];
    assert x.Wanted() !in s.books.accounts;
    assert x.op.HasSource() && x.Wanted() == x.op.from && !x.op.SameAccount();
  }

  lemma PayRefusalIsSerial(s: State, t: Tid)
    requires t in s.txns && TxnOk(s, t) && s.txns[t].pc.UpdateFrom? && EndsAborted(PaySource(s, t), t)
    ensures Apply(s.books, s.txns[t].op) == Failure(Alone(s, t))
  {
    var x := s.txns[t];
    assert HasLocked(x, x.op.from);
    assert x.locks[x.op.from] == Get(s.books.accounts, x.op.from);
    assert !x.op.SameAccount();
  }

  /**
   A transaction that rolls itself back tells its caller what the operation, run alone on
   the committed books of that moment, would tell, unless its reference has been used since
   it was checked: then the operation alone would be refused for that.
   */
  lemma RefusalIsSerial(s: State, t: Tid)
    requires ActiveIn(s, t) && TxnOk(s, t) && EndsAborted(Advance(s, t), t)
    ensures Apply(s.books, s.txns[t].op) == Failure(Alone(s, t))
  {
    var x := s.txns[t];
    if x.pc.LockFirst? || x.pc.LockSecond? {
      LockRefusalIsSerial(s, t);
    } else if x.pc.UpdateFrom? {
      PayRefusalIsSerial(s, t);
    } else {
      assert HasRef(s.books.audit, x.op.ref) && !x.op.SameAccount();
    }
  }

  /** The log keeps what it has, a transaction keeps its operation, and what is committed stays so. */
  ghost predicate Grows(s: State, s': State) {
    && s.books.audit <= s'.books.audit
    && forall u :: u in s.txns ==>
         u in s'.txns && s'.txns[u].op == s.txns[u].op && (s.txns[u].pc.Committed? ==> s'.txns[u].pc.Committed?)
  }

  lemma OwnStepGrows(s: State, s': State, t: Tid)
    requires OnlyMoves(s, s', t)
    requires t in s.txns ==> s.txns[t].Active() && t in s'.txns && s'.txns[t].op == s.txns[t].op
    ensures Grows(s, s')
  {
  }

  lemma CommitGrows(s: State, t: Tid)
    requires OwnersOk(s) && t in s.txns && s.txns[t].pc.Commit?
    ensures Grows(s, CommitTxn(s, t))
  {
    CommitOnlyMoves(s, t);
    OwnStepGrows(s, CommitTxn(s, t), t);
  }

  lemma StatementOwn(s: State, t: Tid)
    requires Inv(s) && ActiveIn(s, t) && !MustWait(s, t) && !s.txns[t].pc.Commit?
    ensures OwnStep(s, Advance(s, t), t)
  {
    assert TxnOk(s, t);
    var x := s.txns[t];
    match x.pc {
      case CheckRef => CheckReferenceOwn(s, t);
      case InsertRow => InsertRecipientOwn(s, t);
      case LockFirst => LockRowOwn(s, t);
      case LockSecond => LockRowOwn(s, t);
      case UpdateFrom =>
        if x.op.from in s.drafts { LockedDraftIsOwn(s, t, x.op.from); }
        PaySourceOwn(s, t);
      case UpdateTo =>
        if x.op.to in s.drafts { LockedDraftIsOwn(s, t, x.op.to); }
        PayTargetOwn(s, t);
      case InsertAudit => LogTransferOwn(s, t);
    }
  }

  lemma OwnStepKeeps(s: State, s': State, t: Tid)
    requires Inv(s) && OwnStep(s, s', t)
    ensures Inv(s') && Grows(s, s')
  {
    OwnStepGrows(s, s', t);
    Rebuild(s, s', t);
  }

  lemma CommitStepKeeps(s: State, t: Tid)
    requires Inv(s) && t in s.txns && s.txns[t].pc.Commit?
    ensures Inv(CommitTxn(s, t)) && Grows(s, CommitTxn(s, t))
  {
    CommitKeeps(s, t);
    CommitGrows(s, t);
  }

  lemma StatementKeeps(s: State, t: Tid)
    requires Inv(s) && ActiveIn(s, t) && !MustWait(s, t) && !s.txns[t].pc.Commit?
    ensures Inv(Advance(s, t)) && Grows(s, Advance(s, t))
  {
    StatementOwn(s, t);
    OwnStepKeeps(s, Advance(s, t), t);
  }

  lemma CommitStatementKeeps(s: State, t: Tid)
    requires Inv(s) && ActiveIn(s, t) && s.txns[t].pc.Commit?
    ensures Inv(Advance(s, t)) && Grows(s, Advance(s, t))
  {
    hide Inv, Grows, CommitTxn;
    CommitStepKeeps(s, t);
  }

  lemma {:induction false} StepKeeps(s: State, step: Step)
    requires Inv(s) && Enabled(s, step)
    ensures Inv(Do(s, step)) && Grows(s, Do(s, step))
  {
    match step
    case Begin(t, op) =>
      BeginOwn(s, t, op);
      OwnStepKeeps(s, Do(s, step), t);
    case Statement(t) =>
      if s.txns[t].pc.Commit? {
        CommitStatementKeeps(s, t);
      } else {
        StatementKeeps(s, t);
      }
    case Kill(t) =>
      RollbackOwn(s, t);
      OwnStepKeeps(s, Rollback(s, t), t);
  }

  // ---------- the theorem ----------

  /** The committed books are those of the committed operations replayed in commit order. */
  ghost predicate Serial(b: Books, s: State) {
    Replay(b, Ops(s.history)) == Success(s.books)
  }

  ghost predicate Commits(s: State, step: Step) {
    step.Statement? && step.t in s.txns && s.txns[step.t].pc.Commit?
  }

  lemma OnlyCommitsPublish(s: State, step: Step)
    requires Enabled(s, step) && !Commits(s, step)
    ensures Do(s, step).books == s.books && Do(s, step).history == s.history
  {
  }

  lemma CommitStaysSerial(b: Books, s: State, t: Tid)
    requires t in s.txns && TxnOk(s, t) && s.txns[t].pc.Commit? && Serial(b, s)
    ensures Serial(b, CommitTxn(s, t))
  {
    CommitApplies(s, t);
    var s' := CommitTxn(s, t);
    assert s'.history == s.history + [Done(t, s.txns[t].op)];
    assert Ops(s'.history) == Ops(s.history) + [s.txns[t].op];
    assert Ops(s'.history)[..|s.history|] == Ops(s.history);
  }

  lemma StepStaysSerial(b: Books, s: State, step: Step)
    requires (Commits(s, step) ==> TxnOk(s, step.t)) && Serial(b, s) && Enabled(s, step)
    ensures Serial(b, Do(s, step))
  {
    if Commits(s, step) {
      CommitStaysSerial(b, s, step.t);
      assert Do(s, step) == CommitTxn(s, step.t);
    } else {
      OnlyCommitsPublish(s, step);
    }
  }

  lemma {:induction false} RunInvariant(b: Books, run: seq<State>, i: nat)
    requires Run(b, run) && i < |run|
    ensures Inv(run[i]) && Serial(b, run[i])
  {
    if i > 0 {
      RunInvariant(b, run, i - 1);
      var step :| Enabled(run[i - 1], step) && run[i] == Do(run[i - 1], step);
      assert Next(run[i - 1], run[i - 1 + 1]);
      StepKeeps(run[i - 1], step);
      StepStaysSerial(b, run[i - 1], step);
    }
  }

  /** A finished transaction holds nothing and owns no uncommitted row, recipient rows included. */
  ghost predicate NoTrace(s: State, t: Tid) {
    && (forall a :: a in s.drafts ==> s.drafts[a].owner != t)
    && (forall a :: a in s.rowLocks ==> s.rowLocks[a] != t)
    && (forall r :: r in s.refLocks ==> s.refLocks[r] != t)
  }

  lemma FinishedLeavesNoTrace(s: State, t: Tid)
    requires OwnersOk(s) && t in s.txns && TxnOk(s, t) && !s.txns[t].Active()
    ensures NoTrace(s, t)
  {
    assert forall a :: a in s.drafts ==> (OwnDraft(s, t, a) <==> s.drafts[a].owner == t);
  }

  /**
   In every reachable state the committed accounts and audit log are exactly those
   of the committed transactions, each accepted, run one at a time in commit order.
   The order lists every committed transaction once and no other, and finished
   transactions, aborted ones above all, leave no trace.
   */
  lemma Serializable(b: Books, run: seq<State>, i: nat)
    requires Run(b, run) && i < |run|
    ensures var s := run[i];
      && Replay(b, Ops(s.history)) == Success(s.books)
      && (forall k :: 0 <= k < |s.history| ==>
           s.history[k].tid in s.txns && s.history[k].op == s.txns[s.history[k].tid].op)
      && (forall k, l :: 0 <= k < l < |s.history| ==> s.history[k].tid != s.history[l].tid)
      && (forall t :: t in s.txns ==>
           (s.txns[t].pc.Committed? <==> exists k :: 0 <= k < |s.history| && s.history[k].tid == t))
      && (forall t :: t in s.txns && !s.txns[t].Active() ==> NoTrace(s, t))
  {
    RunInvariant(b, run, i);
    var s := run[i];
    forall t | t in s.txns && !s.txns[t].Active() ensures NoTrace(s, t) {
      FinishedLeavesNoTrace(s, t);
    }
  }

  /**
   The audit over whole interleaved runs: each balance is its seed plus audited
   inflow minus audited outflow, transfers conserve the total, reference ids are
   unique, and no balance is negative when amounts are positive and seeds are not.
   */
  lemma RunAudit(b: Books, run: seq<State>, i: nat)
    requires Run(b, run) && i < |run| && DistinctRefs(b.audit)
    ensures var s := run[i];
      && DistinctRefs(s.books.audit)
      && |b.audit| <= |s.books.audit| && s.books.audit[..|b.audit|] == b.audit
      && (forall a :: Get(s.books.accounts, a) == Get(b.accounts, a) + Net(s.books.audit[|b.audit|..], a))
      && Total(s.books.accounts) == Total(b.accounts) + External(s.books.audit[|b.audit|..])
      && (NoDebt(b) && (forall t :: t in s.txns ==> s.txns[t].op.amount > 0) ==> NoDebt(s.books))
  {
    RunInvariant(b, run, i);
    var s := run[i];
    var ops := Ops(s.history);
    AuditGrows(b, ops);
    BalanceAudit(b, ops);
    RefsStayDistinct(b, ops);
    if NoDebt(b) && forall t :: t in s.txns ==> s.txns[t].op.amount > 0 {
      NeverInDebt(b, ops);
    }
  }
}
