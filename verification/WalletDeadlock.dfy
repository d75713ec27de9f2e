/**
 Deadlock freedom.  Waiting is read as pessimistically as possible: an insert of a
 recipient also counts as waiting for an uncommitted update of that row.  Even so
 no wait-for cycle is reachable, every wait-for chain ends at a transaction that can
 take its next statement, and the system can always be run to completion without
 killing anyone.
 */
module WalletDeadlock {
  import opened Prelude
  import opened WalletBooks
  import opened AccountOrder
  import opened WalletMachine
  import opened WalletSerial

  /** Transaction `t` may have to wait for transaction `u` before its next statement completes. */
  ghost predicate WaitsFor(s: State, t: Tid, u: Tid) {
    && ActiveIn(s, t) && u != t
    && var x := s.txns[t];
       match x.pc
       case InsertRow => x.op.HasTarget() && OwnDraft(s, u, x.op.to)
       case LockFirst => Visible(s, t, x.Wanted()) && x.Wanted() in s.rowLocks && s.rowLocks[x.Wanted()] == u
       case LockSecond => Visible(s, t, x.Wanted()) && x.Wanted() in s.rowLocks && s.rowLocks[x.Wanted()] == u
       case InsertAudit => x.op.ref in s.refLocks && s.refLocks[x.op.ref] == u
       case _ => false
  }

  ghost predicate MayWait(s: State, t: Tid) {
    exists u :: WaitsFor(s, t, u)
  }

  ghost predicate Runnable(s: State, t: Tid) {
    ActiveIn(s, t) && !MayWait(s, t)
  }

  /** A wait-for chain: each transaction waits for the next. */
  ghost predicate Chain(s: State, c: seq<Tid>) {
    c != [] && forall i :: 0 <= i < |c| - 1 ==> WaitsFor(s, c[i], c[i + 1])
  }

  // ---------- the order along which waits go down ----------

  ghost predicate Locking(x: Txn) {
    x.pc.LockFirst? || x.pc.LockSecond?
  }

  /** Inserts wait for anyone, row locks for holders of locks, reference ids for committers. */
  ghost function Level(x: Txn): nat {
    if x.pc.CheckRef? || x.pc.InsertRow? then 3 else if Locking(x) then 2 else if x.pc.InsertAudit? then 1 else 0
  }

  /** `u` is below `t`: at a lower level, or after a larger row lock at the same level. */
  ghost predicate Below(s: State, u: Tid, t: Tid)
    requires u in s.txns && t in s.txns
  {
    var x, y := s.txns[t], s.txns[u];
    Level(y) < Level(x) || (Locking(x) && Locking(y) && Less(x.Wanted(), y.Wanted()))
  }

  lemma FirstBeforeSecond(x: Txn)
    requires x.op.Transfer? && x.op.from != x.op.to
    ensures Less(x.First(), x.Second())
  {
    LessTotal(x.op.from, x.op.to);
  }

  lemma InsertWaitsGoDown(s: State, t: Tid, u: Tid)
    requires Inv(s) && WaitsFor(s, t, u) && s.txns[t].pc.InsertRow?
    ensures ActiveIn(s, u) && Below(s, u, t)
  {
    assert DraftsOk(s, u) by { assert TxnOk(s, u); }
    assert OwnDraft(s, u, s.txns[t].op.to);
  }

  lemma HolderGoesDown(s: State, t: Tid, u: Tid)
    requires t in s.txns && u in s.txns && Locking(s.txns[t]) && s.txns[t].Wanted() in s.txns[u].locks
    requires LocksOk(s, u) && PcFits(s.txns[u])
    ensures ActiveIn(s, u) && Below(s, u, t)
  {
    assert HasLocked(s.txns[u], s.txns[t].Wanted());
    if s.txns[u].pc.LockSecond? {
      FirstBeforeSecond(s.txns[u]);
    }
  }

  lemma WaitsGoDown(s: State, t: Tid, u: Tid)
    requires Inv(s) && WaitsFor(s, t, u)
    ensures ActiveIn(s, u) && Below(s, u, t)
  {
    if s.txns[t].pc.InsertRow? {
      InsertWaitsGoDown(s, t, u);
    } else if Locking(s.txns[t]) {
      assert TxnOk(s, u);
      HolderGoesDown(s, t, u);
    }
  }

  lemma BelowTransitive(s: State, v: Tid, u: Tid, t: Tid)
    requires v in s.txns && u in s.txns && t in s.txns && Below(s, v, u) && Below(s, u, t)
    ensures Below(s, v, t)
  {
    if Locking(s.txns[t]) && Locking(s.txns[u]) && Locking(s.txns[v]) {
      LessTransitive(s.txns[t].Wanted(), s.txns[u].Wanted(), s.txns[v].Wanted());
    }
  }

  lemma ChainFront(s: State, c: seq<Tid>)
    requires Chain(s, c) && |c| > 1
    ensures Chain(s, c[..|c| - 1]) && WaitsFor(s, c[|c| - 2], c[|c| - 1])
  {
    hide WaitsFor;
    var n, front := |c| - 1, c[..|c| - 1];
    assert WaitsFor(s, c[n - 1], c[n - 1 + 1]);
    forall i | 0 <= i < |front| - 1 ensures WaitsFor(s, front[i], front[i + 1]) {
      assert WaitsFor(s, c[i], c[i + 1]);
    }
  }

  lemma WaitersAreThere(s: State, t: Tid, u: Tid)
    requires WaitsFor(s, t, u)
    ensures t in s.txns
  {
  }

  lemma {:induction false} ChainGoesDown(s: State, c: seq<Tid>)
    requires Inv(s) && Chain(s, c) && |c| > 1
    ensures c[0] in s.txns && c[|c| - 1] in s.txns && Below(s, c[|c| - 1], c[0])
  {
    hide Inv, Chain, WaitsFor, Below;
    var n := |c| - 1;
    ChainFront(s, c);
    WaitersAreThere(s, c[n - 1], c[n]);
    WaitsGoDown(s, c[n - 1], c[n]);
    if n > 1 {
      ChainGoesDown(s, c[..n]);
      BelowTransitive(s, c[n], c[n - 1], c[0]);
    }
  }

  /** No set of transactions waits for itself in a ring. */
  lemma NoWaitCycle(s: State, c: seq<Tid>)
    requires Inv(s) && Chain(s, c) && |c| > 1
    ensures c[0] != c[|c| - 1]
  {
    ChainGoesDown(s, c);
    if c[0] == c[|c| - 1] {
      LessIrreflexive(s.txns[c[0]].Wanted());
    }
  }

  ghost function LocksAbove(s: State, a: Account): set<Account> {
    set k | k in s.rowLocks && Less(a, k)
  }

  lemma FewerLocksAbove(s: State, a: Account, b: Account)
    requires Less(a, b) && b in s.rowLocks
    ensures |LocksAbove(s, b)| < |LocksAbove(s, a)|
  {
    forall k | k in LocksAbove(s, b) ensures k in LocksAbove(s, a) {
      LessTransitive(a, b, k);
    }
    LessIrreflexive(b);
    Smaller(LocksAbove(s, b), LocksAbove(s, a), b);
  }

  lemma Smaller<T>(p: set<T>, q: set<T>, x: T)
    requires p <= q && x in q && x !in p
    ensures |p| < |q|
  {
    assert |q - {x}| == |q| - 1;
    SubsetSize(p, q - {x});
  }

  ghost function Depth(s: State, t: Tid): nat
    requires t in s.txns
  {
    |LocksAbove(s, s.txns[t].Wanted())|
  }

  lemma WaitsDeepen(s: State, t: Tid, u: Tid)
    requires Inv(s) && WaitsFor(s, t, u) && MayWait(s, u)
    ensures ActiveIn(s, u)
    ensures Level(s.txns[u]) < Level(s.txns[t]) || (Level(s.txns[u]) == Level(s.txns[t]) && Depth(s, u) < Depth(s, t))
  {
    WaitsGoDown(s, t, u);
    if Level(s.txns[u]) >= Level(s.txns[t]) {
      var v :| WaitsFor(s, u, v);
      FewerLocksAbove(s, s.txns[t].Wanted(), s.txns[u].Wanted());
    }
  }

  /** Every wait-for chain can be followed to a transaction that need not wait. */
  lemma {:induction false} ChainEnds(s: State, t: Tid) returns (c: seq<Tid>)
    requires Inv(s) && ActiveIn(s, t)
    ensures Chain(s, c) && c[0] == t && Runnable(s, c[|c| - 1])
    decreases Level(s.txns[t]), Depth(s, t)
  {
    hide Inv;
    if u :| WaitsFor(s, t, u) {
      WaitsGoDown(s, t, u);
      c := [u];
      if MayWait(s, u) {
        WaitsDeepen(s, t, u);
        c := ChainEnds(s, u);
      }
      Prepend(s, t, c);
      c := [t] + c;
    } else {
      c := [t];
    }
  }

  lemma Prepend(s: State, t: Tid, c: seq<Tid>)
    requires Chain(s, c) && WaitsFor(s, t, c[0])
    ensures Chain(s, [t] + c)
  {
    var d := [t] + c;
    forall i | 0 <= i < |d| - 1 ensures WaitsFor(s, d[i], d[i + 1]) {
      if i > 0 {
        assert WaitsFor(s, c[i - 1], c[i - 1 + 1]);
      }
    }
  }

  // ---------- finishing ----------

  function Remaining(pc: Pc): nat {
    match pc
    case CheckRef => 8
    case InsertRow => 7
    case LockFirst => 6
    case LockSecond => 5
    case UpdateFrom => 4
    case UpdateTo => 3
    case InsertAudit => 2
    case Commit => 1
    case Committed => 0
    case Aborted => 0
  }

  lemma RunnableNeedNotWait(s: State, t: Tid)
    requires Runnable(s, t) && Inv(s)
    ensures Enabled(s, Statement(t))
  {
    var x := s.txns[t];
    if x.pc.InsertRow? && x.op.HasTarget() && x.op.to in s.drafts && s.drafts[x.op.to].owner != t {
      assert WaitsFor(s, t, s.drafts[x.op.to].owner);
    }
    if Locking(x) && x.Wanted() in s.rowLocks && !WaitsFor(s, t, s.rowLocks[x.Wanted()]) {
      assert !MustWait(s, t);
    }
    if x.pc.InsertAudit? && x.op.ref in s.refLocks && !WaitsFor(s, t, s.refLocks[x.op.ref]) {
      assert !MustWait(s, t);
    }
  }

  /** The step moved its own transaction on and no other. */
  ghost predicate MovedOn(s: State, s': State, t: Tid) {
    && t in s.txns && t in s'.txns && s'.txns == s.txns[t := s'.txns[t]]
    && Remaining(s'.txns[t].pc) < Remaining(s.txns[t].pc)
  }

  lemma LockMovesOn(s: State, t: Tid)
    requires t in s.txns && Locking(s.txns[t]) && PcFits(s.txns[t])
    ensures MovedOn(s, LockRow(s, t), t)
  {
  }

  lemma PayMovesOn(s: State, t: Tid)
    requires t in s.txns && PcFits(s.txns[t])
    ensures s.txns[t].pc.UpdateFrom? ==> MovedOn(s, PaySource(s, t), t)
    ensures s.txns[t].pc.UpdateTo? ==> MovedOn(s, PayTarget(s, t), t)
  {
  }

  lemma CheckMovesOn(s: State, t: Tid)
    requires t in s.txns
    ensures s.txns[t].pc.CheckRef? ==> MovedOn(s, CheckReference(s, t), t)
    ensures s.txns[t].pc.InsertRow? ==> MovedOn(s, InsertRecipient(s, t), t)
    ensures s.txns[t].pc.InsertAudit? ==> MovedOn(s, LogTransfer(s, t), t)
    ensures s.txns[t].pc.Commit? ==> MovedOn(s, CommitTxn(s, t), t)
  {
  }

  lemma StatementAdvances(s: State, t: Tid)
    requires ActiveIn(s, t) && PcFits(s.txns[t])
    ensures MovedOn(s, Advance(s, t), t)
  {
    if Locking(s.txns[t]) {
      LockMovesOn(s, t);
    } else {
      PayMovesOn(s, t);
      CheckMovesOn(s, t);
    }
  }

  ghost function Work(s: State): map<Tid, int> {
    map t | t in s.txns :: Remaining(s.txns[t].pc)
  }

  lemma {:induction false} TotalNonNegative(m: map<Tid, int>)
    requires forall t :: t in m ==> m[t] >= 0
    ensures Total(m) >= 0
    decreases |m|
  {
    if m != map[] {
      var t :| t in m;
      TotalRemove(m, t);
      TotalNonNegative(m - {t});
    }
  }

  lemma StatementWorks(s: State, t: Tid)
    requires ActiveIn(s, t) && TxnOk(s, t)
    ensures 0 <= Total(Work(Advance(s, t))) < Total(Work(s))
  {
    StatementAdvances(s, t);
    var s' := Advance(s, t);
    assert Work(s') == Work(s)[t := Remaining(s'.txns[t].pc)];
    TotalUpdate(Work(s), t, Remaining(s'.txns[t].pc));
    TotalNonNegative(Work(s'));
  }

  ghost predicate Schedule(s: State, ts: seq<Tid>, end: State)
    decreases |ts|
  {
    if ts == [] then s == end
    else Enabled(s, Statement(ts[0])) && Schedule(Do(s, Statement(ts[0])), ts[1..], end)
  }

  /** From every state with the invariant, some schedule of statements alone finishes every transaction. */
  lemma {:induction false} CanFinish(s: State) returns (ts: seq<Tid>, end: State)
    requires Inv(s)
    ensures Schedule(s, ts, end) && |ts| <= Total(Work(s))
    ensures forall t :: t in end.txns ==> !end.txns[t].Active()
    decreases Total(Work(s))
  {
    TotalNonNegative(Work(s));
    if t :| ActiveIn(s, t) {
      var c := ChainEnds(s, t);
      var r := c[|c| - 1];
      RunnableNeedNotWait(s, r);
      assert TxnOk(s, r);
      StatementWorks(s, r);
      StepKeeps(s, Statement(r));
      var rest;
      rest, end := CanFinish(Do(s, Statement(r)));
      ts := [r] + rest;
      assert ts[1..] == rest;
    } else {
      ts, end := [], s;
      assert forall t :: t in s.txns ==> !ActiveIn(s, t);
    }
  }

  /**
   In every reachable state of any number of interleaved credits, debits and
   transfers: no wait-for cycle exists; every unfinished transaction's chain of
   waits ends at one that can take a step; and statements alone, at most eight per
   transaction, can finish all of them.
   */
  lemma DeadlockFree(b: Books, run: seq<State>, i: nat)
    requires Run(b, run) && i < |run|
    ensures var s := run[i];
      && (forall c :: Chain(s, c) && |c| > 1 ==> c[0] != c[|c| - 1])
      && (forall t :: ActiveIn(s, t) ==> exists c :: Chain(s, c) && c[0] == t && Runnable(s, c[|c| - 1]))
      && (forall t :: Runnable(s, t) ==> Enabled(s, Statement(t)))
      && (exists ts, end :: Schedule(s, ts, end) && |ts| <= Total(Work(s)) && forall t :: t in end.txns ==>
           !end.txns[t].Active())
  {
    RunInvariant(b, run, i);
    var s := run[i];
    forall c | Chain(s, c) && |c| > 1 ensures c[0] != c[|c| - 1] {
      NoWaitCycle(s, c);
    }
    forall t | ActiveIn(s, t) ensures exists c :: Chain(s, c) && c[0] == t && Runnable(s, c[|c| - 1]) {
      var c := ChainEnds(s, t);
    }
    forall t | Runnable(s, t) ensures Enabled(s, Statement(t)) {
      RunnableNeedNotWait(s, t);
    }
    var ts, end := CanFinish(s);
  }
}
