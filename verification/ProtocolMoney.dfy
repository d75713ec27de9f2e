/**
 At-most-once money movement, in every run: repeated messages, crashes, lost wallet
 replies, racing schedulers and other wallet clients included.
 */
module ProtocolMoney {
  import opened Prelude
  import B = WalletBooks
  import W = WalletMachine
  import S = WalletSerial
  import opened Protocol
  import F = ProtocolFrames

  /** The wallet's log holds the payment that the intent asks for. */
  ghost predicate Paid(s: State, id: Id) {
    && id in s.intents && s.intents[id].order.Some?
    && var o := s.intents[id].order.value;
       exists k :: 0 <= k < |s.wallet.books.audit| &&
         s.wallet.books.audit[k] == B.AuditRow(Some(o.from), Some(o.to), o.amount, id)
  }

  ghost predicate Transfers(s: State, id: Id) {
    id in s.intents && s.intents[id].kind.TRANSFER?
  }

  ghost predicate EngineOk(s: State, p: Pid)
    requires p in s.engines
  {
    var x := s.engines[p];
    && x.msg < |s.tasks|
    && (!x.pc.AtClaim? && !x.pc.AtDone? ==> Job(s, p) in s.intents)
    && (x.pc.AtWait? ==>
          && Transfers(s, Job(s, p)) && s.intents[Job(s, p)].order.Some?
          && x.pc.tid in s.wallet.txns && s.wallet.txns[x.pc.tid].op == Payment(s.intents[Job(s, p)], Job(s, p)))
    && (x.pc.AtFinish? && x.pc.ok && Transfers(s, Job(s, p)) ==> Paid(s, Job(s, p)))
  }

  ghost predicate EnginesOk(s: State) {
    forall p :: p in s.engines ==> EngineOk(s, p)
  }

  ghost predicate CompletedOk(s: State) {
    forall id :: Transfers(s, id) && s.intents[id].status.COMPLETED? ==> Paid(s, id)
  }

  ghost predicate WalletOk(b: B.Books, s: State) {
    S.Inv(s.wallet) && S.Serial(b, s.wallet)
  }

  ghost predicate Inv(b: B.Books, s: State) {
    WalletOk(b, s) && EnginesOk(s) && CompletedOk(s)
  }

  // ---------- the wallet's side ----------

  lemma WalletStepOk(b: B.Books, w: W.State, step: W.Step)
    requires S.Inv(w) && S.Serial(b, w) && W.Enabled(w, step)
    ensures S.Inv(W.Do(w, step)) && S.Serial(b, W.Do(w, step)) && S.Grows(w, W.Do(w, step))
  {
    hide S.OwnersOk, S.HistoryOk, S.TxnOk, S.Grows, S.Serial, W.Do, W.Advance;
    S.StepKeeps(w, step);
    assert S.Commits(w, step) ==> S.TxnOk(w, step.t);
    S.StepStaysSerial(b, w, step);
  }

  /** A committed transaction has its row in the log. */
  lemma CommittedIsLogged(b: B.Books, w: W.State, t: W.Tid)
    requires S.Inv(w) && S.Serial(b, w) && t in w.txns && w.txns[t].pc.Committed?
    ensures exists k :: 0 <= k < |w.books.audit| && w.books.audit[k] == w.txns[t].op.Row()
  {
    hide S.TxnOk, S.OwnersOk;
    B.AuditGrows(b, S.Ops(w.history));
    assert S.HistoryOk(w);
    var i :| 0 <= i < |w.history| && w.history[i].tid == t;
    assert w.books.audit[|b.audit| + i] == S.Ops(w.history)[i].Row();
  }

  // ---------- preservation ----------

  /** Rows keep their kind and order, and tasks their intent. */
  ghost predicate RowsGrow(s: State, s': State) {
    RowsKept(s.intents, s'.intents) && F.TasksKept(s.tasks, s'.tasks)
  }

  ghost predicate RowsKept(rows: map<Id, Row>, rows': map<Id, Row>) {
    forall id :: id in rows ==> id in rows' && rows'[id].kind == rows[id].kind && rows'[id].order == rows[id].order
  }

  ghost predicate Grows(s: State, s': State) {
    RowsGrow(s, s') && S.Grows(s.wallet, s'.wallet)
  }

  lemma PaidStays(s: State, s': State, id: Id)
    requires Grows(s, s') && Paid(s, id)
    ensures Paid(s', id)
  {
    var o := s.intents[id].order.value;
    var k :| 0 <= k < |s.wallet.books.audit| &&
      s.wallet.books.audit[k] == B.AuditRow(Some(o.from), Some(o.to), o.amount, id);
    assert s'.wallet.books.audit[k] == s.wallet.books.audit[k];
  }

  lemma EngineStays(s: State, s': State, p: Pid)
    requires Grows(s, s') && p in s.engines && EngineOk(s, p) && p in s'.engines && s'.engines[p] == s.engines[p]
    ensures EngineOk(s', p)
  {
    if Paid(s, Job(s, p)) {
      PaidStays(s, s', Job(s, p));
    }
  }

  /** What one step owes: its own process is in order, and whatever it completes is paid. */
  ghost predicate Owes(s: State, s': State, p: Pid) {
    && RowsGrow(s, s') && s'.wallet == s.wallet
    && (forall q :: q in s'.engines && q != p ==> q in s.engines && s'.engines[q] == s.engines[q])
    && (p in s'.engines ==> EngineOk(s', p))
    && (forall id :: Transfers(s', id) && s'.intents[id].status.COMPLETED? ==>
          (id in s.intents && s.intents[id].status.COMPLETED?) || Paid(s', id))
  }

  lemma Assemble(b: B.Books, s: State, s': State, p: Pid)
    requires Inv(b, s) && WalletOk(b, s') && Owes(s, s', p)
    ensures Inv(b, s')
  {
    assert Grows(s, s');
    hide Grows, RowsGrow, EngineOk, WalletOk;
    forall q | q in s'.engines ensures EngineOk(s', q) {
      if q != p {
        EngineStays(s, s', q);
      }
    }
    forall id | Transfers(s', id) && s'.intents[id].status.COMPLETED? ensures Paid(s', id) {
      if !Paid(s', id) {
        assert Transfers(s, id) by { KindStays(s, s', id); }
        PaidStays(s, s', id);
      }
    }
  }

  lemma KindStays(s: State, s': State, id: Id)
    requires Grows(s, s') && id in s.intents
    ensures Transfers(s, id) <==> Transfers(s', id)
  {
  }

  /** A step of another service that leaves the wallet alone and completes nothing. */
  lemma ElsewhereKeeps(b: B.Books, s: State, s': State)
    requires Inv(b, s) && s'.wallet == s.wallet && s'.engines == s.engines && RowsGrow(s, s')
    requires CompletesNothing(s.intents, s'.intents)
    ensures Inv(b, s')
  {
    assert Grows(s, s');
    hide EngineOk, WalletOk, Grows, RowsGrow;
    forall p | p in s'.engines ensures EngineOk(s', p) {
      EngineStays(s, s', p);
    }
    forall id | Transfers(s', id) && s'.intents[id].status.COMPLETED? ensures Paid(s', id) {
      KindStays(s, s', id);
      PaidStays(s, s', id);
    }
    assert WalletOk(b, s') by { SameWallet(b, s, s'); }
  }

  lemma SameWallet(b: B.Books, s: State, s': State)
    requires WalletOk(b, s) && s'.wallet == s.wallet
    ensures WalletOk(b, s')
  {
    hide S.Inv, S.Serial;
  }

  lemma WalletKeeps(b: B.Books, s: State, w: W.Step)
    requires Inv(b, s) && W.Enabled(s.wallet, w)
    ensures Inv(b, s.(wallet := W.Do(s.wallet, w)))
  {
    hide S.Inv, S.Serial, S.Grows, W.Do, W.Enabled, EngineOk;
    var s' := s.(wallet := W.Do(s.wallet, w));
    WalletStepOk(b, s.wallet, w);
    assert Grows(s, s');
    forall p | p in s'.engines ensures EngineOk(s', p) {
      EngineStays(s, s', p);
    }
    forall id | Transfers(s', id) && s'.intents[id].status.COMPLETED? ensures Paid(s', id) {
      PaidStays(s, s', id);
    }
  }

  ghost predicate CompletesNothing(rows: map<Id, Row>, rows': map<Id, Row>) {
    forall id :: id in rows' && rows'[id].status.COMPLETED? ==> id in rows && rows[id].status.COMPLETED?
  }

  lemma MarkKeepsRows(rows: map<Id, Row>, id: Id, status: Status)
    ensures RowsKept(rows, Mark(rows, id, status))
    ensures !status.COMPLETED? ==> CompletesNothing(rows, Mark(rows, id, status))
  {
  }

  lemma WriteGrows(s: State, p: Pid)
    requires p in s.schedulers
    ensures RowsGrow(s, WriteDecision(s, p)) && CompletesNothing(s.intents, WriteDecision(s, p).intents)
  {
    var status := if s.schedulers[p].pc.AtSchedule? then SCHEDULED else FAILED;
    assert WriteDecision(s, p).intents == Mark(s.intents, Subject(s, p), status);
    hide RowsKept, CompletesNothing, Mark;
    MarkKeepsRows(s.intents, Subject(s, p), status);
  }

  lemma SchedGrows(s: State, p: Pid, a: SchedAct)
    requires EnabledSched(s, p, a)
    ensures RowsGrow(s, DoSched(s, p, a)) && CompletesNothing(s.intents, DoSched(s, p, a).intents)
  {
    if a.SWrite? {
      WriteGrows(s, p);
    } else {
      F.SchedFrame(s, p, a);
      hide DoSched, EnabledSched;
    }
  }

  lemma SchedKeeps(b: B.Books, s: State, p: Pid, a: SchedAct)
    requires Inv(b, s) && EnabledSched(s, p, a)
    ensures Inv(b, DoSched(s, p, a))
  {
    SchedGrows(s, p, a);
    F.SchedFrame(s, p, a);
    hide *;
    ElsewhereKeeps(b, s, DoSched(s, p, a));
  }

  // ---------- the engine's own steps ----------

  lemma EngineMoves(b: B.Books, s: State, s': State, p: Pid)
    requires Inv(b, s) && Owes(s, s', p)
    ensures Inv(b, s')
  {
    SameWallet(b, s, s');
    hide Owes, EnginesOk, CompletedOk;
    Assemble(b, s, s', p);
  }

  lemma DeliverOwes(s: State, p: Pid, msg: nat)
    requires EnabledEngine(s, p, EDeliver(msg))
    ensures Owes(s, DoEngine(s, p, EDeliver(msg)), p)
  {
  }

  lemma ClaimGrows(s: State, p: Pid)
    requires p in s.engines && s.engines[p].msg < |s.tasks|
    ensures RowsGrow(s, Claim(s, p)) && CompletesNothing(s.intents, Claim(s, p).intents)
  {
    var s' := Claim(s, p);
    assert s'.intents == s.intents || s'.intents == Mark(s.intents, Job(s, p), EXECUTING);
    assert F.TasksKept(s.tasks, s'.tasks);
    hide RowsKept, F.TasksKept, CompletesNothing, Mark;
    MarkKeepsRows(s.intents, Job(s, p), EXECUTING);
    SameRows(s.intents);
  }

  lemma SameRows(rows: map<Id, Row>)
    ensures RowsKept(rows, rows) && CompletesNothing(rows, rows)
  {
  }

  lemma ClaimOwes(s: State, p: Pid)
    requires EnabledEngine(s, p, EClaim)
    ensures Owes(s, Claim(s, p), p)
  {
    ClaimGrows(s, p);
    ClaimedOk(s, p);
    ClaimFrame(s, p);
    hide RowsGrow, Claim, EnabledEngine, EngineOk;
  }

  lemma ClaimFrame(s: State, p: Pid)
    requires p in s.engines && s.engines[p].msg < |s.tasks|
    ensures Claim(s, p).wallet == s.wallet
    ensures forall q :: q in Claim(s, p).engines && q != p ==> q in s.engines && Claim(s, p).engines[q] == s.engines[q]
  {
  }

  lemma ClaimedOk(s: State, p: Pid)
    requires EnabledEngine(s, p, EClaim)
    ensures p in Claim(s, p).engines && EngineOk(Claim(s, p), p)
  {
    if Job(s, p) in s.intents && s.intents[Job(s, p)].status.SCHEDULED? {
      assert Claim(s, p).engines[p].pc.AtRun?;
    } else {
      assert Claim(s, p).engines[p].pc.AtDone?;
    }
  }

  lemma FinishOwes(s: State, p: Pid)
    requires EnabledEngine(s, p, EFinish) && EngineOk(s, p)
    ensures Owes(s, FinishTask(s, p), p)
  {
    var s' := FinishTask(s, p);
    assert Grows(s, s');
    if Paid(s, Job(s, p)) {
      PaidStays(s, s', Job(s, p));
    }
  }

  lemma ReplyOwes(b: B.Books, s: State, p: Pid, ok: bool)
    requires WalletOk(b, s) && EnabledEngine(s, p, EReply(ok)) && EngineOk(s, p)
    ensures Owes(s, EngineGoto(s, p, AtFinish(ok)), p)
  {
    hide S.Inv, S.Serial;
    if ok {
      CommittedIsLogged(b, s.wallet, s.engines[p].pc.tid);
    }
  }

  lemma RunOwes(s: State, p: Pid, ok: bool)
    requires EnabledEngine(s, p, ERun(ok)) && EngineOk(s, p)
    ensures Owes(s, EngineGoto(s, p, AtFinish(ok)), p)
  {
  }

  lemma CallKeeps(b: B.Books, s: State, p: Pid, tid: W.Tid)
    requires Inv(b, s) && EnabledEngine(s, p, ECall(tid))
    ensures Inv(b, CallWallet(s, p, tid))
  {
    var id := Job(s, p);
    var begin := W.Begin(tid, Payment(s.intents[id], id));
    var mid := s.(wallet := W.Do(s.wallet, begin));
    WalletKeeps(b, s, begin);
    CallOwes(mid, s, p, tid);
    hide Inv, Owes;
    EngineMoves(b, mid, CallWallet(s, p, tid), p);
  }

  lemma CallOwes(mid: State, s: State, p: Pid, tid: W.Tid)
    requires EnabledEngine(s, p, ECall(tid)) &&
      mid == s.(wallet := W.Do(s.wallet, W.Begin(tid, Payment(s.intents[Job(s, p)], Job(s, p)))))
    ensures Owes(mid, CallWallet(s, p, tid), p)
  {
  }

  lemma EmitOwes(s: State, p: Pid, stored: bool)
    requires EnabledEngine(s, p, EEmit(stored)) && EngineOk(s, p)
    ensures Owes(s, EmitEvent(s, p, stored), p)
  {
  }

  lemma AckOwes(s: State, p: Pid)
    requires EnabledEngine(s, p, EAck)
    ensures Owes(s, AckTask(s, p), p)
  {
  }

  lemma EngineKeeps(b: B.Books, s: State, p: Pid, a: EngineAct)
    requires Inv(b, s) && EnabledEngine(s, p, a)
    ensures Inv(b, DoEngine(s, p, a))
  {
    hide WalletOk, EngineOk, CompletedOk, Owes, Claim, FinishTask, CallWallet, EmitEvent, AckTask, EngineGoto;
    assert p in s.engines ==> EngineOk(s, p);
    match a
    case EDeliver(msg) =>
      DeliverOwes(s, p, msg);
      EngineMoves(b, s, DoEngine(s, p, a), p);
    case EClaim =>
      ClaimOwes(s, p);
      EngineMoves(b, s, Claim(s, p), p);
    case ERun(ok) =>
      RunOwes(s, p, ok);
      EngineMoves(b, s, EngineGoto(s, p, AtFinish(ok)), p);
    case ECall(tid) => CallKeeps(b, s, p, tid);
    case EReply(ok) =>
      ReplyOwes(b, s, p, ok);
      EngineMoves(b, s, EngineGoto(s, p, AtFinish(ok)), p);
    case EFinish =>
      FinishOwes(s, p);
      EngineMoves(b, s, FinishTask(s, p), p);
    case EEmit(stored) =>
      EmitOwes(s, p, stored);
      EngineMoves(b, s, EmitEvent(s, p, stored), p);
    case EAck =>
      AckOwes(s, p);
      EngineMoves(b, s, AckTask(s, p), p);
    case ECrash =>
      CrashOwes(s, p);
      EngineMoves(b, s, DoEngine(s, p, a), p);
  }

  lemma CrashOwes(s: State, p: Pid)
    requires EnabledEngine(s, p, ECrash)
    ensures Owes(s, DoEngine(s, p, ECrash), p)
  {
  }

  // ---------- the other services ----------

  lemma CreateKeeps(b: B.Books, s: State, id: Id, kind: Kind, order: Option<Order>, deadline: Option<int>, row: RowId)
    requires Inv(b, s) && id !in s.intents
    ensures Inv(b, CreateIntent(s, id, kind, order, deadline, row))
  {
    hide Inv;
    ElsewhereKeeps(b, s, CreateIntent(s, id, kind, order, deadline, row));
  }

  lemma OutboxKeeps(b: B.Books, s: State, p: Pid, a: OutboxAct)
    requires Inv(b, s) && EnabledOutbox(s, p, a)
    ensures Inv(b, DoOutbox(s, p, a))
  {
    hide Inv;
    SameRows(s.intents);
    match a {
      case OClaim(_) =>
      case OSend(_, _) =>
      case ODelete =>
      case ORequeue =>
      case OCrash =>
    }
    ElsewhereKeeps(b, s, DoOutbox(s, p, a));
  }

  lemma ValidatorKeeps(b: B.Books, s: State, p: Pid, a: ValidatorAct)
    requires Inv(b, s) && EnabledValidator(s, p, a)
    ensures Inv(b, DoValidator(s, p, a))
  {
    hide Inv;
    SameRows(s.intents);
    ElsewhereKeeps(b, s, DoValidator(s, p, a));
  }

  lemma StepKeeps(b: B.Books, s: State, step: Step)
    requires Inv(b, s) && Enabled(s, step)
    ensures Inv(b, Do(s, step))
  {
    hide Inv;
    match step
    case Create(id, kind, order, deadline, row) => CreateKeeps(b, s, id, kind, order, deadline, row);
    case Outbox(p, a) => OutboxKeeps(b, s, p, a);
    case Schedule(p, a) => SchedKeeps(b, s, p, a);
    case Engine(p, a) => EngineKeeps(b, s, p, a);
    case Validate(p, a) => ValidatorKeeps(b, s, p, a);
    case Wallet(w) => WalletKeeps(b, s, w);
  }

  // ---------- the theorem ----------

  lemma {:induction false} RunInvariant(b: B.Books, r: Run, i: nat)
    requires IsRun(b, r) && i < |r.states|
    ensures Inv(b, r.states[i])
  {
    if i > 0 {
      RunInvariant(b, r, i - 1);
      hide Inv;
      StepKeeps(b, r.states[i - 1], r.steps[i - 1]);
      assert r.states[i - 1 + 1] == Do(r.states[i - 1], r.steps[i - 1]);
    }
  }

  /**
   In every run no intent id has two wallet transactions, and a TRANSFER intent that
   shows COMPLETED has exactly one: its order's amount, from its order's sender to its
   order's recipient.
   */
  lemma AtMostOnce(b: B.Books, r: Run, i: nat, id: Id)
    requires IsRun(b, r) && i < |r.states| && B.DistinctRefs(b.audit)
    ensures var s := r.states[i];
      && B.RefCount(s.wallet.books.audit, id) <= 1
      && (Transfers(s, id) && s.intents[id].status.COMPLETED? ==>
           B.RefCount(s.wallet.books.audit, id) == 1 && Paid(s, id))
    ensures var s := r.states[i];
      Transfers(s, id) && s.intents[id].status.COMPLETED? ==>
        && s.intents[id].order.Some?
        && var o := s.intents[id].order.value;
           exists k :: 0 <= k < |s.wallet.books.audit| &&
             s.wallet.books.audit[k] == B.AuditRow(Some(o.from), Some(o.to), o.amount, id)
  {
    RunInvariant(b, r, i);
    var s := r.states[i];
    var audit := s.wallet.books.audit;
    assert WalletOk(b, s) && CompletedOk(s);
    hide S.Inv, Do, Enabled;
    B.RefsStayDistinct(b, S.Ops(s.wallet.history));
    B.RefCountOfDistinct(audit, id);
    if Transfers(s, id) && s.intents[id].status.COMPLETED? {
      var o := s.intents[id].order.value;
      var k :| 0 <= k < |audit| && audit[k] == B.AuditRow(Some(o.from), Some(o.to), o.amount, id);
      assert audit[k].ref == id;
    }
  }
}
