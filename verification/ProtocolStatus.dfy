/**
 Status only moves forward, and the ledger agrees with the database.

 The scheduler reads a row and later overwrites its status without looking again.
 Everything here is proved of runs in which each such write finds a row that it does
 not take back or take away (`Guarded`), and OrderExactlyWhen says that these are
 exactly the runs that keep the order.
 */
module ProtocolStatus {
  import opened Prelude
  import B = WalletBooks
  import W = WalletMachine
  import opened Protocol
  import F = ProtocolFrames

  /** A scheduler's write finds its row PENDING, or already as it is about to write it. */
  predicate Guarded(s: State, step: Step) {
    step.Schedule? && EnabledSched(s, step.p, step.d) && step.d.SWrite? && Subject(s, step.p) in s.intents ==>
      var status := s.intents[Subject(s, step.p)].status;
      status.PENDING? || status == Decided(s, step.p)
  }

  /** The status that a scheduler is about to write. */
  function Decided(s: State, p: Pid): Status
    requires p in s.schedulers
  {
    if s.schedulers[p].pc.AtSchedule? then SCHEDULED else FAILED
  }

  /** The moves that the life of an intent allows. */
  predicate Allowed(from: Status, to: Status) {
    || from == to
    || (from.PENDING? && (to.SCHEDULED? || to.FAILED?))
    || (from.SCHEDULED? && to.EXECUTING?)
    || (from.EXECUTING? && to.Terminal())
  }

  ghost predicate Forward(s: State, s': State) {
    forall id :: id in s.intents ==> id in s'.intents && Allowed(s.intents[id].status, s'.intents[id].status)
  }

  // ---------- the invariant ----------

  ghost predicate ClaimsOk(rows: map<Id, Row>, claims: map<Id, int>) {
    && (forall id :: id in claims ==> id in rows)
    && (forall id :: id in rows ==>
         match rows[id].status
         case PENDING => Get(claims, id) == 0
         case SCHEDULED => Get(claims, id) == 0
         case EXECUTING => Get(claims, id) == 1
         case COMPLETED => Get(claims, id) == 1
         case FAILED => 0 <= Get(claims, id) <= 1)
  }

  /** The worker has claimed the intent and not yet written its final status. */
  ghost predicate Holds(s: State, p: Pid) {
    p in s.engines && (s.engines[p].pc.AtRun? || s.engines[p].pc.AtWait? || s.engines[p].pc.AtFinish?)
  }

  /** The intent was executed, and its row shows this final status for good. */
  ghost predicate Settled(s: State, id: Id, status: Status) {
    id in s.intents && s.intents[id].status == status && status.Terminal() && Get(s.claims, id) == 1
  }

  ghost predicate EngineOk(s: State, p: Pid)
    requires p in s.engines
  {
    var x := s.engines[p];
    && x.msg < |s.tasks|
    && (Holds(s, p) ==> Job(s, p) in s.intents && s.intents[Job(s, p)].status.EXECUTING?)
    && (x.pc.AtEmit? ==> Settled(s, Job(s, p), x.pc.final))
  }

  ghost predicate EnginesOk(s: State) {
    && (forall p :: p in s.engines ==> EngineOk(s, p))
    && (forall p, q :: Holds(s, p) && Holds(s, q) && p != q ==> Job(s, p) != Job(s, q))
  }

  ghost predicate EventsOk(s: State) {
    forall i :: 0 <= i < |s.executed| ==> Settled(s, s.executed[i].intent, s.executed[i].status)
  }

  ghost predicate ValidatorOk(s: State, p: Pid)
    requires p in s.validators
  {
    var x := s.validators[p];
    && x.msg < |s.executed|
    && !x.pc.AtReject?
    && (x.pc.AtAppend? ==> Settled(s, Audited(s, p), x.pc.status) && s.intents[Audited(s, p)].kind == x.pc.kind)
  }

  ghost predicate ValidatorsOk(s: State) {
    forall p :: p in s.validators ==> ValidatorOk(s, p)
  }

  ghost predicate EntryOk(s: State, e: Entry) {
    Settled(s, e.intent, e.status) && s.intents[e.intent].kind == e.kind
  }

  ghost predicate LedgerOk(s: State) {
    forall i :: 0 <= i < |s.ledger| ==> EntryOk(s, s.ledger[i])
  }

  ghost predicate Inv(s: State) {
    ClaimsOk(s.intents, s.claims) && EnginesOk(s) && EventsOk(s) && ValidatorsOk(s) && LedgerOk(s)
  }

  // ---------- frames ----------

  /** Only rows and claim counts in `x` may differ, and none of these was settled. */
  ghost predicate Only(s: State, s': State, x: set<Id>) {
    && (forall id :: id in x && id in s.intents ==> !s.intents[id].status.Terminal())
    && (forall id :: id in s.intents && id !in x ==> id in s'.intents && s'.intents[id] == s.intents[id])
    && (forall id :: id !in x ==> Get(s'.claims, id) == Get(s.claims, id))
  }

  lemma SettledStays(s: State, s': State, x: set<Id>, id: Id, status: Status)
    requires Only(s, s', x) && Settled(s, id, status)
    ensures Settled(s', id, status) && s'.intents[id].kind == s.intents[id].kind
  {
  }

  lemma RecordsStay(s: State, s': State, x: set<Id>)
    requires Only(s, s', x) && EventsOk(s) && ValidatorsOk(s) && LedgerOk(s)
    requires s'.executed == s.executed && s'.validators == s.validators && s'.ledger == s.ledger
    ensures EventsOk(s') && ValidatorsOk(s') && LedgerOk(s')
  {
    hide Only, Settled;
    forall i | 0 <= i < |s'.executed| ensures Settled(s', s'.executed[i].intent, s'.executed[i].status) {
      SettledStays(s, s', x, s.executed[i].intent, s.executed[i].status);
    }
    forall p | p in s'.validators ensures ValidatorOk(s', p) {
      assert ValidatorOk(s, p);
      if s.validators[p].pc.AtAppend? {
        SettledStays(s, s', x, Audited(s, p), s.validators[p].pc.status);
      }
    }
    forall i | 0 <= i < |s'.ledger| ensures EntryOk(s', s'.ledger[i]) {
      assert EntryOk(s, s.ledger[i]);
      SettledStays(s, s', x, s.ledger[i].intent, s.ledger[i].status);
    }
  }

  /** An engine whose own intent is not the one that changes is not disturbed. */
  lemma EngineStays(s: State, s': State, x: set<Id>, q: Pid)
    requires Only(s, s', x) && F.TasksKept(s.tasks, s'.tasks)
    requires q in s.engines && EngineOk(s, q) && q in s'.engines && s'.engines[q] == s.engines[q]
    requires Holds(s, q) ==> Job(s, q) !in x
    ensures EngineOk(s', q) && Job(s', q) == Job(s, q)
  {
    if s.engines[q].pc.AtEmit? {
      SettledStays(s, s', x, Job(s, q), s.engines[q].pc.final);
    }
  }

  /** All engines but `p` are as they were. */
  ghost predicate OthersSame(s: State, s': State, p: Pid) {
    forall q :: q in s'.engines && q != p ==> q in s.engines && s'.engines[q] == s.engines[q]
  }

  lemma EnginesStay(s: State, s': State, x: set<Id>, p: Pid)
    requires EnginesOk(s) && Only(s, s', x) && F.TasksKept(s.tasks, s'.tasks) && OthersSame(s, s', p)
    requires forall q :: Holds(s, q) && q != p ==> Job(s, q) !in x
    requires p in s'.engines ==> EngineOk(s', p)
    requires Holds(s', p) ==> (Holds(s, p) && Job(s', p) == Job(s, p)) || Job(s', p) in x
    ensures EnginesOk(s')
  {
    hide Only, F.TasksKept, EngineOk;
    forall q | q in s'.engines && q != p ensures EngineOk(s', q) && Job(s', q) == Job(s, q) &&
      (Holds(s', q) <==> Holds(s, q)) {
      assert EngineOk(s, q);
      EngineStays(s, s', x, q);
    }
  }

  // ---------- steps that change no status ----------

  /** A step elsewhere: at most a task is added or acknowledged. */
  ghost predicate Quiet(s: State, s': State) {
    && s'.intents == s.intents && s'.claims == s.claims && F.TasksKept(s.tasks, s'.tasks)
    && s'.engines == s.engines && s'.executed == s.executed && s'.validators == s.validators && s'.ledger == s.ledger
  }

  lemma QuietKeeps(s: State, s': State)
    requires Inv(s) && Quiet(s, s')
    ensures Inv(s') && Forward(s, s')
  {
    EnginesStayQuiet(s, s', 0);
    hide EnginesOk, ClaimsOk, ValidatorsOk, EventsOk, LedgerOk, F.TasksKept;
    RecordsStay(s, s', {});
  }

  lemma EnginesStayQuiet(s: State, s': State, p: Pid)
    requires EnginesOk(s) && s'.intents == s.intents && s'.claims == s.claims && F.TasksKept(s.tasks, s'.tasks) &&
      OthersSame(s, s', p)
    requires p in s'.engines ==> (p in s.engines && s'.engines[p] == s.engines[p]) || EngineOk(s', p)
    requires Holds(s', p) ==> Holds(s, p) && s'.engines[p].msg == s.engines[p].msg
    ensures EnginesOk(s')
  {
    assert Only(s, s', {});
    hide Only;
    if p in s.engines {
      assert EngineOk(s, p);
      if p in s'.engines && s'.engines[p] == s.engines[p] {
        EngineStays(s, s', {}, p);
      }
    }
    EnginesStay(s, s', {}, p);
  }

  /** One worker moves along without touching a row. */
  lemma WorkerKeeps(s: State, s': State, p: Pid)
    requires Inv(s) && s'.intents == s.intents && s'.claims == s.claims && F.TasksKept(s.tasks, s'.tasks) &&
      OthersSame(s, s', p)
    requires s'.executed == s.executed && s'.validators == s.validators && s'.ledger == s.ledger
    requires p in s'.engines ==> EngineOk(s', p)
    requires Holds(s', p) ==> Holds(s, p) && s'.engines[p].msg == s.engines[p].msg
    ensures Inv(s') && Forward(s, s')
  {
    EnginesStayQuiet(s, s', p);
    hide EnginesOk, ClaimsOk, ValidatorsOk, EventsOk, LedgerOk, F.TasksKept;
    RecordsStay(s, s', {});
  }

  // ---------- steps that change a status ----------

  lemma CreateKeeps(s: State, id: Id, kind: Kind, order: Option<Order>, deadline: Option<int>, row: RowId)
    requires Inv(s) && id !in s.intents
    ensures Inv(CreateIntent(s, id, kind, order, deadline, row))
    ensures Forward(s, CreateIntent(s, id, kind, order, deadline, row))
  {
    var s' := CreateIntent(s, id, kind, order, deadline, row);
    forall q | Holds(s, q) ensures Job(s, q) != id {
      assert EngineOk(s, q);
    }
    forall q | q in s.engines ensures EngineOk(s', q) && Job(s', q) == Job(s, q) {
      assert EngineOk(s, q);
      EngineStays(s, s', {id}, q);
    }
    RecordsStay(s, s', {id});
  }

  lemma HeldIsExecuting(s: State, id: Id)
    requires EnginesOk(s) && id in s.intents && !s.intents[id].status.EXECUTING?
    ensures forall q :: Holds(s, q) ==> Job(s, q) != id
  {
    forall q | Holds(s, q) ensures Job(s, q) != id {
      assert EngineOk(s, q);
    }
  }

  /** One row moves: everything follows once the row was not settled and no other worker holds it. */
  lemma RowMoves(s: State, s': State, id: Id, p: Pid)
    requires Inv(s) && id in s.intents && !s.intents[id].status.Terminal()
    requires id in s'.intents && s'.intents == Mark(s.intents, id, s'.intents[id].status) &&
      ClaimsOk(s'.intents, s'.claims)
    requires forall i :: i != id ==> Get(s'.claims, i) == Get(s.claims, i)
    requires s'.executed == s.executed && s'.validators == s.validators && s'.ledger == s.ledger
    requires F.TasksKept(s.tasks, s'.tasks) && OthersSame(s, s', p)
    requires forall q :: Holds(s, q) && q != p ==> Job(s, q) != id
    requires p in s'.engines ==> EngineOk(s', p)
    requires Holds(s', p) ==> Job(s', p) == id
    ensures Inv(s')
  {
    assert Only(s, s', {id});
    hide Only, EngineOk, F.TasksKept, OthersSame, ClaimsOk, EventsOk, LedgerOk;
    EnginesStay(s, s', {id}, p);
    RecordsStay(s, s', {id});
  }

  lemma MarkForward(s: State, s': State, id: Id, status: Status)
    requires s'.intents == Mark(s.intents, id, status)
    requires id in s.intents ==> Allowed(s.intents[id].status, status)
    ensures Forward(s, s')
  {
  }

  lemma MarkClaims(rows: map<Id, Row>, claims: map<Id, int>, id: Id, status: Status)
    requires ClaimsOk(rows, claims) && id in rows && Allowed(rows[id].status, status)
    ensures ClaimsOk(Mark(rows, id, status), if rows[id].status.SCHEDULED? &&
      status.EXECUTING? then claims[id := Get(claims, id) + 1] else claims)
  {
  }

  lemma DecisionKeeps(s: State, p: Pid, status: Status, pc: SchedPc)
    requires Inv(s) && p in s.schedulers && (status.SCHEDULED? || status.FAILED?)
    requires Subject(s, p) in s.intents ==> s.intents[Subject(s, p)].status.PENDING?
    ensures var s' := SchedGoto(SetStatus(s, Subject(s, p), status), p, pc); Inv(s') && Forward(s, s')
  {
    var id, s' := Subject(s, p), SchedGoto(SetStatus(s, Subject(s, p), status), p, pc);
    MarkForward(s, s', id, status);
    if id in s.intents {
      MarkClaims(s.intents, s.claims, id, status);
      HeldIsExecuting(s, id);
      assert OthersSame(s, s', 0) && forall q :: q in s.engines ==> EngineOk(s, q);
      forall q | q in s'.engines ensures EngineOk(s', q) {
        assert Only(s, s', {id});
        EngineStays(s, s', {id}, q);
      }
      assert EnginesOk(s');
      RecordsStay(s, s', {id});
    } else {
      QuietKeeps(s, s');
    }
  }

  lemma SchedKeeps(s: State, p: Pid, a: SchedAct)
    requires Inv(s) && EnabledSched(s, p, a) && Guarded(s, Schedule(p, a))
    ensures Inv(DoSched(s, p, a)) && Forward(s, DoSched(s, p, a))
  {
    if a.SWrite? {
      var asked := s.schedulers[p].pc.AtSchedule?;
      if Subject(s, p) in s.intents && !s.intents[Subject(s, p)].status.PENDING? {
        RewriteQuiet(s, p);
        hide Inv, Quiet, WriteDecision;
        QuietKeeps(s, WriteDecision(s, p));
      } else {
        DecisionKeeps(s, p, Decided(s, p), if asked then AtPublish else AtAck);
      }
    } else {
      var s' := DoSched(s, p, a);
      SchedQuiet(s, p, a);
      assert s'.intents == s.intents;
      hide Inv, DoSched, Quiet;
      QuietKeeps(s, s');
    }
  }

  /** Writing what is there already changes no row. */
  lemma RewriteQuiet(s: State, p: Pid)
    requires p in s.schedulers && Subject(s, p) in s.intents && s.intents[Subject(s, p)].status == Decided(s, p)
    ensures Quiet(s, WriteDecision(s, p))
  {
    assert Mark(s.intents, Subject(s, p), Decided(s, p)) == s.intents;
    hide Mark, Subject;
  }

  lemma PublishQuiet(s: State, p: Pid, stored: bool, ok: bool)
    requires p in s.schedulers
    ensures Quiet(s, PublishTask(s, p, stored, ok))
  {
  }

  lemma SchedQuiet(s: State, p: Pid, a: SchedAct)
    requires EnabledSched(s, p, a) && !a.SWrite?
    ensures Quiet(s, DoSched(s, p, a))
  {
    match a
    case SDeliver(_) =>
    case SRead(_) =>
    case SPublish(stored, ok) => PublishQuiet(s, p, stored, ok);
    case SRepublish(stored) => PublishQuiet(s, p, stored, true);
    case SAck =>
    case SCrash =>
  }

  // ---------- the engine ----------

  lemma ClaimWins(s: State, p: Pid)
    requires Inv(s) && EnabledEngine(s, p, EClaim)
    requires Job(s, p) in s.intents && s.intents[Job(s, p)].status.SCHEDULED?
    ensures Inv(Claim(s, p)) && Forward(s, Claim(s, p))
  {
    var id, s' := Job(s, p), Claim(s, p);
    MarkForward(s, s', id, EXECUTING);
    MarkClaims(s.intents, s.claims, id, EXECUTING);
    HeldIsExecuting(s, id);
    ClaimedOk(s, p);
    hide Inv, ClaimsOk, Mark, EngineOk, Forward, EnabledEngine;
    RowMovesBy(s, s', id, p, EXECUTING);
  }

  lemma ClaimedOk(s: State, p: Pid)
    requires p in s.engines && s.engines[p].msg < |s.tasks|
    requires Job(s, p) in s.intents && s.intents[Job(s, p)].status.SCHEDULED?
    ensures p in Claim(s, p).engines && Job(Claim(s, p), p) == Job(s, p) && EngineOk(Claim(s, p), p)
  {
    hide Settled, Get;
  }

  lemma ClaimSkips(s: State, p: Pid)
    requires Inv(s) && EnabledEngine(s, p, EClaim)
    requires Job(s, p) in s.intents ==> !s.intents[Job(s, p)].status.SCHEDULED?
    ensures Inv(Claim(s, p)) && Forward(s, Claim(s, p))
  {
    hide Inv;
    WorkerKeeps(s, Claim(s, p), p);
  }

  lemma ClaimKeeps(s: State, p: Pid)
    requires Inv(s) && EnabledEngine(s, p, EClaim)
    ensures Inv(Claim(s, p)) && Forward(s, Claim(s, p))
  {
    hide Inv, Forward, Claim;
    if Job(s, p) in s.intents && s.intents[Job(s, p)].status.SCHEDULED? {
      ClaimWins(s, p);
    } else {
      ClaimSkips(s, p);
    }
  }

  /** RowMoves with the new status named. */
  lemma RowMovesBy(s: State, s': State, id: Id, p: Pid, status: Status)
    requires Inv(s) && id in s.intents && !s.intents[id].status.Terminal()
    requires s'.intents == Mark(s.intents, id, status) && ClaimsOk(s'.intents, s'.claims)
    requires forall i :: i != id ==> Get(s'.claims, i) == Get(s.claims, i)
    requires s'.executed == s.executed && s'.validators == s.validators && s'.ledger == s.ledger
    requires F.TasksKept(s.tasks, s'.tasks) && OthersSame(s, s', p)
    requires forall q :: Holds(s, q) && q != p ==> Job(s, q) != id
    requires p in s'.engines ==> EngineOk(s', p)
    requires Holds(s', p) ==> Job(s', p) == id
    ensures Inv(s')
  {
    hide Inv, ClaimsOk, F.TasksKept, OthersSame, EngineOk;
    RowMoves(s, s', id, p);
  }

  lemma FinishKeeps(s: State, p: Pid)
    requires Inv(s) && EnabledEngine(s, p, EFinish)
    ensures Inv(FinishTask(s, p)) && Forward(s, FinishTask(s, p))
  {
    var id, s' := Job(s, p), FinishTask(s, p);
    var final := FinalStatus(s.engines[p].pc.ok);
    assert Holds(s, p) && EngineOk(s, p);
    MarkForward(s, s', id, final);
    MarkClaims(s.intents, s.claims, id, final);
    assert Job(s', p) == id && EngineOk(s', p);
    assert forall q :: Holds(s, q) && q != p ==> Job(s, q) != id;
    hide Inv, ClaimsOk, Mark, FinalStatus, EnginesOk, EngineOk;
    RowMovesBy(s, s', id, p, final);
  }

  lemma EmitKeeps(s: State, p: Pid, stored: bool)
    requires Inv(s) && EnabledEngine(s, p, EEmit(stored))
    ensures Inv(EmitEvent(s, p, stored)) && Forward(s, EmitEvent(s, p, stored))
  {
    var s' := EmitEvent(s, p, stored);
    assert EngineOk(s, p);
    EnginesStayQuiet(s, s', p);
    assert EventsOk(s');
    assert ValidatorsOk(s') by {
      forall q | q in s'.validators ensures ValidatorOk(s', q) {
        assert ValidatorOk(s, q);
      }
    }
    assert LedgerOk(s');
  }

  /** A worker that holds its intent goes on holding it. */
  lemma RunsOn(s: State, t: State, p: Pid, pc: EnginePc)
    requires Inv(s) && t == s.(wallet := t.wallet) && Holds(s, p) && (pc.AtWait? || pc.AtFinish?)
    ensures Inv(EngineGoto(t, p, pc)) && Forward(s, EngineGoto(t, p, pc))
  {
    assert EngineOk(s, p);
    hide Inv, Forward, Settled;
    WorkerKeeps(s, EngineGoto(t, p, pc), p);
  }

  lemma MoveAlongKeeps(s: State, p: Pid, a: EngineAct)
    requires Inv(s) && EnabledEngine(s, p, a) && !a.EClaim? && !a.EFinish? && !a.EEmit?
    ensures Inv(DoEngine(s, p, a)) && Forward(s, DoEngine(s, p, a))
  {
    assert p in s.engines ==> EngineOk(s, p);
    hide Inv, Forward, Settled, W.Do;
    match a
    case EDeliver(_) => WorkerKeeps(s, DoEngine(s, p, a), p);
    case ERun(ok) => RunsOn(s, s, p, AtFinish(ok));
    case ECall(tid) =>
      RunsOn(s, s.(wallet := W.Do(s.wallet, W.Begin(tid, Payment(s.intents[Job(s, p)], Job(s, p))))), p, AtWait(tid));
    case EReply(ok) => RunsOn(s, s, p, AtFinish(ok));
    case EAck => WorkerKeeps(s, AckTask(s, p), p);
    case ECrash => WorkerKeeps(s, DoEngine(s, p, a), p);
  }

  lemma EngineKeeps(s: State, p: Pid, a: EngineAct)
    requires Inv(s) && EnabledEngine(s, p, a)
    ensures Inv(DoEngine(s, p, a)) && Forward(s, DoEngine(s, p, a))
  {
    hide Inv, Forward, Claim, FinishTask, EmitEvent;
    match a
    case EClaim => ClaimKeeps(s, p);
    case EFinish => FinishKeeps(s, p);
    case EEmit(stored) => EmitKeeps(s, p, stored);
    case _ => MoveAlongKeeps(s, p, a);
  }

  // ---------- the validator ----------

  lemma ValidatorMoves(s: State, s': State, p: Pid)
    requires Inv(s) && s'.intents == s.intents && s'.claims == s.claims && s'.tasks == s.tasks &&
      s'.engines == s.engines
    requires |s'.executed| == |s.executed|
    requires forall i :: 0 <= i < |s.executed| ==>
      s'.executed[i].intent == s.executed[i].intent && s'.executed[i].status == s.executed[i].status
    requires forall q :: q in s'.validators && q != p ==> q in s.validators && s'.validators[q] == s.validators[q]
    requires (p in s'.validators ==> ValidatorOk(s', p)) && LedgerOk(s')
    ensures Inv(s')
  {
    hide LedgerOk, ClaimsOk;
    EnginesStayQuiet(s, s', 0);
    forall q | q in s'.validators ensures ValidatorOk(s', q) {
      if q != p {
        assert ValidatorOk(s, q);
        assert Audited(s', q) == Audited(s, q);
      }
    }
  }

  lemma CheckKeeps(s: State, p: Pid)
    requires Inv(s) && EnabledValidator(s, p, VCheck)
    ensures Inv(ValidatorGoto(s, p, Check(s, Audited(s, p)))) && !Check(s, Audited(s, p)).AtReject?
  {
    var event := s.executed[s.validators[p].msg];
    assert Settled(s, event.intent, event.status);
    ValidatorMoves(s, ValidatorGoto(s, p, Check(s, Audited(s, p))), p);
  }

  lemma AppendKeeps(s: State, p: Pid)
    requires Inv(s) && EnabledValidator(s, p, VAppend)
    ensures Inv(DoValidator(s, p, VAppend))
  {
    var s' := DoValidator(s, p, VAppend);
    assert ValidatorOk(s, p);
    forall i | 0 <= i < |s'.ledger| ensures EntryOk(s', s'.ledger[i]) {
      if i < |s.ledger| {
        assert EntryOk(s, s.ledger[i]);
      }
    }
    ValidatorMoves(s, s', p);
  }

  lemma ValidatorKeeps(s: State, p: Pid, a: ValidatorAct)
    requires Inv(s) && EnabledValidator(s, p, a)
    ensures Inv(DoValidator(s, p, a))
  {
    match a
    case VDeliver(_) => ValidatorMoves(s, DoValidator(s, p, a), p);
    case VCheck => CheckKeeps(s, p);
    case VAppend => AppendKeeps(s, p);
    case VAck => ValidatorMoves(s, DoValidator(s, p, a), p);
    case VCrash => ValidatorMoves(s, DoValidator(s, p, a), p);
  }

  // ---------- whole runs ----------

  lemma StepKeeps(s: State, step: Step)
    requires Inv(s) && Enabled(s, step) && Guarded(s, step)
    ensures Inv(Do(s, step)) && Forward(s, Do(s, step)) && s.ledger <= Do(s, step).ledger
  {
    hide Inv, DoOutbox, DoEngine, DoValidator, DoSched, CreateIntent, EnabledEngine, EnabledSched, EnabledOutbox,
      EnabledValidator;
    match step
    case Create(id, kind, order, deadline, row) =>
      CreateKeeps(s, id, kind, order, deadline, row);
      CreateFrame(s, id, kind, order, deadline, row);
    case Outbox(p, a) =>
      OutboxQuiet(s, p, a);
      QuietKeeps(s, DoOutbox(s, p, a));
    case Schedule(p, a) =>
      SchedKeeps(s, p, a);
      F.SchedFrame(s, p, a);
    case Engine(p, a) =>
      EngineKeeps(s, p, a);
      F.EngineFrame(s, p, a);
    case Validate(p, a) =>
      ValidatorKeeps(s, p, a);
      ValidatorFrame(s, p, a);
    case Wallet(w) =>
      hide W.Do, W.Enabled;
      QuietKeeps(s, s.(wallet := W.Do(s.wallet, w)));
  }

  lemma CreateFrame(s: State, id: Id, kind: Kind, order: Option<Order>, deadline: Option<int>, row: RowId)
    ensures CreateIntent(s, id, kind, order, deadline, row).ledger == s.ledger
  {
  }

  lemma OutboxQuiet(s: State, p: Pid, a: OutboxAct)
    requires EnabledOutbox(s, p, a)
    ensures Quiet(s, DoOutbox(s, p, a))
  {
    match a
    case OClaim(_) =>
    case OSend(_, _) =>
    case ODelete =>
    case ORequeue =>
    case OCrash =>
  }

  lemma ValidatorFrame(s: State, p: Pid, a: ValidatorAct)
    requires EnabledValidator(s, p, a)
    ensures DoValidator(s, p, a).intents == s.intents && s.ledger <= DoValidator(s, p, a).ledger
  {
  }

  ghost predicate GuardedRun(b: B.Books, r: Run) {
    IsRun(b, r) && forall i :: 0 <= i < |r.steps| ==> Guarded(r.states[i], r.steps[i])
  }

  lemma {:induction false} RunInvariant(b: B.Books, r: Run, i: nat)
    requires GuardedRun(b, r) && i < |r.states|
    ensures Inv(r.states[i])
  {
    if i > 0 {
      RunInvariant(b, r, i - 1);
      RunStep(b, r, i - 1);
    } else {
      StartOk(b);
    }
  }

  lemma StartOk(b: B.Books)
    ensures Inv(Start(b))
  {
  }

  lemma RunStep(b: B.Books, r: Run, i: nat)
    requires GuardedRun(b, r) && i + 1 < |r.states| && Inv(r.states[i])
    ensures Inv(r.states[i + 1]) && Forward(r.states[i], r.states[i + 1]) &&
      r.states[i].ledger <= r.states[i + 1].ledger
  {
    hide Inv, Enabled, Do, Forward;
    assert Guarded(r.states[i], r.steps[i]) && r.states[i + 1] == Do(r.states[i], r.steps[i]);
    StepKeeps(r.states[i], r.steps[i]);
  }

  lemma ClaimedOnce(s: State, id: Id)
    requires Inv(s)
    ensures 0 <= Get(s.claims, id) <= 1
  {
    hide EnginesOk, EventsOk, ValidatorsOk, LedgerOk;
  }

  /** What a status may have become any number of steps later. */
  predicate Later(from: Status, to: Status) {
    from == to || from.PENDING? || (from.SCHEDULED? && !to.PENDING?) || (from.EXECUTING? && to.Terminal())
  }

  /**
   Status only moves forward: one step at a time along the allowed moves, over any
   stretch of a run without ever coming back, and the claim succeeds at most once.
   */
  lemma {:induction false} StatusMovesForward(b: B.Books, r: Run, i: nat, j: nat, id: Id)
    requires GuardedRun(b, r) && i <= j < |r.states| && id in r.states[i].intents
    ensures id in r.states[j].intents && Later(r.states[i].intents[id].status, r.states[j].intents[id].status)
    ensures r.states[i].intents[id].status.Terminal() ==>
      r.states[j].intents[id].status == r.states[i].intents[id].status
    ensures j > i ==>
      id in r.states[j - 1].intents && Allowed(r.states[j - 1].intents[id].status, r.states[j].intents[id].status)
    ensures 0 <= Get(r.states[j].claims, id) <= 1
  {
    hide GuardedRun, Inv, ClaimsOk;
    RunInvariant(b, r, j);
    if i < j {
      StatusMovesForward(b, r, i, j - 1, id);
      RunInvariant(b, r, j - 1);
      RunStep(b, r, j - 1);
    }
    ClaimedOnce(r.states[j], id);
  }

  lemma {:induction false} LedgerGrows(b: B.Books, r: Run, i: nat, j: nat)
    requires GuardedRun(b, r) && i <= j < |r.states|
    ensures r.states[i].ledger <= r.states[j].ledger
  {
    hide Inv, GuardedRun;
    if i < j {
      LedgerGrows(b, r, i, j - 1);
      RunInvariant(b, r, j - 1);
      hide *;
      RunStep(b, r, j - 1);
    }
  }

  /**
   Every ledger entry names an intent that was executed and carries the type and the
   final status that the database shows now and in all later states, and entries for
   one intent agree.
   */
  lemma LedgerAgrees(b: B.Books, r: Run, i: nat, j: nat, k: nat)
    requires GuardedRun(b, r) && i <= j < |r.states| && k < |r.states[i].ledger|
    ensures var e, s := r.states[i].ledger[k], r.states[j];
      && k < |s.ledger| && s.ledger[k] == e
      && e.intent in s.intents && s.intents[e.intent].kind == e.kind && s.intents[e.intent].status == e.status
      && e.status.Terminal() && Get(s.claims, e.intent) == 1
      && (forall l :: 0 <= l < |s.ledger| && s.ledger[l].intent == e.intent ==> s.ledger[l] == e)
  {
    hide GuardedRun;
    LedgerGrows(b, r, i, j);
    RunInvariant(b, r, j);
    var e, s := r.states[i].ledger[k], r.states[j];
    assert s.ledger[k] == e && EntryOk(s, e);
    forall l | 0 <= l < |s.ledger| && s.ledger[l].intent == e.intent ensures s.ledger[l] == e {
      assert EntryOk(s, s.ledger[l]);
    }
  }

  /** No validator ever meets a status that is not final. */
  lemma NeverRejected(b: B.Books, r: Run, i: nat)
    requires GuardedRun(b, r) && i < |r.states|
    ensures forall p :: p in r.states[i].validators ==> !r.states[i].validators[p].pc.AtReject?
  {
    hide GuardedRun;
    RunInvariant(b, r, i);
    forall p | p in r.states[i].validators ensures !r.states[i].validators[p].pc.AtReject? {
      assert ValidatorOk(r.states[i], p);
    }
  }

  // ---------- the order, exactly ----------

  /** What is executing goes on executing. */
  ghost predicate StillExecuting(rows: map<Id, Row>, rows': map<Id, Row>) {
    forall id :: id in rows && rows[id].status.EXECUTING? ==> id in rows' && rows'[id].status.EXECUTING?
  }

  /** One step keeps the order: statuses move forward, and only the engine's final write ends an execution. */
  ghost predicate InOrder(s: State, step: Step, s': State) {
    Forward(s, s') && ((step.Engine? && step.e.EFinish?) || StillExecuting(s.intents, s'.intents))
  }

  lemma WriteIs(s: State, p: Pid)
    requires p in s.schedulers
    ensures WriteDecision(s, p).intents == Mark(s.intents, Subject(s, p), Decided(s, p))
  {
    hide Mark, Subject;
  }

  /** Which of the scheduler's two statuses may be written over which. */
  lemma MarkInOrder(s: State, s': State, id: Id, status: Status)
    requires id in s.intents && s'.intents == Mark(s.intents, id, status) && (status.SCHEDULED? || status.FAILED?)
    ensures Forward(s, s') && StillExecuting(s.intents, s'.intents) <==>
      s.intents[id].status.PENDING? || s.intents[id].status == status
  {
    assert s'.intents[id].status == status;
    assert forall i :: i in s.intents && i != id ==> i in s'.intents && s'.intents[i] == s.intents[i];
    hide Mark;
  }

  /**
   A single write keeps the order exactly when it is guarded: on any row but a PENDING one
   it may only write what is there.
   */
  lemma WriteInOrderExactlyWhen(s: State, p: Pid)
    requires EnabledSched(s, p, SWrite)
    ensures InOrder(s, Schedule(p, SWrite), WriteDecision(s, p)) <==> Guarded(s, Schedule(p, SWrite))
  {
    WriteIs(s, p);
    hide WriteDecision, Forward, StillExecuting;
    if Subject(s, p) in s.intents {
      MarkInOrder(s, WriteDecision(s, p), Subject(s, p), Decided(s, p));
    } else {
      NothingMoves(s, WriteDecision(s, p));
    }
  }

  lemma NothingMoves(s: State, s': State)
    requires s'.intents == s.intents
    ensures Forward(s, s') && StillExecuting(s.intents, s'.intents)
  {
  }

  lemma InOrderIsGuarded(s: State, step: Step)
    requires Enabled(s, step) && InOrder(s, step, Do(s, step))
    ensures Guarded(s, step)
  {
    if step.Schedule? && step.d.SWrite? {
      hide InOrder, Guarded, WriteDecision, EnabledSched;
      WriteInOrderExactlyWhen(s, step.p);
    }
  }

  /** Executions are ended by nobody else. */
  lemma ExecutingStays(s: State, step: Step)
    requires Enabled(s, step) && Guarded(s, step) && !(step.Engine? && step.e.EFinish?)
    ensures StillExecuting(s.intents, Do(s, step).intents)
  {
    match step
    case Create(_, _, _, _, _) =>
    case Outbox(p, a) => OutboxQuiet(s, p, a); hide DoOutbox, EnabledOutbox;
    case Schedule(p, a) =>
      if a.SWrite? {
        WriteSpares(s, p);
      } else {
        F.SchedFrame(s, p, a);
      }
      hide DoSched, EnabledSched;
    case Engine(p, a) =>
      if a.EClaim? {
        ClaimSpares(s, p);
      } else {
        F.EngineFrame(s, p, a);
      }
      hide DoEngine, EnabledEngine;
    case Validate(p, a) => ValidatorFrame(s, p, a); hide DoValidator, EnabledValidator;
    case Wallet(w) => hide W.Do, W.Enabled;
  }

  lemma InOrderSpares(s: State, step: Step, s': State)
    requires InOrder(s, step, s') && !step.Engine?
    ensures StillExecuting(s.intents, s'.intents)
  {
  }

  lemma WriteSpares(s: State, p: Pid)
    requires EnabledSched(s, p, SWrite) && Guarded(s, Schedule(p, SWrite))
    ensures StillExecuting(s.intents, DoSched(s, p, SWrite).intents)
  {
    hide InOrder, WriteDecision, Subject;
    WriteInOrderExactlyWhen(s, p);
    InOrderSpares(s, Schedule(p, SWrite), WriteDecision(s, p));
  }

  lemma ClaimSpares(s: State, p: Pid)
    requires EnabledEngine(s, p, EClaim)
    ensures StillExecuting(s.intents, DoEngine(s, p, EClaim).intents)
  {
    var t := DoEngine(s, p, EClaim);
    assert t.intents == s.intents || t.intents == Mark(s.intents, Job(s, p), EXECUTING);
    hide DoEngine, Claim;
  }

  /**
   The order is kept over a whole run exactly when every write of the scheduler finds
   its row PENDING or already as it is about to write it.
   */
  lemma OrderExactlyWhen(b: B.Books, r: Run)
    requires IsRun(b, r)
    ensures GuardedRun(b, r) <==> forall i :: 0 <= i < |r.steps| ==> InOrder(r.states[i], r.steps[i], r.states[i + 1])
  {
    if GuardedRun(b, r) {
      forall i | 0 <= i < |r.steps| ensures InOrder(r.states[i], r.steps[i], r.states[i + 1]) {
        GuardedIsInOrder(b, r, i);
      }
    }
    if forall i :: 0 <= i < |r.steps| ==> InOrder(r.states[i], r.steps[i], r.states[i + 1]) {
      hide InOrder, Guarded, Do, Enabled;
      forall i | 0 <= i < |r.steps| ensures Guarded(r.states[i], r.steps[i]) {
        assert Enabled(r.states[i], r.steps[i]) && r.states[i + 1] == Do(r.states[i], r.steps[i]);
        InOrderIsGuarded(r.states[i], r.steps[i]);
      }
    }
  }

  lemma GuardedIsInOrder(b: B.Books, r: Run, i: nat)
    requires GuardedRun(b, r) && i < |r.steps| && |r.states| == |r.steps| + 1
    ensures InOrder(r.states[i], r.steps[i], r.states[i + 1])
  {
    hide Inv, Guarded, Do, Enabled, Forward;
    assert Enabled(r.states[i], r.steps[i]) && Guarded(r.states[i], r.steps[i]) &&
      r.states[i + 1] == Do(r.states[i], r.steps[i]);
    hide GuardedRun;
    RunInvariant(b, r, i);
    RunStep(b, r, i);
    if !(r.steps[i].Engine? && r.steps[i].e.EFinish?) {
      ExecutingStays(r.states[i], r.steps[i]);
    }
  }
}
