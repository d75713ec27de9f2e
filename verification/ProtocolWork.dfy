/**
 A SCHEDULED intent never loses its work item.

 Deliveries are not restricted: a message may be with any number of schedulers at once.
 What counts is what the scheduler's write finds (`Covered`), and that the
 re-publication for an already scheduled intent, whose error the scheduler ignores,
 is stored.  WorkIsKeptExactlyWhen says for which runs no work is ever lost;
 ExclusiveRunsAreCovered and GuardedRunsAreCovered name two kinds of run that qualify.
 */
module ProtocolWork {
  import opened Prelude
  import B = WalletBooks
  import W = WalletMachine
  import opened Protocol
  import F = ProtocolFrames
  import D = ProtocolDelivery
  import S = ProtocolStatus
  import P = ProtocolRepeats

  ghost predicate Waits(s: State, id: Id) {
    id in s.intents && s.intents[id].status.SCHEDULED?
  }

  /** A task message that is still delivered and whose claim nobody has tried. */
  ghost predicate Untried(s: State, k: nat, id: Id) {
    k < |s.tasks| && s.tasks[k].intent == id && !s.tasks[k].tried && !s.tasks[k].acked
  }

  /** An unacknowledged submission that no scheduler has already done with: whoever handles it will publish a task. */
  ghost predicate WillPublish(s: State, m: nat, id: Id) {
    && m < |s.submitted| && s.submitted[m].intent == id && !s.submitted[m].acked
    && forall p :: p in s.schedulers && s.schedulers[p].msg == m ==> !s.schedulers[p].pc.AtAck?
  }

  ghost predicate HasWork(s: State, id: Id) {
    (exists k :: Untried(s, k, id)) || (exists m :: WillPublish(s, m, id))
  }

  ghost predicate NoneLost(s: State) {
    forall id :: Waits(s, id) ==> HasWork(s, id)
  }

  ghost predicate Handlers(s: State) {
    forall p :: p in s.schedulers ==> s.schedulers[p].msg < |s.submitted|
  }

  ghost predicate Inv(s: State) {
    Handlers(s) && NoneLost(s)
  }

  lemma InvKeepsWork(s: State)
    requires Inv(s)
    ensures NoneLost(s)
  {
  }

  // ---------- the two steps that can lose work ----------

  predicate Schedules(s: State, step: Step) {
    step.Schedule? && EnabledSched(s, step.p, step.d) && step.d.SWrite? && s.schedulers[step.p].pc.AtSchedule? &&
      Subject(s, step.p) in s.intents
  }

  /** A scheduling write finds its intent SCHEDULED already, or its own message still to be handled. */
  ghost predicate Covered(s: State, step: Step) {
    Schedules(s, step) ==> Waits(s, Subject(s, step.p)) || WillPublish(s, s.schedulers[step.p].msg, Subject(s, step.p))
  }

  predicate Republished(step: Step) {
    step.Schedule? && step.d.SRepublish? ==> step.d.stored
  }

  /** Work for the intent other than one message. */
  ghost predicate OtherWork(s: State, msg: nat, id: Id) {
    (exists k :: Untried(s, k, id)) || (exists m :: m != msg && WillPublish(s, m, id))
  }

  /** A re-publication whose failure goes unseen. */
  predicate Drops(s: State, step: Step) {
    step.Schedule? && EnabledSched(s, step.p, step.d) && step.d.SRepublish? && !step.d.stored
  }

  /**
   The step loses no work: a scheduling write finds some task or message of its intent, its
   own or another, and so does a failed re-publication, its own message apart.
   */
  ghost predicate Harmless(s: State, step: Step) {
    && (Schedules(s, step) ==> HasWork(s, Subject(s, step.p)))
    && (Drops(s, step) && Waits(s, Subject(s, step.p)) ==> OtherWork(s, s.schedulers[step.p].msg, Subject(s, step.p)))
  }

  // ---------- preservation ----------

  /** Messages stay as they are; new ones may follow. */
  ghost predicate Grows(s: State, s': State) {
    && |s.submitted| <= |s'.submitted|
    && forall m :: 0 <= m < |s.submitted| ==> s'.submitted[m] == s.submitted[m]
  }

  ghost predicate UntriedKept(s: State, s': State, id: Id) {
    forall k :: Untried(s, k, id) ==> Untried(s', k, id)
  }

  lemma ElsewhereKeeps(s: State, s': State)
    requires Inv(s) && Grows(s, s') && s'.schedulers == s.schedulers
    requires forall id :: Waits(s', id) ==> Waits(s, id) && UntriedKept(s, s', id)
    ensures Inv(s')
  {
    forall id | Waits(s', id) ensures HasWork(s', id) {
      assert Waits(s, id) && UntriedKept(s, s', id);
      if m :| WillPublish(s, m, id) {
        assert WillPublish(s', m, id);
      } else {
        var k :| Untried(s, k, id);
        assert Untried(s', k, id);
      }
    }
  }

  /** One scheduler moves on; its message stays unacknowledged. */
  lemma SchedulerMoves(s: State, s': State, p: Pid)
    requires Inv(s) && s'.submitted == s.submitted && Handlers(s')
    requires forall q :: q in s'.schedulers && q != p ==> q in s.schedulers && s'.schedulers[q] == s.schedulers[q]
    requires forall id :: UntriedKept(s, s', id)
    requires forall id :: Waits(s', id) ==>
      HasWork(s', id) || (Waits(s, id) && !(p in s'.schedulers && s'.schedulers[p].pc.AtAck?))
    ensures Inv(s')
  {
    forall id | Waits(s', id) ensures HasWork(s', id) {
      assert UntriedKept(s, s', id);
      if m :| !HasWork(s', id) && WillPublish(s, m, id) {
        assert WillPublish(s', m, id);
      }
    }
  }

  lemma DeliverKeeps(s: State, p: Pid, msg: nat)
    requires Inv(s) && EnabledSched(s, p, SDeliver(msg))
    ensures Inv(DoSched(s, p, SDeliver(msg)))
  {
    SchedulerMoves(s, DoSched(s, p, SDeliver(msg)), p);
  }

  lemma CrashKeeps(s: State, p: Pid)
    requires Inv(s)
    ensures Inv(DropScheduler(s, p))
  {
    SchedulerMoves(s, DropScheduler(s, p), p);
  }

  /** The other processes are where they were, and nobody has another message. */
  ghost predicate OnlyMoves(s: State, s': State, p: Pid) {
    && s'.submitted == s.submitted
    && forall q :: q in s'.schedulers ==>
         q in s.schedulers && s'.schedulers[q].msg == s.schedulers[q].msg &&
         (q != p ==> s'.schedulers[q] == s.schedulers[q])
  }

  /** Whatever one scheduler does, the work items of the intents it is not handling stay. */
  lemma OtherWitness(s: State, s': State, p: Pid, id: Id)
    requires Handlers(s) && p in s.schedulers && HasWork(s, id) && id != Subject(s, p)
    requires OnlyMoves(s, s', p) && UntriedKept(s, s', id)
    ensures HasWork(s', id)
  {
    if m :| WillPublish(s, m, id) {
      assert WillPublish(s', m, id);
    } else {
      var k :| Untried(s, k, id);
      assert Untried(s', k, id);
    }
  }

  lemma ReadKeeps(s: State, p: Pid, now: int)
    requires Inv(s) && p in s.schedulers && s.schedulers[p].pc.AtRead?
    ensures Inv(SchedGoto(s, p, Decide(s, Subject(s, p), now)))
  {
    var pc := Decide(s, Subject(s, p), now);
    var s' := SchedGoto(s, p, pc);
    forall id | Waits(s', id) && pc.AtAck? ensures HasWork(s', id) {
      OtherWitness(s, s', p, id);
    }
    SchedulerMoves(s, s', p);
  }

  // ---------- the scheduling write ----------

  /** A message's prospects depend only on its handlers' being done with it. */
  lemma SameProspect(s: State, s': State, m: nat, id: Id)
    requires s'.submitted == s.submitted && s'.schedulers.Keys == s.schedulers.Keys
    requires forall q :: q in s.schedulers ==>
      s'.schedulers[q].msg == s.schedulers[q].msg &&
      (s.schedulers[q].msg == m ==> s'.schedulers[q].pc.AtAck? == s.schedulers[q].pc.AtAck?)
    ensures WillPublish(s, m, id) <==> WillPublish(s', m, id)
  {
  }

  /** Which work there is does not depend on the row, nor on a move from the decision to the publication. */
  lemma WriteWork(s: State, p: Pid, id: Id)
    requires p in s.schedulers && s.schedulers[p].pc.AtSchedule?
    ensures HasWork(WriteDecision(s, p), id) <==> HasWork(s, id)
  {
    var s' := WriteDecision(s, p);
    assert forall k :: Untried(s, k, id) <==> Untried(s', k, id);
    assert s'.submitted == s.submitted && s'.schedulers == s.schedulers[p := SchedProc(s.schedulers[p].msg, AtPublish)];
    hide Untried, WillPublish, WriteDecision;
    forall m: nat ensures WillPublish(s, m, id) <==> WillPublish(s', m, id) {
      SameProspect(s, s', m, id);
    }
  }

  lemma WriteWaits(s: State, p: Pid, id: Id)
    requires p in s.schedulers && s.schedulers[p].pc.AtSchedule?
    ensures Waits(WriteDecision(s, p), id) <==> id in s.intents && (id == Subject(s, p) || Waits(s, id))
  {
    hide Subject;
  }

  lemma SameHandlers(s: State, s': State)
    requires s'.submitted == s.submitted && s'.schedulers.Keys == s.schedulers.Keys
    requires forall q :: q in s.schedulers ==> s'.schedulers[q].msg == s.schedulers[q].msg
    ensures Handlers(s') <==> Handlers(s)
  {
  }

  lemma WriteHandlers(s: State, p: Pid)
    requires p in s.schedulers
    ensures Handlers(WriteDecision(s, p)) <==> Handlers(s)
  {
    hide Handlers, Subject, Mark;
    SameHandlers(s, WriteDecision(s, p));
  }

  /** A scheduling write loses work exactly when there is none for its intent. */
  lemma ScheduleExactly(s: State, p: Pid)
    requires Inv(s) && EnabledSched(s, p, SWrite) && s.schedulers[p].pc.AtSchedule?
    ensures NoneLost(WriteDecision(s, p)) <==> (Subject(s, p) in s.intents ==> HasWork(s, Subject(s, p)))
    ensures Handlers(WriteDecision(s, p))
  {
    WriteHandlers(s, p);
    hide HasWork, WriteDecision, Subject, Handlers, Waits;
    forall id ensures (Waits(WriteDecision(s, p), id) ==> HasWork(WriteDecision(s, p), id))
                 <==> (id in s.intents && (id == Subject(s, p) || Waits(s, id)) ==> HasWork(s, id))
    {
      WriteWork(s, p, id);
      WriteWaits(s, p, id);
    }
  }

  /** There is work for the write's intent exactly when it is covered, or another message or a task is left. */
  lemma WorkAtWrite(s: State, p: Pid)
    requires Inv(s) && Schedules(s, Schedule(p, SWrite))
    ensures HasWork(s, Subject(s, p)) <==>
      Covered(s, Schedule(p, SWrite)) || OtherWork(s, s.schedulers[p].msg, Subject(s, p))
  {
    hide Untried, WillPublish, Subject;
  }

  /** An expiry leaves its intent waiting for nothing. */
  lemma ExpireKeeps(s: State, p: Pid)
    requires Inv(s) && EnabledSched(s, p, SWrite) && s.schedulers[p].pc.AtExpire?
    ensures Inv(WriteDecision(s, p))
  {
    var s' := WriteDecision(s, p);
    WriteHandlers(s, p);
    assert forall id :: Waits(s', id) ==> Waits(s, id) && id != Subject(s, p);
    assert OnlyMoves(s, s', p) && s'.tasks == s.tasks;
    hide WriteDecision, Handlers;
    forall id | Waits(s', id) ensures HasWork(s', id) {
      OtherWitness(s, s', p, id);
    }
  }

  /**
   A scheduler's write loses work exactly when it is not covered and no other message or
   task of its intent is left.
   */
  lemma WriteKeepsWorkExactlyWhen(s: State, p: Pid)
    requires Inv(s) && EnabledSched(s, p, SWrite)
    ensures NoneLost(WriteDecision(s, p)) <==>
      Covered(s, Schedule(p, SWrite)) || OtherWork(s, s.schedulers[p].msg, Subject(s, p))
  {
    hide WriteDecision, HasWork, Subject, Waits, WillPublish, OtherWork, NoneLost, Handlers;
    if s.schedulers[p].pc.AtExpire? {
      ExpireKeeps(s, p);
    } else {
      ScheduleExactly(s, p);
      if Subject(s, p) in s.intents {
        WorkAtWrite(s, p);
      }
    }
  }

  lemma WriteKeeps(s: State, p: Pid)
    requires Inv(s) && EnabledSched(s, p, SWrite) && Harmless(s, Schedule(p, SWrite))
    ensures Inv(WriteDecision(s, p))
  {
    if s.schedulers[p].pc.AtSchedule? {
      ScheduleExactly(s, p);
    } else {
      ExpireKeeps(s, p);
    }
  }

  // ---------- publications ----------

  lemma PublishedKeeps(s: State, p: Pid)
    requires Inv(s) && p in s.schedulers
    ensures Inv(SchedGoto(PutTask(s, Subject(s, p)), p, AtAck))
  {
    var s' := SchedGoto(PutTask(s, Subject(s, p)), p, AtAck);
    forall id | Waits(s', id) ensures HasWork(s', id) {
      if id == Subject(s, p) {
        assert Untried(s', |s.tasks|, id);
      } else {
        OtherWitness(s, s', p, id);
      }
    }
  }

  lemma PublishKeeps(s: State, p: Pid, stored: bool, ok: bool)
    requires Inv(s) && p in s.schedulers && (ok ==> stored)
    ensures Inv(PublishTask(s, p, stored, ok))
  {
    if ok {
      PublishedKeeps(s, p);
    } else {
      var s' := if stored then PutTask(s, Subject(s, p)) else s;
      ElsewhereKeeps(s, s');
      CrashKeeps(s', p);
    }
  }

  /** A failed re-publication loses work exactly when its own message was all there was. */
  lemma DropExactly(s: State, p: Pid)
    requires Inv(s) && EnabledSched(s, p, SRepublish(false))
    ensures var s', id := SchedGoto(s, p, AtAck), Subject(s, p);
      && Handlers(s')
      && (NoneLost(s') <==> (Waits(s, id) ==> OtherWork(s, s.schedulers[p].msg, id)))
  {
    var s', id := SchedGoto(s, p, AtAck), Subject(s, p);
    assert forall i :: Waits(s', i) <==> Waits(s, i);
    assert OnlyMoves(s, s', p) && s'.tasks == s.tasks;
    DropWork(s, p);
    forall i | i != id && Waits(s, i) ensures HasWork(s', i) {
      OtherWitness(s, s', p, i);
    }
    hide HasWork, SchedGoto, Waits, OtherWork;
  }

  lemma DropWork(s: State, p: Pid)
    requires p in s.schedulers
    ensures HasWork(SchedGoto(s, p, AtAck), Subject(s, p)) <==> OtherWork(s, s.schedulers[p].msg, Subject(s, p))
  {
    var s', id, msg := SchedGoto(s, p, AtAck), Subject(s, p), s.schedulers[p].msg;
    assert forall k :: Untried(s, k, id) <==> Untried(s', k, id);
    assert !WillPublish(s', msg, id) by {
      assert s'.schedulers[p] == SchedProc(msg, AtAck);
    }
    hide Untried, WillPublish;
    forall m: nat | m != msg ensures WillPublish(s, m, id) <==> WillPublish(s', m, id) {
      SameProspect(s, s', m, id);
    }
    hide SchedGoto;
  }

  lemma AckKeeps(s: State, p: Pid)
    requires Inv(s) && p in s.schedulers && s.schedulers[p].msg < |s.submitted| && s.schedulers[p].pc.AtAck?
    ensures Inv(AckSubmission(s, p))
  {
    var s' := AckSubmission(s, p);
    forall id | Waits(s', id) ensures HasWork(s', id) {
      assert Waits(s, id);
      if m :| WillPublish(s, m, id) {
        assert m != s.schedulers[p].msg;
        assert WillPublish(s', m, id);
      } else {
        var k :| Untried(s, k, id);
        assert Untried(s', k, id);
      }
    }
  }

  lemma SchedKeeps(s: State, p: Pid, a: SchedAct)
    requires Inv(s) && EnabledSched(s, p, a) && Harmless(s, Schedule(p, a))
    ensures Inv(DoSched(s, p, a))
  {
    hide Inv, HasWork, OtherWork, WriteDecision, PublishTask, AckSubmission, DropScheduler;
    match a
    case SDeliver(msg) => DeliverKeeps(s, p, msg);
    case SRead(now) => ReadKeeps(s, p, now);
    case SWrite => WriteKeeps(s, p);
    case SPublish(stored, ok) => PublishKeeps(s, p, stored, ok);
    case SRepublish(stored) => RepublishKeeps(s, p, stored);
    case SAck => AckKeeps(s, p);
    case SCrash => CrashKeeps(s, p);
  }

  lemma RepublishKeeps(s: State, p: Pid, stored: bool)
    requires Inv(s) && EnabledSched(s, p, SRepublish(stored)) && Harmless(s, Schedule(p, SRepublish(stored)))
    ensures Inv(PublishTask(s, p, stored, true))
  {
    if stored {
      PublishKeeps(s, p, true, true);
    } else {
      DropExactly(s, p);
    }
  }

  lemma ClaimWaits(s: State, p: Pid)
    requires p in s.engines && s.engines[p].msg < |s.tasks|
    ensures forall id :: Waits(Claim(s, p), id) ==> Waits(s, id) && UntriedKept(s, Claim(s, p), id)
  {
    var s', msg := Claim(s, p), s.engines[p].msg;
    assert !Waits(s', s.tasks[msg].intent);
    assert forall k :: 0 <= k < |s.tasks| && k != msg ==> s'.tasks[k] == s.tasks[k];
    assert forall id :: Waits(s', id) ==> Waits(s, id);
    hide Claim, Waits;
  }

  /** Whatever a claim finds, the intent it tried is not SCHEDULED afterwards. */
  lemma ClaimKeeps(s: State, p: Pid)
    requires Inv(s) && p in s.engines && s.engines[p].msg < |s.tasks|
    ensures Inv(Claim(s, p))
  {
    F.ClaimFrame(s, p);
    ClaimWaits(s, p);
    hide Claim, Inv;
    ElsewhereKeeps(s, Claim(s, p));
  }

  lemma FinishKeeps(s: State, p: Pid)
    requires Inv(s) && p in s.engines && s.engines[p].pc.AtFinish?
    ensures Inv(FinishTask(s, p))
  {
    ElsewhereKeeps(s, FinishTask(s, p));
  }

  lemma OthersUntried(s: State, p: Pid, a: EngineAct)
    requires EnabledEngine(s, p, a) && !a.EClaim? && P.EnginesTried(s)
    ensures forall id :: UntriedKept(s, DoEngine(s, p, a), id)
  {
    F.EngineTasks(s, p, a);
    assert a.EAck? ==> s.tasks[s.engines[p].msg].tried;
    hide DoEngine;
  }

  lemma EngineKeeps(s: State, p: Pid, a: EngineAct)
    requires Inv(s) && EnabledEngine(s, p, a) && P.EnginesTried(s)
    ensures Inv(DoEngine(s, p, a))
  {
    if a.EClaim? {
      ClaimKeeps(s, p);
    } else if a.EFinish? {
      FinishKeeps(s, p);
    } else {
      F.EngineFrame(s, p, a);
      OthersUntried(s, p, a);
      hide DoEngine, EnabledEngine, Inv, UntriedKept;
      ElsewhereKeeps(s, DoEngine(s, p, a));
    }
  }

  lemma OutboxKeeps(s: State, p: Pid, a: OutboxAct)
    requires Inv(s) && EnabledOutbox(s, p, a)
    ensures Inv(DoOutbox(s, p, a))
  {
    var s' := DoOutbox(s, p, a);
    assert s'.intents == s.intents && s'.tasks == s.tasks && s'.schedulers == s.schedulers;
    ElsewhereKeeps(s, s');
  }

  lemma CreateKeeps(s: State, id: Id, kind: Kind, order: Option<Order>, deadline: Option<int>, row: RowId)
    requires Inv(s) && id !in s.intents
    ensures Inv(CreateIntent(s, id, kind, order, deadline, row))
  {
    ElsewhereKeeps(s, CreateIntent(s, id, kind, order, deadline, row));
  }

  lemma ValidatorKeeps(s: State, p: Pid, a: ValidatorAct)
    requires Inv(s) && EnabledValidator(s, p, a)
    ensures Inv(DoValidator(s, p, a))
  {
    var s' := DoValidator(s, p, a);
    assert s'.intents == s.intents && s'.tasks == s.tasks && s'.submitted == s.submitted;
    ElsewhereKeeps(s, s');
  }

  lemma StepKeeps(s: State, step: Step)
    requires Inv(s) && Enabled(s, step) && Harmless(s, step) && P.EnginesTried(s)
    ensures Inv(Do(s, step))
  {
    match step
    case Create(id, kind, order, deadline, row) => CreateKeeps(s, id, kind, order, deadline, row);
    case Outbox(p, a) => OutboxKeeps(s, p, a);
    case Schedule(p, a) => SchedKeeps(s, p, a);
    case Engine(p, a) => EngineKeeps(s, p, a);
    case Validate(p, a) => ValidatorKeeps(s, p, a);
    case Wallet(w) => ElsewhereKeeps(s, s.(wallet := W.Do(s.wallet, w)));
  }

  /** A step that is not harmless does lose work. */
  lemma HarmIsLoss(s: State, step: Step)
    requires Inv(s) && Enabled(s, step) && !Harmless(s, step)
    ensures !NoneLost(Do(s, step))
  {
    hide NoneLost, OtherWork, HasWork, Handlers, Waits, Subject;
    if Schedules(s, step) && !HasWork(s, Subject(s, step.p)) {
      ScheduleExactly(s, step.p);
    } else {
      DropExactly(s, step.p);
    }
  }

  // ---------- whole runs ----------

  ghost predicate HarmlessRun(r: Run) {
    && |r.states| == |r.steps| + 1
    && forall i :: 0 <= i < |r.steps| ==> Harmless(r.states[i], r.steps[i])
  }

  lemma {:induction false} RunInvariant(b: B.Books, r: Run, i: nat)
    requires IsRun(b, r) && i < |r.states|
    requires forall k :: 0 <= k < i ==> Harmless(r.states[k], r.steps[k])
    ensures Inv(r.states[i])
  {
    if i > 0 {
      RunInvariant(b, r, i - 1);
      P.RunTried(b, r, i - 1);
      hide Inv, Do, Enabled, Harmless;
      assert Enabled(r.states[i - 1], r.steps[i - 1]) && r.states[i - 1 + 1] == Do(r.states[i - 1], r.steps[i - 1]);
      StepKeeps(r.states[i - 1], r.steps[i - 1]);
    }
  }

  /**
   No intent ever loses its work item exactly when no scheduling write and no failed
   re-publication of the run leaves its intent without a task or message.
   */
  lemma WorkIsKeptExactlyWhen(b: B.Books, r: Run)
    requires IsRun(b, r)
    ensures (forall i :: 0 <= i < |r.states| ==> NoneLost(r.states[i])) <==> HarmlessRun(r)
  {
    if HarmlessRun(r) {
      forall i | 0 <= i < |r.states| ensures NoneLost(r.states[i]) {
        RunInvariant(b, r, i);
      }
    }
    if forall i :: 0 <= i < |r.states| ==> NoneLost(r.states[i]) {
      forall i | 0 <= i < |r.steps| ensures Harmless(r.states[i], r.steps[i]) {
        KeptIsHarmless(b, r, i);
      }
    }
  }

  lemma {:induction false} KeptIsHarmless(b: B.Books, r: Run, i: nat)
    requires IsRun(b, r) && i < |r.steps| && forall k :: 0 <= k < |r.states| ==> NoneLost(r.states[k])
    ensures Harmless(r.states[i], r.steps[i])
  {
    forall k | 0 <= k < i ensures Harmless(r.states[k], r.steps[k]) {
      KeptIsHarmless(b, r, k);
    }
    RunInvariant(b, r, i);
    hide Inv, Do, Enabled, Harmless, NoneLost;
    assert Enabled(r.states[i], r.steps[i]) && NoneLost(r.states[i + 1]) &&
      r.states[i + 1] == Do(r.states[i], r.steps[i]);
    if !Harmless(r.states[i], r.steps[i]) {
      HarmIsLoss(r.states[i], r.steps[i]);
    }
  }

  // ---------- runs that qualify ----------

  /** Every scheduling write is covered, and every re-publication is stored. */
  ghost predicate CoveredRun(r: Run) {
    && |r.states| == |r.steps| + 1
    && forall i :: 0 <= i < |r.steps| ==> Covered(r.states[i], r.steps[i]) && Republished(r.steps[i])
  }

  lemma CoveredIsHarmless(s: State, step: Step)
    requires Inv(s) && Covered(s, step) && Republished(step)
    ensures Harmless(s, step)
  {
    hide WillPublish, Untried, Subject;
  }

  lemma {:induction false} CoveredRunIsHarmless(b: B.Books, r: Run, i: nat)
    requires IsRun(b, r) && CoveredRun(r) && i <= |r.steps|
    ensures forall k :: 0 <= k < i ==> Harmless(r.states[k], r.steps[k])
  {
    if i > 0 {
      CoveredRunIsHarmless(b, r, i - 1);
      RunInvariant(b, r, i - 1);
      hide Inv, Covered, Republished, Harmless, IsRun;
      CoveredIsHarmless(r.states[i - 1], r.steps[i - 1]);
    }
  }

  /**
   A SCHEDULED intent has a task whose claim nobody has tried, or an unacknowledged
   submission whose handling will publish one.
   */
  lemma NoLostWork(b: B.Books, r: Run, i: nat, id: Id)
    requires IsRun(b, r) && CoveredRun(r) && i < |r.states|
    requires id in r.states[i].intents && r.states[i].intents[id].status.SCHEDULED?
    ensures HasWork(r.states[i], id)
  {
    CoveredRunIsHarmless(b, r, i);
    hide IsRun, CoveredRun, Harmless;
    RunInvariant(b, r, i);
    assert Waits(r.states[i], id);
  }

  /** Messages with a live handler are unacknowledged, and no two live processes handle the same one. */
  ghost predicate Exclusive(s: State) {
    && (forall p :: p in s.schedulers ==>
         s.schedulers[p].msg < |s.submitted| && !s.submitted[s.schedulers[p].msg].acked)
    && (forall p, q :: p in s.schedulers && q in s.schedulers && p != q ==> s.schedulers[p].msg != s.schedulers[q].msg)
  }

  /** The broker does not hand out a message that a live scheduler is still handling. */
  ghost predicate DeliversOnce(s: State, step: Step) {
    step.Schedule? && step.d.SDeliver? ==> forall q :: q in s.schedulers ==> s.schedulers[q].msg != step.d.msg
  }

  lemma ExclusiveKeeps(s: State, step: Step)
    requires Exclusive(s) && Enabled(s, step) && DeliversOnce(s, step)
    ensures Exclusive(Do(s, step))
  {
    hide Exclusive, DoOutbox, EnabledOutbox, DoSched, EnabledSched, DoEngine, EnabledEngine, DoValidator,
      EnabledValidator, W.Do, W.Enabled;
    match step
    case Create(_, _, _, _, _) => ExclusiveElsewhere(s, Do(s, step));
    case Outbox(p, a) => ExclusiveOutbox(s, p, a);
    case Schedule(p, a) => ExclusiveSched(s, p, a);
    case Engine(p, a) =>
      F.EngineFrame(s, p, a);
      ExclusiveElsewhere(s, DoEngine(s, p, a));
    case Validate(p, a) => ExclusiveValidator(s, p, a);
    case Wallet(w) => ExclusiveElsewhere(s, Do(s, step));
  }

  lemma ExclusiveElsewhere(s: State, s': State)
    requires Exclusive(s) && s'.schedulers == s.schedulers && s.submitted <= s'.submitted
    ensures Exclusive(s')
  {
  }

  lemma ExclusiveOutbox(s: State, p: Pid, a: OutboxAct)
    requires Exclusive(s) && EnabledOutbox(s, p, a)
    ensures Exclusive(DoOutbox(s, p, a))
  {
    hide Exclusive;
    ExclusiveElsewhere(s, DoOutbox(s, p, a));
  }

  lemma ExclusiveValidator(s: State, p: Pid, a: ValidatorAct)
    requires Exclusive(s) && EnabledValidator(s, p, a)
    ensures Exclusive(DoValidator(s, p, a))
  {
    hide Exclusive;
    ExclusiveElsewhere(s, DoValidator(s, p, a));
  }

  /** Processes move on or disappear; messages stay. */
  lemma ExclusiveMoves(s: State, s': State)
    requires Exclusive(s) && s'.submitted == s.submitted
    requires forall q :: q in s'.schedulers ==> q in s.schedulers && s'.schedulers[q].msg == s.schedulers[q].msg
    ensures Exclusive(s')
  {
  }

  lemma ExclusiveDeliver(s: State, p: Pid, msg: nat)
    requires Exclusive(s) && EnabledSched(s, p, SDeliver(msg)) && DeliversOnce(s, Schedule(p, SDeliver(msg)))
    ensures Exclusive(DoSched(s, p, SDeliver(msg)))
  {
  }

  lemma ExclusiveAck(s: State, p: Pid)
    requires Exclusive(s) && EnabledSched(s, p, SAck)
    ensures Exclusive(AckSubmission(s, p))
  {
  }

  lemma ExclusiveSched(s: State, p: Pid, a: SchedAct)
    requires Exclusive(s) && EnabledSched(s, p, a) && DeliversOnce(s, Schedule(p, a))
    ensures Exclusive(DoSched(s, p, a))
  {
    hide Exclusive, Decide, Mark, Subject, AckSubmission, DeliversOnce;
    match a
    case SDeliver(msg) => ExclusiveDeliver(s, p, msg);
    case SRead(_) => ExclusiveMoves(s, DoSched(s, p, a));
    case SWrite => ExclusiveMoves(s, DoSched(s, p, a));
    case SPublish(_, _) => ExclusiveMoves(s, DoSched(s, p, a));
    case SRepublish(_) => ExclusiveMoves(s, DoSched(s, p, a));
    case SAck => ExclusiveAck(s, p);
    case SCrash => ExclusiveMoves(s, DoSched(s, p, a));
  }

  /** With one live handler a message, its handler at the write is the one that will publish. */
  lemma ExclusiveIsCovered(s: State, step: Step)
    requires Exclusive(s)
    ensures Covered(s, step)
  {
  }

  lemma OneStepIsExclusive(b: B.Books, r: Run, i: nat)
    requires IsRun(b, r) && i < |r.steps| && DeliversOnce(r.states[i], r.steps[i]) && Exclusive(r.states[i])
    ensures Exclusive(r.states[i + 1])
  {
    hide Exclusive, Do, Enabled, DeliversOnce, Start;
    assert Enabled(r.states[i], r.steps[i]) && r.states[i + 1] == Do(r.states[i], r.steps[i]);
    hide IsRun;
    ExclusiveKeeps(r.states[i], r.steps[i]);
  }

  lemma StartIsExclusive(b: B.Books, r: Run)
    requires IsRun(b, r)
    ensures |r.states| == |r.steps| + 1 && Exclusive(r.states[0])
  {
  }

  lemma {:induction false} RunIsExclusive(b: B.Books, r: Run, i: nat)
    requires IsRun(b, r) && i < |r.states| && forall k :: 0 <= k < |r.steps| ==> DeliversOnce(r.states[k], r.steps[k])
    ensures Exclusive(r.states[i])
  {
    StartIsExclusive(b, r);
    hide *;
    if i > 0 {
      RunIsExclusive(b, r, i - 1);
      OneStepIsExclusive(b, r, i - 1);
    }
  }

  /** If the broker never hands a message to two live schedulers, every write is covered. */
  lemma ExclusiveRunsAreCovered(b: B.Books, r: Run)
    requires IsRun(b, r) && forall k :: 0 <= k < |r.steps| ==>
      DeliversOnce(r.states[k], r.steps[k]) && Republished(r.steps[k])
    ensures CoveredRun(r)
  {
    hide DeliversOnce, Republished, Covered;
    forall i | 0 <= i < |r.steps| ensures Covered(r.states[i], r.steps[i]) {
      RunIsExclusive(b, r, i);
      ExclusiveIsCovered(r.states[i], r.steps[i]);
    }
  }

  /** A write that keeps the status order is covered, whoever else handles its message. */
  lemma GuardedIsCovered(s: State, step: Step)
    requires D.Inv(s) && S.Guarded(s, step)
    ensures Covered(s, step)
  {
    if Schedules(s, step) {
      var id, m := Subject(s, step.p), s.schedulers[step.p].msg;
      assert D.SchedulerOk(s, step.p);
      if s.intents[id].status.PENDING? {
        forall q | q in s.schedulers && s.schedulers[q].msg == m ensures !s.schedulers[q].pc.AtAck? {
          assert D.SchedulerOk(s, q);
        }
        assert WillPublish(s, m, id);
      }
    }
  }

  /** Runs that keep the status order lose no work, however often messages are delivered. */
  lemma GuardedRunsAreCovered(b: B.Books, r: Run)
    requires S.GuardedRun(b, r) && forall k :: 0 <= k < |r.steps| ==> Republished(r.steps[k])
    ensures CoveredRun(r)
  {
    assert |r.states| == |r.steps| + 1;
    forall i | 0 <= i < |r.steps| ensures Covered(r.states[i], r.steps[i]) {
      assert S.Guarded(r.states[i], r.steps[i]);
      hide S.Guarded, S.GuardedRun, Covered, D.Inv;
      D.RunInvariant(b, r, i);
      GuardedIsCovered(r.states[i], r.steps[i]);
    }
  }
}
