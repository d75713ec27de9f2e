/**
 What stays true of messages once they have been dealt with, however much later a
 repetition of them arrives.
 */
module ProtocolRepeats {
  import opened Prelude
  import B = WalletBooks
  import W = WalletMachine
  import opened Protocol
  import F = ProtocolFrames
  import D = ProtocolDelivery
  import S = ProtocolStatus

  // ---------- submissions ----------

  /** Submissions are only added and acknowledged. */
  ghost predicate SubmissionsStay(old_: seq<Submission>, new_: seq<Submission>) {
    |old_| <= |new_| && forall k :: 0 <= k < |old_| ==>
      new_[k].intent == old_[k].intent && (old_[k].acked ==> new_[k].acked)
  }

  lemma SchedSubmissions(s: State, p: Pid, a: SchedAct)
    requires EnabledSched(s, p, a)
    ensures SubmissionsStay(s.submitted, DoSched(s, p, a).submitted)
  {
    hide Decide, Mark, Subject;
    match a
    case SDeliver(_) =>
    case SRead(_) =>
    case SWrite =>
    case SPublish(_, _) =>
    case SRepublish(_) =>
    case SAck =>
    case SCrash =>
  }

  lemma OutboxSubmissions(s: State, p: Pid, a: OutboxAct)
    requires EnabledOutbox(s, p, a)
    ensures SubmissionsStay(s.submitted, DoOutbox(s, p, a).submitted)
  {
  }

  lemma ValidatorSubmissions(s: State, p: Pid, a: ValidatorAct)
    requires EnabledValidator(s, p, a)
    ensures DoValidator(s, p, a).submitted == s.submitted && DoValidator(s, p, a).tasks == s.tasks &&
      DoValidator(s, p, a).engines == s.engines
  {
    hide Check, Audited;
  }

  lemma StepSubmissions(s: State, step: Step)
    requires Enabled(s, step)
    ensures SubmissionsStay(s.submitted, Do(s, step).submitted)
  {
    hide DoOutbox, EnabledOutbox, DoSched, EnabledSched, DoEngine, EnabledEngine, DoValidator, EnabledValidator, W.Do,
      W.Enabled;
    match step
    case Create(_, _, _, _, _) =>
    case Outbox(p, a) => OutboxSubmissions(s, p, a);
    case Schedule(p, a) => SchedSubmissions(s, p, a);
    case Engine(p, a) => F.EngineFrame(s, p, a);
    case Validate(p, a) => ValidatorSubmissions(s, p, a);
    case Wallet(_) =>
  }

  lemma SubmissionsThen(a: seq<Submission>, b: seq<Submission>, c: seq<Submission>)
    requires SubmissionsStay(a, b) && SubmissionsStay(b, c)
    ensures SubmissionsStay(a, c)
  {
  }

  lemma OneStepSubmissions(b: B.Books, r: Run, k: nat)
    requires IsRun(b, r) && k + 1 < |r.states|
    ensures SubmissionsStay(r.states[k].submitted, r.states[k + 1].submitted)
  {
    hide Do, Enabled, SubmissionsStay, Start;
    assert Enabled(r.states[k], r.steps[k]) && r.states[k + 1] == Do(r.states[k], r.steps[k]);
    hide IsRun;
    StepSubmissions(r.states[k], r.steps[k]);
  }

  lemma {:induction false} RunSubmissions(b: B.Books, r: Run, i: nat, j: nat)
    requires IsRun(b, r) && i <= j < |r.states|
    ensures SubmissionsStay(r.states[i].submitted, r.states[j].submitted)
  {
    hide IsRun;
    if i < j {
      hide *;
      RunSubmissions(b, r, i, j - 1);
      OneStepSubmissions(b, r, j - 1);
      SubmissionsThen(r.states[i].submitted, r.states[j - 1].submitted, r.states[j].submitted);
    }
  }

  /** From its first acknowledged submission on an intent is not PENDING, in every run. */
  lemma AcknowledgedIsStarted(b: B.Books, r: Run, i: nat, j: nat, k: nat)
    requires IsRun(b, r) && i <= j < |r.states|
    requires k < |r.states[i].submitted| && r.states[i].submitted[k].acked
    ensures D.Started(r.states[j], r.states[i].submitted[k].intent)
  {
    RunSubmissions(b, r, i, j);
    D.RunInvariant(b, r, j);
    hide IsRun, D.Started, D.KnownOk, D.OutboxesOk, D.CarriedOk, D.SchedulersOk;
    assert r.states[j].submitted[k].acked;
  }

  // ---------- tasks ----------

  /** Tasks are only added, tried and acknowledged. */
  ghost predicate TasksStay(old_: seq<Task>, new_: seq<Task>) {
    |old_| <= |new_| && forall k :: 0 <= k < |old_| ==>
      new_[k].intent == old_[k].intent && (old_[k].tried ==> new_[k].tried)
  }

  ghost predicate TaskOk(rows: map<Id, Row>, t: Task) {
    && t.intent in rows && !rows[t.intent].status.PENDING?
    && (t.tried ==> !rows[t.intent].status.SCHEDULED?) && (t.acked ==> t.tried)
  }

  /** A task's intent was scheduled, and once its claim has been tried it is beyond that. */
  ghost predicate TasksOk(s: State) {
    forall k :: 0 <= k < |s.tasks| ==> TaskOk(s.intents, s.tasks[k])
  }

  /** Engines past the claim have tried it. */
  ghost predicate EnginesTried(s: State) {
    forall p :: p in s.engines && !s.engines[p].pc.AtClaim? ==>
      s.engines[p].msg < |s.tasks| && s.tasks[s.engines[p].msg].tried
  }

  lemma TaskStaysOk(s: State, s': State, t: Task)
    requires TaskOk(s.intents, t) && S.Forward(s, s')
    ensures TaskOk(s'.intents, t)
  {
  }

  lemma TasksStayOk(s: State, s': State)
    requires TasksOk(s) && S.Forward(s, s') && s'.tasks == s.tasks
    ensures TasksOk(s')
  {
    hide S.Forward, TaskOk;
    forall k | 0 <= k < |s'.tasks| ensures TaskOk(s'.intents, s'.tasks[k]) {
      TaskStaysOk(s, s', s.tasks[k]);
    }
  }

  lemma EnginesStayTried(s: State, s': State)
    requires EnginesTried(s) && s'.engines == s.engines && TasksStay(s.tasks, s'.tasks)
    ensures EnginesTried(s')
  {
  }

  lemma PublishOnly(s: State, p: Pid, a: SchedAct)
    requires EnabledSched(s, p, a)
    ensures DoSched(s, p, a).tasks == s.tasks ||
      ((a.SPublish? || a.SRepublish?) && DoSched(s, p, a).tasks == s.tasks + [Task(Subject(s, p), false, false)])
  {
    F.SchedFrame(s, p, a);
    hide Decide, Mark, Subject;
  }

  lemma SchedTasks(s: State, p: Pid, a: SchedAct)
    requires D.Inv(s) && TasksOk(s) && EnginesTried(s) && EnabledSched(s, p, a) && S.Forward(s, DoSched(s, p, a))
    ensures var s' := DoSched(s, p, a); TasksOk(s') && EnginesTried(s') && TasksStay(s.tasks, s'.tasks)
  {
    var s' := DoSched(s, p, a);
    PublishOnly(s, p, a);
    F.SchedFrame(s, p, a);
    if s'.tasks == s.tasks {
      TasksStayOk(s, s');
    } else {
      assert D.SchedulerOk(s, p) && TaskOk(s.intents, Task(Subject(s, p), false, false));
      hide DoSched, EnabledSched, S.Forward, TaskOk, D.Inv, EnginesTried;
      forall k | 0 <= k < |s'.tasks| ensures TaskOk(s'.intents, s'.tasks[k]) {
        TaskStaysOk(s, s', s'.tasks[k]);
      }
    }
    hide DoSched, EnabledSched, EnginesTried, TasksOk;
    EnginesStayTried(s, s');
  }

  /** The claim tries its task. */
  lemma ClaimTries(s: State, p: Pid)
    requires EnabledEngine(s, p, EClaim)
    ensures Claim(s, p).tasks == s.tasks[s.engines[p].msg := s.tasks[s.engines[p].msg].(tried := true)]
  {
    hide Mark, Get, Job;
  }

  /** It moves only its own process. */
  lemma ClaimMoves(s: State, p: Pid)
    requires p in s.engines && s.engines[p].msg < |s.tasks|
    ensures exists pc :: Claim(s, p).engines == s.engines[p := EngineProc(s.engines[p].msg, pc)]
  {
    hide Mark, Get, Job;
    var pc := Claim(s, p).engines[p].pc;
    assert Claim(s, p).engines == s.engines[p := EngineProc(s.engines[p].msg, pc)];
  }

  /** And it leaves its intent beyond SCHEDULED. */
  lemma ClaimIs(s: State, p: Pid)
    requires EnabledEngine(s, p, EClaim)
    ensures var rows := Claim(s, p).intents; Job(s, p) in rows ==> !rows[Job(s, p)].status.SCHEDULED?
  {
    hide Get, Job;
  }

  lemma TriedOk(s: State, s': State, t: Task)
    requires TaskOk(s.intents, t) && S.Forward(s, s') &&
      (t.intent in s'.intents ==> !s'.intents[t.intent].status.SCHEDULED?)
    ensures TaskOk(s'.intents, t.(tried := true))
  {
  }

  lemma ClaimTasks(s: State, p: Pid)
    requires TasksOk(s) && EnginesTried(s) && EnabledEngine(s, p, EClaim) && S.Forward(s, Claim(s, p))
    ensures var s' := Claim(s, p); TasksOk(s') && EnginesTried(s') && TasksStay(s.tasks, s'.tasks)
  {
    var s', msg := Claim(s, p), s.engines[p].msg;
    ClaimTries(s, p);
    ClaimMoves(s, p);
    ClaimIs(s, p);
    hide Claim, S.Forward, TaskOk;
    TriedOk(s, s', s.tasks[msg]);
    forall k | 0 <= k < |s'.tasks| ensures TaskOk(s'.intents, s'.tasks[k]) {
      if k != msg {
        TaskStaysOk(s, s', s.tasks[k]);
      }
    }
  }

  lemma AckTasks(s: State, p: Pid)
    requires TasksOk(s) && EnginesTried(s) && EnabledEngine(s, p, EAck)
    ensures var s' := AckTask(s, p); TasksOk(s') && EnginesTried(s') && TasksStay(s.tasks, s'.tasks)
  {
    var msg := s.engines[p].msg;
    assert TaskOk(s.intents, s.tasks[msg]) && s.tasks[msg].tried;
  }

  /** The engine's other steps leave the tasks alone, and only move on processes that have claimed. */
  lemma OtherTasks(s: State, p: Pid, a: EngineAct)
    requires EnabledEngine(s, p, a) && !a.EClaim? && !a.EAck?
    ensures var s' := DoEngine(s, p, a);
      && s'.tasks == s.tasks
      && forall q :: q in s'.engines && !s'.engines[q].pc.AtClaim? ==>
           q in s.engines && !s.engines[q].pc.AtClaim? && s'.engines[q].msg == s.engines[q].msg
  {
    hide Mark, Get, W.Do, Payment, Admits, FinalStatus;
    match a
    case EDeliver(_) =>
    case ERun(_) =>
    case ECall(_) =>
    case EReply(_) =>
    case EFinish =>
    case EEmit(_) =>
    case ECrash =>
  }

  lemma EngineTasks(s: State, p: Pid, a: EngineAct)
    requires TasksOk(s) && EnginesTried(s) && EnabledEngine(s, p, a) && S.Forward(s, DoEngine(s, p, a))
    ensures var s' := DoEngine(s, p, a); TasksOk(s') && EnginesTried(s') && TasksStay(s.tasks, s'.tasks)
  {
    if a.EClaim? {
      ClaimTasks(s, p);
    } else if a.EAck? {
      AckTasks(s, p);
    } else {
      OtherTasks(s, p, a);
      hide DoEngine, EnabledEngine, S.Forward;
      TasksStayOk(s, DoEngine(s, p, a));
    }
  }

  /** In every run, guarded or not, engines past the claim have tried it. */
  lemma StepTried(s: State, step: Step)
    requires EnginesTried(s) && Enabled(s, step)
    ensures EnginesTried(Do(s, step))
  {
    hide EnginesTried, DoOutbox, EnabledOutbox, DoSched, EnabledSched, DoEngine, EnabledEngine;
    hide DoValidator, EnabledValidator, W.Do, W.Enabled;
    match step
    case Create(_, _, _, _, _) => SameTried(s, Do(s, step));
    case Outbox(p, a) => OutboxTasks(s, p, a); S.OutboxQuiet(s, p, a); SameTried(s, Do(s, step));
    case Schedule(p, a) => SchedTried(s, p, a);
    case Engine(p, a) => EngineTried(s, p, a);
    case Validate(p, a) => ValidatorSubmissions(s, p, a); SameTried(s, Do(s, step));
    case Wallet(_) => SameTried(s, Do(s, step));
  }

  lemma SameTried(s: State, s': State)
    requires EnginesTried(s) && s'.engines == s.engines && s'.tasks == s.tasks
    ensures EnginesTried(s')
  {
  }

  lemma SchedTried(s: State, p: Pid, a: SchedAct)
    requires EnginesTried(s) && EnabledSched(s, p, a)
    ensures EnginesTried(DoSched(s, p, a))
  {
    F.SchedFrame(s, p, a);
    hide DoSched, EnabledSched;
    EnginesStayTried(s, DoSched(s, p, a));
  }

  lemma EngineTried(s: State, p: Pid, a: EngineAct)
    requires EnginesTried(s) && EnabledEngine(s, p, a)
    ensures EnginesTried(DoEngine(s, p, a))
  {
    if a.EClaim? {
      ClaimTries(s, p);
      ClaimMoves(s, p);
      hide Claim;
    } else if a.EAck? {
      AckTried(s, p);
    } else {
      OtherTasks(s, p, a);
      hide DoEngine, EnabledEngine;
    }
  }

  lemma AckTried(s: State, p: Pid)
    requires EnginesTried(s) && p in s.engines && s.engines[p].msg < |s.tasks|
    ensures EnginesTried(AckTask(s, p))
  {
  }

  lemma {:induction false} RunTried(b: B.Books, r: Run, i: nat)
    requires IsRun(b, r) && i < |r.states|
    ensures EnginesTried(r.states[i])
  {
    StartTried(b, r);
    hide EnginesTried, Start;
    if i > 0 {
      RunTried(b, r, i - 1);
      hide Do, Enabled;
      assert Enabled(r.states[i - 1], r.steps[i - 1]) && r.states[i - 1 + 1] == Do(r.states[i - 1], r.steps[i - 1]);
      hide IsRun;
      StepTried(r.states[i - 1], r.steps[i - 1]);
    }
  }

  lemma StartTried(b: B.Books, r: Run)
    requires IsRun(b, r)
    ensures |r.states| > 0 && EnginesTried(r.states[0])
  {
    hide Do, Enabled;
  }

  lemma StepTasks(s: State, step: Step)
    requires D.Inv(s) && TasksOk(s) && EnginesTried(s) && Enabled(s, step) && S.Forward(s, Do(s, step))
    ensures var s' := Do(s, step); TasksOk(s') && EnginesTried(s') && TasksStay(s.tasks, s'.tasks)
  {
    hide D.Inv, TasksOk, EnginesTried, S.Forward, DoOutbox, EnabledOutbox, DoSched, EnabledSched, DoEngine,
      EnabledEngine, DoValidator, EnabledValidator, W.Do, W.Enabled;
    match step
    case Create(_, _, _, _, _) => TasksElsewhere(s, Do(s, step));
    case Outbox(p, a) => S.OutboxQuiet(s, p, a); OutboxTasks(s, p, a); TasksElsewhere(s, Do(s, step));
    case Schedule(p, a) => SchedTasks(s, p, a);
    case Engine(p, a) => EngineTasks(s, p, a);
    case Validate(p, a) => ValidatorSubmissions(s, p, a); TasksElsewhere(s, Do(s, step));
    case Wallet(_) => TasksElsewhere(s, Do(s, step));
  }

  lemma OutboxTasks(s: State, p: Pid, a: OutboxAct)
    requires EnabledOutbox(s, p, a)
    ensures DoOutbox(s, p, a).tasks == s.tasks
  {
  }

  lemma TasksElsewhere(s: State, s': State)
    requires TasksOk(s) && EnginesTried(s) && S.Forward(s, s') && s'.tasks == s.tasks && s'.engines == s.engines
    ensures TasksOk(s') && EnginesTried(s') && TasksStay(s.tasks, s'.tasks)
  {
    hide S.Forward;
    TasksStayOk(s, s');
  }

  lemma TasksThen(a: seq<Task>, b: seq<Task>, c: seq<Task>)
    requires TasksStay(a, b) && TasksStay(b, c)
    ensures TasksStay(a, c)
  {
  }

  lemma {:induction false} RunTasks(b: B.Books, r: Run, i: nat, j: nat)
    requires S.GuardedRun(b, r) && i <= j < |r.states|
    ensures TasksOk(r.states[j]) && EnginesTried(r.states[j]) && TasksStay(r.states[i].tasks, r.states[j].tasks)
    decreases j
  {
    if j > 0 {
      var k := j - 1;
      RunTasks(b, r, if i < j then i else k, k);
      OneStepTasks(b, r, k);
      hide TasksOk, EnginesTried, S.GuardedRun;
      if i < j {
        TasksThen(r.states[i].tasks, r.states[k].tasks, r.states[j].tasks);
      }
    }
  }

  lemma OneStepTasks(b: B.Books, r: Run, k: nat)
    requires S.GuardedRun(b, r) && k + 1 < |r.states| && TasksOk(r.states[k]) && EnginesTried(r.states[k])
    ensures TasksOk(r.states[k + 1]) && EnginesTried(r.states[k + 1]) &&
      TasksStay(r.states[k].tasks, r.states[k + 1].tasks)
  {
    hide TasksOk, EnginesTried, Do, Enabled, S.Guarded, D.Inv, S.Inv, S.Forward;
    assert Enabled(r.states[k], r.steps[k]) && r.states[k + 1] == Do(r.states[k], r.steps[k]);
    D.RunInvariant(b, r, k);
    hide IsRun;
    S.RunInvariant(b, r, k);
    S.RunStep(b, r, k);
    StepTasks(r.states[k], r.steps[k]);
  }

  /** From the first time a claim for it was tried, or its task acknowledged, an intent is not SCHEDULED. */
  lemma TriedIsNotScheduled(b: B.Books, r: Run, i: nat, j: nat, k: nat)
    requires S.GuardedRun(b, r) && i <= j < |r.states|
    requires k < |r.states[i].tasks| && (r.states[i].tasks[k].tried || r.states[i].tasks[k].acked)
    ensures var id, s := r.states[i].tasks[k].intent, r.states[j];
      id in s.intents && !s.intents[id].status.PENDING? && !s.intents[id].status.SCHEDULED?
  {
    hide S.GuardedRun, EnginesTried;
    RunTasks(b, r, 0, i);
    assert TaskOk(r.states[i].intents, r.states[i].tasks[k]);
    RunTasks(b, r, i, j);
    assert TaskOk(r.states[j].intents, r.states[j].tasks[k]);
  }
}
