/** What a service's steps leave alone. */
module ProtocolFrames {
  import opened Prelude
  import W = WalletMachine
  import opened Protocol

  /** What a scheduler's steps leave alone. */
  ghost predicate SchedLeaves(s: State, t: State) {
    && t.wallet == s.wallet && t.engines == s.engines && t.ledger == s.ledger
  }

  lemma PublishFrame(s: State, p: Pid, stored: bool, ok: bool)
    requires p in s.schedulers
    ensures var t := PublishTask(s, p, stored, ok);
      SchedLeaves(s, t) && t.intents == s.intents &&
        t.tasks == if stored then s.tasks + [Task(Subject(s, p), false, false)] else s.tasks
  {
  }

  lemma WriteFrame(s: State, p: Pid)
    requires p in s.schedulers
    ensures SchedLeaves(s, WriteDecision(s, p)) && WriteDecision(s, p).tasks == s.tasks
  {
    hide Mark, Subject;
  }

  lemma SchedFrame(s: State, p: Pid, a: SchedAct)
    requires EnabledSched(s, p, a)
    ensures var t := DoSched(s, p, a);
      && SchedLeaves(s, t) && (!a.SWrite? ==> t.intents == s.intents)
      && (t.tasks == s.tasks || t.tasks == s.tasks + [Task(Subject(s, p), false, false)])
  {
    hide Decide, Mark, Subject, PublishTask, WriteDecision;
    match a
    case SDeliver(_) =>
    case SRead(_) =>
    case SWrite => WriteFrame(s, p);
    case SPublish(stored, ok) => PublishFrame(s, p, stored, ok);
    case SRepublish(stored) => PublishFrame(s, p, stored, true);
    case SAck =>
    case SCrash =>
  }

  /** What an engine's steps leave alone. */
  ghost predicate EngineLeaves(s: State, t: State) {
    && t.outbox == s.outbox && t.outboxes == s.outboxes && t.submitted == s.submitted && t.schedulers == s.schedulers
    && t.ledger == s.ledger
  }

  lemma ClaimFrame(s: State, p: Pid)
    requires p in s.engines && s.engines[p].msg < |s.tasks|
    ensures EngineLeaves(s, Claim(s, p))
  {
    hide Mark, Get, Job;
  }

  lemma FinishFrame(s: State, p: Pid)
    requires p in s.engines && s.engines[p].pc.AtFinish?
    ensures EngineLeaves(s, FinishTask(s, p)) && FinishTask(s, p).tasks == s.tasks
  {
    hide Mark, Job;
  }

  lemma CallFrame(s: State, p: Pid, tid: W.Tid)
    requires EnabledEngine(s, p, ECall(tid))
    ensures var t := CallWallet(s, p, tid); EngineLeaves(s, t) && t.intents == s.intents && t.tasks == s.tasks
  {
    hide W.Do;
  }

  lemma EngineFrame(s: State, p: Pid, a: EngineAct)
    requires EnabledEngine(s, p, a)
    ensures EngineLeaves(s, DoEngine(s, p, a)) && (!a.EClaim? && !a.EFinish? ==> DoEngine(s, p, a).intents == s.intents)
  {
    hide Claim, FinishTask, CallWallet, Job;
    match a
    case EDeliver(_) =>
    case EClaim => ClaimFrame(s, p);
    case ERun(_) =>
    case ECall(tid) => CallFrame(s, p, tid);
    case EReply(_) =>
    case EFinish => FinishFrame(s, p);
    case EEmit(_) =>
    case EAck =>
    case ECrash =>
  }

  /** Only a claim marks a task as tried. */
  lemma EngineTasks(s: State, p: Pid, a: EngineAct)
    requires EnabledEngine(s, p, a) && !a.EClaim?
    ensures var t := DoEngine(s, p, a);
      && |t.tasks| == |s.tasks|
      && forall k :: 0 <= k < |s.tasks| ==>
           && t.tasks[k].intent == s.tasks[k].intent && t.tasks[k].tried == s.tasks[k].tried
           && (t.tasks[k].acked == s.tasks[k].acked || (a.EAck? && k == s.engines[p].msg))
  {
    hide Claim, FinishTask, CallWallet, Job;
    match a
    case EDeliver(_) =>
    case ERun(_) =>
    case ECall(tid) => CallFrame(s, p, tid);
    case EReply(_) =>
    case EFinish => FinishFrame(s, p);
    case EEmit(_) =>
    case EAck =>
    case ECrash =>
  }

  /** Tasks keep their intents; new ones may follow. */
  ghost predicate TasksKept(tasks: seq<Task>, tasks': seq<Task>) {
    |tasks| <= |tasks'| && forall k :: 0 <= k < |tasks| ==> tasks'[k].intent == tasks[k].intent
  }
}
