/**
 Nothing accepted is forgotten: a PENDING intent always has its outbox row or an
 unacknowledged submission message, whatever crashes, repeats and races happen.
 */
module ProtocolDelivery {
  import opened Prelude
  import B = WalletBooks
  import W = WalletMachine
  import opened Protocol
  import F = ProtocolFrames

  ghost predicate InOutbox(s: State, id: Id) {
    exists row :: row in s.outbox && s.outbox[row].intent == id
  }

  ghost predicate Submitted(s: State, id: Id) {
    exists i :: 0 <= i < |s.submitted| && s.submitted[i].intent == id
  }

  ghost predicate Unacked(s: State, id: Id) {
    exists i :: 0 <= i < |s.submitted| && s.submitted[i].intent == id && !s.submitted[i].acked
  }

  /** Some scheduler has already seen the intent, or made it, something other than PENDING. */
  ghost predicate Started(s: State, id: Id) {
    id in s.intents && !s.intents[id].status.PENDING?
  }

  // ---------- the invariant ----------

  ghost predicate KnownOk(s: State) {
    && (forall row :: row in s.outbox ==> s.outbox[row].intent in s.intents)
    && (forall i :: 0 <= i < |s.submitted| ==> s.submitted[i].intent in s.intents)
  }

  ghost predicate OutboxesOk(s: State) {
    forall p :: p in s.outboxes ==>
      && s.outboxes[p].intent in s.intents
      && (s.outboxes[p].row in s.outbox ==> s.outbox[s.outboxes[p].row].intent == s.outboxes[p].intent)
      && (s.outboxes[p].pc.AtDelete? ==> Submitted(s, s.outboxes[p].intent))
  }

  ghost predicate CarriedOk(s: State) {
    forall id :: id in s.intents ==> InOutbox(s, id) || Submitted(s, id)
  }

  ghost predicate AckedOk(s: State) {
    forall i :: 0 <= i < |s.submitted| && s.submitted[i].acked ==> Started(s, s.submitted[i].intent)
  }

  ghost predicate SchedulerOk(s: State, p: Pid)
    requires p in s.schedulers
  {
    var x := s.schedulers[p];
    && x.msg < |s.submitted|
    && (x.pc.AtPublish? || x.pc.AtRepublish? || x.pc.AtAck? ==> Started(s, s.submitted[x.msg].intent))
  }

  ghost predicate SchedulersOk(s: State) {
    forall p :: p in s.schedulers ==> SchedulerOk(s, p)
  }

  ghost predicate Inv(s: State) {
    KnownOk(s) && OutboxesOk(s) && CarriedOk(s) && AckedOk(s) && SchedulersOk(s)
  }

  // ---------- preservation ----------

  /** No intent disappears and none goes back to PENDING. */
  ghost predicate OnlyStarts(s: State, s': State) {
    && (forall id :: id in s.intents ==> id in s'.intents)
    && (forall id :: Started(s, id) ==> Started(s', id))
  }

  lemma StatusStarts(s: State, id: Id, status: Status)
    requires !status.PENDING?
    ensures OnlyStarts(s, SetStatus(s, id, status)) && SetStatus(s, id, status).intents.Keys == s.intents.Keys
    ensures id in s.intents ==> Started(SetStatus(s, id, status), id)
  {
  }

  lemma StatusesKeep(s: State, s': State)
    requires Inv(s) && OnlyStarts(s, s') && s'.intents.Keys == s.intents.Keys
    requires s'.outbox == s.outbox && s'.submitted == s.submitted
    requires s'.outboxes == s.outboxes && s'.schedulers == s.schedulers
    ensures Inv(s')
  {
    assert forall id :: Submitted(s, id) <==> Submitted(s', id);
    assert forall id :: InOutbox(s, id) <==> InOutbox(s', id);
  }

  /** The new intent has its row, and every other keeps its trace. */
  lemma CreateCarries(s: State, s': State, id: Id, row: RowId)
    requires CarriedOk(s) && row !in s.outbox && s'.intents.Keys == s.intents.Keys + {id} && s'.submitted == s.submitted
    requires s'.outbox == s.outbox[row := OutboxRow(id, OUTBOX_PENDING, 0)]
    ensures CarriedOk(s')
  {
    forall i | i in s'.intents ensures InOutbox(s', i) || Submitted(s', i) {
      if i == id {
        assert s'.outbox[row].intent == id;
      } else if InOutbox(s, i) {
        var k :| k in s.outbox && s.outbox[k].intent == i;
        assert s'.outbox[k].intent == i;
      } else {
        assert Submitted(s, i);
      }
    }
  }

  lemma CreateKeeps(s: State, id: Id, kind: Kind, order: Option<Order>, deadline: Option<int>, row: RowId)
    requires Inv(s) && Enabled(s, Create(id, kind, order, deadline, row))
    ensures Inv(CreateIntent(s, id, kind, order, deadline, row))
  {
    var s' := CreateIntent(s, id, kind, order, deadline, row);
    assert s'.intents.Keys == s.intents.Keys + {id};
    CreateCarries(s, s', id, row);
    hide CarriedOk, InOutbox;
    assert forall i :: Submitted(s, i) <==> Submitted(s', i);
    assert forall i :: Started(s, i) ==> Started(s', i);
    hide Submitted, Started;
    assert KnownOk(s') && OutboxesOk(s') && AckedOk(s') && SchedulersOk(s');
  }

  lemma OutboxRowsKeep(s: State, s': State)
    requires Inv(s) && s'.intents == s.intents && s'.submitted == s.submitted && s'.schedulers == s.schedulers
    requires s'.outbox.Keys == s.outbox.Keys && forall row :: row in s.outbox ==>
      s'.outbox[row].intent == s.outbox[row].intent
    ensures KnownOk(s') && CarriedOk(s') && AckedOk(s') && SchedulersOk(s')
  {
    assert forall id :: Submitted(s, id) <==> Submitted(s', id);
    forall id | InOutbox(s, id) ensures InOutbox(s', id) {
      var row :| row in s.outbox && s.outbox[row].intent == id;
      assert s'.outbox[row].intent == id;
    }
  }

  lemma SendKeeps(s: State, s': State, id: Id)
    requires Inv(s) && id in s.intents && s'.intents == s.intents && s'.outbox == s.outbox &&
      s'.schedulers == s.schedulers
    requires s'.submitted == s.submitted + [Submission(id, false)]
    ensures KnownOk(s') && CarriedOk(s') && AckedOk(s') && SchedulersOk(s')
    ensures Submitted(s', id) && forall i :: Submitted(s, i) ==> Submitted(s', i)
  {
    assert s'.submitted[|s.submitted|].intent == id;
    forall i | Submitted(s, i) ensures Submitted(s', i) {
      var k :| 0 <= k < |s.submitted| && s.submitted[k].intent == i;
      assert s'.submitted[k].intent == i;
    }
    assert forall i :: InOutbox(s, i) <==> InOutbox(s', i);
  }

  lemma DeleteKeeps(s: State, p: Pid)
    requires Inv(s) && EnabledOutbox(s, p, ODelete)
    ensures Inv(DoOutbox(s, p, ODelete))
  {
    var s' := DoOutbox(s, p, ODelete);
    assert forall i :: Submitted(s, i) <==> Submitted(s', i);
    forall id | id in s'.intents ensures InOutbox(s', id) || Submitted(s', id) {
      if !Submitted(s, id) {
        var row :| row in s.outbox && s.outbox[row].intent == id;
        assert row != s.outboxes[p].row;
        assert s'.outbox[row].intent == id;
      }
    }
  }

  /** One worker of the outbox moves on; rows keep their intents and messages are only added. */
  ghost predicate WorkersMove(s: State, s': State, p: Pid) {
    && s'.intents == s.intents && s'.outbox.Keys == s.outbox.Keys
    && (forall row :: row in s.outbox ==> s'.outbox[row].intent == s.outbox[row].intent)
    && (forall q :: q in s'.outboxes && q != p ==> q in s.outboxes && s'.outboxes[q] == s.outboxes[q])
    && (p in s'.outboxes ==>
          var x := s'.outboxes[p];
          && x.intent in s.intents && (x.row in s.outbox ==> s.outbox[x.row].intent == x.intent)
          && (x.pc.AtDelete? ==> Submitted(s', x.intent)))
    && forall id :: Submitted(s, id) ==> Submitted(s', id)
  }

  lemma WorkersStayOk(s: State, s': State, p: Pid)
    requires OutboxesOk(s) && WorkersMove(s, s', p)
    ensures OutboxesOk(s')
  {
    hide Submitted;
  }

  lemma RowsKeep(s: State, s': State, p: Pid)
    requires Inv(s) && WorkersMove(s, s', p) && s'.submitted == s.submitted && s'.schedulers == s.schedulers
    ensures Inv(s')
  {
    WorkersStayOk(s, s', p);
    hide OutboxesOk, KnownOk, CarriedOk, AckedOk, SchedulersOk, Submitted;
    OutboxRowsKeep(s, s');
  }

  lemma SendStep(s: State, p: Pid, stored: bool, ok: bool)
    requires Inv(s) && EnabledOutbox(s, p, OSend(stored, ok))
    ensures Inv(DoOutbox(s, p, OSend(stored, ok)))
  {
    var s' := DoOutbox(s, p, OSend(stored, ok));
    assert s.outboxes[p].intent in s.intents;
    if stored {
      SendKeeps(s, s', s.outboxes[p].intent);
      hide KnownOk, CarriedOk, AckedOk, SchedulersOk, Submitted;
      WorkersStayOk(s, s', p);
    } else {
      hide Inv;
      RowsKeep(s, s', p);
    }
  }

  lemma OutboxKeeps(s: State, p: Pid, a: OutboxAct)
    requires Inv(s) && EnabledOutbox(s, p, a)
    ensures Inv(DoOutbox(s, p, a))
  {
    hide *;
    match a
    case ODelete => DeleteKeeps(s, p);
    case OSend(stored, ok) => SendStep(s, p, stored, ok);
    case OClaim(row) => ClaimRowKeeps(s, p, row);
    case ORequeue => EndRowKeeps(s, p, a);
    case OCrash => EndRowKeeps(s, p, a);
  }

  lemma EndRowKeeps(s: State, p: Pid, a: OutboxAct)
    requires Inv(s) && EnabledOutbox(s, p, a) && (a.ORequeue? || a.OCrash?)
    ensures Inv(DoOutbox(s, p, a))
  {
    hide Inv;
    RowsKeep(s, DoOutbox(s, p, a), p);
  }

  lemma ClaimRowKeeps(s: State, p: Pid, row: RowId)
    requires Inv(s) && EnabledOutbox(s, p, OClaim(row))
    ensures Inv(DoOutbox(s, p, OClaim(row)))
  {
    assert s.outbox[row].intent in s.intents;
    hide Inv;
    RowsKeep(s, DoOutbox(s, p, OClaim(row)), p);
  }

  lemma SchedulerRowKeeps(s: State, s': State, p: Pid)
    requires Inv(s) && s'.outbox == s.outbox && s'.submitted == s.submitted && s'.outboxes == s.outboxes
    requires OnlyStarts(s, s') && s'.intents.Keys == s.intents.Keys
    requires forall q :: q in s'.schedulers && q != p ==> q in s.schedulers && s'.schedulers[q] == s.schedulers[q]
    requires p in s'.schedulers ==> SchedulerOk(s', p)
    ensures Inv(s')
  {
    StatusesKeep(s, s'.(schedulers := s.schedulers));
    forall q | q in s'.schedulers && q != p ensures SchedulerOk(s', q) {
      assert SchedulerOk(s, q);
    }
    assert forall i :: Submitted(s, i) <==> Submitted(s', i);
    assert forall id :: InOutbox(s, id) <==> InOutbox(s', id);
  }

  lemma AckKeeps(s: State, p: Pid)
    requires Inv(s) && p in s.schedulers && s.schedulers[p].msg < |s.submitted| && s.schedulers[p].pc.AtAck?
    ensures Inv(AckSubmission(s, p))
  {
    var s' := AckSubmission(s, p);
    assert SchedulerOk(s, p);
    assert forall i :: 0 <= i < |s.submitted| ==> s'.submitted[i].intent == s.submitted[i].intent;
    forall id | Submitted(s, id) ensures Submitted(s', id) {
      var k :| 0 <= k < |s.submitted| && s.submitted[k].intent == id;
      assert s'.submitted[k].intent == id;
    }
    assert forall id :: InOutbox(s, id) <==> InOutbox(s', id);
    assert forall id :: Started(s, id) <==> Started(s', id);
  }

  lemma MarkKeeps(s: State, p: Pid, status: Status, pc: SchedPc)
    requires Inv(s) && p in s.schedulers && !status.PENDING?
    ensures Inv(SchedGoto(SetStatus(s, Subject(s, p), status), p, pc))
  {
    assert SchedulerOk(s, p);
    var s' := SchedGoto(SetStatus(s, Subject(s, p), status), p, pc);
    assert Started(s', Subject(s, p));
    SchedulerRowKeeps(s, s', p);
  }

  lemma WriteKeeps(s: State, p: Pid)
    requires Inv(s) && p in s.schedulers
    ensures Inv(WriteDecision(s, p))
  {
    if s.schedulers[p].pc.AtSchedule? {
      MarkKeeps(s, p, SCHEDULED, AtPublish);
    } else {
      MarkKeeps(s, p, FAILED, AtAck);
    }
  }

  lemma ReadKeeps(s: State, p: Pid, now: int)
    requires Inv(s) && p in s.schedulers
    ensures Inv(SchedGoto(s, p, Decide(s, Subject(s, p), now)))
  {
    assert SchedulerOk(s, p);
    SchedulerRowKeeps(s, SchedGoto(s, p, Decide(s, Subject(s, p), now)), p);
  }

  lemma PublishKeeps(s: State, p: Pid, tasks: seq<Task>)
    requires Inv(s) && p in s.schedulers && (s.schedulers[p].pc.AtPublish? || s.schedulers[p].pc.AtRepublish?)
    ensures Inv(SchedGoto(s.(tasks := tasks), p, AtAck)) && Inv(DropScheduler(s.(tasks := tasks), p))
  {
    assert SchedulerOk(s, p);
    SchedulerRowKeeps(s, SchedGoto(s.(tasks := tasks), p, AtAck), p);
    SchedulerRowKeeps(s, DropScheduler(s.(tasks := tasks), p), p);
  }

  lemma SchedKeeps(s: State, p: Pid, a: SchedAct)
    requires Inv(s) && EnabledSched(s, p, a)
    ensures Inv(DoSched(s, p, a))
  {
    match a
    case SDeliver(msg) => SchedulerRowKeeps(s, DoSched(s, p, a), p);
    case SRead(now) => ReadKeeps(s, p, now);
    case SWrite => WriteKeeps(s, p);
    case SPublish(stored, _) => PublishKeeps(s, p, if stored then PutTask(s, Subject(s, p)).tasks else s.tasks);
    case SRepublish(stored) => PublishKeeps(s, p, if stored then PutTask(s, Subject(s, p)).tasks else s.tasks);
    case SAck => AckKeeps(s, p);
    case SCrash => SchedulerRowKeeps(s, DropScheduler(s, p), p);
  }

  /** A step of another service touches, of what matters here, only statuses. */
  ghost predicate Elsewhere(s: State, s': State) {
    && OnlyStarts(s, s') && s'.intents.Keys == s.intents.Keys
    && s'.outbox == s.outbox && s'.submitted == s.submitted
    && s'.outboxes == s.outboxes && s'.schedulers == s.schedulers
  }

  lemma ClaimElsewhere(s: State, p: Pid)
    requires p in s.engines && s.engines[p].msg < |s.tasks|
    ensures Elsewhere(s, Claim(s, p))
  {
    hide Get;
    StatusStarts(s, Job(s, p), EXECUTING);
  }

  lemma FinishElsewhere(s: State, p: Pid)
    requires p in s.engines && s.engines[p].pc.AtFinish?
    ensures Elsewhere(s, FinishTask(s, p))
  {
  }

  lemma EngineElsewhere(s: State, p: Pid, a: EngineAct)
    requires EnabledEngine(s, p, a)
    ensures Elsewhere(s, DoEngine(s, p, a))
  {
    if a.EClaim? {
      ClaimElsewhere(s, p);
    } else if a.EFinish? {
      FinishElsewhere(s, p);
    } else {
      F.EngineFrame(s, p, a);
      hide DoEngine, EnabledEngine;
    }
  }

  lemma EngineKeeps(s: State, p: Pid, a: EngineAct)
    requires Inv(s) && EnabledEngine(s, p, a)
    ensures Inv(DoEngine(s, p, a))
  {
    EngineElsewhere(s, p, a);
    StatusesKeep(s, DoEngine(s, p, a));
  }

  lemma ValidatorKeeps(s: State, p: Pid, a: ValidatorAct)
    requires Inv(s) && EnabledValidator(s, p, a)
    ensures Inv(DoValidator(s, p, a))
  {
    StatusesKeep(s, DoValidator(s, p, a));
  }

  lemma StepKeeps(s: State, step: Step)
    requires Inv(s) && Enabled(s, step)
    ensures Inv(Do(s, step))
  {
    match step
    case Create(id, kind, order, deadline, row) => CreateKeeps(s, id, kind, order, deadline, row);
    case Outbox(p, a) => OutboxKeeps(s, p, a);
    case Schedule(p, a) => SchedKeeps(s, p, a);
    case Engine(p, a) => EngineKeeps(s, p, a);
    case Validate(p, a) => ValidatorKeeps(s, p, a);
    case Wallet(w) => StatusesKeep(s, s.(wallet := W.Do(s.wallet, w)));
  }

  // ---------- the theorem ----------

  lemma {:induction false} RunInvariant(b: B.Books, r: Run, i: nat)
    requires IsRun(b, r) && i < |r.states|
    ensures Inv(r.states[i])
  {
    if i > 0 {
      RunInvariant(b, r, i - 1);
      StepKeeps(r.states[i - 1], r.steps[i - 1]);
      assert r.states[i - 1 + 1] == Do(r.states[i - 1], r.steps[i - 1]);
    }
  }

  /** An accepted intent is never forgotten while it is PENDING. */
  lemma NoLostEvent(b: B.Books, r: Run, i: nat, id: Id)
    requires IsRun(b, r) && i < |r.states|
    requires id in r.states[i].intents && r.states[i].intents[id].status.PENDING?
    ensures InOutbox(r.states[i], id) || Unacked(r.states[i], id)
  {
    RunInvariant(b, r, i);
    var s := r.states[i];
    if !InOutbox(s, id) {
      var k :| 0 <= k < |s.submitted| && s.submitted[k].intent == id;
      assert !s.submitted[k].acked;
    }
  }
}
