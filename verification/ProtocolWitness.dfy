/**
 Concrete runs in which the order and the work items are lost: a late scheduling write
 takes a COMPLETED intent back to SCHEDULED, a late expiry ends an execution that then
 completes, and an uncovered write or a lost re-publication leaves a SCHEDULED intent
 without any work item.
 */
module ProtocolWitness {
  import opened Prelude
  import B = WalletBooks
  import W = WalletMachine
  import opened Protocol
  import R = ProtocolRuns
  import K = ProtocolWork
  import L = ProtocolLedger

  ghost predicate Reach(b: B.Books, s: State) {
    exists r :: IsRun(b, r) && r.states[|r.states| - 1] == s
  }

  lemma ReachStart(b: B.Books)
    ensures Reach(b, Start(b))
  {
    assert IsRun(b, Run([Start(b)], []));
  }

  lemma ReachStep(b: B.Books, s: State, step: Step)
    requires Reach(b, s) && Enabled(s, step)
    ensures Reach(b, Do(s, step))
  {
    var r :| IsRun(b, r) && r.states[|r.states| - 1] == s;
    var e := R.Extend(b, r, step);
  }

  /** ReachStep with the result named. */
  lemma ReachBy(b: B.Books, s: State, step: Step, t: State)
    requires Reach(b, s) && Enabled(s, step) && Do(s, step) == t
    ensures Reach(b, t)
  {
    hide Do, Enabled, Reach;
    ReachStep(b, s, step);
  }

  const ID: Id := "intent"
  const ROW: RowId := "event"

  function Computation(status: Status): map<Id, Row> {
    map[ID := Row(COMPUTE, None, status, None)]
  }

  /** Two schedulers have read the same submission of a PENDING intent. */
  function BothRead(b: B.Books): State {
    State(Computation(PENDING), map[], [Submission(ID, false)], [], [], [], W.Start(b),
          map[], map[1 := SchedProc(0, AtSchedule), 2 := SchedProc(0, AtSchedule)], map[], map[], map[])
  }

  /** A new computation goes through creation, claim, publication and deletion of its outbox row. */
  lemma ReachNew(b: B.Books, deadline: Option<int>)
    ensures Reach(b,
      Start(b).(intents := map[ID := Row(COMPUTE, None, PENDING, deadline)], submitted := [Submission(ID, false)]))
  {
    ReachStored(b, deadline);
    hide Reach;
    var s1 := Start(b).(intents := map[ID := Row(COMPUTE, None, PENDING, deadline)],
      outbox := map[ROW := OutboxRow(ID, OUTBOX_PENDING, 0)]);
    var s2 := s1.(outbox := map[ROW := OutboxRow(ID, OUTBOX_PROCESSING, 0)],
      outboxes := map[0 := OutboxProc(ROW, ID, 0, AtSend)]);
    ReachBy(b, s1, Outbox(0, OClaim(ROW)), s2);
    ReachSent(b, s2);
  }

  lemma ReachStored(b: B.Books, deadline: Option<int>)
    ensures Reach(b,
      Start(b).(intents := map[ID := Row(COMPUTE, None, PENDING, deadline)],
      outbox := map[ROW := OutboxRow(ID, OUTBOX_PENDING, 0)]))
  {
    ReachStart(b);
    hide Reach;
    ReachBy(b, Start(b), Create(ID, COMPUTE, None, deadline, ROW),
            Start(b).(intents := map[ID := Row(COMPUTE, None, PENDING, deadline)],
              outbox := map[ROW := OutboxRow(ID, OUTBOX_PENDING, 0)]));
  }

  lemma ReachSent(b: B.Books, s: State)
    requires Reach(b, s) && s.submitted == []
    requires s.outbox == map[ROW := OutboxRow(ID, OUTBOX_PROCESSING, 0)] &&
      s.outboxes == map[0 := OutboxProc(ROW, ID, 0, AtSend)]
    ensures Reach(b, s.(outbox := map[], outboxes := map[], submitted := [Submission(ID, false)]))
  {
    hide Reach;
    var s3 := s.(submitted := [Submission(ID, false)], outboxes := map[0 := OutboxProc(ROW, ID, 0, AtDelete)]);
    ReachBy(b, s, Outbox(0, OSend(true, true)), s3);
    ReachBy(b, s3, Outbox(0, ODelete), s.(outbox := map[], outboxes := map[], submitted := [Submission(ID, false)]));
  }

  /** One submission of a PENDING intent, with these schedulers at work. */
  function Handled(b: B.Books, status: Status, acked: bool, schedulers: map<Pid, SchedProc>): State {
    Start(b).(intents := Computation(status), submitted := [Submission(ID, acked)], schedulers := schedulers)
  }

  lemma ReachBothDelivered(b: B.Books)
    ensures Reach(b, Handled(b, PENDING, false, map[1 := SchedProc(0, AtRead), 2 := SchedProc(0, AtRead)]))
  {
    ReachNew(b, None);
    hide Reach;
    var s0 := Handled(b, PENDING, false, map[]);
    var s1 := Handled(b, PENDING, false, map[1 := SchedProc(0, AtRead)]);
    ReachBy(b, s0, Schedule(1, SDeliver(0)), s1);
    ReachBy(b, s1, Schedule(2, SDeliver(0)),
      Handled(b, PENDING, false, map[1 := SchedProc(0, AtRead), 2 := SchedProc(0, AtRead)]));
  }

  lemma ReachBothRead(b: B.Books)
    ensures Reach(b, BothRead(b))
  {
    ReachBothDelivered(b);
    hide Reach;
    var s2 := Handled(b, PENDING, false, map[1 := SchedProc(0, AtRead), 2 := SchedProc(0, AtRead)]);
    var s3 := Handled(b, PENDING, false, map[1 := SchedProc(0, AtSchedule), 2 := SchedProc(0, AtRead)]);
    ReachBy(b, s2, Schedule(1, SRead(0)), s3);
    ReachBy(b, s3, Schedule(2, SRead(0)), BothRead(b));
  }

  /** The first scheduler is done and a worker has claimed; the second scheduler has yet to write. */
  function Claimed(b: B.Books): State {
    State(Computation(EXECUTING), map[], [Submission(ID, true)], [Task(ID, false, true)], [], [], W.Start(b),
          map[], map[2 := SchedProc(0, AtSchedule)], map[3 := EngineProc(0, AtRun)], map[], map[ID := 1])
  }

  /** The first scheduler has published its task and acknowledged the submission. */
  function Published(b: B.Books): State {
    BothRead(b).(intents := Computation(SCHEDULED), submitted := [Submission(ID, true)],
      tasks := [Task(ID, false, false)],
                 schedulers := map[2 := SchedProc(0, AtSchedule)])
  }

  /** The first scheduler has written its decision. */
  function Written(b: B.Books): State {
    BothRead(b).(intents := Computation(SCHEDULED),
      schedulers := map[1 := SchedProc(0, AtPublish), 2 := SchedProc(0, AtSchedule)])
  }

  lemma ReachWritten(b: B.Books)
    ensures Reach(b, Written(b))
  {
    ReachBothRead(b);
    hide Reach;
    ReachBy(b, BothRead(b), Schedule(1, SWrite), Written(b));
  }

  lemma ReachPublished(b: B.Books)
    ensures Reach(b, Published(b))
  {
    ReachWritten(b);
    hide Reach;
    var s1 := Written(b);
    var s2 := s1.(tasks := [Task(ID, false, false)],
      schedulers := map[1 := SchedProc(0, AtAck), 2 := SchedProc(0, AtSchedule)]);
    ReachBy(b, s1, Schedule(1, SPublish(true, true)), s2);
    ReachBy(b, s2, Schedule(1, SAck), Published(b));
  }

  lemma ReachClaimed(b: B.Books)
    ensures Reach(b, Claimed(b))
  {
    ReachPublished(b);
    hide Reach;
    var s4 := Published(b).(engines := map[3 := EngineProc(0, AtClaim)]);
    ReachBy(b, Published(b), Engine(3, EDeliver(0)), s4);
    ReachBy(b, s4, Engine(3, EClaim), Claimed(b));
  }

  /** The claimed intent has been executed and its block appended. */
  function Recorded(b: B.Books): State {
    Claimed(b).(intents := Computation(COMPLETED), executed := [Event(ID, COMPLETED, false)],
                ledger := [Entry(ID, COMPUTE, COMPLETED)],
                engines := map[3 := EngineProc(0, AtDone)], validators := map[4 := ValidatorProc(0, AtEnd)])
  }

  lemma ReachFinished(b: B.Books)
    ensures Reach(b,
      Claimed(b).(intents := Computation(COMPLETED), engines := map[3 := EngineProc(0, AtEmit(COMPLETED))]))
  {
    ReachClaimed(b);
    hide Reach;
    var s0 := Claimed(b);
    var s1 := s0.(engines := map[3 := EngineProc(0, AtFinish(true))]);
    ReachBy(b, s0, Engine(3, ERun(true)), s1);
    ReachBy(b, s1, Engine(3, EFinish),
            s0.(intents := Computation(COMPLETED), engines := map[3 := EngineProc(0, AtEmit(COMPLETED))]));
  }

  lemma ReachEmitted(b: B.Books)
    ensures Reach(b, Claimed(b).(intents := Computation(COMPLETED), executed := [Event(ID, COMPLETED, false)],
                                 engines := map[3 := EngineProc(0, AtDone)],
                                   validators := map[4 := ValidatorProc(0, AtCheck)]))
  {
    ReachFinished(b);
    hide Reach;
    var s0 := Claimed(b).(intents := Computation(COMPLETED), engines := map[3 := EngineProc(0, AtEmit(COMPLETED))]);
    var s1 := s0.(executed := [Event(ID, COMPLETED, false)], engines := map[3 := EngineProc(0, AtDone)]);
    ReachBy(b, s0, Engine(3, EEmit(true)), s1);
    ReachBy(b, s1, Validate(4, VDeliver(0)), s1.(validators := map[4 := ValidatorProc(0, AtCheck)]));
  }

  lemma ReachRecorded(b: B.Books)
    ensures Reach(b, Recorded(b))
  {
    ReachEmitted(b);
    hide Reach;
    var s0 := Claimed(b).(intents := Computation(COMPLETED), executed := [Event(ID, COMPLETED, false)],
                          engines := map[3 := EngineProc(0, AtDone)],
                            validators := map[4 := ValidatorProc(0, AtCheck)]);
    var s1 := s0.(validators := map[4 := ValidatorProc(0, AtAppend(COMPUTE, COMPLETED))]);
    ReachBy(b, s0, Validate(4, VCheck), s1);
    ReachBy(b, s1, Validate(4, VAppend), Recorded(b));
  }

  /** A late scheduling write makes an entry untrue: the ledger says COMPLETED and the row SCHEDULED. */
  lemma StaleWriteBeliesLedger(b: B.Books)
    ensures exists s ::
      && Reach(b, s) && s.ledger == [Entry(ID, COMPUTE, COMPLETED)] && s.intents == Computation(SCHEDULED)
      && !L.Truthful(s)
  {
    ReachRecorded(b);
    hide Reach;
    var s := Recorded(b).(intents := Computation(SCHEDULED), schedulers := map[2 := SchedProc(0, AtPublish)]);
    ReachBy(b, Recorded(b), Schedule(2, SWrite), s);
    assert !L.EntryTrue(s.intents, s.ledger[0]);
  }

  /** A stale scheduler write takes a COMPLETED intent back to SCHEDULED. */
  lemma StaleWriteRegresses(b: B.Books)
    ensures exists s, p ::
      && Reach(b, s) && EnabledSched(s, p, SWrite)
      && ID in s.intents && s.intents[ID].status.COMPLETED? && WriteDecision(s, p).intents == Computation(SCHEDULED)
  {
    ReachFinished(b);
    hide Reach;
    var s := Claimed(b).(intents := Computation(COMPLETED), engines := map[3 := EngineProc(0, AtEmit(COMPLETED))]);
    assert EnabledSched(s, 2, SWrite);
  }

  /**
   A write onto an EXECUTING row whose message is acknowledged and whose task is tried is
   not covered: a crash leaves the intent without work.
   */
  lemma UncoveredWriteLosesWork(b: B.Books)
    ensures exists s :: Reach(b, s) && K.Waits(s, ID) && !K.HasWork(s, ID)
  {
    ReachClaimed(b);
    hide Reach;
    var s1 := Claimed(b).(intents := Computation(SCHEDULED), schedulers := map[2 := SchedProc(0, AtPublish)]);
    ReachBy(b, Claimed(b), Schedule(2, SWrite), s1);
    var s2 := s1.(schedulers := map[]);
    ReachBy(b, s1, Schedule(2, SCrash), s2);
    assert K.Waits(s2, ID) && !K.HasWork(s2, ID);
  }

  /**
   A scheduler that crashed had committed but not published; another has read SCHEDULED and
   is about to publish again.
   */
  lemma ReachUnpublished(b: B.Books)
    ensures Reach(b, Handled(b, SCHEDULED, false, map[1 := SchedProc(0, AtRepublish)]))
  {
    ReachCrashed(b);
    hide Reach;
    var s0, s1 := Handled(b, SCHEDULED, false, map[]), Handled(b, SCHEDULED, false, map[1 := SchedProc(0, AtRead)]);
    ReachBy(b, s0, Schedule(1, SDeliver(0)), s1);
    ReachBy(b, s1, Schedule(1, SRead(0)), Handled(b, SCHEDULED, false, map[1 := SchedProc(0, AtRepublish)]));
  }

  /** A crash between commit and publication, and then a failed re-publication whose error is ignored, lose it too. */
  lemma LostRepublicationLosesWork(b: B.Books)
    ensures exists s :: Reach(b, s) && K.Waits(s, ID) && !K.HasWork(s, ID)
  {
    ReachUnpublished(b);
    hide Reach;
    var s2 := Handled(b, SCHEDULED, false, map[1 := SchedProc(0, AtRepublish)]);
    var s3 := Handled(b, SCHEDULED, false, map[1 := SchedProc(0, AtAck)]);
    ReachBy(b, s2, Schedule(1, SRepublish(false)), s3);
    var s4 := Handled(b, SCHEDULED, true, map[]);
    ReachBy(b, s3, Schedule(1, SAck), s4);
    assert K.Waits(s4, ID) && !K.HasWork(s4, ID);
  }

  /** One scheduler has read the submitted intent. */
  function OneRead(b: B.Books): State {
    Start(b).(intents := Computation(PENDING), submitted := [Submission(ID, false)],
      schedulers := map[1 := SchedProc(0, AtSchedule)])
  }

  lemma ReachOneRead(b: B.Books)
    ensures Reach(b, OneRead(b))
  {
    ReachNew(b, None);
    hide Reach;
    var s0, s1 := Handled(b, PENDING, false, map[]), Handled(b, PENDING, false, map[1 := SchedProc(0, AtRead)]);
    ReachBy(b, s0, Schedule(1, SDeliver(0)), s1);
    ReachBy(b, s1, Schedule(1, SRead(0)), OneRead(b));
  }

  lemma ReachCrashed(b: B.Books)
    ensures Reach(b, Handled(b, SCHEDULED, false, map[]))
  {
    ReachOneRead(b);
    hide Reach;
    var s1 := Handled(b, SCHEDULED, false, map[1 := SchedProc(0, AtPublish)]);
    ReachBy(b, OneRead(b), Schedule(1, SWrite), s1);
    ReachBy(b, s1, Schedule(1, SCrash), Handled(b, SCHEDULED, false, map[]));
  }

  // ---------- a late expiry ----------

  /** A computation with a deadline. */
  function Dated(status: Status): map<Id, Row> {
    map[ID := Row(COMPUTE, None, status, Some(0))]
  }

  /** One submission of a dated intent, with these tasks, schedulers and engines. */
  function Late(b: B.Books, status: Status, tasks: seq<Task>, schedulers: map<Pid, SchedProc>, engines: map<Pid,
        EngineProc>, claims: map<Id, int>): State {
    Start(b).(intents := Dated(status), submitted := [Submission(ID, false)], tasks := tasks, schedulers := schedulers,
      engines := engines, claims := claims)
  }

  lemma ReachDated(b: B.Books)
    ensures Reach(b, Late(b, PENDING, [], map[], map[], map[]))
  {
    ReachNew(b, Some(0));
    assert Late(b, PENDING, [], map[], map[], map[]) ==
      Start(b).(intents := Dated(PENDING), submitted := [Submission(ID, false)]);
  }

  lemma ReachDatedDelivered(b: B.Books)
    ensures Reach(b, Late(b, PENDING, [], map[1 := SchedProc(0, AtRead), 2 := SchedProc(0, AtRead)], map[], map[]))
  {
    ReachDated(b);
    hide Reach;
    var s1 := Late(b, PENDING, [], map[1 := SchedProc(0, AtRead)], map[], map[]);
    ReachBy(b, Late(b, PENDING, [], map[], map[], map[]), Schedule(1, SDeliver(0)), s1);
    ReachBy(b, s1, Schedule(2, SDeliver(0)),
      Late(b, PENDING, [], map[1 := SchedProc(0, AtRead), 2 := SchedProc(0, AtRead)], map[], map[]));
  }

  /** The first scheduler reads at the deadline, the second just after it. */
  lemma ReachBothDecided(b: B.Books)
    ensures Reach(b,
      Late(b, PENDING, [], map[1 := SchedProc(0, AtSchedule), 2 := SchedProc(0, AtExpire)], map[], map[]))
  {
    ReachDatedDelivered(b);
    hide Reach;
    var s0 := Late(b, PENDING, [], map[1 := SchedProc(0, AtRead), 2 := SchedProc(0, AtRead)], map[], map[]);
    var s1 := Late(b, PENDING, [], map[1 := SchedProc(0, AtSchedule), 2 := SchedProc(0, AtRead)], map[], map[]);
    ReachBy(b, s0, Schedule(1, SRead(0)), s1);
    ReachBy(b, s1, Schedule(2, SRead(1)),
      Late(b, PENDING, [], map[1 := SchedProc(0, AtSchedule), 2 := SchedProc(0, AtExpire)], map[], map[]));
  }

  /** The first scheduler has written and published its task. */
  lemma ReachDatedPublished(b: B.Books)
    ensures Reach(b,
      Late(b, SCHEDULED, [Task(ID, false, false)], map[1 := SchedProc(0, AtAck), 2 := SchedProc(0, AtExpire)], map[],
      map[]))
  {
    ReachBothDecided(b);
    hide Reach;
    var s0 := Late(b, PENDING, [], map[1 := SchedProc(0, AtSchedule), 2 := SchedProc(0, AtExpire)], map[], map[]);
    var s1 := Late(b, SCHEDULED, [], map[1 := SchedProc(0, AtPublish), 2 := SchedProc(0, AtExpire)], map[], map[]);
    ReachBy(b, s0, Schedule(1, SWrite), s1);
    ReachBy(b, s1, Schedule(1, SPublish(true, true)),
            Late(b, SCHEDULED, [Task(ID, false, false)], map[1 := SchedProc(0, AtAck), 2 := SchedProc(0, AtExpire)],
              map[], map[]));
  }

  const ENDED: map<Pid, SchedProc> := map[1 := SchedProc(0, AtAck), 2 := SchedProc(0, AtExpire)]

  lemma ReachDatedRunning(b: B.Books)
    ensures Reach(b, Late(b, EXECUTING, [Task(ID, false, true)], ENDED, map[3 := EngineProc(0, AtRun)], map[ID := 1]))
  {
    ReachDatedPublished(b);
    hide Reach;
    var s0 := Late(b, SCHEDULED, [Task(ID, false, false)], ENDED, map[], map[]);
    var s1 := Late(b, SCHEDULED, [Task(ID, false, false)], ENDED, map[3 := EngineProc(0, AtClaim)], map[]);
    ReachBy(b, s0, Engine(3, EDeliver(0)), s1);
    ReachBy(b, s1, Engine(3, EClaim),
      Late(b, EXECUTING, [Task(ID, false, true)], ENDED, map[3 := EngineProc(0, AtRun)], map[ID := 1]));
  }

  /**
   A late expiry makes a FAILED intent of an EXECUTING one, which no single move of the
   order forbids, and the engine's own final write then takes it from FAILED to COMPLETED.
   */
  lemma LateExpiryRegresses(b: B.Books)
    ensures exists s, p ::
      && Reach(b, s) && EnabledEngine(s, p, EFinish)
      && ID in s.intents && s.intents[ID].status.FAILED? && FinishTask(s, p).intents == Dated(COMPLETED)
  {
    ReachDatedRunning(b);
    hide Reach;
    var s0 := Late(b, EXECUTING, [Task(ID, false, true)], ENDED, map[3 := EngineProc(0, AtRun)], map[ID := 1]);
    var s1 := Late(b, FAILED, [Task(ID, false, true)], ENDED[2 := SchedProc(0, AtAck)], map[3 := EngineProc(0, AtRun)],
      map[ID := 1]);
    ReachBy(b, s0, Schedule(2, SWrite), s1);
    var s2 := Late(b, FAILED, [Task(ID, false, true)], ENDED[2 := SchedProc(0, AtAck)],
      map[3 := EngineProc(0, AtFinish(true))], map[ID := 1]);
    ReachBy(b, s1, Engine(3, ERun(true)), s2);
    assert EnabledEngine(s2, 3, EFinish) && FinishTask(s2, 3).intents == Dated(COMPLETED);
  }
}
