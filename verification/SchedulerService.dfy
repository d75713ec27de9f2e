/** The scheduler's subscription: one submission message from delivery to its acknowledgement. */
module SchedulerService {
  import opened Prelude
  import opened Protocol
  import opened ServiceRuns
  import B = WalletBooks
  import S = ProtocolStatus
  import P = ProtocolRepeats

  // ---------- what the scheduler does with one message ----------

  datatype SchedFaults = SchedFaults(readFails: bool, write: Write, publish: Publication)

  /** The status written, whether a task was stored, and whether the message is acknowledged. */
  datatype Outcome = Outcome(status: Option<Status>, task: bool, acked: bool)

  predicate Expired(row: Row, now: int) {
    row.deadline.Some? && now > row.deadline.value
  }

  /** Scheduling one intent, by the row that was read and what went wrong. */
  function Scheduling(s: State, id: Id, now: int, f: SchedFaults): Outcome {
    if f.readFails then Outcome(None, false, false)
    else if id !in s.intents then Outcome(None, false, true)
    else
      var row := s.intents[id];
      var written := !f.write.NotWritten?;
      match row.status
      case PENDING =>
        if Expired(row, now) then Outcome(if written then Some(FAILED) else None, false, f.write.Written?)
        else Outcome(if written then Some(SCHEDULED) else None, f.write.Written? &&
          Stored(f.publish), f.write.Written? && f.publish.Seen?)
      case SCHEDULED => Outcome(None, Stored(f.publish), true)
      case _ => Outcome(None, false, true)
  }

  /** The process is gone, with its message acknowledged or not. */
  function Finish(s: State, p: Pid, acked: bool): State
    requires p in s.schedulers && s.schedulers[p].msg < |s.submitted|
  {
    if acked then AckSubmission(s, p) else DropScheduler(s, p)
  }

  function MaybeTask(s: State, id: Id, stored: bool): State {
    if stored then PutTask(s, id) else s
  }

  function MaybeStatus(s: State, id: Id, status: Option<Status>): State {
    if status.Some? then SetStatus(s, id, status.value) else s
  }

  /** Tables and queues after one message. */
  function Scheduled(s: State, p: Pid, o: Outcome): State
    requires p in s.schedulers && s.schedulers[p].msg < |s.submitted|
  {
    var id := Subject(s, p);
    Finish(MaybeTask(MaybeStatus(s, id, o.status), id, o.task), p, o.acked)
  }

  /** A scheduler process that has just received its message. */
  predicate Received(s: State, p: Pid) {
    p in s.schedulers && s.schedulers[p].pc.AtRead? && s.schedulers[p].msg < |s.submitted|
  }

  // ---------- the handler is a run ----------

  predicate SchedulerAt(s: State, p: Pid, pc: SchedPc) {
    p in s.schedulers && s.schedulers[p].pc == pc && s.schedulers[p].msg < |s.submitted|
  }

  /** Where a process stood does not matter once it is gone. */
  lemma GotoThenEnd(s: State, p: Pid, pc: SchedPc)
    requires p in s.schedulers && s.schedulers[p].msg < |s.submitted|
    ensures var t := SchedGoto(s, p, pc);
      AckSubmission(t, p) == AckSubmission(s, p) && DropScheduler(t, p) == DropScheduler(s, p)
  {
    assert s.schedulers[p := s.schedulers[p].(pc := pc)] - {p} == s.schedulers - {p};
  }

  lemma FromAck(s: State, p: Pid) returns (steps: seq<Step>)
    requires SchedulerAt(s, p, AtAck)
    ensures Leads(s, steps, Finish(s, p, true)) && Lossless(steps)
  {
    hide AckSubmission;
    LeadsBy(s, Schedule(p, SAck), [], Finish(s, p, true));
    steps := [Schedule(p, SAck)] + [];
  }

  lemma FromCrash(s: State, p: Pid) returns (steps: seq<Step>)
    requires p in s.schedulers && s.schedulers[p].msg < |s.submitted|
    ensures Leads(s, steps, Finish(s, p, false)) && Lossless(steps)
  {
    hide DropScheduler;
    LeadsBy(s, Schedule(p, SCrash), [], Finish(s, p, false));
    steps := [Schedule(p, SCrash)] + [];
  }

  lemma FromPublish(s: State, p: Pid, d: Publication) returns (steps: seq<Step>)
    requires SchedulerAt(s, p, AtPublish)
    ensures Leads(s, steps, Finish(MaybeTask(s, Subject(s, p), Stored(d)), p, d.Seen?)) && Lossless(steps)
  {
    var t, step := MaybeTask(s, Subject(s, p), Stored(d)), Schedule(p, SPublish(Stored(d), d.Seen?));
    assert Enabled(s, step) && S.Guarded(s, step) && Do(s, step) == PublishTask(s, p, Stored(d), d.Seen?);
    var rest: seq<Step> := [];
    if d.Seen? {
      rest := FromAck(SchedGoto(t, p, AtAck), p);
      GotoThenEnd(t, p, AtAck);
    }
    hide Enabled, S.Guarded, Do, AckSubmission;
    LeadsBy(s, step, rest, Finish(t, p, d.Seen?));
    steps := [step] + rest;
  }

  lemma FromRepublish(s: State, p: Pid, d: Publication) returns (steps: seq<Step>)
    requires SchedulerAt(s, p, AtRepublish)
    ensures Leads(s, steps, Finish(MaybeTask(s, Subject(s, p), Stored(d)), p, true)) && (Stored(d) ==> Lossless(steps))
  {
    var t, step := MaybeTask(s, Subject(s, p), Stored(d)), Schedule(p, SRepublish(Stored(d)));
    assert Enabled(s, step) && S.Guarded(s, step) && Do(s, step) == PublishTask(s, p, Stored(d), true);
    var rest := FromAck(SchedGoto(t, p, AtAck), p);
    GotoThenEnd(t, p, AtAck);
    hide Enabled, S.Guarded, Do, AckSubmission;
    LeadsBy(s, step, rest, Finish(t, p, true));
    steps := [step] + rest;
  }

  /** The row is PENDING, as it was when it was read. */
  predicate StillPending(s: State, p: Pid) {
    Subject(s, p) in s.intents && s.intents[Subject(s, p)].status.PENDING?
  }

  lemma FromExpire(s: State, p: Pid, w: Write) returns (steps: seq<Step>)
    requires SchedulerAt(s, p, AtExpire) && StillPending(s, p)
    ensures Leads(s, steps, Finish(if w.NotWritten? then s else SetStatus(s, Subject(s, p), FAILED), p, w.Written?)) &&
      Lossless(steps)
  {
    if w.NotWritten? {
      steps := FromCrash(s, p);
    } else {
      var t, step := SetStatus(s, Subject(s, p), FAILED), Schedule(p, SWrite);
      var t' := SchedGoto(t, p, AtAck);
      assert Enabled(s, step) && S.Guarded(s, step) && Do(s, step) == t';
      GotoThenEnd(t, p, AtAck);
      var rest;
      if w.Written? {
        rest := FromAck(t', p);
      } else {
        rest := FromCrash(t', p);
      }
      hide Enabled, S.Guarded, Do, AckSubmission;
      LeadsBy(s, step, rest, Finish(t, p, w.Written?));
      steps := [step] + rest;
    }
  }

  /** What scheduling a pending intent does to tables and queues. */
  function Committed(s: State, id: Id, w: Write, d: Publication): State {
    if w.NotWritten? then s else MaybeTask(SetStatus(s, id, SCHEDULED), id, w.Written? && Stored(d))
  }

  lemma FromSchedule(s: State, p: Pid, w: Write, d: Publication) returns (steps: seq<Step>)
    requires SchedulerAt(s, p, AtSchedule) && StillPending(s, p)
    ensures Leads(s, steps, Finish(Committed(s, Subject(s, p), w, d), p, w.Written? && d.Seen?)) && Lossless(steps)
  {
    if w.NotWritten? {
      steps := FromCrash(s, p);
    } else {
      var id, step := Subject(s, p), Schedule(p, SWrite);
      var t := SetStatus(s, id, SCHEDULED);
      var t' := SchedGoto(t, p, AtPublish);
      assert Enabled(s, step) && S.Guarded(s, step) && Do(s, step) == t';
      var rest;
      if w.Written? {
        rest := FromPublish(t', p, d);
        GotoThenEnd(MaybeTask(t, id, Stored(d)), p, AtPublish);
        assert MaybeTask(t', id, Stored(d)) == SchedGoto(MaybeTask(t, id, Stored(d)), p, AtPublish);
      } else {
        rest := FromCrash(t', p);
        GotoThenEnd(t, p, AtPublish);
      }
      hide Enabled, S.Guarded, Do, AckSubmission;
      LeadsBy(s, step, rest, Finish(Committed(s, id, w, d), p, w.Written? && d.Seen?));
      steps := [step] + rest;
    }
  }

  /** The handler and its acknowledgement are a run of the machine. */
  lemma HandlingIsARun(s: State, p: Pid, now: int, f: SchedFaults) returns (steps: seq<Step>)
    requires Received(s, p)
    ensures Leads(s, steps, Scheduled(s, p, Scheduling(s, Subject(s, p), now, f))) &&
      (Stored(f.publish) ==> Lossless(steps))
  {
    var id := Subject(s, p);
    if f.readFails {
      steps := FromCrash(s, p);
    } else {
      var step, pc := Schedule(p, SRead(now)), Decide(s, id, now);
      var t := SchedGoto(s, p, pc);
      assert Enabled(s, step) && S.Guarded(s, step) && Do(s, step) == t;
      AfterRead(s, p, now, f);
      var rest;
      match pc {
        case AtAck => rest := FromAck(t, p);
        case AtRepublish => rest := FromRepublish(t, p, f.publish);
        case AtExpire => rest := FromExpire(t, p, f.write);
        case AtSchedule => rest := FromSchedule(t, p, f.write, f.publish);
      }
      hide Enabled, S.Guarded, Do, Scheduled, Scheduling, Decide, SchedGoto;
      LeadsBy(s, step, rest, Scheduled(s, p, Scheduling(s, id, now, f)));
      steps := [step] + rest;
    }
  }

  /** Where a process stands does not matter to what is written. */
  lemma GotoThenDo(s: State, p: Pid, pc: SchedPc, id: Id, status: Option<Status>, task: bool)
    requires p in s.schedulers && s.schedulers[p].msg < |s.submitted|
    ensures var u := MaybeTask(MaybeStatus(s, id, status), id, task);
      && u.schedulers == s.schedulers && u.submitted == s.submitted
      && SchedGoto(u, p, pc) == MaybeTask(MaybeStatus(SchedGoto(s, p, pc), id, status), id, task)
  {
    hide Mark;
  }

  /** Reading does not change what is done. */
  lemma AfterRead(s: State, p: Pid, now: int, f: SchedFaults)
    requires Received(s, p) && !f.readFails
    ensures var id, pc := Subject(s, p), Decide(s, Subject(s, p), now);
      var t, end := SchedGoto(s, p, pc), Scheduled(s, p, Scheduling(s, id, now, f));
      && Subject(t, p) == id && (pc.AtExpire? || pc.AtSchedule? ==> StillPending(t, p))
      && (pc.AtAck? ==> end == Finish(t, p, true))
      && (pc.AtRepublish? ==> end == Finish(MaybeTask(t, id, Stored(f.publish)), p, true))
      && (pc.AtExpire? ==>
           end == Finish(if f.write.NotWritten? then t else SetStatus(t, id, FAILED), p, f.write.Written?))
      && (pc.AtSchedule? ==>
           end == Finish(Committed(t, id, f.write, f.publish), p, f.write.Written? && f.publish.Seen?))
      && (pc.AtAck? || pc.AtRepublish? || pc.AtExpire? || pc.AtSchedule?)
  {
    var id, pc, o := Subject(s, p), Decide(s, Subject(s, p), now), Scheduling(s, Subject(s, p), now, f);
    GotoThenDo(s, p, pc, id, o.status, o.task);
    GotoThenEnd(MaybeTask(MaybeStatus(s, id, o.status), id, o.task), p, pc);
    hide AckSubmission, DropScheduler, SetStatus, PutTask;
  }

  /**
   Everything that was to be done was seen to succeed: the read, and for a pending intent
   its write and, in time, the publication.  The error of a repeated publication is ignored.
   */
  predicate Answered(s: State, id: Id, now: int, f: SchedFaults) {
    && !f.readFails
    && (id in s.intents && s.intents[id].status == PENDING ==>
         var late := s.intents[id].deadline.Some? && s.intents[id].deadline.value < now;
         f.write.Written? && (late || f.publish.Seen?))
  }

  lemma AnsweredIsAcked(s: State, id: Id, now: int, f: SchedFaults)
    ensures Answered(s, id, now, f) <==> Scheduling(s, id, now, f).acked
  {
  }

  // ---------- the program ----------

  class Scheduler {
    var s: State  // tables and queues

    constructor (s: State)
      ensures this.s == s
    {
      this.s := s;
    }

    method UpdateStatus(id: Id, status: Status, w: Write) returns (err: bool)
      modifies this
      ensures err <==> !w.Written?
      ensures s == if w.NotWritten? then old(s) else SetStatus(old(s), id, status)
    {
      if !w.NotWritten? && id in s.intents {
        s := s.(intents := s.intents[id := s.intents[id].(status := status)]);
      }
      err := !w.Written?;
    }

    method PublishTask(id: Id, d: Publication) returns (err: bool)
      modifies this
      ensures err <==> !d.Seen?
      ensures s == MaybeTask(old(s), id, Stored(d))
    {
      if Stored(d) {
        s := s.(tasks := s.tasks + [Task(id, false, false)]);
      }
      err := !d.Seen?;
    }

    /** `f` says which statements fail. */
    method HandleSubmittedIntent(id: Id, now: int, f: SchedFaults) returns (err: bool)
      modifies this
      ensures var o := Scheduling(old(s), id, now, f);
        (err <==> !o.acked) && s == MaybeTask(MaybeStatus(old(s), id, o.status), id, o.task)
      // only this intent's status and the tasks change
      ensures s == old(s).(intents := s.intents, tasks := s.tasks)
      ensures f.readFails || id !in old(s).intents ==> s == old(s) && err == f.readFails
      // a pending intent whose deadline has passed fails without a task; any other gets its task
      ensures !f.readFails && id in old(s).intents && old(s).intents[id].status == PENDING ==>
        var row := old(s).intents[id];
        var late := row.deadline.Some? && row.deadline.value < now;
        && s.intents == (if f.write.NotWritten? then old(s).intents
             else old(s).intents[id := row.(status := if late then FAILED else SCHEDULED)])
        && s.tasks == (if !late && f.write.Written? && (f.publish.Seen? || f.publish.Unseen?)
             then old(s).tasks + [Task(id, false, false)] else old(s).tasks)
        && (err <==> !f.write.Written? || (!late && !f.publish.Seen?))
      // a scheduled one gets its task again, and any other status is left alone
      ensures !f.readFails && id in old(s).intents && old(s).intents[id].status != PENDING ==>
        && !err && s.intents == old(s).intents
        && s.tasks == (if old(s).intents[id].status == SCHEDULED && (f.publish.Seen? || f.publish.Unseen?)
             then old(s).tasks + [Task(id, false, false)] else old(s).tasks)
    {
      if f.readFails {
        return true;
      }
      if id !in s.intents {
        return false;
      }
      var dbStatus, deadline := s.intents[id].status, s.intents[id].deadline;
      if dbStatus != PENDING {
        if dbStatus == SCHEDULED {
          var _ := PublishTask(id, f.publish);
        }
        return false;
      }
      if deadline.Some? && now > deadline.value {
        err := UpdateStatus(id, FAILED, f.write);
        return;
      }
      err := UpdateStatus(id, SCHEDULED, f.write);
      if !err {
        err := PublishTask(id, f.publish);
      }
    }

    /** The subscription: acknowledge what was handled, leave the rest for redelivery. */
    method OnSubmitted(p: Pid, now: int, f: SchedFaults) returns (ghost steps: seq<Step>)
      requires Received(s, p)
      modifies this
      ensures s == Scheduled(old(s), p, Scheduling(old(s), Subject(old(s), p), now, f))
      ensures Leads(old(s), steps, s) && (Stored(f.publish) ==> Lossless(steps))
      // the message is acknowledged, or left as it was for redelivery
      ensures var before := old(s);
        var msg := before.schedulers[p].msg;
        && s.schedulers == before.schedulers - {p}
        && s.submitted ==
             if Answered(before, before.submitted[msg].intent, now, f)
             then before.submitted[msg := before.submitted[msg].(acked := true)] else before.submitted
    {
      AnsweredIsAcked(s, s.submitted[s.schedulers[p].msg].intent, now, f);
      steps := HandlingIsARun(s, p, now, f);
      var msg := s.schedulers[p].msg;
      var err := HandleSubmittedIntent(s.submitted[msg].intent, now, f);
      s := s.(schedulers := s.schedulers - {p});
      if !err {
        s := s.(submitted := s.submitted[msg := s.submitted[msg].(acked := true)]);
      }
    }
  }

  // ---------- what handling a message achieves ----------

  lemma AckedOutcome(s: State, id: Id, now: int, f: SchedFaults)
    requires Scheduling(s, id, now, f).acked
    ensures var o := Scheduling(s, id, now, f);
      if id in s.intents && s.intents[id].status == PENDING then
        if s.intents[id].deadline.Some? && s.intents[id].deadline.value < now
        then o.status == Some(FAILED) && !o.task else o.status == Some(SCHEDULED) && o.task
      else o.status == None
  {
  }

  /**
   An acknowledged submission is settled: its intent is no longer pending; one that was
   pending after its deadline has failed without a task, and any other that was pending is
   scheduled and has its task.
   */
  lemma AcknowledgedIsSettled(s: State, p: Pid, now: int, f: SchedFaults)
    requires Received(s, p) && Scheduling(s, Subject(s, p), now, f).acked
    ensures var id, t := Subject(s, p), Scheduled(s, p, Scheduling(s, Subject(s, p), now, f));
      && (id in s.intents <==> id in t.intents)
      && (id in t.intents ==> !t.intents[id].status.PENDING?)
      && (id in s.intents && s.intents[id].status == PENDING ==>
            var row := s.intents[id];
            if row.deadline.Some? && row.deadline.value < now
            then t.intents == s.intents[id := row.(status := FAILED)] && t.tasks == s.tasks
            else
              && t.intents == s.intents[id := row.(status := SCHEDULED)]
              && t.tasks == s.tasks + [Task(id, false, false)])
  {
    AckedOutcome(s, Subject(s, p), now, f);
    hide Scheduling, Subject, Stored;
  }

  /**
   Once some message of an intent was acknowledged, a message of that intent handled at
   any later time of any run, racing schedulers included, changes no row, whatever fails.
   */
  lemma {:induction false} SecondMessageChangesNothing(b: B.Books, r: Run, i: nat, j: nat, k: nat, q: Pid, now: int,
        f: SchedFaults)
    requires IsRun(b, r) && i <= j < |r.states|
    requires k < |r.states[i].submitted| && r.states[i].submitted[k].acked
    requires Received(r.states[j], q) && Subject(r.states[j], q) == r.states[i].submitted[k].intent
    ensures var t := r.states[j]; Scheduled(t, q, Scheduling(t, Subject(t, q), now, f)).intents == t.intents
  {
    hide IsRun;
    P.AcknowledgedIsStarted(b, r, i, j, k);
    StartedIsKept(r.states[j], q, now, f);
  }

  lemma StartedIsKept(s: State, p: Pid, now: int, f: SchedFaults)
    requires Received(s, p) && (Subject(s, p) in s.intents ==> !s.intents[Subject(s, p)].status.PENDING?)
    ensures Scheduled(s, p, Scheduling(s, Subject(s, p), now, f)).intents == s.intents
  {
    assert Scheduling(s, Subject(s, p), now, f).status == None;
    hide Scheduling, Subject;
  }
}
