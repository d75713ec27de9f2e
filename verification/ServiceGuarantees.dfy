/**
 All services at work: any sequence of their handlers, with any faults, and of deliveries,
 crashes, outbox and wallet steps in between.  A handler reads and writes with nothing in
 between, so every such sequence is a guarded run, and all that holds of guarded runs
 holds of the programs.
 */
module ServiceGuarantees {
  import opened Prelude
  import B = WalletBooks
  import W = WalletMachine
  import opened Protocol
  import opened ServiceRuns
  import Money = ProtocolMoney
  import Delivery = ProtocolDelivery
  import S = ProtocolStatus
  import A = ProtocolAtomic
  import K = ProtocolWork
  import Intake = IntentService
  import Out = OutboxService
  import OutboxDrain
  import Sched = SchedulerService
  import Exec = EngineService
  import Audit = ValidatorService
  import File = LedgerFile
  import L = LedgerEngine

  // ---------- from programs to runs ----------

  lemma {:induction false} LeadsIsRun(b: B.Books, r: Run, steps: seq<Step>, t: State, stored: bool) returns (e: Run)
    requires A.Good(b, r, stored) && |r.states| > 0 && Leads(r.states[|r.states| - 1], steps, t) &&
      (stored ==> Lossless(steps))
    ensures A.Good(b, e, stored) && r.states <= e.states && e.states[|e.states| - 1] == t
    decreases |steps|
  {
    e := r;
    if steps != [] {
      FirstOfLeads(r.states[|r.states| - 1], steps, t, stored);
      hide A.Good, Do, Enabled, S.Guarded, K.Republished, Leads, Lossless;
      e := A.Extend(b, r, steps[0], stored);
      e := LeadsIsRun(b, e, steps[1..], t, stored);
    }
  }

  lemma FirstOfLeads(s: State, steps: seq<Step>, t: State, stored: bool)
    requires steps != [] && Leads(s, steps, t) && (stored ==> Lossless(steps))
    ensures Enabled(s, steps[0]) && S.Guarded(s, steps[0]) && Leads(Do(s, steps[0]), steps[1..], t)
    ensures stored ==> K.Republished(steps[0]) && Lossless(steps[1..])
  {
    hide Do, Enabled, S.Guarded, K.Republished;
  }

  lemma StartIsGood(b: B.Books, stored: bool)
    ensures A.Good(b, Run([Start(b)], []), stored)
  {
  }

  /** The state is reached from the start by these steps; if `stored`, no re-publication got lost. */
  ghost predicate Reached(b: B.Books, steps: seq<Step>, t: State, stored: bool) {
    Leads(Start(b), steps, t) && (stored ==> Lossless(steps))
  }

  // ---------- what holds of every state that programs reach ----------

  /** No intent is paid twice, a completed transfer is paid exactly once, and no pending intent is forgotten. */
  ghost predicate PaidOnce(s: State) {
    forall id: Id ::
      && B.RefCount(s.wallet.books.audit, id) <= 1
      && (Money.Transfers(s, id) && s.intents[id].status.COMPLETED? ==>
           B.RefCount(s.wallet.books.audit, id) == 1 && Money.Paid(s, id))
  }

  ghost predicate Remembered(s: State) {
    forall id :: id in s.intents && s.intents[id].status.PENDING? ==>
      Delivery.InOutbox(s, id) || Delivery.Unacked(s, id)
  }

  /** Ledger and database agree, no validator rejects, and no intent is claimed twice. */
  ghost predicate Recorded(s: State) {
    && (forall k :: 0 <= k < |s.ledger| ==>
         var e := s.ledger[k];
         && e.intent in s.intents && s.intents[e.intent].kind == e.kind && s.intents[e.intent].status == e.status
         && e.status.Terminal() && Get(s.claims, e.intent) == 1)
    && (forall p :: p in s.validators ==> !s.validators[p].pc.AtReject?)
    && forall id :: id in s.intents ==> 0 <= Get(s.claims, id) <= 1
  }

  ghost predicate Safe(s: State, stored: bool) {
    PaidOnce(s) && Remembered(s) && Recorded(s) && (stored ==> K.NoneLost(s))
  }

  /** What has become of the state `s` since. */
  ghost predicate MovedOn(s: State, t: State) {
    && (forall id :: id in s.intents ==>
         && id in t.intents && S.Later(s.intents[id].status, t.intents[id].status)
         && (s.intents[id].status.Terminal() ==> t.intents[id].status == s.intents[id].status))
    && s.ledger <= t.ledger
  }

  lemma RunIsPaidOnce(b: B.Books, r: Run, i: nat)
    requires IsRun(b, r) && i < |r.states| && B.DistinctRefs(b.audit)
    ensures PaidOnce(r.states[i]) && Remembered(r.states[i])
  {
    hide IsRun, B.RefCount, B.DistinctRefs;
    forall id: Id
      ensures B.RefCount(r.states[i].wallet.books.audit, id) <= 1
      ensures Money.Transfers(r.states[i], id) && r.states[i].intents[id].status.COMPLETED? ==>
        B.RefCount(r.states[i].wallet.books.audit, id) == 1 && Money.Paid(r.states[i], id)
    {
      Money.AtMostOnce(b, r, i, id);
    }
    forall id | id in r.states[i].intents && r.states[i].intents[id].status.PENDING?
      ensures Delivery.InOutbox(r.states[i], id) || Delivery.Unacked(r.states[i], id)
    {
      Delivery.NoLostEvent(b, r, i, id);
    }
  }

  lemma RunIsRecorded(b: B.Books, r: Run, i: nat)
    requires S.GuardedRun(b, r) && i < |r.states|
    ensures Recorded(r.states[i])
  {
    hide S.GuardedRun;
    S.NeverRejected(b, r, i);
    var s := r.states[i];
    forall k | 0 <= k < |s.ledger|
      ensures var e := s.ledger[k];
        && e.intent in s.intents && s.intents[e.intent].kind == e.kind && s.intents[e.intent].status == e.status
        && e.status.Terminal() && Get(s.claims, e.intent) == 1
    {
      S.LedgerAgrees(b, r, i, i, k);
    }
    forall id | id in s.intents ensures 0 <= Get(s.claims, id) <= 1 {
      S.StatusMovesForward(b, r, i, i, id);
    }
  }

  lemma RunLosesNoWork(b: B.Books, r: Run, i: nat)
    requires A.Good(b, r, true) && i < |r.states|
    ensures K.NoneLost(r.states[i])
  {
    assert IsRun(b, r);
    K.GuardedRunsAreCovered(b, r);
    hide *;
    K.CoveredRunIsHarmless(b, r, i);
    K.RunInvariant(b, r, i);
    K.InvKeepsWork(r.states[i]);
  }

  lemma GoodIsRun(b: B.Books, r: Run, stored: bool)
    requires A.Good(b, r, stored)
    ensures S.GuardedRun(b, r) && IsRun(b, r)
  {
  }

  /** Every state that programs reach is safe, whatever their order and faults. */
  lemma ProgramsAreSafe(b: B.Books, steps: seq<Step>, t: State, stored: bool)
    requires Reached(b, steps, t, stored) && B.DistinctRefs(b.audit)
    ensures Safe(t, stored)
  {
    StartIsGood(b, stored);
    hide A.Good, Leads, Lossless, IsRun, S.GuardedRun, PaidOnce, Remembered, Recorded, K.NoneLost, B.DistinctRefs;
    var r := LeadsIsRun(b, Run([Start(b)], []), steps, t, stored);
    GoodIsRun(b, r, stored);
    RunIsPaidOnce(b, r, |r.states| - 1);
    RunIsRecorded(b, r, |r.states| - 1);
    if stored {
      RunLosesNoWork(b, r, |r.states| - 1);
    }
  }

  /** Between two states that programs reach one after the other, statuses only moved forward. */
  lemma ProgramsMoveForward(b: B.Books, steps: seq<Step>, s: State, more: seq<Step>, t: State)
    requires Reached(b, steps, s, false) && Leads(s, more, t)
    ensures MovedOn(s, t)
  {
    StartIsGood(b, false);
    hide A.Good, Leads, Lossless, IsRun, S.GuardedRun;
    var r := LeadsIsRun(b, Run([Start(b)], []), steps, s, false);
    var e := LeadsIsRun(b, r, more, t, false);
    var i, j := |r.states| - 1, |e.states| - 1;
    assert e.states[i] == s;
    GoodIsRun(b, e, false);
    S.LedgerGrows(b, e, i, j);
    forall id | id in s.intents
      ensures id in t.intents && S.Later(s.intents[id].status, t.intents[id].status)
      ensures s.intents[id].status.Terminal() ==> t.intents[id].status == s.intents[id].status
    {
      S.StatusMovesForward(b, e, i, j, id);
    }
  }

  // ---------- the services together ----------

  /** Something that happens in the system. */
  datatype Call =
    | Submit(req: Intake.Request, id: Id, row: RowId, saved: Intake.CreateFaults)
    | Poll(
        p: Pid,
        created: RowId -> int,
        updated: RowId -> int,
        threshold: int,
        limit: nat,
        ids: seq<RowId>,
        polled: Out.PollFaults)
    | Submission(p: Pid, at: int, scheduled: Sched.SchedFaults)
    | Work(p: Pid, executed: Exec.TaskFaults)
    | Executed(p: Pid, readFails: bool, now: string, written: nat, synced: bool)
    | Outside(step: Step)

  /** Deliveries, crashes, and the steps of other outbox workers and of the wallet. */
  predicate IsOutside(step: Step) {
    match step
    case Create(_, _, _, _, _) => false
    case Outbox(_, _) => true
    case Schedule(_, a) => a.SDeliver? || a.SCrash?
    case Engine(_, a) => a.EDeliver? || a.ECrash?
    case Validate(_, a) => a.VDeliver? || a.VCrash?
    case Wallet(_) => true
  }

  /** The call loses no publication of a task. */
  predicate Stores(call: Call) {
    call.Submission? ==> Stored(call.scheduled.publish)
  }

  /** An audited intent has a proper identifier, and the append's clock gives a proper time. */
  predicate GoodAudit(s: State, call: Call) {
    call.Executed? ==> Audit.GoodFields(Audited(s, call.p), call.now)
  }

  lemma OutsideLeads(s: State, step: Step)
    requires IsOutside(step) && Enabled(s, step)
    ensures Leads(s, [step] + [], Do(s, step)) && Lossless([step] + [])
  {
    assert S.Guarded(s, step) && K.Republished(step);
    hide Enabled, Do, S.Guarded, K.Republished;
    LeadsBy(s, step, [], Do(s, step));
  }

  lemma ReachedThen(b: B.Books, steps: seq<Step>, s: State, more: seq<Step>, t: State, stored: bool)
    requires Reached(b, steps, s, stored) && Leads(s, more, t) && (stored ==> Lossless(more))
    ensures Reached(b, steps + more, t, stored)
  {
    hide Leads, Lossless, Start;
    LeadsThen(Start(b), steps, s, more, t);
  }

  lemma WorkedLedger(s: State, p: Pid, f: Exec.TaskFaults)
    requires Exec.QueueOk(s, [(p, f)])
    ensures Exec.Worked(s, [(p, f)]).ledger == s.ledger
  {
    hide Exec.Executed, Exec.TaskOk, Exec.Taken;
    Exec.ExecutedLedger(s, p, f);
    assert [(p, f)][1..] == [];
    assert Exec.Worked(s, [(p, f)]) == Exec.Executed(s, p, f);
  }

  lemma OutsideLedger(s: State, step: Step)
    requires IsOutside(step) && Enabled(s, step)
    ensures Do(s, step).ledger == s.ledger
  {
    hide W.Do, W.Enabled;
    match step
    case Outbox(p, a) => S.OutboxQuiet(s, p, a); hide DoOutbox, EnabledOutbox;
    case Schedule(_, _) =>
    case Engine(_, _) =>
    case Validate(_, _) =>
    case Wallet(_) =>
  }

  class Deployment {
    var s: State
    const engine: L.Engine
    ghost const books: B.Books   // the wallet at the start
    ghost const stored: bool     // whether re-publications are never lost
    ghost var trace: seq<Step>

    ghost predicate Valid()
      reads this
    {
      B.DistinctRefs(books.audit) && Reached(books, trace, s, stored)
    }

    /** The file's blocks are these entries, for a hash and a reader that have their laws. */
    ghost predicate Mirrored(content: string, ledger: seq<Entry>) {
      L.HexHash(engine.hash) && File.JsonLaws(engine.parse) && Audit.Mirrors(engine.hash, engine.parse, content, ledger)
    }

    lemma AuditIsMirrored(before: State, p: Pid, now: string, written: nat, synced: bool, f: Audit.AuditFaults,
          old_: string, new_: string)
      requires Audit.Received(before, p) && Audit.GoodFields(Audited(before, p), now)
      requires Audit.Audit(before, Audited(before, p), now, written, synced, f, engine.hash, engine.parse, old_, new_)
      requires Mirrored(old_, before.ledger) && File.Terminated(new_)
      ensures Mirrored(new_, Audit.Validated(before, p, f).ledger)
    {
      hide L.HexHash, File.JsonLaws, Audit.Mirrors, Audit.Audit, File.Terminated;
      Audit.AuditMirrors(before, Audited(before, p), now, written, synced, f, engine.hash, engine.parse, old_, new_);
    }

    constructor (books: B.Books, engine: L.Engine, stored: bool)
      requires B.DistinctRefs(books.audit)
      ensures Valid() && s == Start(books) && this.books == books && this.engine == engine && this.stored == stored
    {
      s, this.engine := Start(books), engine;
      this.books, this.stored, trace := books, stored, [];
    }

    method Accept(req: Intake.Request, id: Id, row: RowId, f: Intake.CreateFaults) returns (ghost more: seq<Step>)
      requires Valid() && Enabled(s, Create(id, req.kind, req.order, req.deadline, row))
      modifies this
      ensures Valid() && Leads(old(s), more, s) && trace == old(trace) + more && s.ledger == old(s).ledger
    {
      hide Leads, Lossless, Reached, Enabled;
      ghost var before := s;
      var intents := new Intake.IntentStore(s);
      var created;
      created, more := intents.Create(req, id, row, f);
      s := intents.s;
      ReachedThen(books, trace, before, more, s, stored);
      trace := trace + more;
    }

    method Relay(p: Pid, created: RowId -> int, updated: RowId -> int, threshold: int, limit: nat, ids: seq<RowId>,
          f: Out.PollFaults)
      returns (ghost more: seq<Step>)
      requires Valid() && p !in s.outboxes && limit > 0
      requires OutboxDrain.IsSelection(Out.Timed(s.outbox, created, updated), threshold, limit, ids)
      modifies this
      ensures Valid() && Leads(old(s), more, s) && trace == old(trace) + more && s.ledger == old(s).ledger
    {
      hide Leads, Lossless, Reached, OutboxDrain.IsSelection, Out.Claimable, Out.Untimed, Out.Messages;
      ghost var before := s;
      var worker := new Out.Worker(s);
      var err;
      err, more := worker.Poll(p, created, updated, threshold, limit, ids, f);
      s := worker.s;
      ReachedThen(books, trace, before, more, s, stored);
      trace := trace + more;
    }

    method Dispatch(p: Pid, now: int, f: Sched.SchedFaults) returns (ghost more: seq<Step>)
      requires Valid() && Sched.Received(s, p) && (stored ==> Stored(f.publish))
      modifies this
      ensures Valid() && Leads(old(s), more, s) && trace == old(trace) + more && s.ledger == old(s).ledger
    {
      hide Leads, Lossless, Reached, Sched.Scheduling;
      ghost var before := s;
      var scheduler := new Sched.Scheduler(s);
      more := scheduler.OnSubmitted(p, now, f);
      s := scheduler.s;
      ReachedThen(books, trace, before, more, s, stored);
      trace := trace + more;
    }

    method Perform(p: Pid, f: Exec.TaskFaults) returns (ghost more: seq<Step>)
      requires Valid() && Exec.QueueOk(s, [(p, f)])
      modifies this
      ensures Valid() && Leads(old(s), more, s) && trace == old(trace) + more && s.ledger == old(s).ledger
    {
      hide Leads, Lossless, Reached, Exec.Worked, Exec.QueueOk;
      ghost var before := s;
      WorkedLedger(s, p, f);
      var worker := new Exec.Engine(s);
      more := worker.StartWorker([(p, f)]);
      s := worker.s;
      ReachedThen(books, trace, before, more, s, stored);
      trace := trace + more;
    }

    method Record(p: Pid, readFails: bool, now: string, written: nat, synced: bool) returns (ghost more: seq<Step>)
      requires Valid() && Audit.Received(s, p)
      modifies this, engine
      ensures Valid() && Leads(old(s), more, s) && trace == old(trace) + more
      ensures Mirrored(old(engine.Content()), old(s).ledger) && Audit.GoodFields(Audited(old(s), p), now) &&
              File.Terminated(engine.Content())
              ==> Mirrored(engine.Content(), s.ledger)
    {
      hide Leads, Lossless, Reached, Mirrored, File.Terminated, Audit.GoodFields, Audit.Audit;
      ghost var before, old_ := s, engine.Content();
      var validator := new Audit.Validator(s, engine);
      ghost var f;
      f, more := validator.OnExecuted(p, readFails, now, written, synced);
      s := validator.s;
      ReachedThen(books, trace, before, more, s, stored);
      trace := trace + more;
      if Mirrored(old_, before.ledger) && Audit.GoodFields(Audited(before, p), now) &&
        File.Terminated(engine.Content()) {
        AuditIsMirrored(before, p, now, written, synced, f, old_, engine.Content());
      }
    }

    method Elsewhere(step: Step) returns (ghost more: seq<Step>)
      requires Valid() && IsOutside(step) && Enabled(s, step)
      modifies this
      ensures Valid() && Leads(old(s), more, s) && trace == old(trace) + more && s.ledger == old(s).ledger
    {
      hide Leads, Lossless, Reached, Enabled, Do;
      ghost var before := s;
      OutsideLeads(s, step);
      OutsideLedger(s, step);
      more := [step] + [];
      s := Do(s, step);
      ReachedThen(books, trace, before, more, s, stored);
      trace := trace + more;
    }

    /**
     One handler, or one step outside; what cannot happen now does not.  As long as the
     ledger's file ends with a line end, it mirrors the entries.
     */
    method Handle(call: Call) returns (ghost more: seq<Step>)
      requires Valid() && (stored ==> Stores(call))
      modifies this, engine
      ensures Valid() && Leads(old(s), more, s) && trace == old(trace) + more
      ensures Mirrored(old(engine.Content()), old(s).ledger) && GoodAudit(old(s), call) &&
              File.Terminated(engine.Content())
              ==> Mirrored(engine.Content(), s.ledger)
    {
      more := [];
      LeadsNowhere(s);
      hide Mirrored, Leads, Valid, Enabled, File.Terminated, OutboxDrain.IsSelection, Out.Timed, Sched.Received,
        Exec.QueueOk, Audit.Received, Audit.GoodFields;
      match call {
        case Submit(req, id, row, f) =>
          if Enabled(s, Create(id, req.kind, req.order, req.deadline, row)) {
            more := Accept(req, id, row, f);
          }
        case Poll(p, created, updated, threshold, limit, ids, f) =>
          if p !in s.outboxes && limit > 0 &&
            OutboxDrain.IsSelection(Out.Timed(s.outbox, created, updated), threshold, limit, ids) {
            more := Relay(p, created, updated, threshold, limit, ids, f);
          }
        case Submission(p, at, f) =>
          if Sched.Received(s, p) {
            more := Dispatch(p, at, f);
          }
        case Work(p, f) =>
          if Exec.QueueOk(s, [(p, f)]) {
            more := Perform(p, f);
          }
        case Executed(p, readFails, now, written, synced) =>
          if Audit.Received(s, p) {
            more := Record(p, readFails, now, written, synced);
          }
        case Outside(step) =>
          if IsOutside(step) && Enabled(s, step) {
            more := Elsewhere(step);
          }
      }
    }

    /** One more call. */
    method ServeOne(
        ghost was: State, ghost all: seq<Step>, ghost states: seq<State>, ghost files: seq<string>,
        ghost calls: seq<Call>, ghost good: bool, call: Call)
        returns (ghost more: seq<Step>)
      requires Valid() && (stored ==> Stores(call)) && |states| == |files| == |calls| + 1
      requires Served(was, all, states, files, calls, good)
      requires states[|calls|] == s && files[|calls|] == engine.Content()
      modifies this, engine
      ensures Valid()
      ensures Served(was, all + more, states + [s], files + [engine.Content()], calls + [call], good)
    {
      hide *;
      more := Handle(call);
      ServedNext(was, all, states, files, calls, good, call, more, s, engine.Content());
    }

    /** The calls, one after another, and what tables and file were after each. */
    method Serve(calls: seq<Call>) returns (ghost all: seq<Step>, ghost states: seq<State>, ghost files: seq<string>)
      requires Valid() && (stored ==> forall i :: 0 <= i < |calls| ==> Stores(calls[i]))
      modifies this, engine
      ensures Valid() && Leads(old(s), all, s)
      ensures |states| == |files| == |calls| + 1 && states[0] == old(s) && states[|calls|] == s && Linked(states)
      ensures files[0] == old(engine.Content()) && files[|calls|] == engine.Content()
      ensures Mirrored(old(engine.Content()), old(s).ledger) && GoodHistory(states, files, calls) ==>
        Mirrored(engine.Content(), s.ledger)
    {
      ghost var was := s;
      ghost var good := Mirrored(engine.Content(), s.ledger);
      all, states, files := [], [s], [engine.Content()];
      LeadsNowhere(s);
      assert Linked(states);
      assert Served(was, all, states, files, calls[..0], good);
      hide *;
      for i := 0 to |calls|
        invariant Valid() && Served(was, all, states, files, calls[..i], good)
        invariant |states| == |files| == i + 1 && states[0] == was && states[i] == s
        invariant files[0] == old(engine.Content()) && files[i] == engine.Content()
      {
        ghost var more := ServeOne(was, all, states, files, calls[..i], good, calls[i]);
        assert calls[..i + 1] == calls[..i] + [calls[i]];
        all, states, files := all + more, states + [s], files + [engine.Content()];
      }
      assert calls[..|calls|] == calls;
      ServedAll(was, all, states, files, calls, good);
    }

    /**
     What has been served: a run from the first state to the last, whose file mirrors the
     entries as far as it is good.
     */
    ghost predicate Served(was: State, all: seq<Step>, states: seq<State>, files: seq<string>, calls: seq<Call>,
          good: bool) {
      && |states| == |files| == |calls| + 1 && Leads(was, all, states[|calls|]) && Linked(states)
      && (good && GoodHistory(states, files, calls) ==> Mirrored(files[|calls|], states[|calls|].ledger))
    }

    lemma ServedAll(was: State, all: seq<Step>, states: seq<State>, files: seq<string>, calls: seq<Call>, good: bool)
      requires Served(was, all, states, files, calls, good)
      ensures |states| == |files| == |calls| + 1 && Leads(was, all, states[|calls|]) && Linked(states)
      ensures good && GoodHistory(states, files, calls) ==> Mirrored(files[|calls|], states[|calls|].ledger)
    {
    }

    lemma ServedNext(
        was: State, all: seq<Step>, states: seq<State>, files: seq<string>, calls: seq<Call>, good: bool,
        call: Call, more: seq<Step>, t: State, file: string)
      requires |states| == |files| == |calls| + 1 && Served(was, all, states, files, calls, good)
      requires Leads(states[|calls|], more, t)
      requires Mirrored(files[|calls|], states[|calls|].ledger) && GoodAudit(states[|calls|], call) &&
        File.Terminated(file)
        ==> Mirrored(file, t.ledger)
      ensures Served(was, all + more, states + [t], files + [file], calls + [call], good)
    {
      hide Leads, Linked, GoodHistory, Mirrored, GoodAudit, File.Terminated;
      LeadsThen(was, all, states[|calls|], more, t);
      LinkedNext(states, more, t);
      GoodHistoryNext(states, files, calls, call, t, file);
    }

    /**
     Any sequence of calls, in any order and with any faults: money moves at most once an
     intent, nothing pending is forgotten, ledger and database agree, statuses have only
     moved forward and, if no re-publication was lost, every scheduled intent still has its
     work item.  `states` and `files` are what the tables and the ledger's file were before
     the first and after each call: if every file ends with a line end and every audit is
     good, the last file mirrors the last entries.
     */
    method Operate(calls: seq<Call>) returns (ghost states: seq<State>, ghost files: seq<string>)
      requires Valid() && (stored ==> forall i :: 0 <= i < |calls| ==> Stores(calls[i]))
      modifies this, engine
      ensures Valid() && Safe(s, stored) && MovedOn(old(s), s)
      ensures |states| == |files| == |calls| + 1
      ensures states[0] == old(s) && states[|calls|] == s && files[0] == old(engine.Content()) &&
        files[|calls|] == engine.Content()
      ensures Linked(states)
      ensures Mirrored(old(engine.Content()), old(s).ledger) && GoodHistory(states, files, calls) ==>
        Mirrored(engine.Content(), s.ledger)
    {
      ghost var from, was := trace, s;
      assert Reached(books, from, was, stored);
      ghost var all;
      all, states, files := Serve(calls);
      OperatedValid(from, was, all);
    }

    /** What the trace says of a valid deployment. */
    lemma OperatedValid(from: seq<Step>, was: State, all: seq<Step>)
      requires Valid() && Reached(books, from, was, stored) && Leads(was, all, s)
      ensures Safe(s, stored) && MovedOn(was, s)
    {
      hide Reached, Safe, MovedOn, Leads;
      ProgramsAreSafe(books, trace, s, stored);
      ReachedAnyhow(books, from, was, stored);
      ProgramsMoveForward(books, from, was, all, s);
    }
  }

  ghost predicate LeadsOn(s: State, t: State) {
    exists steps :: Leads(s, steps, t)
  }

  /** Each state leads on to the next. */
  ghost predicate Linked(states: seq<State>) {
    forall i :: 0 <= i < |states| - 1 ==> LeadsOn(states[i], states[i + 1])
  }

  lemma LinkedNext(states: seq<State>, more: seq<Step>, t: State)
    requires states != [] && Linked(states) && Leads(states[|states| - 1], more, t)
    ensures Linked(states + [t])
  {
    hide Leads;
    assert LeadsOn(states[|states| - 1], t);
    hide LeadsOn;
    var states' := states + [t];
    forall i | 0 <= i < |states'| - 1 ensures LeadsOn(states'[i], states'[i + 1]) {
      if i < |states| - 1 {
        assert LeadsOn(states[i], states[i + 1]);
      }
    }
  }

  /** The call after state `i` made a good audit, if any, and left a file that ends with a line end. */
  ghost predicate GoodAt(states: seq<State>, files: seq<string>, calls: seq<Call>, i: nat)
    requires |states| == |files| == |calls| + 1 && i < |calls|
  {
    GoodAudit(states[i], calls[i]) && File.Terminated(files[i + 1])
  }

  /** After every call the file ended with a line end, and every audit had good fields. */
  ghost predicate GoodHistory(states: seq<State>, files: seq<string>, calls: seq<Call>)
    requires |states| == |files| == |calls| + 1
  {
    forall i :: 0 <= i < |calls| ==> GoodAt(states, files, calls, i)
  }

  lemma GoodHistoryNext(states: seq<State>, files: seq<string>, calls: seq<Call>, call: Call, t: State, file: string)
    requires |states| == |files| == |calls| + 1
    ensures GoodHistory(states + [t], files + [file], calls + [call]) ==>
      GoodHistory(states, files, calls) && GoodAudit(states[|calls|], call) && File.Terminated(file)
  {
    var states', files', calls' := states + [t], files + [file], calls + [call];
    hide GoodAudit, File.Terminated;
    if GoodHistory(states', files', calls') {
      assert GoodAt(states', files', calls', |calls|);
      assert states'[|calls|] == states[|calls|] && calls'[|calls|] == call && files'[|calls| + 1] == file;
      forall i | 0 <= i < |calls| ensures GoodAt(states, files, calls, i) {
        assert GoodAt(states', files', calls', i);
        assert states'[i] == states[i] && calls'[i] == calls[i] && files'[i + 1] == files[i + 1];
      }
    }
  }

  lemma ReachedAnyhow(b: B.Books, steps: seq<Step>, t: State, stored: bool)
    requires Reached(b, steps, t, stored)
    ensures Reached(b, steps, t, false)
  {
  }

  lemma LeadsNowhere(s: State)
    ensures Leads(s, [], s)
  {
  }

  /**
   The bytes agree with the database: each block of a file that mirrors the entries shows
   its row's type and final status.
   */
  lemma FileTellsTheTruth(s: State, h: string -> string, parse: L.Reader, content: string, k: nat)
    requires Recorded(s) && Audit.Mirrors(h, parse, content, s.ledger) &&
      k < |File.Blocks(parse, File.Records(content))|
    ensures var x := File.Blocks(parse, File.Records(content))[k];
      x.intentId in s.intents && Audit.Shows(x, x.intentId, s.intents[x.intentId])
  {
    Audit.MirrorsReady(h, parse, content, s.ledger);
    L.ReadyParses(h, parse, content);
    hide File.Records, L.Ready, Audit.KindName, Audit.StatusName, Audit.Shows;
    var x := File.Blocks(parse, File.Records(content))[k];
    assert Audit.Tells(x, s.ledger[k]);
    Audit.NamesShow(x, x.intentId, s.intents[x.intentId]);
  }
}
