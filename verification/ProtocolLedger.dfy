/**
 Ledger and database, exactly: which steps keep every entry true of the row it names,
 and that a whole run keeps them true exactly when all its steps are of that kind.
 */
module ProtocolLedger {
  import B = WalletBooks
  import W = WalletMachine
  import opened Protocol
  import F = ProtocolFrames
  import S = ProtocolStatus

  predicate EntryTrue(rows: map<Id, Row>, e: Entry) {
    e.intent in rows && rows[e.intent].kind == e.kind && rows[e.intent].status == e.status
  }

  /** Every entry shows what its row shows. */
  ghost predicate AllTrue(rows: map<Id, Row>, entries: seq<Entry>) {
    forall k :: 0 <= k < |entries| ==> EntryTrue(rows, entries[k])
  }

  ghost predicate Truthful(s: State) {
    AllTrue(s.intents, s.ledger)
  }

  ghost predicate HasEntry(s: State, id: Id) {
    exists k :: 0 <= k < |s.ledger| && s.ledger[k].intent == id
  }

  /** The step writes this status into the row of this intent. */
  predicate Writes(s: State, step: Step, id: Id, status: Status) {
    match step
    case Schedule(p, SWrite) => EnabledSched(s, p, SWrite) && id == Subject(s, p) && status == S.Decided(s, p)
    case Engine(p, EClaim) =>
      id == Job(s, p) && status == EXECUTING && id in s.intents && s.intents[id].status.SCHEDULED?
    case Engine(p, EFinish) =>
      EnabledEngine(s, p, EFinish) && id == Job(s, p) && status == FinalStatus(s.engines[p].pc.ok)
    case _ => false
  }

  /** What is written into a row with an entry is there already, and what is appended is what the row shows. */
  ghost predicate Spares(s: State, step: Step) {
    && (forall id, status :: Writes(s, step, id, status) && id in s.intents && HasEntry(s, id) ==>
          s.intents[id].status == status)
    && (step.Validate? && EnabledValidator(s, step.p, step.v) && step.v.VAppend? ==>
          EntryTrue(s.intents, Appended(s, step.p)))
  }

  /** The entry that a validator is about to append. */
  function Appended(s: State, p: Pid): Entry
    requires EnabledValidator(s, p, VAppend)
  {
    Entry(Audited(s, p), s.validators[p].pc.kind, s.validators[p].pc.status)
  }

  // ---------- one write, one append ----------

  lemma MarkTruth(rows: map<Id, Row>, entries: seq<Entry>, id: Id, status: Status)
    requires AllTrue(rows, entries)
    ensures AllTrue(Mark(rows, id, status), entries) <==>
      (id in rows && (exists k :: 0 <= k < |entries| && entries[k].intent == id) ==> rows[id].status == status)
  {
    var rows' := Mark(rows, id, status);
    if k :| id in rows && rows[id].status != status && 0 <= k < |entries| && entries[k].intent == id {
      assert EntryTrue(rows, entries[k]) && !EntryTrue(rows', entries[k]);
    } else {
      forall k | 0 <= k < |entries| ensures EntryTrue(rows', entries[k]) {
        assert EntryTrue(rows, entries[k]);
      }
    }
  }

  lemma AppendTruth(rows: map<Id, Row>, entries: seq<Entry>, e: Entry)
    requires AllTrue(rows, entries)
    ensures AllTrue(rows, entries + [e]) <==> EntryTrue(rows, e)
  {
    hide EntryTrue;
    assert (entries + [e])[|entries|] == e;
  }

  lemma CreateTruth(s: State, id: Id, row: Row)
    requires Truthful(s) && id !in s.intents
    ensures AllTrue(s.intents[id := row], s.ledger)
  {
    forall k | 0 <= k < |s.ledger| ensures EntryTrue(s.intents[id := row], s.ledger[k]) {
      assert EntryTrue(s.intents, s.ledger[k]);
    }
  }

  /** A step that writes one status and leaves the ledger. */
  lemma WriteTruth(s: State, s': State, id: Id, status: Status)
    requires Truthful(s) && s'.ledger == s.ledger && s'.intents == Mark(s.intents, id, status)
    ensures Truthful(s') <==> (id in s.intents && HasEntry(s, id) ==> s.intents[id].status == status)
  {
    MarkTruth(s.intents, s.ledger, id, status);
    hide Mark, AllTrue;
  }

  lemma ScheduleTruth(s: State, p: Pid)
    requires Truthful(s) && EnabledSched(s, p, SWrite)
    ensures Truthful(WriteDecision(s, p)) <==> Spares(s, Schedule(p, SWrite))
  {
    S.WriteIs(s, p);
    F.WriteFrame(s, p);
    hide WriteDecision, Truthful, HasEntry, Subject;
    WriteTruth(s, WriteDecision(s, p), Subject(s, p), S.Decided(s, p));
    assert Writes(s, Schedule(p, SWrite), Subject(s, p), S.Decided(s, p));
  }

  lemma ClaimTruth(s: State, p: Pid)
    requires Truthful(s) && EnabledEngine(s, p, EClaim)
    ensures Truthful(Claim(s, p)) <==> Spares(s, Engine(p, EClaim))
  {
    F.ClaimFrame(s, p);
    var id := Job(s, p);
    if id in s.intents && s.intents[id].status.SCHEDULED? {
      assert Claim(s, p).intents == Mark(s.intents, id, EXECUTING);
      hide Claim, Truthful, HasEntry, Job;
      WriteTruth(s, Claim(s, p), id, EXECUTING);
      assert Writes(s, Engine(p, EClaim), id, EXECUTING);
    } else {
      assert Claim(s, p).intents == s.intents;
      hide Claim, HasEntry, Job;
    }
  }

  lemma FinishTruth(s: State, p: Pid)
    requires Truthful(s) && EnabledEngine(s, p, EFinish)
    ensures Truthful(FinishTask(s, p)) <==> Spares(s, Engine(p, EFinish))
  {
    F.FinishFrame(s, p);
    var id, final := Job(s, p), FinalStatus(s.engines[p].pc.ok);
    assert FinishTask(s, p).intents == Mark(s.intents, id, final);
    hide FinishTask, Truthful, HasEntry, Job, FinalStatus;
    WriteTruth(s, FinishTask(s, p), id, final);
    assert Writes(s, Engine(p, EFinish), id, final);
  }

  lemma ValidatorTruth(s: State, p: Pid, a: ValidatorAct)
    requires Truthful(s) && EnabledValidator(s, p, a)
    ensures Truthful(DoValidator(s, p, a)) <==> Spares(s, Validate(p, a))
  {
    S.ValidatorFrame(s, p, a);
    if a.VAppend? {
      assert DoValidator(s, p, a).ledger == s.ledger + [Appended(s, p)];
      hide DoValidator, AllTrue, HasEntry, Appended;
      AppendTruth(s.intents, s.ledger, Appended(s, p));
    } else {
      assert DoValidator(s, p, a).ledger == s.ledger;
      hide DoValidator, HasEntry;
    }
  }

  lemma OtherSchedTruth(s: State, p: Pid, a: SchedAct)
    requires Truthful(s) && EnabledSched(s, p, a) && !a.SWrite?
    ensures Truthful(DoSched(s, p, a)) && Spares(s, Schedule(p, a))
  {
    F.SchedFrame(s, p, a);
    hide DoSched, EnabledSched, HasEntry;
  }

  lemma OtherEngineTruth(s: State, p: Pid, a: EngineAct)
    requires Truthful(s) && EnabledEngine(s, p, a) && !a.EClaim? && !a.EFinish?
    ensures Truthful(DoEngine(s, p, a)) && Spares(s, Engine(p, a))
  {
    F.EngineFrame(s, p, a);
    hide DoEngine, EnabledEngine, HasEntry;
  }

  /** A step keeps the entries true exactly when it spares them. */
  lemma TruthExactly(s: State, step: Step)
    requires Truthful(s) && Enabled(s, step)
    ensures Truthful(Do(s, step)) <==> Spares(s, step)
  {
    hide Truthful, AllTrue, Spares, DoOutbox, EnabledOutbox, DoSched, EnabledSched, DoEngine, EnabledEngine;
    hide DoValidator, EnabledValidator, W.Do, W.Enabled;
    match step
    case Create(id, kind, order, deadline, _) =>
      CreateTruth(s, id, Row(kind, order, PENDING, deadline));
      TruthOf(Do(s, step));
      NothingWritten(s, step);
    case Outbox(p, a) =>
      S.OutboxQuiet(s, p, a);
      SameTruth(s, Do(s, step));
      NothingWritten(s, step);
    case Schedule(p, a) =>
      if a.SWrite? {
        ScheduleDone(s, p);
      } else {
        OtherSchedTruth(s, p, a);
      }
    case Engine(p, a) => EngineTruth(s, p, a);
    case Validate(p, a) => ValidatorTruth(s, p, a);
    case Wallet(_) =>
      SameTruth(s, Do(s, step));
      NothingWritten(s, step);
  }

  lemma ScheduleDone(s: State, p: Pid)
    requires Truthful(s) && EnabledSched(s, p, SWrite)
    ensures Truthful(DoSched(s, p, SWrite)) <==> Spares(s, Schedule(p, SWrite))
  {
    ScheduleTruth(s, p);
    hide Truthful, Spares, WriteDecision;
  }

  lemma EngineTruth(s: State, p: Pid, a: EngineAct)
    requires Truthful(s) && EnabledEngine(s, p, a)
    ensures Truthful(DoEngine(s, p, a)) <==> Spares(s, Engine(p, a))
  {
    hide Truthful, Spares, Claim, FinishTask;
    if a.EClaim? {
      ClaimTruth(s, p);
    } else if a.EFinish? {
      FinishTruth(s, p);
    } else {
      OtherEngineTruth(s, p, a);
      hide DoEngine;
    }
  }

  lemma SameTruth(s: State, s': State)
    requires s'.intents == s.intents && s'.ledger == s.ledger
    ensures Truthful(s') <==> Truthful(s)
  {
  }

  lemma TruthOf(s: State)
    requires AllTrue(s.intents, s.ledger)
    ensures Truthful(s)
  {
  }

  lemma NothingWritten(s: State, step: Step)
    requires step.Create? || step.Outbox? || step.Wallet?
    ensures Spares(s, step)
  {
  }

  // ---------- whole runs ----------

  ghost predicate SparingRun(r: Run) {
    |r.states| == |r.steps| + 1 && forall i :: 0 <= i < |r.steps| ==> Spares(r.states[i], r.steps[i])
  }

  lemma StartIsTruthful(b: B.Books, r: Run)
    requires IsRun(b, r)
    ensures |r.states| == |r.steps| + 1 && Truthful(r.states[0])
  {
    hide Do, Enabled;
  }

  lemma OneStepTruth(b: B.Books, r: Run, i: nat)
    requires IsRun(b, r) && i < |r.steps| && Truthful(r.states[i])
    ensures |r.states| == |r.steps| + 1 && (Truthful(r.states[i + 1]) <==> Spares(r.states[i], r.steps[i]))
  {
    hide Truthful, Spares, Do, Enabled, Start;
    assert Enabled(r.states[i], r.steps[i]) && r.states[i + 1] == Do(r.states[i], r.steps[i]);
    hide IsRun;
    TruthExactly(r.states[i], r.steps[i]);
  }

  lemma {:induction false} SparingIsTruthful(b: B.Books, r: Run, i: nat)
    requires IsRun(b, r) && SparingRun(r) && i < |r.states|
    ensures Truthful(r.states[i])
  {
    StartIsTruthful(b, r);
    hide IsRun, Truthful, Spares;
    if i > 0 {
      SparingIsTruthful(b, r, i - 1);
      OneStepTruth(b, r, i - 1);
    }
  }

  /**
   All entries are true in every state of a run exactly when every step spares them: no
   write changes the status of an intent that has an entry, and every append finds the
   row as it was read.
   */
  lemma EntriesTrueExactlyWhen(b: B.Books, r: Run)
    requires IsRun(b, r)
    ensures (forall i :: 0 <= i < |r.states| ==> Truthful(r.states[i])) <==> SparingRun(r)
  {
    StartIsTruthful(b, r);
    hide IsRun, Truthful, Spares;
    if SparingRun(r) {
      forall i | 0 <= i < |r.states| ensures Truthful(r.states[i]) {
        SparingIsTruthful(b, r, i);
      }
    }
    if forall i :: 0 <= i < |r.states| ==> Truthful(r.states[i]) {
      forall i | 0 <= i < |r.steps| ensures Spares(r.states[i], r.steps[i]) {
        OneStepTruth(b, r, i);
      }
    }
  }

  /** Guarded runs spare their entries. */
  lemma GuardedRunsSpare(b: B.Books, r: Run)
    requires S.GuardedRun(b, r)
    ensures SparingRun(r)
  {
    assert IsRun(b, r);
    hide IsRun, S.GuardedRun;
    forall i | 0 <= i < |r.states| ensures Truthful(r.states[i]) {
      forall k | 0 <= k < |r.states[i].ledger| ensures EntryTrue(r.states[i].intents, r.states[i].ledger[k]) {
        S.LedgerAgrees(b, r, i, i, k);
      }
    }
    EntriesTrueExactlyWhen(b, r);
  }
}
