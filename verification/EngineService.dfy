/** The execution engine's worker: one task message from delivery to its acknowledgement, and the worker's loop. */
module EngineService {
  import opened Prelude
  import B = WalletBooks
  import S = ProtocolStatus
  import P = ProtocolRepeats
  import W = WalletMachine
  import Refusal = WalletRefusal
  import opened Protocol
  import opened ServiceRuns

  // ---------- the wallet during a call ----------

  predicate WalletRuns(w: W.State, steps: seq<W.Step>)
    decreases |steps|
  {
    steps == [] || (W.Enabled(w, steps[0]) && WalletRuns(W.Do(w, steps[0]), steps[1..]))
  }

  function WalletAfter(w: W.State, steps: seq<W.Step>): W.State
    requires WalletRuns(w, steps)
    decreases |steps|
  {
    if steps == [] then w else WalletAfter(W.Do(w, steps[0]), steps[1..])
  }

  /** What the wallet does is a run of the whole system. */
  lemma {:induction false} WalletLeads(s: State, wallet: seq<W.Step>) returns (steps: seq<Step>)
    requires WalletRuns(s.wallet, wallet)
    ensures Leads(s, steps, s.(wallet := WalletAfter(s.wallet, wallet))) && Lossless(steps)
    decreases |wallet|
  {
    steps := [];
    if wallet != [] {
      var t := s.(wallet := W.Do(s.wallet, wallet[0]));
      var rest := WalletLeads(t, wallet[1..]);
      assert Enabled(s, Wallet(wallet[0])) && S.Guarded(s, Wallet(wallet[0])) && Do(s, Wallet(wallet[0])) == t;
      hide Enabled, S.Guarded, Do, W.Do, W.Enabled, Leads;
      LeadsBy(s, Wallet(wallet[0]), rest, s.(wallet := WalletAfter(s.wallet, wallet)));
      steps := [Wallet(wallet[0])] + rest;
    }
  }

  // ---------- what the engine does with one task ----------

  /**
   What can go wrong with one task.  A call that reaches the wallet runs as transaction
   `tid`; `progress` is what the wallet does meanwhile, for this and other clients.
   */
  datatype TaskFaults = TaskFaults(
    claim: Write,
    reaches: bool,
    tid: W.Tid,
    progress: seq<W.Step>,
    lost: bool,
    computed: bool,
    final: Write,
    emit: Publication)

  /** A worker that has just taken its message from the channel. */
  predicate Taken(s: State, p: Pid) {
    p in s.engines && s.engines[p].pc.AtClaim? && s.engines[p].msg < |s.tasks|
  }

  predicate Claimable(s: State, id: Id) {
    id in s.intents && s.intents[id].status.SCHEDULED?
  }

  predicate Calls(row: Row, id: Id, f: TaskFaults) {
    row.kind.TRANSFER? && row.order.Some? && Admits(row.order.value, id) && f.reaches
  }

  function Begun(w: W.State, row: Row, id: Id, tid: W.Tid): W.State
    requires row.order.Some? && tid !in w.txns
  {
    W.Do(w, W.Begin(tid, Payment(row, id)))
  }

  /** The transaction number is new and the wallet's progress is a run. */
  predicate CallOk(w: W.State, row: Row, id: Id, f: TaskFaults) {
    Calls(row, id, f) ==> f.tid !in w.txns && WalletRuns(Begun(w, row, id, f.tid), f.progress)
  }

  /** The wallet after the task's execution. */
  function WalletThen(w: W.State, row: Row, id: Id, f: TaskFaults): W.State
    requires CallOk(w, row, id, f)
  {
    if Calls(row, id, f) then WalletAfter(Begun(w, row, id, f.tid), f.progress) else w
  }

  /** Whether the execution reports success: a transfer only when its transaction committed and the reply arrived. */
  function Succeeds(w: W.State, row: Row, id: Id, f: TaskFaults): bool
    requires CallOk(w, row, id, f)
  {
    match row.kind
    case TRANSFER =>
      && Calls(row, id, f) && !f.lost
      && f.tid in WalletThen(w, row, id, f).txns && WalletThen(w, row, id, f).txns[f.tid].pc.Committed?
    case COMPUTE => f.computed
    case _ => true
  }

  predicate TaskOk(s: State, id: Id, f: TaskFaults) {
    Claimable(s, id) ==> CallOk(s.wallet, s.intents[id], id, f)
  }

  /** The claim: compare-and-set on the status, and the books kept about it. */
  function Claimed(s: State, msg: nat): (t: State)
    requires msg < |s.tasks|
    ensures t.engines == s.engines && |t.tasks| == |s.tasks| && t.wallet == s.wallet && t.ledger == s.ledger
  {
    var id := s.tasks[msg].intent;
    var t := s.(tasks := s.tasks[msg := s.tasks[msg].(tried := true)]);
    if Claimable(s, id) then SetStatus(t, id, EXECUTING).(claims := s.claims[id := Get(s.claims, id) + 1]) else t
  }

  function MaybeEvent(s: State, id: Id, status: Status, stored: bool): State {
    if stored then s.(executed := s.executed + [Event(id, status, false)]) else s
  }

  /** Status and event of a finished execution. */
  function Reported(s: State, id: Id, ok: bool, f: TaskFaults): (t: State)
    ensures t.engines == s.engines && t.tasks == s.tasks && t.ledger == s.ledger && t.wallet == s.wallet
  {
    if f.final.NotWritten? then s
    else MaybeEvent(SetStatus(s, id, FinalStatus(ok)), id, FinalStatus(ok), f.final.Written? && Stored(f.emit))
  }

  /** Tables, queues and wallet after one task. */
  function TaskDone(s: State, msg: nat, f: TaskFaults): (t: State)
    requires msg < |s.tasks| && TaskOk(s, s.tasks[msg].intent, f)
    ensures t.engines == s.engines && |t.tasks| == |s.tasks| && t.ledger == s.ledger
  {
    var id := s.tasks[msg].intent;
    if f.claim.NotWritten? then s
    else if !Claimable(s, id) || f.claim.WrittenUnseen? then Claimed(s, msg)
    else Reported(Claimed(s, msg).(wallet := WalletThen(s.wallet, s.intents[id], id, f)), id,
      Succeeds(s.wallet, s.intents[id], id, f), f)
  }

  /** Whether the task's message is acknowledged. */
  predicate TaskAcked(s: State, msg: nat, f: TaskFaults)
    requires msg < |s.tasks|
  {
    f.claim.Written? && (Claimable(s, s.tasks[msg].intent) ==> f.final.Written?)
  }

  /** The process is gone, with its message acknowledged or not. */
  function Finish(s: State, p: Pid, acked: bool): State
    requires p in s.engines && s.engines[p].msg < |s.tasks|
  {
    if acked then AckTask(s, p) else s.(engines := s.engines - {p})
  }

  function Executed(s: State, p: Pid, f: TaskFaults): State
    requires Taken(s, p) && TaskOk(s, Job(s, p), f)
  {
    hide TaskOk, Claimed, Reported, Claimable, WalletThen, Succeeds;
    Finish(TaskDone(s, s.engines[p].msg, f), p, TaskAcked(s, s.engines[p].msg, f))
  }

  // ---------- the handler is a run ----------

  predicate EngineAt(s: State, p: Pid, pc: EnginePc) {
    p in s.engines && s.engines[p].pc == pc && s.engines[p].msg < |s.tasks|
  }

  lemma GotoThenFinish(s: State, p: Pid, pc: EnginePc, acked: bool)
    requires p in s.engines && s.engines[p].msg < |s.tasks|
    ensures Finish(EngineGoto(s, p, pc), p, acked) == Finish(s, p, acked)
  {
    assert s.engines[p := s.engines[p].(pc := pc)] - {p} == s.engines - {p};
  }

  lemma FromDone(s: State, p: Pid) returns (steps: seq<Step>)
    requires EngineAt(s, p, AtDone)
    ensures Leads(s, steps, Finish(s, p, true)) && Lossless(steps)
  {
    hide AckTask;
    LeadsBy(s, Engine(p, EAck), [], Finish(s, p, true));
    steps := [Engine(p, EAck)] + [];
  }

  lemma FromCrash(s: State, p: Pid) returns (steps: seq<Step>)
    requires p in s.engines && s.engines[p].msg < |s.tasks|
    ensures Leads(s, steps, Finish(s, p, false)) && Lossless(steps)
  {
    LeadsBy(s, Engine(p, ECrash), [], Finish(s, p, false));
    steps := [Engine(p, ECrash)] + [];
  }

  lemma FromEmit(s: State, p: Pid, final: Status, d: Publication) returns (steps: seq<Step>)
    requires EngineAt(s, p, AtEmit(final)) && Job(s, p) in s.intents
    ensures Leads(s, steps, Finish(MaybeEvent(s, Job(s, p), final, Stored(d)), p, true)) && Lossless(steps)
  {
    var t, step := MaybeEvent(s, Job(s, p), final, Stored(d)), Engine(p, EEmit(Stored(d)));
    assert Enabled(s, step) && S.Guarded(s, step) && Do(s, step) == EngineGoto(t, p, AtDone);
    var rest := FromDone(EngineGoto(t, p, AtDone), p);
    GotoThenFinish(t, p, AtDone, true);
    hide Enabled, S.Guarded, Do, Finish;
    LeadsBy(s, step, rest, Finish(t, p, true));
    steps := [step] + rest;
  }

  lemma EventThenFinish(s: State, p: Pid, pc: EnginePc, id: Id, status: Status, stored: bool, acked: bool)
    requires p in s.engines && s.engines[p].msg < |s.tasks|
    ensures Finish(MaybeEvent(EngineGoto(s, p, pc), id, status, stored), p, acked) ==
      Finish(MaybeEvent(s, id, status, stored), p, acked)
  {
    GotoThenFinish(MaybeEvent(s, id, status, stored), p, pc, acked);
    assert MaybeEvent(EngineGoto(s, p, pc), id, status, stored) == EngineGoto(MaybeEvent(s, id, status, stored), p, pc);
    hide Finish, EngineGoto;
  }

  lemma FromFinish(s: State, p: Pid, ok: bool, f: TaskFaults) returns (steps: seq<Step>)
    requires EngineAt(s, p, AtFinish(ok)) && Job(s, p) in s.intents
    ensures Leads(s, steps, Finish(Reported(s, Job(s, p), ok, f), p, f.final.Written?)) && Lossless(steps)
  {
    if f.final.NotWritten? {
      steps := FromCrash(s, p);
    } else {
      var id, final, step := Job(s, p), FinalStatus(ok), Engine(p, EFinish);
      var t := SetStatus(s, id, final);
      var t' := EngineGoto(t, p, AtEmit(final));
      assert Enabled(s, step) && S.Guarded(s, step) && Do(s, step) == t';
      EventThenFinish(t, p, AtEmit(final), id, final, f.final.Written? && Stored(f.emit), f.final.Written?);
      var rest;
      if f.final.Written? {
        rest := FromEmit(t', p, final, f.emit);
      } else {
        rest := FromCrash(t', p);
      }
      hide Enabled, S.Guarded, Do, Finish, EngineGoto, SetStatus;
      LeadsBy(s, step, rest, Finish(Reported(s, id, ok, f), p, f.final.Written?));
      steps := [step] + rest;
    }
  }

  lemma ReportedThenFinish(s: State, p: Pid, pc: EnginePc, id: Id, ok: bool, f: TaskFaults)
    requires p in s.engines && s.engines[p].msg < |s.tasks|
    ensures Finish(Reported(EngineGoto(s, p, pc), id, ok, f), p, f.final.Written?) ==
      Finish(Reported(s, id, ok, f), p, f.final.Written?)
  {
    var u := Reported(s, id, ok, f);
    GotoThenFinish(u, p, pc, f.final.Written?);
    assert Reported(EngineGoto(s, p, pc), id, ok, f) == EngineGoto(u, p, pc);
    hide Finish, EngineGoto;
  }

  /** What a run of the task does to everything but the process. */
  function Ran(s: State, row: Row, id: Id, f: TaskFaults): State
    requires CallOk(s.wallet, row, id, f)
  {
    s.(wallet := WalletThen(s.wallet, row, id, f))
  }

  lemma FromRunAlone(s: State, p: Pid, f: TaskFaults) returns (steps: seq<Step>)
    requires EngineAt(s, p, AtRun) && Working(s, p)
    requires var id := Job(s, p); CallOk(s.wallet, s.intents[id], id, f) && !Calls(s.intents[id], id, f)
    ensures var id := Job(s, p); Leads(s, steps,
      Finish(Reported(s, id, Succeeds(s.wallet, s.intents[id], id, f), f), p, f.final.Written?)) && Lossless(steps)
  {
    var id := Job(s, p);
    var ok := Succeeds(s.wallet, s.intents[id], id, f);
    var step, t := Engine(p, ERun(ok)), EngineGoto(s, p, AtFinish(ok));
    assert Enabled(s, step) && S.Guarded(s, step) && Do(s, step) == t;
    var rest := FromFinish(t, p, ok, f);
    ReportedThenFinish(s, p, AtFinish(ok), id, ok, f);
    hide Enabled, S.Guarded, Do, Finish, EngineGoto, Reported, Succeeds;
    LeadsBy(s, step, rest, Finish(Reported(s, id, ok, f), p, f.final.Written?));
    steps := [step] + rest;
  }

  lemma FromWait(s: State, p: Pid, tid: W.Tid, ok: bool, f: TaskFaults) returns (steps: seq<Step>)
    requires EngineAt(s, p, AtWait(tid)) && Working(s, p)
    requires ok ==> tid in s.wallet.txns && s.wallet.txns[tid].pc.Committed?
    ensures Leads(s, steps, Finish(Reported(s, Job(s, p), ok, f), p, f.final.Written?)) && Lossless(steps)
  {
    var id, step, t := Job(s, p), Engine(p, EReply(ok)), EngineGoto(s, p, AtFinish(ok));
    assert Enabled(s, step) && S.Guarded(s, step) && Do(s, step) == t;
    var rest := FromFinish(t, p, ok, f);
    ReportedThenFinish(s, p, AtFinish(ok), id, ok, f);
    hide Enabled, S.Guarded, Do, Finish, EngineGoto, Reported;
    LeadsBy(s, step, rest, Finish(Reported(s, id, ok, f), p, f.final.Written?));
    steps := [step] + rest;
  }

  lemma FromRunCalling(s: State, p: Pid, f: TaskFaults) returns (steps: seq<Step>)
    requires EngineAt(s, p, AtRun) && Working(s, p)
    requires var id := Job(s, p); CallOk(s.wallet, s.intents[id], id, f) && Calls(s.intents[id], id, f)
    ensures var id := Job(s, p);
      Leads(s, steps,
        Finish(Reported(Ran(s, s.intents[id], id, f), id, Succeeds(s.wallet, s.intents[id], id, f), f), p,
        f.final.Written?)) && Lossless(steps)
  {
    var id := Job(s, p);
    var row := s.intents[id];
    var ok := Succeeds(s.wallet, row, id, f);
    var step := Engine(p, ECall(f.tid));
    var called := s.(wallet := Begun(s.wallet, row, id, f.tid));
    var waiting := EngineGoto(called, p, AtWait(f.tid));
    assert Enabled(s, step) && S.Guarded(s, step) && Do(s, step) == waiting by { hide W.Do; }
    var middle := WalletLeads(waiting, f.progress);
    var end := Ran(s, row, id, f);
    var end' := EngineGoto(end, p, AtWait(f.tid));
    assert end' == waiting.(wallet := WalletAfter(waiting.wallet, f.progress));
    var rest := FromWait(end', p, f.tid, ok, f);
    ReportedThenFinish(end, p, AtWait(f.tid), id, ok, f);
    hide *;
    LeadsThen(waiting, middle, end', rest, Finish(Reported(end, id, ok, f), p, f.final.Written?));
    LeadsBy(s, step, middle + rest, Finish(Reported(end, id, ok, f), p, f.final.Written?));
    steps := [step] + (middle + rest);
  }

  lemma StatusDoesNotMatter(w: W.State, row: Row, status: Status, id: Id, f: TaskFaults)
    requires CallOk(w, row, id, f)
    ensures var row' := row.(status := status);
      && CallOk(w, row', id, f) && Calls(row', id, f) == Calls(row, id, f)
      && WalletThen(w, row', id, f) == WalletThen(w, row, id, f) && Succeeds(w, row', id, f) == Succeeds(w, row, id, f)
  {
    hide W.Do, WalletRuns, WalletAfter;
  }

  lemma FromRun(s: State, p: Pid, f: TaskFaults) returns (steps: seq<Step>)
    requires EngineAt(s, p, AtRun) && Working(s, p) && CallOk(s.wallet, s.intents[Job(s, p)], Job(s, p), f)
    ensures var id := Job(s, p);
      Leads(s, steps,
        Finish(Reported(Ran(s, s.intents[id], id, f), id, Succeeds(s.wallet, s.intents[id], id, f), f), p,
        f.final.Written?)) && Lossless(steps)
  {
    var id := Job(s, p);
    if Calls(s.intents[id], id, f) {
      steps := FromRunCalling(s, p, f);
    } else {
      assert Ran(s, s.intents[id], id, f) == s;
      hide Succeeds, Reported, Finish;
      steps := FromRunAlone(s, p, f);
    }
  }

  /** What the claim does to the state, in the machine's terms. */
  lemma ClaimIs(s: State, p: Pid)
    requires Taken(s, p)
    ensures var msg, id := s.engines[p].msg, Job(s, p);
      Claim(s, p) == EngineGoto(Claimed(s, msg), p, if Claimable(s, id) then AtRun else AtDone)
  {
  }

  /** The task after a claim that went through. */
  lemma ClaimedRuns(s: State, p: Pid, f: TaskFaults) returns (steps: seq<Step>)
    requires Taken(s, p) && TaskOk(s, Job(s, p), f) && Claimable(s, Job(s, p)) && f.claim.Written?
    ensures Leads(EngineGoto(Claimed(s, s.engines[p].msg), p, AtRun), steps, Executed(s, p, f)) && Lossless(steps)
  {
    var msg, id := s.engines[p].msg, Job(s, p);
    var c := Claimed(s, msg);
    var t := EngineGoto(c, p, AtRun);
    var row := s.intents[id];
    StatusDoesNotMatter(s.wallet, row, EXECUTING, id, f);
    assert t.intents[id] == row.(status := EXECUTING) && Job(t, p) == id;
    hide CallOk, Calls, WalletThen, Succeeds, Finish, Reported, Claimed;
    steps := FromRun(t, p, f);
    var ok := Succeeds(s.wallet, row, id, f);
    var end := c.(wallet := WalletThen(s.wallet, row, id, f));
    assert Ran(t, t.intents[id], id, f) == EngineGoto(end, p, AtRun);
    ReportedThenFinish(end, p, AtRun, id, ok, f);
  }

  /** The handler and its acknowledgement are a run of the machine. */
  lemma HandlingIsARun(s: State, p: Pid, f: TaskFaults) returns (steps: seq<Step>)
    requires Taken(s, p) && TaskOk(s, Job(s, p), f)
    ensures Leads(s, steps, Executed(s, p, f)) && Lossless(steps)
  {
    var msg, id := s.engines[p].msg, Job(s, p);
    if f.claim.NotWritten? {
      steps := FromCrash(s, p);
    } else {
      var step := Engine(p, EClaim);
      assert Enabled(s, step) && S.Guarded(s, step) && Do(s, step) == Claim(s, p);
      ClaimIs(s, p);
      var rest, c := [], Claimed(s, msg);
      hide Claim, Claimed, Do, Enabled, S.Guarded, Finish, Reported, TaskOk, WalletThen, Succeeds;
      if f.claim.WrittenUnseen? {
        var pc := if Claimable(s, id) then AtRun else AtDone;
        rest := FromCrash(EngineGoto(c, p, pc), p);
        GotoThenFinish(c, p, pc, false);
      } else if !Claimable(s, id) {
        rest := FromDone(EngineGoto(c, p, AtDone), p);
        GotoThenFinish(c, p, AtDone, true);
      } else {
        rest := ClaimedRuns(s, p, f);
      }
      LeadsBy(s, step, rest, Executed(s, p, f));
      steps := [step] + rest;
    }
  }

  // ---------- the program ----------

  /**
   A transfer whose order names two accounts and a positive amount, and that reaches the
   wallet, begins one transaction there: that amount from the order's sender to the
   order's recipient, under the intent's id.  Nothing else touches the wallet.
   */
  ghost predicate SentAs(before: W.State, row: Row, id: Id, f: TaskFaults, after: W.State) {
    if row.kind.TRANSFER? && row.order.Some? && f.reaches && id != "" && row.order.value.amount > 0 &&
      row.order.value.from != "" && row.order.value.to != ""
    then
      var o := row.order.value;
      && f.tid !in before.txns
      && var begun := W.Do(before, W.Begin(f.tid, B.Op.Transfer(o.from, o.to, o.amount, id)));
         WalletRuns(begun, f.progress) && after == WalletAfter(begun, f.progress)
    else after == before
  }

  lemma SendsItsOrder(w: W.State, row: Row, id: Id, f: TaskFaults)
    requires CallOk(w, row, id, f)
    ensures SentAs(w, row, id, f, WalletThen(w, row, id, f))
  {
    hide W.Do, WalletRuns, WalletAfter;
  }

  /** What a task does to the wallet. */
  lemma TaskSends(s: State, msg: nat, f: TaskFaults)
    requires msg < |s.tasks| && TaskOk(s, s.tasks[msg].intent, f)
    ensures
      var id, t := s.tasks[msg].intent, TaskDone(s, msg, f);
      if f.claim.Written? && id in s.intents && s.intents[id].status.SCHEDULED?
      then SentAs(s.wallet, s.intents[id], id, f, t.wallet)
      else t.wallet == s.wallet
  {
    var id := s.tasks[msg].intent;
    hide SentAs, CallOk, WalletThen, Succeeds, Claimed, Reported;
    if Claimable(s, id) {
      SendsItsOrder(s.wallet, s.intents[id], id, f);
    }
  }

  /**
   A transfer is done when a valid order reached the wallet, its transaction committed and
   the reply arrived, a computation when it was not cut short, and anything else always.
   */
  predicate IsDone(row: Row, id: Id, f: TaskFaults, after: W.State) {
    match row.kind
    case TRANSFER =>
      && row.order.Some? && row.order.value.from != "" && row.order.value.to != "" && row.order.value.amount > 0
      && id != "" && f.reaches && !f.lost && f.tid in after.txns && after.txns[f.tid].pc.Committed?
    case COMPUTE => f.computed
    case QUERY => true
    case RECURRING => true
  }

  lemma SucceedsWhenDone(w: W.State, row: Row, id: Id, f: TaskFaults)
    requires CallOk(w, row, id, f)
    ensures Succeeds(w, row, id, f) <==> IsDone(row, id, f, WalletThen(w, row, id, f))
  {
    hide W.Do, WalletRuns, WalletAfter;
  }

  /**
   Rows, reports and answer of one task.  Without the claim nothing changes; a task whose
   intent is not scheduled is skipped; otherwise the intent is claimed and, unless a write
   fails, ends COMPLETED if its work is done and FAILED if not, which the report says too.
   */
  ghost predicate Concluded(s: State, id: Id, f: TaskFaults, t: State, err: bool) {
    if f.claim.NotWritten? then err && t == s
    else if id !in s.intents || s.intents[id].status != SCHEDULED then
      && t.intents == s.intents && t.executed == s.executed && t.claims == s.claims
      && (err <==> f.claim.WrittenUnseen?)
    else
      var row := s.intents[id];
      var final := if IsDone(row, id, f, t.wallet) then COMPLETED else FAILED;
      && t.claims == s.claims[id := Get(s.claims, id) + 1]
      && t.intents ==
           s.intents[id := row.(status := if f.claim.Written? && !f.final.NotWritten? then final else EXECUTING)]
      && t.executed ==
           s.executed + (if f.claim.Written? && f.final.Written? && (f.emit.Seen? || f.emit.Unseen?)
             then [Event(id, final, false)] else [])
      && (err <==> !(f.claim.Written? && f.final.Written?))
  }

  lemma ReportConcludes(s: State, id: Id, ok: bool, f: TaskFaults)
    requires id in s.intents
    ensures var t, final := Reported(s, id, ok, f), if ok then COMPLETED else FAILED;
      && t.claims == s.claims
      && t.intents == (if f.final.NotWritten? then s.intents else s.intents[id := s.intents[id].(status := final)])
      && t.executed == s.executed + (if f.final.Written? && (f.emit.Seen? || f.emit.Unseen?)
           then [Event(id, final, false)] else [])
  {
  }

  lemma ClaimConcludes(s: State, msg: nat)
    requires msg < |s.tasks|
    ensures var id, t := s.tasks[msg].intent, Claimed(s, msg);
      && t.executed == s.executed
      && t.intents == (if Claimable(s, id) then s.intents[id := s.intents[id].(status := EXECUTING)] else s.intents)
      && t.claims == if Claimable(s, id) then s.claims[id := Get(s.claims, id) + 1] else s.claims
  {
    var id := s.tasks[msg].intent;
    if Claimable(s, id) {
      assert Mark(s.intents, id, EXECUTING) == s.intents[id := s.intents[id].(status := EXECUTING)];
      hide Get, Mark;
    }
  }

  lemma TaskConcludes(s: State, msg: nat, f: TaskFaults)
    requires msg < |s.tasks| && TaskOk(s, s.tasks[msg].intent, f)
    ensures Concluded(s, s.tasks[msg].intent, f, TaskDone(s, msg, f), !TaskAcked(s, msg, f))
  {
    var id := s.tasks[msg].intent;
    hide CallOk, WalletThen, Succeeds, IsDone, Claimed, Reported, Get;
    ClaimConcludes(s, msg);
    if Claimable(s, id) {
      var row := s.intents[id];
      SucceedsWhenDone(s.wallet, row, id, f);
      var ran := Claimed(s, msg).(wallet := WalletThen(s.wallet, row, id, f));
      ReportConcludes(ran, id, Succeeds(s.wallet, row, id, f), f);
    }
  }

  /** A transaction keeps its operation. */
  lemma {:induction false} OpStaysLong(w: W.State, steps: seq<W.Step>, tid: W.Tid)
    requires WalletRuns(w, steps) && tid in w.txns
    ensures tid in WalletAfter(w, steps).txns && WalletAfter(w, steps).txns[tid].op == w.txns[tid].op
    decreases |steps|
  {
    if steps != [] {
      Refusal.TxnStays(w, steps[0], tid);
      hide W.Do, W.Enabled;
      OpStaysLong(W.Do(w, steps[0]), steps[1..], tid);
    }
  }

  /** The transaction that a transfer's success rests on. */
  lemma SentOperation(w: W.State, row: Row, id: Id, f: TaskFaults)
    requires CallOk(w, row, id, f) && Calls(row, id, f)
    ensures var o, after := row.order.value, WalletThen(w, row, id, f);
      f.tid in after.txns && after.txns[f.tid].op == B.Op.Transfer(o.from, o.to, o.amount, id)
  {
    var begun := Begun(w, row, id, f.tid);
    OpStaysLong(begun, f.progress, f.tid);
    hide WalletRuns, WalletAfter;
  }

  lemma ClaimedRow(s: State, msg: nat, f: TaskFaults)
    requires msg < |s.tasks| && TaskOk(s, s.tasks[msg].intent, f) && Claimable(s, s.tasks[msg].intent)
    ensures var id, t := s.tasks[msg].intent, Claimed(s, msg);
      && id in t.intents && t.wallet == s.wallet && CallOk(t.wallet, t.intents[id], id, f)
      && WalletThen(t.wallet, t.intents[id], id, f) == WalletThen(s.wallet, s.intents[id], id, f)
      && Succeeds(t.wallet, t.intents[id], id, f) == Succeeds(s.wallet, s.intents[id], id, f)
  {
    var id := s.tasks[msg].intent;
    assert Claimed(s, msg).intents[id] == s.intents[id].(status := EXECUTING);
    hide Claimed, CallOk, WalletThen, Succeeds;
    StatusDoesNotMatter(s.wallet, s.intents[id], EXECUTING, id, f);
  }

  /** The channel's messages in the order a worker takes them, each with its process and its faults. */
  predicate QueueOk(s: State, queue: seq<(Pid, TaskFaults)>)
    decreases |queue|
  {
    queue == [] || (
      && Taken(s, queue[0].0) && TaskOk(s, Job(s, queue[0].0), queue[0].1)
      && QueueOk(Executed(s, queue[0].0, queue[0].1), queue[1..]))
  }

  function Worked(s: State, queue: seq<(Pid, TaskFaults)>): State
    requires QueueOk(s, queue)
    decreases |queue|
  {
    if queue == [] then s else Worked(Executed(s, queue[0].0, queue[0].1), queue[1..])
  }

  class Engine {
    var s: State  // tables, queues and the wallet behind its client

    constructor (s: State)
      ensures this.s == s
    {
      this.s := s;
    }

    /** The switch over the intent's type; only a transfer touches the wallet. */
    method RunExecutionSimulation(row: Row, id: Id, f: TaskFaults) returns (err: bool)
      requires CallOk(s.wallet, row, id, f)
      modifies this
      ensures s == old(s).(wallet := WalletThen(old(s).wallet, row, id, f))
      ensures err <==> !Succeeds(old(s).wallet, row, id, f)
      ensures SentAs(old(s).wallet, row, id, f, s.wallet)
      ensures err <==> !IsDone(row, id, f, s.wallet)
      ensures row.kind.TRANSFER? && !err ==>
        && row.order.Some? && !f.lost && f.tid in s.wallet.txns && s.wallet.txns[f.tid].pc.Committed?
        && var o := row.order.value; s.wallet.txns[f.tid].op == B.Op.Transfer(o.from, o.to, o.amount, id)
    {
      SendsItsOrder(s.wallet, row, id, f);
      SucceedsWhenDone(s.wallet, row, id, f);
      if Calls(row, id, f) {
        SentOperation(s.wallet, row, id, f);
      }
      hide SentAs, W.Do, WalletRuns;
      match row.kind {
        case TRANSFER =>
          if row.order.None? {
            return true;
          }
          if !f.reaches || !Admits(row.order.value, id) {
            return true;
          }
          s := s.(wallet := WalletAfter(Begun(s.wallet, row, id, f.tid), f.progress));
          err := f.lost || !(f.tid in s.wallet.txns && s.wallet.txns[f.tid].pc.Committed?);
        case COMPUTE => err := !f.computed;
        case _ => err := false;
      }
    }

    /** UPDATE intents ... WHERE id = ... AND status = 'SCHEDULED', and its number of rows. */
    method Claim(msg: nat) returns (rows: nat)
      requires msg < |s.tasks|
      modifies this
      ensures s == Claimed(old(s), msg) && rows == if Claimable(old(s), old(s).tasks[msg].intent) then 1 else 0
    {
      var id := s.tasks[msg].intent;
      s := s.(tasks := s.tasks[msg := s.tasks[msg].(tried := true)]);
      rows := 0;
      if id in s.intents && s.intents[id].status == SCHEDULED {
        s := s.(intents := s.intents[id := s.intents[id].(status := EXECUTING)],
          claims := s.claims[id := Get(s.claims, id) + 1]);
        rows := 1;
      }
    }

    /** The final status, and the event that tells the validator. */
    method Report(id: Id, finalStatus: Status, f: TaskFaults) returns (err: bool)
      requires finalStatus.COMPLETED? || finalStatus.FAILED?
      modifies this
      ensures s == Reported(old(s), id, finalStatus.COMPLETED?, f) && (err <==> !f.final.Written?)
    {
      if f.final.NotWritten? {
        return true;
      }
      if id in s.intents {
        s := s.(intents := s.intents[id := s.intents[id].(status := finalStatus)]);
      }
      if f.final.WrittenUnseen? {
        return true;
      }
      if Stored(f.emit) {
        s := s.(executed := s.executed + [Event(id, finalStatus, false)]);
      }
      err := false;
    }

    method ExecuteTask(msg: nat, f: TaskFaults) returns (err: bool)
      requires msg < |s.tasks| && TaskOk(s, s.tasks[msg].intent, f)
      modifies this
      ensures s == TaskDone(old(s), msg, f) && (err <==> !TaskAcked(old(s), msg, f))
      ensures
        var id := old(s).tasks[msg].intent;
        if f.claim.Written? && id in old(s).intents && old(s).intents[id].status.SCHEDULED?
        then SentAs(old(s).wallet, old(s).intents[id], id, f, s.wallet)
        else s.wallet == old(s).wallet
      ensures Concluded(old(s), old(s).tasks[msg].intent, f, s, err)
    {
      TaskSends(s, msg, f);
      TaskConcludes(s, msg, f);
      hide Concluded, WalletThen, Succeeds, CallOk, Claimed, Reported, SentAs;
      if f.claim.NotWritten? {
        return true;
      }
      var id := s.tasks[msg].intent;
      ghost var before := s;
      var rows := Claim(msg);
      if f.claim.WrittenUnseen? {
        return true;
      }
      if rows == 0 {
        return false;
      }
      ClaimedRow(before, msg, f);
      var executionErr := RunExecutionSimulation(s.intents[id], id, f);
      var finalStatus := COMPLETED;
      if executionErr {
        finalStatus := FAILED;
      }
      err := Report(id, finalStatus, f);
    }

    /** The loop over the channel: acknowledge what was executed, leave the rest for redelivery. */
    method StartWorker(queue: seq<(Pid, TaskFaults)>) returns (ghost steps: seq<Step>)
      requires QueueOk(s, queue)
      modifies this
      ensures s == Worked(old(s), queue)
      ensures Leads(old(s), steps, s) && Lossless(steps)
    {
      steps := [];
      ghost var before := s;
      for i := 0 to |queue|
        invariant QueueOk(s, queue[i..]) && Worked(s, queue[i..]) == Worked(before, queue)
        invariant Leads(before, steps, s) && Lossless(steps)
      {
        var (p, f) := queue[i];
        assert queue[i..][1..] == queue[i + 1..];
        ghost var more := HandlingIsARun(s, p, f);
        LeadsThen(before, steps, s, more, Executed(s, p, f));
        steps := steps + more;
        hide TaskDone, TaskAcked, TaskOk, Leads;
        var msg := s.engines[p].msg;
        var err := ExecuteTask(msg, f);
        if !err {
          s := s.(tasks := s.tasks[msg := s.tasks[msg].(acked := true)]);
        }
        s := s.(engines := s.engines - {p});
      }
    }
  }

  lemma ExecutedLedger(s: State, p: Pid, f: TaskFaults)
    requires Taken(s, p) && TaskOk(s, Job(s, p), f)
    ensures Executed(s, p, f).ledger == s.ledger
  {
    hide TaskOk, TaskDone, TaskAcked;
  }

  // ---------- what handling a task achieves ----------

  /**
   A task's message is acknowledged when its claim was seen to succeed and, if that took
   the intent, its final write too; otherwise it is left for redelivery.  Either way a claim
   that was applied has been tried.
   */
  lemma TaskIsAnswered(s: State, p: Pid, f: TaskFaults)
    requires Taken(s, p) && TaskOk(s, Job(s, p), f)
    ensures var t, msg := Executed(s, p, f), s.engines[p].msg;
      var id := s.tasks[msg].intent;
      var answered := f.claim.Written? && (id in s.intents && s.intents[id].status == SCHEDULED ==> f.final.Written?);
      && t.engines == s.engines - {p}
      && t.tasks == s.tasks[msg := Task(id, s.tasks[msg].acked || answered, s.tasks[msg].tried || !f.claim.NotWritten?)]
  {
    var msg := s.engines[p].msg;
    TaskKeepsTasks(s, msg, f);
    FinishTasks(TaskDone(s, msg, f), p, TaskAcked(s, msg, f));
    hide TaskDone, TaskOk, Finish;
  }

  lemma FinishTasks(s: State, p: Pid, acked: bool)
    requires p in s.engines && s.engines[p].msg < |s.tasks|
    ensures var t, msg := Finish(s, p, acked), s.engines[p].msg;
      && t.engines == s.engines - {p}
      && t.tasks == if acked then s.tasks[msg := s.tasks[msg].(acked := true)] else s.tasks
  {
  }

  lemma TaskKeepsTasks(s: State, msg: nat, f: TaskFaults)
    requires msg < |s.tasks| && TaskOk(s, s.tasks[msg].intent, f)
    ensures TaskDone(s, msg, f).tasks ==
      if f.claim.NotWritten? then s.tasks else s.tasks[msg := s.tasks[msg].(tried := true)]
  {
    hide CallOk, WalletThen, Succeeds, Reported, Claimed;
    ClaimTasks(s, msg);
  }

  lemma ClaimTasks(s: State, msg: nat)
    requires msg < |s.tasks|
    ensures Claimed(s, msg).tasks == s.tasks[msg := s.tasks[msg].(tried := true)]
  {
    hide Mark, Get;
  }

  /** Rows, money and reports. */
  ghost predicate SameOutside(s: State, t: State) {
    t.intents == s.intents && t.wallet == s.wallet && t.executed == s.executed
  }

  lemma SkippedTask(s: State, msg: nat, f: TaskFaults)
    requires msg < |s.tasks| && !Claimable(s, s.tasks[msg].intent)
    ensures TaskOk(s, s.tasks[msg].intent, f) && SameOutside(s, TaskDone(s, msg, f))
  {
    hide CallOk, WalletThen, Succeeds, Reported;
  }

  lemma FinishedOutside(s: State, p: Pid, acked: bool)
    requires p in s.engines && s.engines[p].msg < |s.tasks|
    ensures SameOutside(s, Finish(s, p, acked))
  {
  }

  /** A task whose intent is not SCHEDULED changes no row, moves no money and reports nothing. */
  lemma UnclaimableDoesNothing(s: State, p: Pid, f: TaskFaults)
    requires Taken(s, p) && !Claimable(s, Job(s, p))
    ensures TaskOk(s, Job(s, p), f) && SameOutside(s, Executed(s, p, f))
  {
    hide TaskOk, TaskDone, Finish, TaskAcked, Claimable;
    var msg := s.engines[p].msg;
    SkippedTask(s, msg, f);
    FinishedOutside(TaskDone(s, msg, f), p, TaskAcked(s, msg, f));
  }

  /**
   Once some message of an intent's task was tried or acknowledged, a message of a task
   of that intent handled at any later time of a guarded run changes no row, moves no
   money and reports nothing.
   */
  lemma {:induction false} SecondTaskDoesNothing(b: B.Books, r: Run, i: nat, j: nat, k: nat, q: Pid, f: TaskFaults)
    requires S.GuardedRun(b, r) && i <= j < |r.states|
    requires k < |r.states[i].tasks| && (r.states[i].tasks[k].tried || r.states[i].tasks[k].acked)
    requires Taken(r.states[j], q) && Job(r.states[j], q) == r.states[i].tasks[k].intent
    ensures var t := r.states[j];
      && TaskOk(t, Job(t, q), f)
      && SameOutside(t, Executed(t, q, f))
  {
    P.TriedIsNotScheduled(b, r, i, j, k);
    assert !Claimable(r.states[j], Job(r.states[j], q));
    hide *;
    UnclaimableDoesNothing(r.states[j], q, f);
  }
}
