/**
 The life of an intent across the services, one step per statement.

 Any number of processes of each service run at once; a process that crashes,
 fails or sends a negative acknowledgement simply disappears and leaves its message
 unacknowledged.  A message can be delivered again, and to several processes at
 once, until it is acknowledged, and a publication can be stored although the
 publisher sees an error.  The wallet is the machine of WalletMachine.
 */
module Protocol {
  import opened Prelude
  import B = WalletBooks
  import W = WalletMachine

  type Id = string
  type RowId = string  // of an outbox row
  type Pid = nat

  // ---------- tables and queues ----------

  datatype Status = PENDING | SCHEDULED | EXECUTING | COMPLETED | FAILED
  {
    predicate Terminal() { COMPLETED? || FAILED? }
  }

  datatype Kind = TRANSFER | COMPUTE | QUERY | RECURRING

  /** The parsed payload of a transfer. */
  datatype Order = Order(from: B.Account, to: B.Account, amount: int)

  datatype Row = Row(kind: Kind, order: Option<Order>, status: Status, deadline: Option<int>)

  datatype OutboxStatus = OUTBOX_PENDING | OUTBOX_PROCESSING | OUTBOX_FAILED
  datatype OutboxRow = OutboxRow(intent: Id, status: OutboxStatus, retries: nat)

  datatype Submission = Submission(intent: Id, acked: bool)
  datatype Task = Task(intent: Id, acked: bool, tried: bool)  // tried: some worker has attempted the claim
  datatype Event = Event(intent: Id, status: Status, acked: bool)

  /** What one ledger block says. */
  datatype Entry = Entry(intent: Id, kind: Kind, status: Status)

  // ---------- processes ----------

  datatype OutboxPc = AtSend | AtDelete | AtRequeue
  datatype OutboxProc = OutboxProc(row: RowId, intent: Id, retries: nat, pc: OutboxPc)

  datatype SchedPc = AtRead | AtSchedule | AtExpire | AtPublish | AtRepublish | AtAck
  datatype SchedProc = SchedProc(msg: nat, pc: SchedPc)

  datatype EnginePc = AtClaim | AtRun | AtWait(tid: W.Tid) | AtFinish(ok: bool) | AtEmit(final: Status) | AtDone
  datatype EngineProc = EngineProc(msg: nat, pc: EnginePc)

  datatype ValidatorPc = AtCheck | AtAppend(kind: Kind, status: Status) | AtReject | AtEnd
  datatype ValidatorProc = ValidatorProc(msg: nat, pc: ValidatorPc)

  datatype State = State(
    intents: map<Id, Row>,
    outbox: map<RowId, OutboxRow>,
    submitted: seq<Submission>,
    tasks: seq<Task>,
    executed: seq<Event>,
    ledger: seq<Entry>,
    wallet: W.State,
    outboxes: map<Pid, OutboxProc>,
    schedulers: map<Pid, SchedProc>,
    engines: map<Pid, EngineProc>,
    validators: map<Pid, ValidatorProc>,
    claims: map<Id, int>)  // how often the engine's claim succeeded

  const MAX_RETRIES := 5

  function Start(b: B.Books): State {
    State(map[], map[], [], [], [], [], W.Start(b), map[], map[], map[], map[], map[])
  }

  /** UPDATE intents SET status = ... WHERE id = ... */
  function Mark(rows: map<Id, Row>, id: Id, status: Status): map<Id, Row> {
    if id in rows then rows[id := rows[id].(status := status)] else rows
  }

  function SetStatus(s: State, id: Id, status: Status): State {
    s.(intents := Mark(s.intents, id, status))
  }

  // ---------- creation: one transaction writes the intent and its outbox row ----------

  function CreateIntent(s: State, id: Id, kind: Kind, order: Option<Order>, deadline: Option<int>, row: RowId): State {
    s.(intents := s.intents[id := Row(kind, order, PENDING, deadline)],
       outbox := s.outbox[row := OutboxRow(id, OUTBOX_PENDING, 0)])
  }

  // ---------- outbox worker ----------

  datatype OutboxAct =
    | OClaim(row: RowId)
    | OSend(stored: bool, ok: bool)
    | ODelete
    | ORequeue
    | OCrash

  predicate EnabledOutbox(s: State, p: Pid, a: OutboxAct) {
    match a
    case OClaim(row) => p !in s.outboxes && row in s.outbox && !s.outbox[row].status.OUTBOX_FAILED?
    case OSend(stored, ok) => p in s.outboxes && s.outboxes[p].pc.AtSend? && (ok ==> stored)
    case ODelete => p in s.outboxes && s.outboxes[p].pc.AtDelete?
    case ORequeue => p in s.outboxes && s.outboxes[p].pc.AtRequeue?
    case OCrash => p in s.outboxes
  }

  function DoOutbox(s: State, p: Pid, a: OutboxAct): State
    requires EnabledOutbox(s, p, a)
  {
    match a
    case OClaim(row) =>
      s.(outbox := s.outbox[row := s.outbox[row].(status := OUTBOX_PROCESSING)],
         outboxes := s.outboxes[p := OutboxProc(row, s.outbox[row].intent, s.outbox[row].retries, AtSend)])
    case OSend(stored, ok) =>
      s.(submitted := if stored then s.submitted + [Submission(s.outboxes[p].intent, false)] else s.submitted,
         outboxes := s.outboxes[p := s.outboxes[p].(pc := if ok then AtDelete else AtRequeue)])
    case ODelete =>
      s.(outbox := s.outbox - {s.outboxes[p].row}, outboxes := s.outboxes - {p})
    case ORequeue =>
      var x := s.outboxes[p];
      var status := if x.retries >= MAX_RETRIES then OUTBOX_FAILED else OUTBOX_PENDING;
      s.(outbox := if x.row in s.outbox
        then s.outbox[x.row := OutboxRow(s.outbox[x.row].intent, status, x.retries + 1)] else s.outbox,
         outboxes := s.outboxes - {p})
    case OCrash =>
      s.(outboxes := s.outboxes - {p})
  }

  // ---------- scheduler ----------

  datatype SchedAct =
    | SDeliver(msg: nat)
    | SRead(now: int)
    | SWrite
    | SPublish(stored: bool, ok: bool)
    | SRepublish(stored: bool)   // its error is ignored
    | SAck
    | SCrash                     // crash, error or negative acknowledgement

  predicate EnabledSched(s: State, p: Pid, a: SchedAct) {
    match a
    case SDeliver(msg) => p !in s.schedulers && msg < |s.submitted| && !s.submitted[msg].acked
    case SRead(_) => p in s.schedulers && s.schedulers[p].pc.AtRead? && s.schedulers[p].msg < |s.submitted|
    case SWrite => p in s.schedulers && (s.schedulers[p].pc.AtSchedule? || s.schedulers[p].pc.AtExpire?) &&
      s.schedulers[p].msg < |s.submitted|
    case SPublish(stored, ok) => p in s.schedulers && s.schedulers[p].pc.AtPublish? &&
      s.schedulers[p].msg < |s.submitted| && (ok ==> stored)
    case SRepublish(_) => p in s.schedulers && s.schedulers[p].pc.AtRepublish? && s.schedulers[p].msg < |s.submitted|
    case SAck => p in s.schedulers && s.schedulers[p].pc.AtAck? && s.schedulers[p].msg < |s.submitted|
    case SCrash => p in s.schedulers
  }

  /** The intent that a scheduler process is handling. */
  function Subject(s: State, p: Pid): Id {
    if p in s.schedulers && s.schedulers[p].msg < |s.submitted| then s.submitted[s.schedulers[p].msg].intent else ""
  }

  /** Where the status and the deadline that were read lead. */
  function Decide(s: State, id: Id, now: int): SchedPc {
    if id !in s.intents then AtAck
    else if s.intents[id].status.SCHEDULED? then AtRepublish
    else if !s.intents[id].status.PENDING? then AtAck
    else if s.intents[id].deadline.Some? && now > s.intents[id].deadline.value then AtExpire
    else AtSchedule
  }

  function SchedGoto(s: State, p: Pid, pc: SchedPc): State
    requires p in s.schedulers
  {
    s.(schedulers := s.schedulers[p := s.schedulers[p].(pc := pc)])
  }

  function PutTask(s: State, id: Id): State {
    s.(tasks := s.tasks + [Task(id, false, false)])
  }

  /** The update does not look at the status it overwrites. */
  function WriteDecision(s: State, p: Pid): State
    requires p in s.schedulers
  {
    if s.schedulers[p].pc.AtSchedule? then SchedGoto(SetStatus(s, Subject(s, p), SCHEDULED), p, AtPublish)
    else SchedGoto(SetStatus(s, Subject(s, p), FAILED), p, AtAck)
  }

  function DropScheduler(s: State, p: Pid): State {
    s.(schedulers := s.schedulers - {p})
  }

  function PublishTask(s: State, p: Pid, stored: bool, ok: bool): State
    requires p in s.schedulers
  {
    var s' := if stored then PutTask(s, Subject(s, p)) else s;
    if ok then SchedGoto(s', p, AtAck) else DropScheduler(s', p)
  }

  function AckSubmission(s: State, p: Pid): State
    requires p in s.schedulers && s.schedulers[p].msg < |s.submitted|
  {
    var msg := s.schedulers[p].msg;
    DropScheduler(s, p).(submitted := s.submitted[msg := s.submitted[msg].(acked := true)])
  }

  function DoSched(s: State, p: Pid, a: SchedAct): State
    requires EnabledSched(s, p, a)
  {
    match a
    case SDeliver(msg) => s.(schedulers := s.schedulers[p := SchedProc(msg, AtRead)])
    case SRead(now) => SchedGoto(s, p, Decide(s, Subject(s, p), now))
    case SWrite => WriteDecision(s, p)
    case SPublish(stored, ok) => PublishTask(s, p, stored, ok)
    case SRepublish(stored) => PublishTask(s, p, stored, true)
    case SAck => AckSubmission(s, p)
    case SCrash => DropScheduler(s, p)
  }

  // ---------- execution engine ----------

  datatype EngineAct =
    | EDeliver(msg: nat)
    | EClaim
    | ERun(ok: bool)          // everything but a call that reaches the wallet's store
    | ECall(tid: W.Tid)
    | EReply(ok: bool)        // a reply can be lost, or the wait be cut short
    | EFinish
    | EEmit(stored: bool)     // its error is only logged
    | EAck
    | ECrash

  /** The wallet's handler passes the request on to its store. */
  predicate Admits(o: Order, id: Id) {
    o.from != "" && o.to != "" && o.amount > 0 && id != ""
  }

  predicate Working(s: State, p: Pid) {
    p in s.engines && s.engines[p].msg < |s.tasks| && s.tasks[s.engines[p].msg].intent in s.intents
  }

  /** The intent that a worker is handling. */
  function Job(s: State, p: Pid): Id {
    if p in s.engines && s.engines[p].msg < |s.tasks| then s.tasks[s.engines[p].msg].intent else ""
  }

  predicate EnabledEngine(s: State, p: Pid, a: EngineAct) {
    match a
    case EDeliver(msg) => p !in s.engines && msg < |s.tasks| && !s.tasks[msg].acked
    case EClaim => p in s.engines && s.engines[p].msg < |s.tasks| && s.engines[p].pc.AtClaim?
    case ERun(ok) => Working(s, p) && s.engines[p].pc.AtRun? &&
      (var row := s.intents[Job(s, p)];
       && (row.kind.TRANSFER? ==> !ok)
       && (row.kind.QUERY? || row.kind.RECURRING? ==> ok))
    case ECall(tid) => Working(s, p) && s.engines[p].pc.AtRun? && tid !in s.wallet.txns &&
      (var row := s.intents[Job(s, p)];
       row.kind.TRANSFER? && row.order.Some? && Admits(row.order.value, Job(s, p)))
    case EReply(ok) => Working(s, p) && s.engines[p].pc.AtWait? &&
      (ok ==> s.engines[p].pc.tid in s.wallet.txns && s.wallet.txns[s.engines[p].pc.tid].pc.Committed?)
    case EFinish => Working(s, p) && s.engines[p].pc.AtFinish?
    case EEmit(_) => Working(s, p) && s.engines[p].pc.AtEmit?
    case EAck => p in s.engines && s.engines[p].msg < |s.tasks| && s.engines[p].pc.AtDone?
    case ECrash => p in s.engines
  }

  function EngineGoto(s: State, p: Pid, pc: EnginePc): State
    requires p in s.engines
  {
    s.(engines := s.engines[p := s.engines[p].(pc := pc)])
  }

  function Claim(s: State, p: Pid): State
    requires p in s.engines && s.engines[p].msg < |s.tasks|
  {
    var msg, id := s.engines[p].msg, Job(s, p);
    var s' := s.(tasks := s.tasks[msg := s.tasks[msg].(tried := true)]);
    if id in s.intents && s.intents[id].status.SCHEDULED? then
      EngineGoto(SetStatus(s', id, EXECUTING).(claims := s.claims[id := Get(s.claims, id) + 1]), p, AtRun)
    else EngineGoto(s', p, AtDone)
  }

  function FinalStatus(ok: bool): Status {
    if ok then COMPLETED else FAILED
  }

  /** The final update does not look at the status it overwrites either. */
  function FinishTask(s: State, p: Pid): State
    requires p in s.engines && s.engines[p].pc.AtFinish?
  {
    var final := FinalStatus(s.engines[p].pc.ok);
    EngineGoto(SetStatus(s, Job(s, p), final), p, AtEmit(final))
  }

  /** The wallet transaction that a transfer intent asks for: its reference is the intent's id. */
  function Payment(row: Row, id: Id): B.Op
    requires row.order.Some?
  {
    B.Transfer(row.order.value.from, row.order.value.to, row.order.value.amount, id)
  }

  function CallWallet(s: State, p: Pid, tid: W.Tid): State
    requires Working(s, p) && s.intents[Job(s, p)].order.Some? && tid !in s.wallet.txns
  {
    EngineGoto(s.(wallet := W.Do(s.wallet, W.Begin(tid, Payment(s.intents[Job(s, p)], Job(s, p))))), p, AtWait(tid))
  }

  function EmitEvent(s: State, p: Pid, stored: bool): State
    requires p in s.engines && s.engines[p].pc.AtEmit?
  {
    EngineGoto(if stored then s.(executed := s.executed + [Event(Job(s, p), s.engines[p].pc.final, false)])
      else s, p, AtDone)
  }

  function AckTask(s: State, p: Pid): State
    requires p in s.engines && s.engines[p].msg < |s.tasks|
  {
    var msg := s.engines[p].msg;
    s.(tasks := s.tasks[msg := s.tasks[msg].(acked := true)], engines := s.engines - {p})
  }

  function DoEngine(s: State, p: Pid, a: EngineAct): State
    requires EnabledEngine(s, p, a)
  {
    match a
    case EDeliver(msg) => s.(engines := s.engines[p := EngineProc(msg, AtClaim)])
    case EClaim => Claim(s, p)
    case ERun(ok) => EngineGoto(s, p, AtFinish(ok))
    case ECall(tid) => CallWallet(s, p, tid)
    case EReply(ok) => EngineGoto(s, p, AtFinish(ok))
    case EFinish => FinishTask(s, p)
    case EEmit(stored) => EmitEvent(s, p, stored)
    case EAck => AckTask(s, p)
    case ECrash => s.(engines := s.engines - {p})
  }

  // ---------- validator ----------

  datatype ValidatorAct =
    | VDeliver(msg: nat)
    | VCheck
    | VAppend
    | VAck
    | VCrash

  predicate EnabledValidator(s: State, p: Pid, a: ValidatorAct) {
    match a
    case VDeliver(msg) => p !in s.validators && msg < |s.executed| && !s.executed[msg].acked
    case VCheck => p in s.validators && s.validators[p].msg < |s.executed| && s.validators[p].pc.AtCheck?
    case VAppend => p in s.validators && s.validators[p].msg < |s.executed| && s.validators[p].pc.AtAppend?
    case VAck => p in s.validators && s.validators[p].msg < |s.executed| && s.validators[p].pc.AtEnd?
    case VCrash => p in s.validators
  }

  function Audited(s: State, p: Pid): Id {
    if p in s.validators && s.validators[p].msg < |s.executed| then s.executed[s.validators[p].msg].intent else ""
  }

  function Check(s: State, id: Id): ValidatorPc {
    if id in s.intents &&
      s.intents[id].status.Terminal() then AtAppend(s.intents[id].kind, s.intents[id].status) else AtReject
  }

  function ValidatorGoto(s: State, p: Pid, pc: ValidatorPc): State
    requires p in s.validators
  {
    s.(validators := s.validators[p := s.validators[p].(pc := pc)])
  }

  function DoValidator(s: State, p: Pid, a: ValidatorAct): State
    requires EnabledValidator(s, p, a)
  {
    match a
    case VDeliver(msg) => s.(validators := s.validators[p := ValidatorProc(msg, AtCheck)])
    case VCheck => ValidatorGoto(s, p, Check(s, Audited(s, p)))
    case VAppend =>
      var pc := s.validators[p].pc;
      ValidatorGoto(s.(ledger := s.ledger + [Entry(Audited(s, p), pc.kind, pc.status)]), p, AtEnd)
    case VAck =>
      var msg := s.validators[p].msg;
      s.(executed := s.executed[msg := s.executed[msg].(acked := true)], validators := s.validators - {p})
    case VCrash => s.(validators := s.validators - {p})
  }

  // ---------- runs ----------

  datatype Step =
    | Create(id: Id, kind: Kind, order: Option<Order>, deadline: Option<int>, row: RowId)
    | Outbox(p: Pid, o: OutboxAct)
    | Schedule(p: Pid, d: SchedAct)
    | Engine(p: Pid, e: EngineAct)
    | Validate(p: Pid, v: ValidatorAct)
    | Wallet(w: W.Step)   // the wallet's own progress, and any other client's operations

  predicate Enabled(s: State, step: Step) {
    match step
    case Create(id, _, _, _, row) => id !in s.intents && row !in s.outbox && forall p :: p in s.outboxes ==>
      s.outboxes[p].row != row
    case Outbox(p, a) => EnabledOutbox(s, p, a)
    case Schedule(p, a) => EnabledSched(s, p, a)
    case Engine(p, a) => EnabledEngine(s, p, a)
    case Validate(p, a) => EnabledValidator(s, p, a)
    case Wallet(w) => W.Enabled(s.wallet, w)
  }

  function Do(s: State, step: Step): State
    requires Enabled(s, step)
  {
    match step
    case Create(id, kind, order, deadline, row) => CreateIntent(s, id, kind, order, deadline, row)
    case Outbox(p, a) => DoOutbox(s, p, a)
    case Schedule(p, a) => DoSched(s, p, a)
    case Engine(p, a) => DoEngine(s, p, a)
    case Validate(p, a) => DoValidator(s, p, a)
    case Wallet(w) => s.(wallet := W.Do(s.wallet, w))
  }

  /** A run: states and the steps between them. */
  datatype Run = Run(states: seq<State>, steps: seq<Step>)

  ghost predicate IsRun(b: B.Books, r: Run) {
    && |r.states| == |r.steps| + 1
    && r.states[0] == Start(b)
    && forall i :: 0 <= i < |r.steps| ==>
         Enabled(r.states[i], r.steps[i]) && r.states[i + 1] == Do(r.states[i], r.steps[i])
  }
}
