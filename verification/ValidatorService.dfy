/** The validator's subscription: one execution event from delivery to its acknowledgement. */
module ValidatorService {
  import B = WalletBooks
  import opened Protocol
  import opened ServiceRuns
  import S = ProtocolStatus
  import opened LedgerFormat
  import opened LedgerFile
  import L = LedgerEngine
  import C = LedgerCrash

  /** A validator process that has just received its message. */
  predicate Received(s: State, p: Pid) {
    p in s.validators && s.validators[p].pc.AtCheck? && s.validators[p].msg < |s.executed|
  }

  datatype AuditFaults = AuditFaults(readFails: bool, append: Write)

  predicate Auditable(s: State, id: Id) {
    id in s.intents && s.intents[id].status.Terminal()
  }

  function MaybeEntry(s: State, id: Id, append: bool): State
    requires append ==> id in s.intents
  {
    if append then s.(ledger := s.ledger + [Entry(id, s.intents[id].kind, s.intents[id].status)]) else s
  }

  predicate Appends(s: State, id: Id, f: AuditFaults) {
    !f.readFails && Auditable(s, id) && !f.append.NotWritten?
  }

  predicate Accepts(s: State, id: Id, f: AuditFaults) {
    !f.readFails && Auditable(s, id) && f.append.Written?
  }

  /** The process is gone, with its message acknowledged or not. */
  function Finish(s: State, p: Pid, acked: bool): State
    requires p in s.validators && s.validators[p].msg < |s.executed|
  {
    var msg := s.validators[p].msg;
    var t := s.(validators := s.validators - {p});
    if acked then t.(executed := s.executed[msg := s.executed[msg].(acked := true)]) else t
  }

  function Validated(s: State, p: Pid, f: AuditFaults): State
    requires Received(s, p)
  {
    var id := Audited(s, p);
    Finish(MaybeEntry(s, id, Appends(s, id, f)), p, Accepts(s, id, f))
  }

  // ---------- the handler is a run ----------

  lemma GotoThenFinish(s: State, p: Pid, pc: ValidatorPc, acked: bool)
    requires p in s.validators && s.validators[p].msg < |s.executed|
    ensures Finish(ValidatorGoto(s, p, pc), p, acked) == Finish(s, p, acked)
  {
    assert s.validators[p := s.validators[p].(pc := pc)] - {p} == s.validators - {p};
  }

  lemma FromEnd(s: State, p: Pid, acked: bool) returns (steps: seq<Step>)
    requires p in s.validators && s.validators[p].msg < |s.executed| && s.validators[p].pc.AtEnd?
    ensures Leads(s, steps, Finish(s, p, acked)) && Lossless(steps)
  {
    var step := Validate(p, if acked then VAck else VCrash);
    assert Enabled(s, step) && S.Guarded(s, step) && Do(s, step) == Finish(s, p, acked);
    hide Enabled, S.Guarded, Do, Finish;
    LeadsBy(s, step, [], Finish(s, p, acked));
    steps := [step] + [];
  }

  lemma FromCrash(s: State, p: Pid) returns (steps: seq<Step>)
    requires p in s.validators && s.validators[p].msg < |s.executed|
    ensures Leads(s, steps, Finish(s, p, false)) && Lossless(steps)
  {
    var step := Validate(p, VCrash);
    assert Enabled(s, step) && S.Guarded(s, step) && Do(s, step) == Finish(s, p, false);
    hide Enabled, S.Guarded, Do, Finish;
    LeadsBy(s, step, [], Finish(s, p, false));
    steps := [step] + [];
  }

  lemma FromAppend(s: State, p: Pid, acked: bool) returns (steps: seq<Step>)
    requires p in s.validators && s.validators[p].msg < |s.executed|
    requires var id := Audited(s, p);
      id in s.intents && s.validators[p].pc == AtAppend(s.intents[id].kind, s.intents[id].status)
    ensures Leads(s, steps, Finish(MaybeEntry(s, Audited(s, p), true), p, acked)) && Lossless(steps)
  {
    var step, t := Validate(p, VAppend), MaybeEntry(s, Audited(s, p), true);
    assert Enabled(s, step) && S.Guarded(s, step) && Do(s, step) == ValidatorGoto(t, p, AtEnd);
    var rest := FromEnd(ValidatorGoto(t, p, AtEnd), p, acked);
    GotoThenFinish(t, p, AtEnd, acked);
    hide Enabled, S.Guarded, Do, Finish;
    LeadsBy(s, step, rest, Finish(t, p, acked));
    steps := [step] + rest;
  }

  /** The handler and its acknowledgement are a run of the machine. */
  lemma HandlingIsARun(s: State, p: Pid, f: AuditFaults) returns (steps: seq<Step>)
    requires Received(s, p)
    ensures Leads(s, steps, Validated(s, p, f)) && Lossless(steps)
  {
    var id := Audited(s, p);
    if f.readFails {
      steps := FromCrash(s, p);
    } else {
      var step, pc := Validate(p, VCheck), Check(s, id);
      var t := ValidatorGoto(s, p, pc);
      assert Enabled(s, step) && S.Guarded(s, step) && Do(s, step) == t;
      var rest;
      if Appends(s, id, f) {
        rest := FromAppend(t, p, f.append.Written?);
        assert MaybeEntry(t, id, true) == ValidatorGoto(MaybeEntry(s, id, true), p, pc);
      } else {
        rest := FromCrash(t, p);
      }
      GotoThenFinish(MaybeEntry(s, id, Appends(s, id, f)), p, pc, Accepts(s, id, f));
      hide Enabled, S.Guarded, Do, Finish, Check, ValidatorGoto;
      LeadsBy(s, step, rest, Validated(s, p, f));
      steps := [step] + rest;
    }
  }

  // ---------- the ledger's file ----------

  function KindName(k: Kind): (name: string)
    ensures IsKind(name)
  {
    match k
    case TRANSFER => "INTENT_TYPE_TRANSFER"
    case COMPUTE => "INTENT_TYPE_COMPUTE"
    case QUERY => "INTENT_TYPE_QUERY"
    case RECURRING => "INTENT_TYPE_SCHEDULED"
  }

  function StatusName(s: Status): (name: string)
    ensures s.Terminal() ==> IsFinalStatus(name)
  {
    match s
    case PENDING => "INTENT_STATUS_PENDING"
    case SCHEDULED => "INTENT_STATUS_SCHEDULED"
    case EXECUTING => "INTENT_STATUS_EXECUTING"
    case COMPLETED => "INTENT_STATUS_COMPLETED"
    case FAILED => "INTENT_STATUS_FAILED"
  }

  /** A block shows its intent's type and final status, by the names that the database has for them. */
  predicate Shows(b: Block, id: Id, row: Row) {
    && b.intentId == id
    && (row.status == COMPLETED || row.status == FAILED)
    && (b.status == "INTENT_STATUS_COMPLETED" <==> row.status == COMPLETED)
    && (b.status == "INTENT_STATUS_FAILED" <==> row.status == FAILED)
    && (b.kind == "INTENT_TYPE_TRANSFER" <==> row.kind == TRANSFER)
    && (b.kind == "INTENT_TYPE_COMPUTE" <==> row.kind == COMPUTE)
    && (b.kind == "INTENT_TYPE_QUERY" <==> row.kind == QUERY)
    && (b.kind == "INTENT_TYPE_SCHEDULED" <==> row.kind == RECURRING)
  }

  lemma NamesShow(b: Block, id: Id, row: Row)
    requires row.status.Terminal() && b.intentId == id
    requires b.kind == KindName(row.kind) && b.status == StatusName(row.status)
    ensures Shows(b, id, row)
  {
  }

  /** A block says what an entry says. */
  predicate Tells(b: Block, e: Entry) {
    b.intentId == e.intent && b.kind == KindName(e.kind) && b.status == StatusName(e.status)
  }

  /** The file is accepted, and its blocks are the ledger's entries, one for one. */
  ghost predicate Mirrors(h: string -> string, parse: L.Reader, content: string, ledger: seq<Entry>) {
    L.Ready(h, parse, content) && TellAll(Blocks(parse, Records(content)), ledger)
  }

  predicate TellAll(blocks: seq<Block>, ledger: seq<Entry>) {
    |blocks| == |ledger| && forall i :: 0 <= i < |ledger| ==> Tells(blocks[i], ledger[i])
  }

  lemma TellNext(blocks: seq<Block>, ledger: seq<Entry>, b: Block, e: Entry)
    requires TellAll(blocks, ledger) && Tells(b, e)
    ensures TellAll(blocks + [b], ledger + [e])
  {
    hide Tells;
  }

  lemma SaysTells(b: Block, row: Row, id: Id, now: string)
    requires L.Says(b, EventOf(row, id, now))
    ensures Tells(b, Entry(id, row.kind, row.status))
  {
    hide KindName, StatusName;
  }

  function EventOf(row: Row, id: Id, now: string): L.Event {
    L.Event(id, KindName(row.kind), StatusName(row.status), now)
  }

  lemma EventOfIsOk(row: Row, id: Id, now: string)
    requires row.status.Terminal() && IsUuid(id) && IsTimestamp(now)
    ensures L.EventOk(EventOf(row, id, now))
  {
    hide IsUuid, IsTimestamp, IsKind, IsFinalStatus;
  }

  /** A complete append keeps file and ledger alike. */
  lemma MirrorsAppend(h: string -> string, parse: L.Reader, content: string, ledger: seq<Entry>, row: Row, id: Id,
        now: string)
    requires L.HexHash(h) && JsonLaws(parse) && Mirrors(h, parse, content, ledger)
    requires row.status.Terminal() && IsUuid(id) && IsTimestamp(now)
    ensures Mirrors(h, parse, content + L.Line(L.BlockFor(h, parse, content, EventOf(row, id, now))),
      ledger + [Entry(id, row.kind, row.status)])
  {
    EventOfIsOk(row, id, now);
    MirrorsReady(h, parse, content, ledger);
    var e := EventOf(row, id, now);
    var b := L.BlockFor(h, parse, content, e);
    hide *;
    L.AppendOne(h, parse, content, e);
    SaysTells(b, row, id, now);
    L.ReadyParses(h, parse, content);
    L.ReadyParses(h, parse, content + L.Line(b));
    MirrorsTell(h, parse, content, ledger);
    TellNext(Blocks(parse, Records(content)), ledger, b, Entry(id, row.kind, row.status));
    MirrorsBy(h, parse, content + L.Line(b), ledger + [Entry(id, row.kind, row.status)]);
  }

  lemma MirrorsTell(h: string -> string, parse: L.Reader, content: string, ledger: seq<Entry>)
    requires Mirrors(h, parse, content, ledger) && AllParse(parse, Records(content))
    ensures TellAll(Blocks(parse, Records(content)), ledger)
  {
    hide L.Ready, Records, TellAll;
  }

  lemma MirrorsBy(h: string -> string, parse: L.Reader, content: string, ledger: seq<Entry>)
    requires AllParse(parse, Records(content)) && L.Ready(h, parse, content) &&
      TellAll(Blocks(parse, Records(content)), ledger)
    ensures Mirrors(h, parse, content, ledger)
  {
    hide L.Ready, Records, TellAll;
  }

  /**
   The bytes agree with the database: every block of a file that mirrors the ledger
   carries the type and the final status that the row of its intent shows, now and in
   all later states of a guarded run.
   */
  lemma BytesAgree(b: B.Books, r: Run, i: nat, j: nat, k: nat, h: string -> string, parse: L.Reader, content: string)
    requires S.GuardedRun(b, r) && i <= j < |r.states| && Mirrors(h, parse, content, r.states[i].ledger)
    requires k < |Blocks(parse, Records(content))|
    ensures var x, rows := Blocks(parse, Records(content))[k], r.states[j].intents;
      x.intentId in rows && Shows(x, x.intentId, rows[x.intentId])
  {
    L.ReadyParses(h, parse, content);
    hide S.GuardedRun, L.Ready, Records, KindName, StatusName, Shows;
    var x := Blocks(parse, Records(content))[k];
    assert Tells(x, r.states[i].ledger[k]);
    S.LedgerAgrees(b, r, i, j, k);
    NamesShow(x, x.intentId, r.states[j].intents[x.intentId]);
  }

  // ---------- the program ----------

  /** What the database shows when the event is audited, what is appended, and how far the append gets. */
  ghost predicate Audit(s: State, id: Id, now: string, written: nat, synced: bool, f: AuditFaults, h: string -> string,
        parse: L.Reader, before: string, after: string) {
    if !f.readFails && Auditable(s, id) then
      var line := L.Line(L.BlockFor(h, parse, before, EventOf(s.intents[id], id, now)));
      && after == before + line[..if written < |line| then written else |line|]
      && f.append == if written < |line| then NotWritten else if synced then Written else WrittenUnseen
    else after == before
  }

  /** The fields that an append takes from outside are well-formed. */
  predicate GoodFields(id: Id, now: string) {
    IsUuid(id) && IsTimestamp(now)
  }

  /** An append that breaks off leaves no line end. */
  lemma BrokenIsUnterminated(b: Block, before: string, n: nat)
    requires WellFormed(b) && 0 < n < |L.Line(b)|
    ensures !Terminated(before + L.Line(b)[..n])
  {
    C.MarshalIsOneLine(b);
    hide WellFormed, Marshal;
    PieceEnds(before, Marshal(b), n);
  }

  lemma PieceEnds(before: string, text: string, n: nat)
    requires 0 < n < |text + "\n"|
    ensures var t := before + (text + "\n")[..n]; t != "" && t[|t| - 1] == text[n - 1]
  {
  }

  /** A break in an append would show at the end of the file. */
  lemma BreakShows(row: Row, id: Id, now: string, written: nat, h: string -> string, parse: L.Reader, before: string)
    requires row.status.Terminal() && GoodFields(id, now) && L.HexHash(h) && L.Ready(h, parse, before)
    requires 0 < written < |L.Line(L.BlockFor(h, parse, before, EventOf(row, id, now)))|
    ensures !Terminated(before + L.Line(L.BlockFor(h, parse, before, EventOf(row, id, now)))[..written])
  {
    EventOfIsOk(row, id, now);
    hide L.HexHash, L.Ready, L.BlockFor, L.EventOk, EventOf, L.Line, WellFormed, Terminated, L.Continues, L.Says,
      Records;
    L.BlockContinues(h, parse, before, EventOf(row, id, now));
    BrokenIsUnterminated(L.BlockFor(h, parse, before, EventOf(row, id, now)), before, written);
  }

  lemma MirrorsReady(h: string -> string, parse: L.Reader, content: string, ledger: seq<Entry>)
    requires Mirrors(h, parse, content, ledger)
    ensures L.Ready(h, parse, content)
  {
  }

  /** As long as the file ends with a line end, an audit keeps file and ledger alike. */
  lemma AuditMirrors(s: State, id: Id, now: string, written: nat, synced: bool, f: AuditFaults, h: string -> string,
        parse: L.Reader, before: string, after: string)
    requires Audit(s, id, now, written, synced, f, h, parse, before, after) && GoodFields(id, now) && Terminated(after)
    requires L.HexHash(h) && JsonLaws(parse) && Mirrors(h, parse, before, s.ledger)
    ensures Mirrors(h, parse, after, MaybeEntry(s, id, Appends(s, id, f)).ledger)
  {
    MirrorsReady(h, parse, before, s.ledger);
    hide Mirrors, L.Line, L.BlockFor, EventOf, L.HexHash, JsonLaws, IsUuid, IsTimestamp, Terminated, L.Ready;
    if !f.readFails && Auditable(s, id) {
      var row := s.intents[id];
      var line := L.Line(L.BlockFor(h, parse, before, EventOf(row, id, now)));
      assert line[..|line|] == line;
      if written >= |line| {
        GoodIsGood(id, now);
        MirrorsAppend(h, parse, before, s.ledger, row, id, now);
      } else if written > 0 {
        BreakShows(row, id, now, written, h, parse, before);
      } else {
        assert after == before;
      }
    }
  }

  lemma GoodIsGood(id: Id, now: string)
    requires GoodFields(id, now)
    ensures IsUuid(id) && IsTimestamp(now)
  {
  }

  /** Nothing is audited: the file stays, and the message is not accepted. */
  lemma Unreached(
      s: State, id: Id, now: string, written: nat, synced: bool, f: AuditFaults,
      h: string -> string, parse: L.Reader, content: string)
    requires f.readFails || !Auditable(s, id)
    ensures Audit(s, id, now, written, synced, f, h, parse, content, content)
    ensures !Appends(s, id, f) && !Accepts(s, id, f)
  {
  }

  /** An append that was reached, by how far it got. */
  lemma ReachedAudit(
      s: State, id: Id, now: string, written: nat, synced: bool, f: AuditFaults,
      h: string -> string, parse: L.Reader, before: string, after: string)
    requires !f.readFails && Auditable(s, id)
    requires var line := L.Line(L.BlockFor(h, parse, before, EventOf(s.intents[id], id, now)));
      && after == before + line[..if written < |line| then written else |line|]
      && f.append == if written < |line| then NotWritten else if synced then Written else WrittenUnseen
    ensures Audit(s, id, now, written, synced, f, h, parse, before, after)
    ensures Appends(s, id, f) <==> !f.append.NotWritten?
    ensures Accepts(s, id, f) <==> f.append.Written?
  {
    hide L.Line, L.BlockFor, EventOf;
  }

  lemma EventShows(h: string -> string, parse: L.Reader, before: string, row: Row, id: Id, now: string)
    requires row.status.Terminal()
    ensures var b := L.BlockFor(h, parse, before, EventOf(row, id, now));
      Shows(b, id, row) && b.timestamp == now && before + L.Line(b) == before + Marshal(b) + "\n"
  {
    hide KindName, StatusName, Preimage, Marshal, LastParsed, Records, Shows;
    var b := L.BlockFor(h, parse, before, EventOf(row, id, now));
    NamesShow(b, id, row);
  }

  class Validator {
    var s: State  // tables, queues and what has been appended to the ledger
    const engine: L.Engine

    constructor (s: State, engine: L.Engine)
      ensures this.s == s && this.engine == engine
    {
      this.s, this.engine := s, engine;
    }

    /**
     The status is read again: the event's own copy is not trusted.  `now` is the append's
     clock, `written` and `synced` how far it gets.
     */
    method HandleExecutedIntent(id: Id, readFails: bool, now: string, written: nat, synced: bool)
        returns (err: bool, ghost f: AuditFaults)
      modifies this, engine
      ensures f.readFails == readFails
      ensures s == MaybeEntry(old(s), id, Appends(old(s), id, f)) && (err <==> !Accepts(old(s), id, f))
      ensures Audit(old(s), id, now, written, synced, f, engine.hash, engine.parse, old(engine.Content()),
        engine.Content())
      // what is not there or not final is refused, and nothing is written
      ensures readFails || id !in old(s).intents ||
        (old(s).intents[id].status != COMPLETED && old(s).intents[id].status != FAILED)
        ==> err && s == old(s) && engine.Content() == old(engine.Content())
      // without an error the file has one more line, which shows the row
      ensures !err ==>
        && id in old(s).intents
        && exists b :: Shows(b, id, old(s).intents[id]) && b.timestamp == now
             && engine.Content() == old(engine.Content()) + Marshal(b) + "\n"
    {
      f := AuditFaults(readFails, NotWritten);
      hide Audit, Appends, Accepts, L.Line, L.BlockFor, KindName, StatusName, Shows, Marshal;
      if readFails || id !in s.intents {
        Unreached(s, id, now, written, synced, f, engine.hash, engine.parse, engine.Content());
        return true, f;
      }
      var dbStatus, dbType := s.intents[id].status, s.intents[id].kind;
      if dbStatus != COMPLETED && dbStatus != FAILED {
        Unreached(s, id, now, written, synced, f, engine.hash, engine.parse, engine.Content());
        return true, f;
      }
      ghost var before := engine.Content();
      var line := L.Line(L.BlockFor(engine.hash, engine.parse, engine.Content(), EventOf(s.intents[id], id, now)));
      var block := engine.Append(id, KindName(dbType), StatusName(dbStatus), now, written, synced);
      f := AuditFaults(readFails, if written < |line| then NotWritten else if synced then Written else WrittenUnseen);
      ReachedAudit(s, id, now, written, synced, f, engine.hash, engine.parse, before, engine.Content());
      if written >= |line| {  // the record is in the file, whatever the program is told
        s := s.(ledger := s.ledger + [Entry(id, dbType, dbStatus)]);
      }
      err := block.None?;
      if !err {
        EventShows(engine.hash, engine.parse, before, s.intents[id], id, now);
        assert line[..|line|] == line;
      }
    }

    /** The subscription: acknowledge what was audited, leave the rest for redelivery. */
    method OnExecuted(p: Pid, readFails: bool, now: string, written: nat, synced: bool)
        returns (ghost f: AuditFaults, ghost steps: seq<Step>)
      requires Received(s, p)
      modifies this, engine
      ensures f.readFails == readFails && s == Validated(old(s), p, f)
      ensures Leads(old(s), steps, s) && Lossless(steps)
      ensures Audit(old(s), Audited(old(s), p), now, written, synced, f, engine.hash, engine.parse,
        old(engine.Content()), engine.Content())
      // the message is acknowledged, or left as it was for redelivery
      ensures var before := old(s);
        var msg := before.validators[p].msg;
        var id := before.executed[msg].intent;
        var appended := !readFails && id in before.intents && f.append.Written? &&
          (before.intents[id].status == COMPLETED || before.intents[id].status == FAILED);
        && s.validators == before.validators - {p}
        && s.executed ==
             if appended then before.executed[msg := before.executed[msg].(acked := true)] else before.executed
    {
      ghost var before := s;
      var msg := s.validators[p].msg;
      hide Audit, Leads, Lossless;
      var err;
      err, f := HandleExecutedIntent(s.executed[msg].intent, readFails, now, written, synced);
      steps := HandlingIsARun(before, p, f);
      s := s.(validators := s.validators - {p});
      if !err {
        s := s.(executed := s.executed[msg := s.executed[msg].(acked := true)]);
      }
    }
  }
}
