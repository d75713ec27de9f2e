/**
 The outbox worker's poll over the shared tables.  The poll is the program of OutboxDrain
 on the outbox table; here it is shown to be a run of the machine, event by event, and the
 commit of a claim in OutboxLease to be the machine's claims.
 */
module OutboxService {
  import opened Prelude
  import opened Protocol
  import opened ServiceRuns
  import S = ProtocolStatus
  import K = ProtocolWork
  import O = Outbox
  import D = OutboxDrain
  import Lease = OutboxLease

  // ---------- the outbox table, with and without its times ----------

  function Timeless(status: O.Status): OutboxStatus {
    match status
    case PENDING => OUTBOX_PENDING
    case PROCESSING => OUTBOX_PROCESSING
    case FAILED => OUTBOX_FAILED
  }

  function StatusOf(status: OutboxStatus): (r: O.Status)
    ensures Timeless(r) == status
  {
    match status
    case OUTBOX_PENDING => O.PENDING
    case OUTBOX_PROCESSING => O.PROCESSING
    case OUTBOX_FAILED => O.FAILED
  }

  /** The table with the times of its rows. */
  function Timed(outbox: map<RowId, OutboxRow>, created: RowId -> int, updated: RowId -> int): map<string, O.Row> {
    map id | id in outbox :: O.Row(StatusOf(outbox[id].status), outbox[id].retries, created(id), updated(id))
  }

  /** The table after its timed rows have become these. */
  function Untimed(outbox: map<RowId, OutboxRow>, rows: map<string, O.Row>): map<RowId, OutboxRow> {
    map id | id in outbox && id in rows :: OutboxRow(outbox[id].intent, Timeless(rows[id].status), rows[id].retry)
  }

  // ---------- what a poll does ----------

  /**
   What happens to one poll: the broker's answers and which messages it keeps although it
   reports an error, which writes take effect, and the clock.
   */
  datatype PollFaults = PollFaults(
    ok: D.Broker,
    keeps: RowId -> bool,
    claim: D.Claim,
    written: RowId -> bool,
    now: int,
    clock: RowId -> int)

  predicate Sends(s: State, id: RowId, f: PollFaults)
    requires id in s.outbox
  {
    f.claim.Committed? && (f.ok(id, s.outbox[id].retries) || f.keeps(id))
  }

  /** The messages that reach the broker, in the order of the poll. */
  function Messages(s: State, ids: seq<RowId>, f: PollFaults): seq<Submission>
    requires forall i :: 0 <= i < |ids| ==> ids[i] in s.outbox
  {
    if ids == [] then []
    else
      (if Sends(s, ids[0], f) then [Submission(s.outbox[ids[0]].intent, false)] else []) + Messages(s, ids[1..], f)
  }

  /** The outbox table after the poll, for any times of its rows. */
  function TableAfter(s: State, created: RowId -> int, updated: RowId -> int, ids: seq<RowId>, f: PollFaults)
      : map<RowId, OutboxRow> {
    var rows := Timed(s.outbox, created, updated);
    Untimed(s.outbox, D.Polled(rows, ids, f.ok, MAX_RETRIES, f.now, f.clock, f.claim, f.written))
  }

  function Polled(s: State, ids: seq<RowId>, f: PollFaults): State
    requires forall i :: 0 <= i < |ids| ==> ids[i] in s.outbox
  {
    s.(outbox := TableAfter(s, _ => 0, _ => 0, ids, f), submitted := s.submitted + Messages(s, ids, f))
  }

  // ---------- one event ----------

  /** What a poll leaves of one selected row. */
  function RowAfter(row: OutboxRow, id: RowId, f: PollFaults): Option<OutboxRow> {
    var busy := row.(status := OUTBOX_PROCESSING);
    match f.claim
    case RolledBack => Some(row)
    case CommittedUnseen => Some(busy)
    case Committed =>
      if !f.written(id) then Some(busy)
      else if f.ok(id, row.retries) then None
      else Some(OutboxRow(row.intent, if row.retries >= MAX_RETRIES then OUTBOX_FAILED
        else OUTBOX_PENDING, row.retries + 1))
  }

  function Put(outbox: map<RowId, OutboxRow>, id: RowId, row: Option<OutboxRow>): map<RowId, OutboxRow> {
    if row.Some? then outbox[id := row.value] else outbox - {id}
  }

  function EventDone(s: State, id: RowId, f: PollFaults): State
    requires id in s.outbox
  {
    s.(outbox := Put(s.outbox, id, RowAfter(s.outbox[id], id, f)),
       submitted := s.submitted + if Sends(s, id, f) then [Submission(s.outbox[id].intent, false)] else [])
  }

  predicate Claimable(s: State, ids: seq<RowId>) {
    O.Distinct(ids) && forall i :: 0 <= i < |ids| ==> ids[i] in s.outbox && !s.outbox[ids[i]].status.OUTBOX_FAILED?
  }

  lemma StillClaimable(s: State, ids: seq<RowId>, f: PollFaults)
    requires Claimable(s, ids) && ids != []
    ensures Claimable(EventDone(s, ids[0], f), ids[1..])
    ensures forall i :: 0 <= i < |ids[1..]| ==> EventDone(s, ids[0], f).outbox[ids[1..][i]] == s.outbox[ids[1..][i]]
  {
    hide Sends, RowAfter;
    assert forall i :: 0 <= i < |ids[1..]| ==> ids[1..][i] == ids[i + 1] != ids[0];
  }

  function EventsDone(s: State, ids: seq<RowId>, f: PollFaults): State
    requires Claimable(s, ids)
    decreases |ids|
  {
    if ids == [] then s
    else
      StillClaimable(s, ids, f);
      EventsDone(EventDone(s, ids[0], f), ids[1..], f)
  }

  // ---------- the poll, event by event ----------

  lemma {:induction false} MessagesStay(s: State, t: State, ids: seq<RowId>, f: PollFaults)
    requires forall i :: 0 <= i < |ids| ==>
      ids[i] in s.outbox && ids[i] in t.outbox && t.outbox[ids[i]] == s.outbox[ids[i]]
    ensures Messages(t, ids, f) == Messages(s, ids, f)
  {
    if ids != [] {
      MessagesStay(s, t, ids[1..], f);
    }
  }

  /** The rows and messages after all events. */
  lemma {:induction false} EventsAt(s: State, ids: seq<RowId>, f: PollFaults, id: RowId)
    requires Claimable(s, ids)
    ensures var t := EventsDone(s, ids, f);
      var row := if id !in s.outbox then None else if id in ids then RowAfter(s.outbox[id], id, f)
        else Some(s.outbox[id]);
      (id in t.outbox <==> row.Some?) && (row.Some? ==> t.outbox[id] == row.value)
    decreases |ids|
  {
    if ids != [] {
      var first, t := ids[0], EventDone(s, ids[0], f);
      StillClaimable(s, ids, f);
      EventsAt(t, ids[1..], f, id);
      assert id in ids <==> id == first || id in ids[1..];
      assert first !in ids[1..];
      hide RowAfter, Sends;
    }
  }

  /** The fields that a poll leaves alone, and what it adds to the messages. */
  lemma {:induction false} EventsElse(s: State, ids: seq<RowId>, f: PollFaults)
    requires Claimable(s, ids)
    ensures EventsDone(s, ids, f) ==
      s.(outbox := EventsDone(s, ids, f).outbox, submitted := s.submitted + Messages(s, ids, f))
    decreases |ids|
  {
    if ids != [] {
      var t := EventDone(s, ids[0], f);
      StillClaimable(s, ids, f);
      EventsElse(t, ids[1..], f);
      MessagesStay(s, t, ids[1..], f);
      hide RowAfter, Sends, Claimable, Put;
    }
  }

  /** What the table's program makes of one row, whatever the times. */
  lemma PolledAt(s: State, created: RowId -> int, updated: RowId -> int, ids: seq<RowId>, f: PollFaults, id: RowId)
    ensures var t := TableAfter(s, created, updated, ids, f);
      var row := if id !in s.outbox then None else if id in ids then RowAfter(s.outbox[id], id, f)
        else Some(s.outbox[id]);
      (id in t <==> row.Some?) && (row.Some? ==> t[id] == row.value)
  {
    assert ids[..|ids|] == ids;
  }

  /**
   One row after a poll: untouched when it was not selected or the claim was rolled back;
   marked when its outcome was not written; gone when it was published; and otherwise
   counted, and given up once it had failed five times before.
   */
  lemma PolledRow(s: State, ids: seq<RowId>, f: PollFaults, id: RowId)
    requires Claimable(s, ids) && id in s.outbox
    ensures var row, t := s.outbox[id], Polled(s, ids, f).outbox;
      if id !in ids || f.claim.RolledBack? then id in t && t[id] == row
      else if f.claim.CommittedUnseen? || !f.written(id) then
        id in t && t[id] == OutboxRow(row.intent, OUTBOX_PROCESSING, row.retries)
      else if f.ok(id, row.retries) then id !in t
      else
        && id in t
        && t[id] == OutboxRow(row.intent, if row.retries < 5 then OUTBOX_PENDING else OUTBOX_FAILED, row.retries + 1)
  {
    PolledAt(s, _ => 0, _ => 0, ids, f, id);
    hide TableAfter;
  }

  /** The messages are those of the events at these places of the batch, in its order. */
  ghost predicate SentFrom(s: State, ids: seq<RowId>, at: seq<nat>, messages: seq<Submission>) {
    && |messages| == |at|
    && (forall i :: 0 <= i < |at| ==>
          at[i] < |ids| && ids[at[i]] in s.outbox &&
          messages[i] == Submission(s.outbox[ids[at[i]]].intent, false))
    && forall i, j :: 0 <= i < j < |at| ==> at[i] < at[j]
  }

  /**
   The messages of a poll, in its order: one of each event whose publication the broker
   accepted, or stored although it reported an error, if the claim was committed; none of
   any other.
   */
  lemma {:induction false} MessagesAre(s: State, ids: seq<RowId>, f: PollFaults) returns (at: seq<nat>)
    requires forall i :: 0 <= i < |ids| ==> ids[i] in s.outbox
    ensures SentFrom(s, ids, at, Messages(s, ids, f))
    ensures forall k :: 0 <= k < |ids| ==>
      (k in at <==> f.claim.Committed? && (f.ok(ids[k], s.outbox[ids[k]].retries) || f.keeps(ids[k])))
  {
    at := [];
    if ids != [] {
      var rest := MessagesAre(s, ids[1..], f);
      var head := Sends(s, ids[0], f);
      at := Behind(head, rest);
      SentBehind(s, ids, head, rest, Messages(s, ids[1..], f));
      hide SentFrom, Behind;
      forall k | 0 <= k < |ids|
        ensures k in at <==> f.claim.Committed? && (f.ok(ids[k], s.outbox[ids[k]].retries) || f.keeps(ids[k])) {
        InBehind(head, rest, k);
        assert k > 0 ==> ids[1..][k - 1] == ids[k];
      }
    }
  }

  /** A poll adds these messages, no row, and changes nothing but the outbox. */
  lemma PolledMessages(s: State, ids: seq<RowId>, f: PollFaults) returns (at: seq<nat>)
    requires Claimable(s, ids)
    ensures var t := Polled(s, ids, f);
      && t == s.(outbox := t.outbox, submitted := t.submitted) && t.outbox.Keys <= s.outbox.Keys
      && s.submitted <= t.submitted && SentFrom(s, ids, at, t.submitted[|s.submitted|..])
    ensures forall k :: 0 <= k < |ids| ==>
      (k in at <==> f.claim.Committed? && (f.ok(ids[k], s.outbox[ids[k]].retries) || f.keeps(ids[k])))
  {
    at := MessagesAre(s, ids, f);
    var t := Polled(s, ids, f);
    assert t.submitted[|s.submitted|..] == Messages(s, ids, f);
    hide SentFrom, Messages, Claimable;
  }

  lemma SentLater(s: State, ids: seq<RowId>, rest: seq<nat>, messages: seq<Submission>)
    requires ids != [] && SentFrom(s, ids[1..], rest, messages)
    ensures SentFrom(s, ids, Behind(false, rest), messages)
  {
    var at := Behind(false, rest);
    forall i | 0 <= i < |at|
      ensures at[i] < |ids| && ids[at[i]] in s.outbox && messages[i] == Submission(s.outbox[ids[at[i]]].intent, false)
    {
      assert at[i] == rest[i] + 1 && ids[1..][rest[i]] == ids[at[i]];
    }
  }

  lemma SentFirst(s: State, ids: seq<RowId>, later: seq<nat>, messages: seq<Submission>)
    requires ids != [] && ids[0] in s.outbox && SentFrom(s, ids, later, messages)
    requires forall i :: 0 <= i < |later| ==> later[i] > 0
    ensures SentFrom(s, ids, [0] + later, [Submission(s.outbox[ids[0]].intent, false)] + messages)
  {
    var at, all := [0] + later, [Submission(s.outbox[ids[0]].intent, false)] + messages;
    forall i | 0 <= i < |at|
      ensures at[i] < |ids| && ids[at[i]] in s.outbox && all[i] == Submission(s.outbox[ids[at[i]]].intent, false)
    {
      if i > 0 {
        assert at[i] == later[i - 1] && all[i] == messages[i - 1];
      }
    }
  }

  lemma SentBehind(s: State, ids: seq<RowId>, head: bool, rest: seq<nat>, messages: seq<Submission>)
    requires ids != [] && ids[0] in s.outbox && SentFrom(s, ids[1..], rest, messages)
    ensures SentFrom(s, ids, Behind(head, rest),
      (if head then [Submission(s.outbox[ids[0]].intent, false)] else []) + messages)
  {
    SentLater(s, ids, rest, messages);
    HeadFirst(rest);
    hide Behind, SentFrom;
    if head {
      SentFirst(s, ids, Behind(false, rest), messages);
    } else {
      assert [] + messages == messages;
    }
  }

  lemma HeadFirst(rest: seq<nat>)
    ensures var later := Behind(false, rest);
      Behind(true, rest) == [0] + later && forall i :: 0 <= i < |later| ==> later[i] > 0
  {
    var later := Behind(false, rest);
    assert forall i :: 0 <= i < |rest| ==> later[i] == rest[i] + 1;
  }

  /** Places in a list that has got one more element at its head. */
  function Behind(head: bool, rest: seq<nat>): (at: seq<nat>)
    ensures |at| == |rest| + (if head then 1 else 0) && (head ==> at[0] == 0)
    ensures forall i :: 0 <= i < |rest| ==> at[if head then i + 1 else i] == rest[i] + 1
  {
    (if head then [0] else []) + seq(|rest|, i requires 0 <= i < |rest| => rest[i] + 1)
  }

  lemma InBehind(head: bool, rest: seq<nat>, k: nat)
    ensures k in Behind(head, rest) <==> if k == 0 then head else k - 1 in rest
  {
    var at := Behind(head, rest);
    if k in at {
      var i :| 0 <= i < |at| && at[i] == k;
      assert k > 0 ==> rest[if head then i - 1 else i] == k - 1;
    }
    if k > 0 && k - 1 in rest {
      var i :| 0 <= i < |rest| && rest[i] == k - 1;
      assert at[if head then i + 1 else i] == k;
    }
  }

  /** The table's program does, all events together, what the events do one after another. */
  lemma PollIsEvents(s: State, ids: seq<RowId>, f: PollFaults)
    requires Claimable(s, ids)
    ensures Polled(s, ids, f) == EventsDone(s, ids, f)
  {
    EventsElse(s, ids, f);
    var a, b := Polled(s, ids, f).outbox, EventsDone(s, ids, f).outbox;
    assert Polled(s, ids, f) == s.(outbox := a, submitted := s.submitted + Messages(s, ids, f));
    assert a == TableAfter(s, _ => 0, _ => 0, ids, f);
    hide Polled, TableAfter, EventsDone, RowAfter, Messages, Claimable;
    forall id ensures (id in a <==> id in b) && (id in a ==> a[id] == b[id]) {
      EventsAt(s, ids, f, id);
      PolledAt(s, _ => 0, _ => 0, ids, f, id);
    }
    assert a == b;
  }

  // ---------- one event is a run ----------

  /** A step of the outbox is guarded and loses no re-publication. */
  lemma OutboxBy(s: State, p: Pid, a: OutboxAct, rest: seq<Step>, t: State)
    requires EnabledOutbox(s, p, a) && Leads(DoOutbox(s, p, a), rest, t) && Lossless(rest)
    ensures Leads(s, [Outbox(p, a)] + rest, t) && Lossless([Outbox(p, a)] + rest)
  {
    assert Enabled(s, Outbox(p, a)) && Do(s, Outbox(p, a)) == DoOutbox(s, p, a);
    assert S.Guarded(s, Outbox(p, a)) && K.Republished(Outbox(p, a));
    hide Enabled, Do, DoOutbox, EnabledOutbox, S.Guarded, K.Republished, Leads;
    LeadsBy(s, Outbox(p, a), rest, t);
  }

  lemma Nothing(t: State)
    ensures Leads(t, [], t) && Lossless([])
  {
  }

  /** A worker that stands at its event, the claim taken. */
  predicate AtEvent(s: State, p: Pid, id: RowId, row: OutboxRow, pc: OutboxPc) {
    && p in s.outboxes && s.outboxes[p] == OutboxProc(id, row.intent, row.retries, pc)
    && id in s.outbox && s.outbox[id] == row.(status := OUTBOX_PROCESSING)
  }

  /** The process is gone, and its row as it leaves it. */
  function Left(s: State, p: Pid, id: RowId, row: Option<OutboxRow>): State {
    s.(outbox := Put(s.outbox, id, row), outboxes := s.outboxes - {p})
  }

  lemma FromOutcome(s: State, p: Pid, id: RowId, row: OutboxRow, ok: bool, written: bool) returns (steps: seq<Step>)
    requires AtEvent(s, p, id, row, if ok then AtDelete else AtRequeue)
    ensures var end := if !written then Some(row.(status := OUTBOX_PROCESSING)) else if ok then None
        else Some(OutboxRow(row.intent, if row.retries >= MAX_RETRIES then OUTBOX_FAILED
          else OUTBOX_PENDING, row.retries + 1));
      Leads(s, steps, Left(s, p, id, end)) && Lossless(steps)
  {
    var a := if !written then OCrash else if ok then ODelete else ORequeue;
    var end := if !written then Some(row.(status := OUTBOX_PROCESSING)) else if ok then None
      else Some(OutboxRow(row.intent, if row.retries >= MAX_RETRIES then OUTBOX_FAILED
        else OUTBOX_PENDING, row.retries + 1));
    var t := Left(s, p, id, end);
    assert s.outbox[id := s.outbox[id]] == s.outbox;
    assert EnabledOutbox(s, p, a) && DoOutbox(s, p, a) == t;
    hide DoOutbox, EnabledOutbox, Left;
    Nothing(t);
    OutboxBy(s, p, a, [], t);
    steps := [Outbox(p, a)] + [];
  }

  lemma FromSend(s: State, p: Pid, id: RowId, row: OutboxRow, f: PollFaults) returns (steps: seq<Step>)
    requires AtEvent(s, p, id, row, AtSend) && f.claim.Committed?
    ensures var sent := f.ok(id, row.retries) || f.keeps(id);
      var t := s.(submitted := s.submitted + if sent then [Submission(row.intent, false)] else []);
      Leads(s, steps, Left(t, p, id, RowAfter(row, id, f))) && Lossless(steps)
  {
    var ok := f.ok(id, row.retries);
    var sent := ok || f.keeps(id);
    var a := OSend(sent, ok);
    var t := s.(submitted := s.submitted + if sent then [Submission(row.intent, false)] else []);
    var pc := if ok then AtDelete else AtRequeue;
    var u := t.(outboxes := s.outboxes[p := OutboxProc(id, row.intent, row.retries, pc)]);
    assert s.submitted + [] == s.submitted;
    assert EnabledOutbox(s, p, a) && DoOutbox(s, p, a) == u;
    var rest := FromOutcome(u, p, id, row, ok, f.written(id));
    assert u.outboxes - {p} == t.outboxes - {p};
    assert Left(u, p, id, RowAfter(row, id, f)) == Left(t, p, id, RowAfter(row, id, f));
    hide DoOutbox, EnabledOutbox, Left;
    OutboxBy(s, p, a, rest, Left(t, p, id, RowAfter(row, id, f)));
    steps := [Outbox(p, a)] + rest;
  }

  lemma EventIsARun(s: State, p: Pid, id: RowId, f: PollFaults) returns (steps: seq<Step>)
    requires p !in s.outboxes && id in s.outbox && !s.outbox[id].status.OUTBOX_FAILED?
    ensures Leads(s, steps, EventDone(s, id, f)) && Lossless(steps)
  {
    var row, end := s.outbox[id], EventDone(s, id, f);
    if f.claim.RolledBack? {
      assert end == s;
      steps := [];
      Nothing(s);
    } else {
      var u := DoOutbox(s, p, OClaim(id));
      assert AtEvent(u, p, id, row, AtSend);
      assert u.outboxes - {p} == s.outboxes;
      var rest;
      if f.claim.CommittedUnseen? {
        assert s.submitted + [] == s.submitted;
        assert EnabledOutbox(u, p, OCrash) && DoOutbox(u, p, OCrash) == end;
        Nothing(end);
        hide DoOutbox, EnabledOutbox;
        OutboxBy(u, p, OCrash, [], end);
        rest := [Outbox(p, OCrash)] + [];
      } else {
        rest := FromSend(u, p, id, row, f);
        CommittedEnd(s, p, id, f);
      }
      ClaimEnabled(s, p, id);
      hide DoOutbox, EnabledOutbox;
      OutboxBy(s, p, OClaim(id), rest, end);
      steps := [Outbox(p, OClaim(id))] + rest;
    }
  }

  lemma ClaimEnabled(s: State, p: Pid, id: RowId)
    requires p !in s.outboxes && id in s.outbox && !s.outbox[id].status.OUTBOX_FAILED?
    ensures EnabledOutbox(s, p, OClaim(id))
  {
  }

  lemma CommittedEnd(s: State, p: Pid, id: RowId, f: PollFaults)
    requires p !in s.outboxes && id in s.outbox && !s.outbox[id].status.OUTBOX_FAILED? && f.claim.Committed?
    ensures var u, row := DoOutbox(s, p, OClaim(id)), s.outbox[id];
      var sent := f.ok(id, row.retries) || f.keeps(id);
      var t := u.(submitted := u.submitted + if sent then [Submission(row.intent, false)] else []);
      Left(t, p, id, RowAfter(row, id, f)) == EventDone(s, id, f)
  {
    var u, row := DoOutbox(s, p, OClaim(id)), s.outbox[id];
    assert u.outboxes - {p} == s.outboxes;
    assert Put(u.outbox, id, RowAfter(row, id, f)) == Put(s.outbox, id, RowAfter(row, id, f));
    hide RowAfter, Put;
  }

  /** A poll is a run of the machine: claim, send, and delete, requeue or leave, for each event. */
  lemma {:induction false} EventsAreARun(s: State, p: Pid, ids: seq<RowId>, f: PollFaults) returns (steps: seq<Step>)
    requires p !in s.outboxes && Claimable(s, ids)
    ensures Leads(s, steps, EventsDone(s, ids, f)) && Lossless(steps)
    decreases |ids|
  {
    if ids == [] {
      steps := [];
      Nothing(s);
    } else {
      var t := EventDone(s, ids[0], f);
      assert t.outboxes == s.outboxes;
      StillClaimable(s, ids, f);
      hide Leads, Lossless, EventDone;
      var first := EventIsARun(s, p, ids[0], f);
      var rest := EventsAreARun(t, p, ids[1..], f);
      LeadsThen(s, first, t, rest, EventsDone(t, ids[1..], f));
      steps := first + rest;
    }
  }

  lemma PollIsARun(s: State, p: Pid, ids: seq<RowId>, f: PollFaults) returns (steps: seq<Step>)
    requires p !in s.outboxes && Claimable(s, ids)
    ensures Leads(s, steps, Polled(s, ids, f)) && Lossless(steps)
  {
    hide *;
    PollIsEvents(s, ids, f);
    steps := EventsAreARun(s, p, ids, f);
  }

  // ---------- the claims of leased events ----------

  /** The timed table shows what the machine's table shows. */
  ghost predicate Shows(rows: map<string, O.Row>, outbox: map<RowId, OutboxRow>) {
    rows.Keys == outbox.Keys &&
    forall id :: id in rows ==> Timeless(rows[id].status) == outbox[id].status && rows[id].retry == outbox[id].retries
  }

  /** Claims of these rows, one process each. */
  function Claims(s: State, ids: seq<RowId>, base: Pid): State
    requires forall i :: 0 <= i < |ids| ==> ids[i] in s.outbox
    decreases |ids|
  {
    if ids == [] then s else Claims(Taken(s, ids[0], base), ids[1..], base + 1)
  }

  function Taken(s: State, id: RowId, p: Pid): State
    requires id in s.outbox
  {
    s.(outbox := s.outbox[id := s.outbox[id].(status := OUTBOX_PROCESSING)],
       outboxes := s.outboxes[p := OutboxProc(id, s.outbox[id].intent, s.outbox[id].retries, AtSend)])
  }

  lemma {:induction false} ClaimsAreARun(s: State, ids: seq<RowId>, base: Pid) returns (steps: seq<Step>)
    requires forall i :: 0 <= i < |ids| ==> ids[i] in s.outbox && !s.outbox[ids[i]].status.OUTBOX_FAILED?
    requires forall p :: p in s.outboxes ==> p < base
    ensures Leads(s, steps, Claims(s, ids, base)) && Lossless(steps)
    decreases |ids|
  {
    steps := [];
    Nothing(s);
    if ids != [] {
      var t := Taken(s, ids[0], base);
      assert EnabledOutbox(s, base, OClaim(ids[0])) && DoOutbox(s, base, OClaim(ids[0])) == t;
      var rest := ClaimsAreARun(t, ids[1..], base + 1);
      hide EnabledOutbox, DoOutbox, Leads;
      OutboxBy(s, base, OClaim(ids[0]), rest, Claims(t, ids[1..], base + 1));
      steps := [Outbox(base, OClaim(ids[0]))] + rest;
    }
  }

  /** What the claims do to the rows, and nothing else but to their processes. */
  lemma {:induction false} ClaimsAt(s: State, ids: seq<RowId>, base: Pid, id: RowId)
    requires forall i :: 0 <= i < |ids| ==> ids[i] in s.outbox
    ensures var t := Claims(s, ids, base);
      && t == s.(outbox := t.outbox, outboxes := t.outboxes) && (id in t.outbox <==> id in s.outbox)
      && (id in s.outbox ==>
           t.outbox[id] == if id in ids then s.outbox[id].(status := OUTBOX_PROCESSING) else s.outbox[id])
    decreases |ids|
  {
    if ids != [] {
      ClaimsAt(Taken(s, ids[0], base), ids[1..], base + 1, id);
      assert id in ids <==> id == ids[0] || id in ids[1..];
    }
  }

  /** The processes that are sending afterwards. */
  lemma {:induction false} ClaimsSend(s: State, ids: seq<RowId>, base: Pid, p: Pid)
    requires O.Distinct(ids) && forall i :: 0 <= i < |ids| ==> ids[i] in s.outbox
    ensures var t := Claims(s, ids, base);
      if base <= p < base + |ids| then
        var row := s.outbox[ids[p - base]];
        p in t.outboxes && t.outboxes[p] == OutboxProc(ids[p - base], row.intent, row.retries, AtSend)
      else (p in t.outboxes <==> p in s.outboxes) && (p in s.outboxes ==> t.outboxes[p] == s.outboxes[p])
    decreases |ids|
  {
    if ids != [] {
      ClaimsSend(Taken(s, ids[0], base), ids[1..], base + 1, p);
      assert forall i :: 0 <= i < |ids[1..]| ==> ids[1..][i] == ids[i + 1] != ids[0];
    }
  }

  function IdsOf(es: seq<Lease.Event>): (ids: seq<RowId>)
    ensures |ids| == |es| && forall i :: 0 <= i < |es| ==> ids[i] == es[i].id
  {
    seq(|es|, i requires 0 <= i < |es| => es[i].id)
  }

  /** What a worker has locked is there, can be claimed, and is locked once. */
  lemma LockedIsClaimable(l: Lease.State, w: string, s: State)
    requires Lease.Inv(l) && Lease.Enabled(l, Lease.Commit(w)) && Shows(l.rows, s.outbox)
    ensures Claimable(s, IdsOf(l.workers[w].batch))
  {
    var k := l.workers[w];
    assert Lease.WorkerOk(l.rows, k, l.now);
    forall i | 0 <= i < |k.batch| ensures k.batch[i].id in s.outbox && !s.outbox[k.batch[i].id].status.OUTBOX_FAILED? {
      assert Lease.EventOk(l.rows, k, Lease.Held(k)[i]);
    }
  }

  lemma CommitShows(l: Lease.State, w: string, s: State, base: Pid)
    requires Lease.Enabled(l, Lease.Commit(w)) && Shows(l.rows, s.outbox) && Claimable(s, IdsOf(l.workers[w].batch))
    ensures Shows(Lease.Do(l, Lease.Commit(w)).rows, Claims(s, IdsOf(l.workers[w].batch), base).outbox)
  {
    var k := l.workers[w];
    var ids := IdsOf(k.batch);
    var rows', t := Lease.Do(l, Lease.Commit(w)).rows, Claims(s, ids, base);
    hide Claims;
    forall id
      ensures id in rows' <==> id in t.outbox
      ensures id in rows' ==>
        Timeless(rows'[id].status) == t.outbox[id].status && rows'[id].retry == t.outbox[id].retries
    {
      ClaimsAt(s, ids, base, id);
      assert Lease.Holds(k, id) <==> id in ids by {
        assert forall i :: 0 <= i < |ids| ==> ids[i] == Lease.Held(k)[i].id;
      }
    }
    assert rows'.Keys == t.outbox.Keys;
  }

  /** The process of one event of the batch. */
  ghost predicate Sending(s: State, t: State, p: Pid, e: Lease.Event) {
    e.id in s.outbox && p in t.outboxes && t.outboxes[p] == OutboxProc(e.id, s.outbox[e.id].intent, e.retry, AtSend)
  }

  lemma EventIsSent(l: Lease.State, w: string, s: State, base: Pid, i: nat)
    requires Lease.Inv(l) && Lease.Enabled(l, Lease.Commit(w)) && Shows(l.rows, s.outbox) && i < |l.workers[w].batch|
    requires Claimable(s, IdsOf(l.workers[w].batch))
    ensures Sending(s, Claims(s, IdsOf(l.workers[w].batch), base), base + i, l.workers[w].batch[i])
  {
    ClaimsSend(s, IdsOf(l.workers[w].batch), base, base + i);
    assert Lease.WorkerOk(l.rows, l.workers[w], l.now);
    assert Lease.EventOk(l.rows, l.workers[w], Lease.Held(l.workers[w])[i]);
    hide Claims;
  }

  /**
   The commit of a lease is the machine's claims: the tables stay alike, and each event of
   the batch has a process about to send it, with the retry count the worker remembers.
   */
  lemma CommitIsClaims(l: Lease.State, w: string, s: State, base: Pid) returns (steps: seq<Step>, t: State)
    requires Lease.Inv(l) && Lease.Enabled(l, Lease.Commit(w)) && Shows(l.rows, s.outbox)
    requires forall p :: p in s.outboxes ==> p < base
    ensures Leads(s, steps, t) && Lossless(steps)
    ensures t == s.(outbox := t.outbox, outboxes := t.outboxes) && Shows(Lease.Do(l, Lease.Commit(w)).rows, t.outbox)
    ensures forall i :: 0 <= i < |l.workers[w].batch| ==> Sending(s, t, base + i, l.workers[w].batch[i])
  {
    var batch := l.workers[w].batch;
    var ids := IdsOf(batch);
    LockedIsClaimable(l, w, s);
    t := Claims(s, ids, base);
    steps := ClaimsAreARun(s, ids, base);
    ClaimsAt(s, ids, base, "");
    CommitShows(l, w, s, base);
    hide Claims, Leads, Lossless, Lease.Inv, Lease.Enabled, Shows, Claimable, Sending;
    forall i | 0 <= i < |batch| ensures Sending(s, t, base + i, batch[i]) {
      EventIsSent(l, w, s, base, i);
    }
  }

  // ---------- the program ----------

  /** What the claim query selects can be claimed. */
  lemma SelectedIsClaimable(s: State, created: RowId -> int, updated: RowId -> int, threshold: int, limit: nat,
        ids: seq<RowId>)
    requires D.IsSelection(Timed(s.outbox, created, updated), threshold, limit, ids)
    ensures Claimable(s, ids)
  {
    var rows := Timed(s.outbox, created, updated);
    forall i | 0 <= i < |ids| ensures ids[i] in s.outbox && !s.outbox[ids[i]].status.OUTBOX_FAILED? {
      assert ids[i] in rows && O.Eligible(rows[ids[i]], threshold);
    }
  }

  /** The times of the rows do not matter to what the machine sees. */
  lemma TimesDoNotMatter(s: State, created: RowId -> int, updated: RowId -> int, ids: seq<RowId>, f: PollFaults)
    ensures TableAfter(s, created, updated, ids, f) == TableAfter(s, _ => 0, _ => 0, ids, f)
  {
    var a, b := TableAfter(s, created, updated, ids, f), TableAfter(s, _ => 0, _ => 0, ids, f);
    hide TableAfter, RowAfter;
    forall id ensures (id in a <==> id in b) && (id in a ==> a[id] == b[id]) {
      PolledAt(s, created, updated, ids, f, id);
      PolledAt(s, _ => 0, _ => 0, ids, f, id);
    }
    assert a == b;
  }

  class Worker {
    var s: State  // tables and queues

    constructor (s: State)
      ensures this.s == s
    {
      this.s := s;
    }

    /**
     One poll by process `p`: `created` and `updated` are the times of the rows, and `ids`
     what the claim query selected.
     */
    method Poll(p: Pid, created: RowId -> int, updated: RowId -> int, threshold: int, limit: nat, ids: seq<RowId>,
          f: PollFaults)
      returns (err: bool, ghost steps: seq<Step>)
      requires p !in s.outboxes && limit > 0 && D.IsSelection(Timed(s.outbox, created, updated), threshold, limit, ids)
      modifies this
      ensures Claimable(old(s), ids) && s == Polled(old(s), ids, f)
      ensures err <==> ids != [] && !f.claim.Committed?
      ensures Leads(old(s), steps, s) && Lossless(steps)
    {
      SelectedIsClaimable(s, created, updated, threshold, limit, ids);
      TimesDoNotMatter(s, created, updated, ids, f);
      steps := PollIsARun(s, p, ids, f);
      hide D.IsSelection, D.Polled, Leads, Lossless, Timed, Untimed, Messages;
      var worker := new D.OutboxWorker(limit, MAX_RETRIES, Timed(s.outbox, created, updated));
      err := worker.ProcessBatch(f.now, threshold, ids, f.ok, f.clock, f.claim, f.written);
      s := s.(outbox := Untimed(s.outbox, worker.rows), submitted := s.submitted + Messages(s, ids, f));
    }
  }
}
