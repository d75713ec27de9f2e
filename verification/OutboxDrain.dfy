/**
 One worker's batches: what a batch does to the table, and that batches drain it.
 The broker answers attempt number `retry` for event `id` with `ok(id, retry)`; an
 arbitrary function, so an arbitrary pattern of failures.
 */
module OutboxDrain {
  import opened Prelude
  import opened Outbox

  type Broker = (string, nat) -> bool

  /** The claim query: oldest eligible rows first, as many as the limit allows. */
  predicate IsSelection(rows: map<string, Row>, threshold: int, limit: nat, ids: seq<string>) {
    && Distinct(ids) && |ids| <= limit
    && (forall i :: 0 <= i < |ids| ==> ids[i] in rows && Eligible(rows[ids[i]], threshold))
    && (forall i, j :: 0 <= i < j < |ids| ==> rows[ids[i]].createdAt <= rows[ids[j]].createdAt)
    && forall id :: id in rows && Eligible(rows[id], threshold) && id !in ids ==>
         |ids| == limit && forall i :: 0 <= i < |ids| ==> rows[ids[i]].createdAt <= rows[id].createdAt
  }

  /** The table while the first `done` of the selected rows have been claimed. */
  function Claimed(rows: map<string, Row>, ids: seq<string>, done: nat, now: int): map<string, Row>
    requires done <= |ids|
  {
    map id | id in rows :: if id in ids[..done] then rows[id].(status := PROCESSING, updatedAt := now) else rows[id]
  }

  /** The claim transaction commits, or does not, or does although the worker sees an error. */
  datatype Claim = Committed | RolledBack | CommittedUnseen

  /**
   The table while the first `done` of the claimed events have been dealt with; `written`
   says for which of them the outcome's write takes effect.
   */
  function Midway(rows: map<string, Row>, ids: seq<string>, done: nat, ok: Broker, maxRetries: nat, now: int,
        clock: string -> int, written: string -> bool): map<string, Row>
    requires done <= |ids|
  {
    map id | id in rows && !(id in ids[..done] && written(id) && ok(id, rows[id].retry)) ::
      if id in ids[..done] && written(id) then AfterFailure(rows[id], rows[id].retry, maxRetries, clock(id))
      else if id in ids then rows[id].(status := PROCESSING, updatedAt := now)
      else rows[id]
  }

  /** The table after a poll, whatever fails. */
  function Polled(rows: map<string, Row>, ids: seq<string>, ok: Broker, maxRetries: nat, now: int,
        clock: string -> int, claim: Claim, written: string -> bool): map<string, Row> {
    match claim
    case RolledBack => rows
    case CommittedUnseen => Claimed(rows, ids, |ids|, now)
    case Committed => Midway(rows, ids, |ids|, ok, maxRetries, now, clock, written)
  }

  /** The table after a batch: published events are gone, the others wait or have failed for good. */
  function AfterBatch(rows: map<string, Row>, ids: seq<string>, ok: Broker, maxRetries: nat,
        clock: string -> int): map<string, Row> {
    map id | id in rows && !(id in ids && ok(id, rows[id].retry)) ::
      if id in ids then AfterFailure(rows[id], rows[id].retry, maxRetries, clock(id)) else rows[id]
  }

  class OutboxWorker {
    var rows: map<string, Row>  // the table
    const batchSize: nat
    const maxRetries: nat

    constructor (batchSize: int, maxRetries: int, rows: map<string, Row>)
      ensures this.rows == rows && this.batchSize > 0 && this.maxRetries > 0
      ensures this.batchSize == (if batchSize > 0 then batchSize else 50) &&
        this.maxRetries == if maxRetries > 0 then maxRetries else 5
    {
      this.batchSize := if batchSize <= 0 then 50 else batchSize;
      this.maxRetries := if maxRetries <= 0 then 5 else maxRetries;
      this.rows := rows;
    }

    /**
     One poll.  `now` is the claim transaction's time, `threshold` a minute before the
     query, `ids` the rows it selected, `clock` when each outcome was written; `claim` and
     `written` say which writes take effect.
     */
    method ProcessBatch(now: int, threshold: int, ids: seq<string>, ok: Broker, clock: string -> int, claim: Claim,
          written: string -> bool) returns (err: bool)
      requires IsSelection(rows, threshold, batchSize, ids)
      modifies this`rows
      ensures rows == Polled(old(rows), ids, ok, maxRetries, now, clock, claim, written)
      ensures err <==> ids != [] && !claim.Committed?
    {
      ghost var before := rows;
      hide Claimed, Midway, IsSelection;
      BatchEnds(before, ids, ok, maxRetries, now, clock, written);
      assert forall i :: 0 <= i < |ids| ==> ids[i] in before by {
        SelectionIsThere(before, threshold, batchSize, ids);
      }
      var events: seq<(string, nat)> := [];
      for i := 0 to |ids|
        invariant |events| == i && forall k :: 0 <= k < i ==> events[k] == (ids[k], before[ids[k]].retry)
        invariant rows == before
      {
        events := events + [(ids[i], rows[ids[i]].retry)];
      }
      if |events| == 0 {
        return false;
      }
      var table := rows;  // the transaction's own view
      for i := 0 to |events|
        invariant rows == before && table == Claimed(before, ids, i, now)
      {
        var id := events[i].0;
        ClaimNext(before, threshold, batchSize, ids, i, now);
        table := table[id := table[id].(status := PROCESSING, updatedAt := now)];
      }
      if claim.RolledBack? {
        return true;
      }
      rows := table;
      if claim.CommittedUnseen? {
        return true;
      }
      for i := 0 to |events|
        invariant rows == Midway(before, ids, i, ok, maxRetries, now, clock, written)
      {
        var (id, retry) := events[i];
        MidwayNext(before, threshold, batchSize, ids, i, ok, maxRetries, now, clock, written);
        if !ok(id, retry) {
          if written(id) {
            rows := rows[id := AfterFailure(rows[id], retry, maxRetries, clock(id))];
          }
        } else if written(id) {
          rows := rows - {id};
        }
      }
      err := false;
    }

    /** The polling loop, for as many polls as it is left running, while every write takes effect. */
    method Start(polls: seq<Poll>, ok: Broker)
      requires IsRun(rows, polls, ok, maxRetries) && forall i :: 0 <= i < |polls| ==> polls[i].limit == batchSize
      modifies this`rows
      ensures rows == After(old(rows), polls, ok, maxRetries)
    {
      ghost var before := rows;
      for i := 0 to |polls|
        invariant IsRun(rows, polls[i..], ok, maxRetries)
        invariant After(rows, polls[i..], ok, maxRetries) == After(before, polls, ok, maxRetries)
      {
        var p := polls[i];
        assert polls[i..][1..] == polls[i + 1..];
        FaultlessPoll(rows, p.ids, ok, maxRetries, p.threshold, p.clock, _ => true);
        hide Polled, AfterBatch, IsSelection;
        var _ := ProcessBatch(p.threshold, p.threshold, p.ids, ok, p.clock, Committed, _ => true);
      }
    }
  }

  // ---------- one batch ----------

  lemma SelectionIsThere(rows: map<string, Row>, threshold: int, limit: nat, ids: seq<string>)
    requires IsSelection(rows, threshold, limit, ids)
    ensures Distinct(ids) && forall i :: 0 <= i < |ids| ==> ids[i] in rows
  {
  }

  lemma BatchEnds(rows: map<string, Row>, ids: seq<string>, ok: Broker, maxRetries: nat, now: int,
        clock: string -> int, written: string -> bool)
    ensures Claimed(rows, ids, 0, now) == rows
    ensures Claimed(rows, ids, |ids|, now) == Midway(rows, ids, 0, ok, maxRetries, now, clock, written)
    ensures ids == [] ==>
      Claimed(rows, ids, |ids|, now) == rows && Midway(rows, ids, |ids|, ok, maxRetries, now, clock, written) == rows
  {
    assert ids[..|ids|] == ids;
  }

  /** When every write takes effect a poll does what a batch is to do. */
  lemma FaultlessPoll(rows: map<string, Row>, ids: seq<string>, ok: Broker, maxRetries: nat, now: int,
        clock: string -> int, written: string -> bool)
    requires forall id :: id in ids ==> written(id)
    ensures Polled(rows, ids, ok, maxRetries, now, clock, Committed, written) ==
      AfterBatch(rows, ids, ok, maxRetries, clock)
  {
    assert ids[..|ids|] == ids;
  }

  /**
   Whatever fails, no event leaves the table unpublished, none is touched that was not
   selected, and none is given up before its attempts are used.
   */
  lemma PollLosesNothing(rows: map<string, Row>, ids: seq<string>, ok: Broker, maxRetries: nat, now: int,
        clock: string -> int, claim: Claim, written: string -> bool, id: string)
    requires id in rows
    ensures var after := Polled(rows, ids, ok, maxRetries, now, clock, claim, written);
      && (id !in after ==> id in ids && ok(id, rows[id].retry))
      && (id in after && id !in ids ==> after[id] == rows[id])
      && (id in after ==> rows[id].retry <= after[id].retry <= rows[id].retry + 1)
      && (id in after && after[id].status.FAILED? && !rows[id].status.FAILED? ==> rows[id].retry >= maxRetries)
  {
    assert ids[..|ids|] == ids;
  }

  lemma ClaimNext(rows: map<string, Row>, threshold: int, limit: nat, ids: seq<string>, i: nat, now: int)
    requires IsSelection(rows, threshold, limit, ids) && i < |ids|
    ensures var m := Claimed(rows, ids, i, now);
      ids[i] in m && Claimed(rows, ids, i + 1, now) == m[ids[i] := m[ids[i]].(status := PROCESSING, updatedAt := now)]
  {
    assert ids[..i + 1] == ids[..i] + [ids[i]];
  }

  lemma MidwayNext(rows: map<string, Row>, threshold: int, limit: nat, ids: seq<string>, i: nat, ok: Broker,
        maxRetries: nat, now: int, clock: string -> int, written: string -> bool)
    requires IsSelection(rows, threshold, limit, ids) && i < |ids|
    ensures var m, id := Midway(rows, ids, i, ok, maxRetries, now, clock, written), ids[i];
      && id in m && id in rows
      && Midway(rows, ids, i + 1, ok, maxRetries, now, clock, written) ==
           if !written(id) then m
           else if ok(id, rows[id].retry) then m - {id}
           else m[id := AfterFailure(m[id], rows[id].retry, maxRetries, clock(id))]
  {
    assert ids[..i + 1] == ids[..i] + [ids[i]];
    assert ids[i] !in ids[..i] && ids[i] in ids;
  }

  // ---------- the remaining work ----------

  /** How many attempts an event may still take. */
  function Remaining(row: Row, maxRetries: nat): nat {
    if row.status == FAILED then 0 else if row.retry >= maxRetries then 1 else maxRetries + 1 - row.retry
  }

  ghost function Attempts(rows: map<string, Row>, maxRetries: nat): map<string, int> {
    map id | id in rows :: Remaining(rows[id], maxRetries)
  }

  ghost function Work(rows: map<string, Row>, maxRetries: nat): int {
    Total(Attempts(rows, maxRetries))
  }

  predicate Drained(rows: map<string, Row>) {
    forall id :: id in rows ==> rows[id].status == FAILED
  }

  /** What becomes of an event: published and gone, or failed with this retry count. */
  function FateOf(id: string, row: Row, ok: Broker, maxRetries: nat): Option<nat>
    decreases Remaining(row, maxRetries)
  {
    if row.status == FAILED then Some(row.retry)
    else if ok(id, row.retry) then None
    else FateOf(id, AfterFailure(row, row.retry, maxRetries, 0), ok, maxRetries)
  }

  function Fate(rows: map<string, Row>, id: string, ok: Broker, maxRetries: nat): Option<nat> {
    if id in rows then FateOf(id, rows[id], ok, maxRetries) else None
  }

  // ---------- what a batch keeps and what it takes away ----------

  /** No row is stuck in processing since the threshold. */
  predicate NoneBusy(rows: map<string, Row>, threshold: int) {
    forall id :: id in rows && rows[id].status == PROCESSING ==> rows[id].updatedAt < threshold
  }

  /** A batch leaves every event's fate as it was. */
  lemma BatchKeepsFate(rows: map<string, Row>, threshold: int, limit: nat, ids: seq<string>, ok: Broker,
        maxRetries: nat, clock: string -> int, id: string)
    requires IsSelection(rows, threshold, limit, ids)
    ensures Fate(AfterBatch(rows, ids, ok, maxRetries, clock), id, ok, maxRetries) == Fate(rows, id, ok, maxRetries)
  {
    if id in ids && !ok(id, rows[id].retry) {
      FateForgetsTimes(id, AfterFailure(rows[id], rows[id].retry, maxRetries, clock(id)), clock(id), 0, ok, maxRetries);
    }
  }

  /** The time of a write does not matter. */
  lemma {:induction false} FateForgetsTimes(id: string, row: Row, now: int, later: int, ok: Broker, maxRetries: nat)
    ensures FateOf(id, row.(updatedAt := now), ok, maxRetries) == FateOf(id, row.(updatedAt := later), ok, maxRetries)
    decreases Remaining(row, maxRetries)
  {
    if row.status != FAILED && !ok(id, row.retry) {
      FateForgetsTimes(id, AfterFailure(row, row.retry, maxRetries, 0), 0, 0, ok, maxRetries);
    }
  }

  /** What a failed or finished attempt leaves to do. */
  lemma AttemptCosts(row: Row, maxRetries: nat, now: int)
    requires row.status != FAILED
    ensures Remaining(AfterFailure(row, row.retry, maxRetries, now), maxRetries) < Remaining(row, maxRetries)
  {
  }

  /** Left to do for one event. */
  function Left(rows: map<string, Row>, id: string, maxRetries: nat): nat {
    if id in rows then Remaining(rows[id], maxRetries) else 0
  }

  /** Each claimed event costs an attempt, and nothing gets more. */
  lemma BatchCosts(rows: map<string, Row>, threshold: int, limit: nat, ids: seq<string>, ok: Broker, maxRetries: nat,
        clock: string -> int, id: string)
    requires IsSelection(rows, threshold, limit, ids)
    ensures Left(AfterBatch(rows, ids, ok, maxRetries, clock), id, maxRetries) +
      (if id in ids then 1 else 0) <= Left(rows, id, maxRetries)
  {
    if id in ids {
      AttemptCosts(rows[id], maxRetries, clock(id));
    }
  }

  lemma BatchFreesRows(rows: map<string, Row>, threshold: int, limit: nat, ids: seq<string>, ok: Broker,
        maxRetries: nat, clock: string -> int)
    requires IsSelection(rows, threshold, limit, ids) && NoneBusy(rows, threshold)
    ensures NoneBusy(AfterBatch(rows, ids, ok, maxRetries, clock), threshold)
  {
  }

  /** While work is left a poll selects something. */
  lemma BatchFindsWork(rows: map<string, Row>, threshold: int, limit: nat, ids: seq<string>)
    requires IsSelection(rows, threshold, limit, ids) && NoneBusy(rows, threshold) && limit > 0 && !Drained(rows)
    ensures ids != []
  {
    var id :| id in rows && rows[id].status != FAILED;
    assert Eligible(rows[id], threshold);
  }

  /** An event is published exactly when one of its remaining attempts succeeds. */
  lemma {:induction false} FateIs(id: string, row: Row, ok: Broker, maxRetries: nat)
    requires row.status != FAILED && row.retry <= maxRetries
    ensures FateOf(id, row, ok, maxRetries) ==
      if exists k :: row.retry <= k <= maxRetries && ok(id, k) then None else Some(maxRetries + 1)
    decreases maxRetries - row.retry
  {
    var next := AfterFailure(row, row.retry, maxRetries, 0);
    if !ok(id, row.retry) && row.retry < maxRetries {
      FateIs(id, next, ok, maxRetries);
    }
  }

  // ---------- runs of batches ----------

  /** One poll of a run. */
  datatype Poll = Poll(threshold: int, limit: nat, ids: seq<string>, clock: string -> int)

  function After(rows: map<string, Row>, polls: seq<Poll>, ok: Broker, maxRetries: nat): map<string, Row> {
    if polls == [] then rows
      else After(AfterBatch(rows, polls[0].ids, ok, maxRetries, polls[0].clock), polls[1..], ok, maxRetries)
  }

  /** Every poll selects as its query says; limits are positive and time does not run backwards. */
  ghost predicate IsRun(rows: map<string, Row>, polls: seq<Poll>, ok: Broker, maxRetries: nat) {
    polls == [] || (
      && polls[0].limit > 0 && IsSelection(rows, polls[0].threshold, polls[0].limit, polls[0].ids)
      && (|polls| > 1 ==> polls[0].threshold <= polls[1].threshold)
      && IsRun(AfterBatch(rows, polls[0].ids, ok, maxRetries, polls[0].clock), polls[1..], ok, maxRetries))
  }

  /** How often an event was published or tried. */
  function Tries(polls: seq<Poll>, id: string): nat {
    if polls == [] then 0 else (if id in polls[0].ids then 1 else 0) + Tries(polls[1..], id)
  }

  /** No run changes an event's fate, and every try is paid for. */
  lemma {:induction false} RunKeeps(rows: map<string, Row>, polls: seq<Poll>, ok: Broker, maxRetries: nat, id: string)
    requires IsRun(rows, polls, ok, maxRetries)
    ensures Fate(After(rows, polls, ok, maxRetries), id, ok, maxRetries) == Fate(rows, id, ok, maxRetries)
    ensures Left(After(rows, polls, ok, maxRetries), id, maxRetries) + Tries(polls, id) <= Left(rows, id, maxRetries)
    decreases |polls|
  {
    if polls != [] {
      var p := polls[0];
      hide AfterBatch, Fate, Left, IsSelection;
      BatchKeepsFate(rows, p.threshold, p.limit, p.ids, ok, maxRetries, p.clock, id);
      BatchCosts(rows, p.threshold, p.limit, p.ids, ok, maxRetries, p.clock, id);
      RunKeeps(AfterBatch(rows, p.ids, ok, maxRetries, p.clock), polls[1..], ok, maxRetries, id);
    }
  }

  // ---------- the table drains ----------

  lemma BatchWorks(rows: map<string, Row>, threshold: int, limit: nat, ids: seq<string>, ok: Broker, maxRetries: nat,
        clock: string -> int)
    requires IsSelection(rows, threshold, limit, ids) && ids != []
    ensures Work(AfterBatch(rows, ids, ok, maxRetries, clock), maxRetries) < Work(rows, maxRetries)
  {
    var rows' := AfterBatch(rows, ids, ok, maxRetries, clock);
    var m, n := Attempts(rows, maxRetries), Attempts(rows', maxRetries);
    forall id | id in m ensures 0 <= Get(n, id) <= m[id] && (id == ids[0] ==> Get(n, id) < m[id]) {
      BatchCosts(rows, threshold, limit, ids, ok, maxRetries, clock, id);
    }
    TotalBelow(m, n, ids[0]);
  }

  lemma DrainedStays(rows: map<string, Row>, ids: seq<string>, ok: Broker, maxRetries: nat, threshold: int, limit: nat,
        clock: string -> int)
    requires Drained(rows) && IsSelection(rows, threshold, limit, ids)
    ensures AfterBatch(rows, ids, ok, maxRetries, clock) == rows
  {
  }

  lemma WorkIsPositive(rows: map<string, Row>, maxRetries: nat)
    ensures Work(rows, maxRetries) >= 0 && (Work(rows, maxRetries) == 0 ==> Drained(rows))
  {
    var m := Attempts(rows, maxRetries);
    var none: map<string, int> := map[];
    TotalAtMost(m, none);
    if !Drained(rows) {
      var id :| id in rows && rows[id].status != FAILED;
      TotalBelow(m, none, id);
    }
  }

  lemma {:induction false} RunDrains(rows: map<string, Row>, polls: seq<Poll>, ok: Broker, maxRetries: nat)
    requires IsRun(rows, polls, ok, maxRetries) && |polls| >= Work(rows, maxRetries)
    requires polls != [] ==> NoneBusy(rows, polls[0].threshold)
    ensures Drained(After(rows, polls, ok, maxRetries))
    decreases |polls|
  {
    WorkIsPositive(rows, maxRetries);
    if polls != [] {
      var p := polls[0];
      var rows' := AfterBatch(rows, p.ids, ok, maxRetries, p.clock);
      hide AfterBatch, IsSelection, Work;
      BatchFreesRows(rows, p.threshold, p.limit, p.ids, ok, maxRetries, p.clock);
      if Drained(rows) {
        DrainedForGood(rows, polls, ok, maxRetries);
      } else {
        BatchFindsWork(rows, p.threshold, p.limit, p.ids);
        BatchWorks(rows, p.threshold, p.limit, p.ids, ok, maxRetries, p.clock);
        RunDrains(rows', polls[1..], ok, maxRetries);
      }
    }
  }

  lemma {:induction false} DrainedForGood(rows: map<string, Row>, polls: seq<Poll>, ok: Broker, maxRetries: nat)
    requires IsRun(rows, polls, ok, maxRetries) && Drained(rows)
    ensures After(rows, polls, ok, maxRetries) == rows
    decreases |polls|
  {
    if polls != [] {
      DrainedStays(rows, polls[0].ids, ok, maxRetries, polls[0].threshold, polls[0].limit, polls[0].clock);
      hide AfterBatch, IsSelection, Drained;
      DrainedForGood(rows, polls[1..], ok, maxRetries);
    }
  }

  /**
   The outbox drains: once there were as many polls as attempts left, every event is
   gone or FAILED, with the outcome its own publish attempts decide, whatever the batch
   sizes; and no event was tried more than `maxRetries` + 1 times.
   */
  lemma {:induction false} OutboxDrains(rows: map<string, Row>, polls: seq<Poll>, ok: Broker, maxRetries: nat,
        id: string)
    requires IsRun(rows, polls, ok, maxRetries) && |polls| >= Work(rows, maxRetries)
    requires polls != [] ==> NoneBusy(rows, polls[0].threshold)
    ensures var end := After(rows, polls, ok, maxRetries);
      && Drained(end)
      && (id in end <==> Fate(rows, id, ok, maxRetries).Some?)
      && (id in end ==> end[id].retry == Fate(rows, id, ok, maxRetries).value)
    ensures Tries(polls, id) <= maxRetries + 1
  {
    hide IsRun, After, Work, Tries;
    RunDrains(rows, polls, ok, maxRetries);
    RunKeeps(rows, polls, ok, maxRetries, id);
  }
}
