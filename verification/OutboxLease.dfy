/**
 Any number of outbox workers over one table and one clock.  A claim is a transaction:
 it begins, selects and locks eligible rows that nobody else has locked, and on commit
 marks them PROCESSING with the time the transaction began.  Publishing happens outside
 any lock.
 */
module OutboxLease {
  import opened Outbox

  /** A claimed event as the worker remembers it. */
  datatype Event = Event(id: string, retry: nat)

  datatype Worker =
    | Idle
    | Begun(began: int)
    | Locking(began: int, batch: seq<Event>)
    | Publishing(began: int, batch: seq<Event>)

  datatype State = State(now: int, rows: map<string, Row>, workers: map<string, Worker>, maxRetries: nat)

  datatype Step =
    | Tick(to: int)
    | Create(id: string)
    | Begin(w: string)
    | Select(w: string, clock: int, ids: seq<string>)
    | Commit(w: string)
    | Published(w: string, deleted: bool)
    | Refused(w: string, written: bool)
    | Done(w: string)
    | Crash(w: string)

  /** The events that a worker has locked or is publishing. */
  function Held(k: Worker): seq<Event> {
    match k
    case Locking(_, batch) => batch
    case Publishing(_, batch) => batch
    case _ => []
  }

  predicate Holds(k: Worker, id: string) {
    exists i :: 0 <= i < |Held(k)| && Held(k)[i].id == id
  }

  predicate Locked(s: State, id: string) {
    exists w :: w in s.workers && s.workers[w].Locking? && Holds(s.workers[w], id)
  }

  /** The lease assumption: a live worker is through with its events within a minute of its claim. */
  predicate InTime(k: Worker, t: int) {
    k.Begun? || Held(k) != [] ==> t <= k.began + MINUTE
  }

  function WorkerOf(s: State, w: string): Worker {
    if w in s.workers then s.workers[w] else Idle
  }

  ghost predicate Enabled(s: State, a: Step) {
    match a
    case Tick(to) => s.now <= to && forall w :: w in s.workers ==> InTime(s.workers[w], to)
    case Create(id) => id !in s.rows
    case Begin(w) => WorkerOf(s, w).Idle?
    case Select(w, clock, ids) =>
      && WorkerOf(s, w).Begun? && WorkerOf(s, w).began <= clock <= s.now && Distinct(ids)
      && forall i :: 0 <= i < |ids| ==>
           ids[i] in s.rows && Eligible(s.rows[ids[i]], clock - MINUTE) && !Locked(s, ids[i])
    case Commit(w) => WorkerOf(s, w).Locking?
    case Published(w, _) => WorkerOf(s, w).Publishing? && WorkerOf(s, w).batch != []
    case Refused(w, _) => WorkerOf(s, w).Publishing? && WorkerOf(s, w).batch != []
    case Done(w) => WorkerOf(s, w).Publishing? && WorkerOf(s, w).batch == []
    case Crash(w) => true
  }

  function Events(rows: map<string, Row>, ids: seq<string>): (es: seq<Event>)
    ensures |es| == |ids| && forall i :: 0 <= i < |ids| ==>
      es[i] == Event(ids[i], if ids[i] in rows then rows[ids[i]].retry else 0)
  {
    seq(|ids|, i requires 0 <= i < |ids| => Event(ids[i], if ids[i] in rows then rows[ids[i]].retry else 0))
  }

  /** The claimed rows once the claim has been committed. */
  function MarkProcessing(rows: map<string, Row>, k: Worker, now: int): map<string, Row> {
    map id | id in rows :: if Holds(k, id) then rows[id].(status := PROCESSING, updatedAt := now) else rows[id]
  }

  /** The unguarded write after a failed publish. */
  function WriteFailure(rows: map<string, Row>, e: Event, maxRetries: nat, now: int): map<string, Row> {
    if e.id in rows then rows[e.id := AfterFailure(rows[e.id], e.retry, maxRetries, now)] else rows
  }

  function Do(s: State, a: Step): State
    requires Enabled(s, a)
  {
    match a
    case Tick(to) => s.(now := to)
    case Create(id) => s.(rows := s.rows[id := Row(PENDING, 0, s.now, s.now)])
    case Begin(w) => s.(workers := s.workers[w := Begun(s.now)])
    case Select(w, clock, ids) => s.(workers := s.workers[w := Locking(s.workers[w].began, Events(s.rows, ids))])
    case Commit(w) =>
      var k := s.workers[w];
      s.(rows := MarkProcessing(s.rows, k, k.began), workers := s.workers[w := Publishing(k.began, k.batch)])
    case Published(w, deleted) =>
      var k := s.workers[w];
      s.(rows := if deleted then s.rows - {k.batch[0].id}
        else s.rows, workers := s.workers[w := Publishing(k.began, k.batch[1..])])
    case Refused(w, written) =>
      var k := s.workers[w];
      s.(rows := if written then WriteFailure(s.rows, k.batch[0], s.maxRetries, s.now) else s.rows,
         workers := s.workers[w := Publishing(k.began, k.batch[1..])])
    case Done(w) => s.(workers := s.workers[w := Idle])
    case Crash(w) => s.(workers := s.workers[w := Idle])
  }

  /** Any table, no worker under way. */
  ghost predicate Start(s: State) {
    && (forall w :: w in s.workers ==> s.workers[w].Idle?)
    && forall id :: id in s.rows ==> s.rows[id].updatedAt <= s.now
  }

  ghost predicate IsRun(s: State, steps: seq<Step>)
    decreases |steps|
  {
    steps == [] || (Enabled(s, steps[0]) && IsRun(Do(s, steps[0]), steps[1..]))
  }

  function Run(s: State, steps: seq<Step>): State
    requires IsRun(s, steps)
    decreases |steps|
  {
    if steps == [] then s else Run(Do(s, steps[0]), steps[1..])
  }

  // ---------- the invariant ----------

  /** An event that a worker holds has the row it remembers, and while it publishes the lease runs. */
  predicate EventOk(rows: map<string, Row>, k: Worker, e: Event) {
    && e.id in rows && rows[e.id].retry == e.retry && !rows[e.id].status.FAILED?
    && (k.Publishing? ==> rows[e.id].status == PROCESSING && rows[e.id].updatedAt == k.began)
  }

  predicate WorkerOk(rows: map<string, Row>, k: Worker, now: int) {
    && InTime(k, now) && (k.Idle? || k.began <= now)
    && (forall i :: 0 <= i < |Held(k)| ==> EventOk(rows, k, Held(k)[i]))
    && forall i, j :: 0 <= i < j < |Held(k)| ==> Held(k)[i].id != Held(k)[j].id
  }

  predicate Apart(j: Worker, k: Worker) {
    forall a, b :: 0 <= a < |Held(j)| && 0 <= b < |Held(k)| ==> Held(j)[a].id != Held(k)[b].id
  }

  ghost predicate AllApart(workers: map<string, Worker>) {
    forall v, w :: v in workers && w in workers && v != w ==> Apart(workers[v], workers[w])
  }

  ghost predicate RowsOk(rows: map<string, Row>, now: int) {
    forall id :: id in rows ==> rows[id].updatedAt <= now
  }

  ghost predicate Inv(s: State) {
    RowsOk(s.rows, s.now) && (forall w :: w in s.workers ==> WorkerOk(s.rows, s.workers[w], s.now)) &&
      AllApart(s.workers)
  }

  // ---------- steps keep it ----------

  lemma ApartUpdate(workers: map<string, Worker>, w: string, k: Worker)
    requires AllApart(workers) && forall v :: v in workers && v != w ==> Apart(workers[v], k)
    ensures AllApart(workers[w := k])
  {
  }

  /** Giving up events keeps workers apart. */
  lemma ApartLess(workers: map<string, Worker>, w: string, k: Worker)
    requires AllApart(workers)
    requires Held(k) == [] ||
      (w in workers && (Held(k) == Held(workers[w]) || (Held(workers[w]) != [] && Held(k) == Held(workers[w])[1..])))
    ensures AllApart(workers[w := k])
  {
    forall v | v in workers && v != w ensures Apart(workers[v], k) {
      if w in workers {
        assert Apart(workers[v], workers[w]);
      }
    }
    ApartUpdate(workers, w, k);
  }

  /** A worker does not see changes to rows that it does not hold. */
  lemma OthersOk(rows: map<string, Row>, rows': map<string, Row>, k: Worker, now: int)
    requires WorkerOk(rows, k, now)
    requires forall i :: 0 <= i < |Held(k)| ==> Held(k)[i].id in rows' && rows'[Held(k)[i].id] == rows[Held(k)[i].id]
    ensures WorkerOk(rows', k, now)
  {
    forall i | 0 <= i < |Held(k)| ensures EventOk(rows', k, Held(k)[i]) {
      assert EventOk(rows, k, Held(k)[i]);
    }
  }

  lemma TickKeeps(s: State, to: int)
    requires Inv(s) && Enabled(s, Tick(to))
    ensures Inv(Do(s, Tick(to)))
  {
  }

  lemma CreateKeeps(s: State, id: string)
    requires Inv(s) && Enabled(s, Create(id))
    ensures Inv(Do(s, Create(id)))
  {
    var s' := Do(s, Create(id));
    forall w | w in s.workers ensures WorkerOk(s'.rows, s.workers[w], s.now) {
      assert WorkerOk(s.rows, s.workers[w], s.now);
      assert forall i :: 0 <= i < |Held(s.workers[w])| ==> EventOk(s.rows, s.workers[w], Held(s.workers[w])[i]);
      OthersOk(s.rows, s'.rows, s.workers[w], s.now);
    }
  }

  /** Steps that take nothing and write no row. */
  lemma ReleaseKeeps(s: State, w: string, k: Worker)
    requires Inv(s) && WorkerOk(s.rows, k, s.now) && Held(k) == []
    ensures Inv(s.(workers := s.workers[w := k]))
  {
    ApartLess(s.workers, w, k);
  }

  lemma LockShows(s: State, v: string, j: nat)
    requires v in s.workers && s.workers[v].Locking? && j < |Held(s.workers[v])|
    ensures Locked(s, Held(s.workers[v])[j].id)
  {
    assert Holds(s.workers[v], Held(s.workers[v])[j].id);
  }

  /** A selected row was held by nobody: not locked, and not in a lease that still runs. */
  lemma SelectedIsFree(s: State, w: string, clock: int, ids: seq<string>, i: nat, v: string, j: nat)
    requires Inv(s) && Enabled(s, Select(w, clock, ids)) && i < |ids| && v in s.workers && j < |Held(s.workers[v])|
    ensures Held(s.workers[v])[j].id != ids[i]
  {
    var k := s.workers[v];
    assert WorkerOk(s.rows, k, s.now) && EventOk(s.rows, k, Held(k)[j]);
    if k.Locking? {
      LockShows(s, v, j);
    }
  }

  lemma SelectKeeps(s: State, w: string, clock: int, ids: seq<string>)
    requires Inv(s) && Enabled(s, Select(w, clock, ids))
    ensures Inv(Do(s, Select(w, clock, ids)))
  {
    var k := Locking(s.workers[w].began, Events(s.rows, ids));
    assert WorkerOk(s.rows, s.workers[w], s.now);
    assert WorkerOk(s.rows, k, s.now);
    forall v | v in s.workers && v != w ensures Apart(s.workers[v], k) {
      forall a, b | 0 <= a < |Held(s.workers[v])| &&
        0 <= b < |Held(k)| ensures Held(s.workers[v])[a].id != Held(k)[b].id {
        SelectedIsFree(s, w, clock, ids, b, v, a);
      }
    }
    ApartUpdate(s.workers, w, k);
  }

  lemma CommitKeeps(s: State, w: string)
    requires Inv(s) && Enabled(s, Commit(w))
    ensures Inv(Do(s, Commit(w)))
  {
    var s', k := Do(s, Commit(w)), s.workers[w];
    var k' := Publishing(k.began, k.batch);
    assert WorkerOk(s.rows, k, s.now);
    forall i | 0 <= i < |Held(k')| ensures EventOk(s'.rows, k', Held(k')[i]) {
      assert EventOk(s.rows, k, Held(k)[i]) && Holds(k, Held(k)[i].id);
    }
    forall v | v in s.workers && v != w ensures WorkerOk(s'.rows, s.workers[v], s.now) {
      assert Apart(s.workers[v], k) && WorkerOk(s.rows, s.workers[v], s.now);
      assert forall i :: 0 <= i < |Held(s.workers[v])| ==> EventOk(s.rows, s.workers[v], Held(s.workers[v])[i]);
      OthersOk(s.rows, s'.rows, s.workers[v], s.now);
    }
    ApartLess(s.workers, w, k');
  }

  /** The row of the event in hand changes or goes; every other row stays. */
  lemma OutcomeKeeps(s: State, w: string, rows': map<string, Row>)
    requires Inv(s) && WorkerOf(s, w).Publishing? && s.workers[w].batch != []
    requires var id := s.workers[w].batch[0].id; forall x :: x in s.rows && x != id ==>
      x in rows' && rows'[x] == s.rows[x]
    requires RowsOk(rows', s.now)
    ensures Inv(s.(rows := rows', workers := s.workers[w := Publishing(s.workers[w].began, s.workers[w].batch[1..])]))
  {
    var k := s.workers[w];
    var k' := Publishing(k.began, k.batch[1..]);
    assert WorkerOk(s.rows, k, s.now);
    assert WorkerOk(s.rows, k', s.now) by {
      forall i | 0 <= i < |Held(k')| ensures EventOk(s.rows, k', Held(k')[i]) {
        assert EventOk(s.rows, k, Held(k)[i + 1]);
      }
    }
    assert forall i :: 0 <= i < |Held(k')| ==> EventOk(s.rows, k', Held(k')[i]) && Held(k')[i].id != Held(k)[0].id;
    OthersOk(s.rows, rows', k', s.now);
    forall v | v in s.workers && v != w ensures WorkerOk(rows', s.workers[v], s.now) {
      assert Apart(s.workers[v], k) && WorkerOk(s.rows, s.workers[v], s.now);
      assert forall i :: 0 <= i < |Held(s.workers[v])| ==>
        EventOk(s.rows, s.workers[v], Held(s.workers[v])[i]) && Held(s.workers[v])[i].id != Held(k)[0].id;
      OthersOk(s.rows, rows', s.workers[v], s.now);
    }
    ApartLess(s.workers, w, k');
  }

  lemma {:induction false} StepKeeps(s: State, a: Step)
    requires Inv(s) && Enabled(s, a)
    ensures Inv(Do(s, a))
  {
    hide Inv;
    match a
    case Tick(to) => TickKeeps(s, to);
    case Create(id) => CreateKeeps(s, id);
    case Begin(w) => FreshWorkers(s); ReleaseKeeps(s, w, Begun(s.now));
    case Select(w, clock, ids) => SelectKeeps(s, w, clock, ids);
    case Commit(w) => CommitKeeps(s, w);
    case Published(w, deleted) =>
      RowsStayOk(s, w);
      OutcomeKeeps(s, w, if deleted then s.rows - {s.workers[w].batch[0].id} else s.rows);
    case Refused(w, written) =>
      RowsStayOk(s, w);
      OutcomeKeeps(s, w, if written then WriteFailure(s.rows, s.workers[w].batch[0], s.maxRetries, s.now) else s.rows);
    case Done(w) => FreshWorkers(s); ReleaseKeeps(s, w, Idle);
    case Crash(w) => FreshWorkers(s); ReleaseKeeps(s, w, Idle);
  }

  lemma FreshWorkers(s: State)
    ensures WorkerOk(s.rows, Idle, s.now) && WorkerOk(s.rows, Begun(s.now), s.now)
  {
  }

  lemma RowsStayOk(s: State, w: string)
    requires Inv(s) && WorkerOf(s, w).Publishing? && s.workers[w].batch != []
    ensures RowsOk(s.rows, s.now) && RowsOk(s.rows - {s.workers[w].batch[0].id}, s.now)
    ensures RowsOk(WriteFailure(s.rows, s.workers[w].batch[0], s.maxRetries, s.now), s.now)
  {
  }

  lemma {:induction false} RunKeeps(s: State, steps: seq<Step>)
    requires Inv(s) && IsRun(s, steps)
    ensures Inv(Run(s, steps))
    decreases |steps|
  {
    if steps != [] {
      hide Inv, Enabled, Do;
      StepKeeps(s, steps[0]);
      RunKeeps(Do(s, steps[0]), steps[1..]);
    }
  }

  lemma StartIsOk(s: State)
    requires Start(s)
    ensures Inv(s)
  {
  }

  // ---------- the results ----------

  /** In no run is an event in the hands of two workers at once. */
  lemma LeaseExclusion(s: State, steps: seq<Step>, v: string, w: string, id: string)
    requires Start(s) && IsRun(s, steps) && v != w
    ensures var end := Run(s, steps); !(Holds(WorkerOf(end, v), id) && Holds(WorkerOf(end, w), id))
  {
    StartIsOk(s);
    RunKeeps(s, steps);
    HoldersAreOne(Run(s, steps), v, w, id);
  }

  lemma HoldersAreOne(s: State, v: string, w: string, id: string)
    requires Inv(s) && v != w
    ensures !(Holds(WorkerOf(s, v), id) && Holds(WorkerOf(s, w), id))
  {
    assert v in s.workers && w in s.workers ==> Apart(s.workers[v], s.workers[w]);
  }

  /** The unguarded write after a failed publish counts exactly one more attempt, on the row its own claim marked. */
  lemma FailureCountsOnce(s: State, steps: seq<Step>, w: string)
    requires Start(s) && IsRun(s, steps) && Enabled(Run(s, steps), Refused(w, true))
    ensures var end := Run(s, steps);
      var e := end.workers[w].batch[0];
      && e.id in end.rows && end.rows[e.id].status == PROCESSING
      && Do(end, Refused(w, true)).rows == end.rows[e.id := Row(
           if end.rows[e.id].retry >= end.maxRetries then FAILED
             else PENDING, end.rows[e.id].retry + 1, end.rows[e.id].createdAt, end.now)]
  {
    StartIsOk(s);
    RunKeeps(s, steps);
    var end := Run(s, steps);
    var k := end.workers[w];
    assert WorkerOk(end.rows, k, end.now) && EventOk(end.rows, k, Held(k)[0]);
  }

  /**
   A row that was marked more than a minute ago is free: nobody publishes its event, and a
   query of this moment may select it.
   */
  lemma ExpiredIsClaimable(s: State, steps: seq<Step>, id: string, w: string)
    requires Start(s) && IsRun(s, steps)
    requires var end := Run(s, steps);
      id in end.rows && end.rows[id].status == PROCESSING && end.rows[id].updatedAt + 60_000_000_000 < end.now
    ensures var end := Run(s, steps);
      && !(WorkerOf(end, w).Publishing? && Holds(WorkerOf(end, w), id))
      && (WorkerOf(end, w).Begun? && !Locked(end, id) ==> Enabled(end, Select(w, end.now, [id])))
  {
    StartIsOk(s);
    RunKeeps(s, steps);
    var end := Run(s, steps);
    NoExpiredHolder(end, id, w);
    if WorkerOf(end, w).Begun? {
      assert WorkerOk(end.rows, end.workers[w], end.now);
    }
  }

  /**
   What a query selects: rows that nobody has locked, each of them waiting, or marked more
   than a minute before the query by a worker that no longer publishes its event.
   */
  lemma QuerySelectsFree(s: State, steps: seq<Step>, w: string, clock: int, ids: seq<string>, i: nat, v: string)
    requires Start(s) && IsRun(s, steps) && Enabled(Run(s, steps), Select(w, clock, ids)) && i < |ids|
    ensures var end := Run(s, steps);
      && ids[i] in end.rows && !Holds(WorkerOf(end, v), ids[i])
      && (end.rows[ids[i]].status == PENDING ||
          (end.rows[ids[i]].status == PROCESSING && end.rows[ids[i]].updatedAt + 60_000_000_000 < clock))
  {
    StartIsOk(s);
    RunKeeps(s, steps);
    var end := Run(s, steps);
    if WorkerOf(end, v).Publishing? && Holds(WorkerOf(end, v), ids[i]) {
      PublishingIsFresh(end, ids[i], v);
    }
  }

  /** While an event is being published its lease has not run out. */
  lemma PublishingIsFresh(s: State, id: string, w: string)
    requires Inv(s) && WorkerOf(s, w).Publishing? && Holds(WorkerOf(s, w), id)
    ensures id in s.rows && s.rows[id].status == PROCESSING && s.rows[id].updatedAt == s.workers[w].began &&
      s.now <= s.rows[id].updatedAt + MINUTE
  {
    var k := s.workers[w];
    var i :| 0 <= i < |Held(k)| && Held(k)[i].id == id;
    assert WorkerOk(s.rows, k, s.now) && EventOk(s.rows, k, Held(k)[i]);
  }

  lemma NoExpiredHolder(s: State, id: string, w: string)
    requires Inv(s) && id in s.rows && s.rows[id].updatedAt + MINUTE < s.now
    ensures !(WorkerOf(s, w).Publishing? && Holds(WorkerOf(s, w), id))
  {
    if WorkerOf(s, w).Publishing? && Holds(WorkerOf(s, w), id) {
      PublishingIsFresh(s, id, w);
    }
  }

  /** The four steps by which a worker takes over one event at time `t`. */
  function TakeOver(w: string, t: int, id: string): seq<Step> {
    [Tick(t), Begin(w), Select(w, t, [id]), Commit(w)]
  }

  lemma Reclaim(s: State, w: string, t: int, id: string)
    requires WorkerOf(s, w).Idle? && s.now <= t && (forall v :: v in s.workers ==> InTime(s.workers[v], t))
    requires id in s.rows && Eligible(s.rows[id], t - MINUTE) && !Locked(s, id)
    ensures IsRun(s, TakeOver(w, t, id))
    ensures Run(s, TakeOver(w, t, id)).workers == s.workers[w := Publishing(t, [Event(id, s.rows[id].retry)])]
  {
    var e := Event(id, s.rows[id].retry);
    var s1 := Do(s, Tick(t));
    var s2 := Do(s1, Begin(w));
    StillFree(s, s2, w, id);
    assert Enabled(s2, Select(w, t, [id]));
    var s3 := Do(s2, Select(w, t, [id]));
    assert Events(s.rows, [id]) == [e];
    assert s3.workers[w] == Locking(t, [e]);
    var s4 := Do(s3, Commit(w));
    FourSteps(s, Tick(t), Begin(w), Select(w, t, [id]), Commit(w));
    assert s4.workers == s.workers[w := Publishing(t, [e])];
  }

  lemma StillFree(s: State, s2: State, w: string, id: string)
    requires !Locked(s, id) && s2.workers == s.workers[w := Begun(s2.now)]
    ensures !Locked(s2, id)
  {
  }

  lemma RunBy(s: State, a: Step, rest: seq<Step>)
    requires Enabled(s, a) && IsRun(Do(s, a), rest)
    ensures IsRun(s, [a] + rest) && Run(s, [a] + rest) == Run(Do(s, a), rest)
  {
    hide Enabled, Do;
    assert ([a] + rest)[1..] == rest;
  }

  lemma FourSteps(s: State, a: Step, b: Step, c: Step, d: Step)
    requires Enabled(s, a) && Enabled(Do(s, a), b) && Enabled(Do(Do(s, a), b), c) && Enabled(Do(Do(Do(s, a), b), c), d)
    ensures IsRun(s, [a, b, c, d]) && Run(s, [a, b, c, d]) == Do(Do(Do(Do(s, a), b), c), d)
  {
    hide Enabled, Do;
    var s1, s2, s3 := Do(s, a), Do(Do(s, a), b), Do(Do(Do(s, a), b), c);
    assert IsRun(Do(s3, d), []) && Run(Do(s3, d), []) == Do(s3, d);
    hide *;
    RunBy(s3, d, []);
    RunBy(s2, c, [d]);
    RunBy(s1, b, [c] + [d]);
    RunBy(s, a, [b] + ([c] + [d]));
    assert [d] + [] == [d] && [a] + ([b] + ([c] + [d])) == [a, b, c, d];
  }

  /** One claim from its beginning to its commit; time passes before and after the query. */
  function Claim(w: string, t1: int, clock: int, ids: seq<string>, t2: int): seq<Step> {
    [Begin(w), Tick(t1), Select(w, clock, ids), Tick(t2), Commit(w)]
  }

  /** The selected rows are marked with the time the claim began, and the worker remembers their retry counts. */
  lemma ClaimMarks(s: State, w: string, t1: int, clock: int, ids: seq<string>, t2: int)
    requires IsRun(s, Claim(w, t1, clock, ids, t2))
    ensures var end := Run(s, Claim(w, t1, clock, ids, t2));
      && end.now == t2 && w in end.workers && end.workers[w].Publishing? && end.workers[w].began == s.now
      && |end.workers[w].batch| == |ids|
      && (forall i :: 0 <= i < |ids| ==>
            ids[i] in s.rows && end.workers[w].batch[i] == Event(ids[i], s.rows[ids[i]].retry))
      && end.rows == map id | id in s.rows ::
           if id in ids then s.rows[id].(status := PROCESSING, updatedAt := s.now) else s.rows[id]
  {
    var rest := [Tick(t1), Select(w, clock, ids), Tick(t2), Commit(w)];
    assert [Begin(w)] + rest == Claim(w, t1, clock, ids, t2);
    assert [Tick(t1)] + rest[1..] == rest;
    assert [Select(w, clock, ids)] + rest[2..] == rest[1..];
    assert [Tick(t2)] + rest[3..] == rest[2..];
    assert [Commit(w)] + [] == rest[3..];
    var s1 := RunHead(s, Begin(w), rest);
    var s2 := RunHead(s1, Tick(t1), rest[1..]);
    var s3 := RunHead(s2, Select(w, clock, ids), rest[2..]);
    var s4 := RunHead(s3, Tick(t2), rest[3..]);
    var s5 := RunHead(s4, Commit(w), []);
    assert s4.rows == s.rows && s4.workers[w] == Locking(s.now, Events(s.rows, ids));
    assert forall id :: Holds(s4.workers[w], id) <==> id in ids by {
      assert forall i :: 0 <= i < |ids| ==> Held(s4.workers[w])[i].id == ids[i];
    }
  }

  lemma RunHead(s: State, a: Step, rest: seq<Step>) returns (t: State)
    requires IsRun(s, [a] + rest)
    ensures Enabled(s, a) && t == Do(s, a) && IsRun(t, rest) && Run(s, [a] + rest) == Run(t, rest)
  {
    assert ([a] + rest)[1..] == rest;
    t := Do(s, a);
    hide Enabled, Do;
  }

  /**
   What a crashed worker was publishing is not lost: it stays in the table, and once the
   lease has run out any idle worker can take it over.
   */
  lemma CrashedEventIsReclaimed(s: State, steps: seq<Step>, v: string, id: string, w: string, t: int)
    requires Start(s) && IsRun(s, steps)
    requires var end := Run(s, steps); WorkerOf(end, v).Publishing? && Holds(WorkerOf(end, v), id)
    requires var end := Run(s, steps);
      var crashed := Do(end, Crash(v));
      && WorkerOf(crashed, w).Idle? && end.now <= t && end.workers[v].began + 60_000_000_000 < t
      && forall x :: x in crashed.workers ==> InTime(crashed.workers[x], t)
    ensures var end := Run(s, steps);
      var crashed := Do(end, Crash(v));
      && id in end.rows && end.rows[id].status == PROCESSING && IsRun(crashed, TakeOver(w, t, id))
      && Run(crashed, TakeOver(w, t, id)).workers ==
           crashed.workers[w := Publishing(t, [Event(id, end.rows[id].retry)])]
  {
    StartIsOk(s);
    RunKeeps(s, steps);
    var end := Run(s, steps);
    var crashed := Do(end, Crash(v));
    PublishingIsFresh(end, id, v);
    PublishingIsUnlocked(end, id, v);
    hide Inv, InTime, Holds, IsRun, Run;
    Reclaim(crashed, w, t, id);
  }

  lemma PublishingIsUnlocked(s: State, id: string, v: string)
    requires Inv(s) && WorkerOf(s, v).Publishing? && Holds(WorkerOf(s, v), id)
    ensures !Locked(s, id) && !Locked(Do(s, Crash(v)), id)
  {
    forall x | x in s.workers && x != v ensures !Holds(s.workers[x], id) {
      HoldersAreOne(s, v, x, id);
    }
  }
}
