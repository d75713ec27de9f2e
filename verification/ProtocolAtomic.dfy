/**
 A scheduler that reads and writes in one step.  Its runs keep the status order, so
 everything that rests on the order holds of them.
 */
module ProtocolAtomic {
  import opened Prelude
  import B = WalletBooks
  import opened Protocol
  import R = ProtocolRuns
  import opened ProtocolStatus
  import K = ProtocolWork

  /** The scheduler's read and, when it decides on one, its write, with nothing in between. */
  function DecideAtOnce(s: State, p: Pid, now: int): State
    requires EnabledSched(s, p, SRead(now))
  {
    var mid := SchedGoto(s, p, Decide(s, Subject(s, p), now));
    if mid.schedulers[p].pc.AtSchedule? || mid.schedulers[p].pc.AtExpire? then WriteDecision(mid, p) else mid
  }

  /** Any step but a read or a write of the scheduler; if `stored`, re-publications do not get lost. */
  ghost predicate Other(s: State, step: Step, stored: bool) {
    Enabled(s, step) && !(step.Schedule? && (step.d.SRead? || step.d.SWrite?)) && (stored ==> K.Republished(step))
  }

  ghost predicate AtomicNext(s: State, s': State, stored: bool) {
    || (exists step :: Other(s, step, stored) && s' == Do(s, step))
    || (exists p, now :: EnabledSched(s, p, SRead(now)) && s' == DecideAtOnce(s, p, now))
  }

  ghost predicate AtomicRun(b: B.Books, states: seq<State>, stored: bool) {
    && states != [] && states[0] == Start(b)
    && forall i :: 0 <= i < |states| - 1 ==> AtomicNext(states[i], states[i + 1], stored)
  }

  /** A guarded run, and one in which re-publications are stored if they are to be. */
  ghost predicate Good(b: B.Books, r: Run, stored: bool) {
    GuardedRun(b, r) && (stored ==> forall i :: 0 <= i < |r.steps| ==> K.Republished(r.steps[i]))
  }

  lemma Extend(b: B.Books, r: Run, step: Step, stored: bool) returns (e: Run)
    requires Good(b, r, stored) && Enabled(r.states[|r.states| - 1], step) && Guarded(r.states[|r.states| - 1], step)
    requires stored ==> K.Republished(step)
    ensures Good(b, e, stored) && |e.states| == |r.states| + 1 && r.states <= e.states
    ensures e.states[|r.states|] == Do(r.states[|r.states| - 1], step)
  {
    e := R.Extend(b, r, step);
    hide Do, Enabled, Guarded, IsRun, K.Republished;
    forall i | 0 <= i < |e.steps| ensures Guarded(e.states[i], e.steps[i]) {
      if i < |r.steps| {
        assert Guarded(r.states[i], r.steps[i]);
      }
    }
  }

  lemma DecideInTwo(s: State, p: Pid, now: int)
    requires EnabledSched(s, p, SRead(now))
    ensures var mid := Do(s, Schedule(p, SRead(now)));
      && Enabled(s, Schedule(p, SRead(now))) && Guarded(s, Schedule(p, SRead(now)))
      && (mid == DecideAtOnce(s, p, now)
          || (Enabled(mid, Schedule(p, SWrite)) && Guarded(mid, Schedule(p, SWrite))
              && Do(mid, Schedule(p, SWrite)) == DecideAtOnce(s, p, now)))
  {
  }

  lemma OtherIsGuarded(s: State, step: Step, stored: bool)
    requires Other(s, step, stored)
    ensures Enabled(s, step) && Guarded(s, step) && (stored ==> K.Republished(step))
  {
  }

  lemma SchedulerSteps(p: Pid, now: int)
    ensures K.Republished(Schedule(p, SRead(now))) && K.Republished(Schedule(p, SWrite))
  {
  }

  /** One atomic step is one or two steps with guarded writes. */
  lemma ExtendAtomic(b: B.Books, r: Run, s': State, stored: bool) returns (e: Run)
    requires Good(b, r, stored) && |r.states| > 0 && AtomicNext(r.states[|r.states| - 1], s', stored)
    ensures Good(b, e, stored) && |r.states| < |e.states| && r.states <= e.states && e.states[|e.states| - 1] == s'
  {
    var s := r.states[|r.states| - 1];
    hide Good, Do, Enabled, Guarded, EnabledSched, DecideAtOnce, Other;
    if step :| Other(s, step, stored) && s' == Do(s, step) {
      OtherIsGuarded(s, step, stored);
      e := Extend(b, r, step, stored);
    } else {
      var p, now :| EnabledSched(s, p, SRead(now)) && s' == DecideAtOnce(s, p, now);
      DecideInTwo(s, p, now);
      SchedulerSteps(p, now);
      e := Extend(b, r, Schedule(p, SRead(now)), stored);
      if e.states[|r.states|] != s' {
        e := Extend(b, e, Schedule(p, SWrite), stored);
      }
    }
  }

  lemma AtomicFront(b: B.Books, states: seq<State>, stored: bool)
    requires AtomicRun(b, states, stored) && |states| > 1
    ensures AtomicRun(b, states[..|states| - 1], stored) &&
      AtomicNext(states[|states| - 2], states[|states| - 1], stored)
  {
    hide AtomicNext, Start;
    var n, front := |states| - 1, states[..|states| - 1];
    assert AtomicNext(states[n - 1], states[n - 1 + 1], stored);
    forall i | 0 <= i < |front| - 1 ensures AtomicNext(front[i], front[i + 1], stored) {
      assert AtomicNext(states[i], states[i + 1], stored);
    }
  }

  lemma AtomicStarts(b: B.Books, states: seq<State>, stored: bool)
    requires AtomicRun(b, states, stored)
    ensures states != [] && (|states| == 1 ==> Good(b, Run(states, []), stored))
  {
    hide Start, AtomicNext;
  }

  /** Every run with an atomic scheduler is, state by state, part of a run in which all writes are guarded. */
  lemma {:induction false} AtomicRunsAreGuarded(b: B.Books, states: seq<State>, stored: bool)
      returns (r: Run, at: seq<nat>)
    requires AtomicRun(b, states, stored)
    ensures Good(b, r, stored) && |at| == |states| && at[|at| - 1] == |r.states| - 1
    ensures forall i :: 0 <= i < |at| ==> at[i] < |r.states| && r.states[at[i]] == states[i]
    ensures forall i, j :: 0 <= i < j < |at| ==> at[i] < at[j]
    decreases |states|
  {
    hide *;
    var n := |states| - 1;
    AtomicStarts(b, states, stored);
    if n == 0 {
      r, at := Run(states, []), [0];
    } else {
      AtomicFront(b, states, stored);
      var q;
      q, at := AtomicRunsAreGuarded(b, states[..n], stored);
      r := ExtendAtomic(b, q, states[n], stored);
      at := at + [|r.states| - 1];
    }
  }

  /**
   With a scheduler that handles an intent in one atomic step: over any stretch of a
   run every status only moves forward, terminal ones stay, and no intent is claimed
   twice; each ledger entry made by then names an executed intent and carries the type
   and status the database shows later on, entries for one intent agree, and no
   validator rejects an event.
   */
  lemma AtomicSchedulerIsSafe(b: B.Books, states: seq<State>, stored: bool, i: nat, j: nat, id: Id, k: nat)
    requires AtomicRun(b, states, stored) && i <= j < |states|
    ensures id in states[i].intents ==>
      && id in states[j].intents && Later(states[i].intents[id].status, states[j].intents[id].status)
      && (states[i].intents[id].status.Terminal() ==> states[j].intents[id].status == states[i].intents[id].status)
      && 0 <= Get(states[j].claims, id) <= 1
    ensures k < |states[i].ledger| ==>
      var e, s := states[i].ledger[k], states[j];
      && k < |s.ledger| && s.ledger[k] == e
      && e.intent in s.intents && s.intents[e.intent].kind == e.kind && s.intents[e.intent].status == e.status
      && e.status.Terminal() && Get(s.claims, e.intent) == 1
      && (forall l :: 0 <= l < |s.ledger| && s.ledger[l].intent == e.intent ==> s.ledger[l] == e)
    ensures forall p :: p in states[j].validators ==> !states[j].validators[p].pc.AtReject?
  {
    var r, at := AtomicRunsAreGuarded(b, states, stored);
    hide GuardedRun;
    assert at[i] <= at[j];
    NeverRejected(b, r, at[j]);
    if id in states[i].intents {
      StatusMovesForward(b, r, at[i], at[j], id);
    }
    if k < |states[i].ledger| {
      LedgerAgrees(b, r, at[i], at[j], k);
    }
  }

  /** Such a scheduler loses no work either, however many schedulers a message is delivered to at once. */
  lemma AtomicSchedulerLosesNoWork(b: B.Books, states: seq<State>, i: nat, id: Id)
    requires AtomicRun(b, states, true) && i < |states|
    requires id in states[i].intents && states[i].intents[id].status.SCHEDULED?
    ensures K.HasWork(states[i], id)
  {
    var r, at := AtomicRunsAreGuarded(b, states, true);
    K.GuardedRunsAreCovered(b, r);
    assert IsRun(b, r);
    hide *;
    K.NoLostWork(b, r, at[i], id);
  }
}
