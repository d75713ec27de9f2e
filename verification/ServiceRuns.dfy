/**
 The services' handlers as the sequential programs they are, over the shared tables and
 queues, with the faults that each statement can meet.  Every handler is a run of the
 machine of Protocol, so what holds over its runs holds of these programs.
 */
module ServiceRuns {
  import opened Protocol
  import S = ProtocolStatus
  import K = ProtocolWork

  /** A write succeeds, or fails, or is applied although the writer sees an error. */
  datatype Write = Written | NotWritten | WrittenUnseen

  /** A publication that the sender sees succeed has been stored. */
  datatype Publication = Seen | Unseen | Lost

  predicate Stored(d: Publication) { !d.Lost? }

  /** The steps lead from one state to the other, and every write among them is guarded. */
  ghost predicate Leads(s: State, steps: seq<Step>, t: State)
    decreases |steps|
  {
    if steps == [] then s == t
    else Enabled(s, steps[0]) && S.Guarded(s, steps[0]) && Leads(Do(s, steps[0]), steps[1..], t)
  }

  /** No re-publication among the steps gets lost. */
  predicate Lossless(steps: seq<Step>) {
    forall i :: 0 <= i < |steps| ==> K.Republished(steps[i])
  }

  lemma LeadsBy(s: State, step: Step, steps: seq<Step>, t: State)
    requires Enabled(s, step) && S.Guarded(s, step) && Leads(Do(s, step), steps, t)
    ensures Leads(s, [step] + steps, t)
    ensures Lossless(steps) && K.Republished(step) ==> Lossless([step] + steps)
  {
    hide Enabled, S.Guarded, Do, K.Republished;
    assert ([step] + steps)[1..] == steps;
  }

  lemma {:induction false} LeadsThen(s: State, steps: seq<Step>, t: State, more: seq<Step>, u: State)
    requires Leads(s, steps, t) && Leads(t, more, u)
    ensures Leads(s, steps + more, u)
    ensures Lossless(steps) && Lossless(more) ==> Lossless(steps + more)
    decreases |steps|
  {
    hide Enabled, S.Guarded, Do, K.Republished;
    if steps == [] {
      assert steps + more == more;
    } else {
      LeadsThen(Do(s, steps[0]), steps[1..], t, more, u);
      assert steps + more == [steps[0]] + (steps[1..] + more);
      LeadsBy(s, steps[0], steps[1..] + more, u);
    }
  }
}
