/** Runs of the protocol, one step longer. */
module ProtocolRuns {
  import B = WalletBooks
  import opened Protocol

  lemma Extend(b: B.Books, r: Run, step: Step) returns (e: Run)
    requires IsRun(b, r) && Enabled(r.states[|r.states| - 1], step)
    ensures IsRun(b, e) && e == Run(r.states + [Do(r.states[|r.states| - 1], step)], r.steps + [step])
  {
    e := Run(r.states + [Do(r.states[|r.states| - 1], step)], r.steps + [step]);
    hide Do, Enabled, Start;
    forall i | 0 <= i < |e.steps| ensures Enabled(e.states[i], e.steps[i]) &&
      e.states[i + 1] == Do(e.states[i], e.steps[i]) {
      if i < |r.steps| {
        assert Enabled(r.states[i], r.steps[i]) && r.states[i + 1] == Do(r.states[i], r.steps[i]);
      }
    }
  }
}
