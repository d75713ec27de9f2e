/** Submitting an intent: one transaction writes the intent and its outbox event. */
module IntentService {
  import opened Prelude
  import opened Protocol
  import opened ServiceRuns

  datatype Request = Request(kind: Kind, order: Option<Order>, deadline: Option<int>)

  datatype CreateFaults = CreateFaults(begin: bool, insertIntent: bool, insertEvent: bool, commit: Write)

  predicate Applied(f: CreateFaults) {
    !f.begin && !f.insertIntent && !f.insertEvent && !f.commit.NotWritten?
  }

  class IntentStore {
    var s: State

    constructor (s: State)
      ensures this.s == s
    {
      this.s := s;
    }

    /**
     Both rows or none, whatever statement fails: `id` and `row` are the fresh identifiers
     of the intent and of its outbox event, `f` says which statements fail.
     */
    method Create(req: Request, id: Id, row: RowId, f: CreateFaults)
        returns (created: Option<Id>, ghost steps: seq<Step>)
      requires Enabled(s, Step.Create(id, req.kind, req.order, req.deadline, row))
      modifies this
      ensures Leads(old(s), steps, s) && Lossless(steps)
      ensures created.Some? ==> created.value == id && Applied(f)
      ensures Applied(f) ==>
        && id in s.intents && s.intents[id] == Row(req.kind, req.order, PENDING, req.deadline)
        && row in s.outbox && s.outbox[row] == OutboxRow(id, OUTBOX_PENDING, 0)
        && s == old(s).(intents := old(s).intents[id := s.intents[id]], outbox := old(s).outbox[row := s.outbox[row]])
      ensures !Applied(f) ==> s == old(s)
      ensures created.None? <==> !(Applied(f) && f.commit.Written?)
    {
      steps := [];
      if f.begin {
        return None, steps;
      }
      // the transaction's own view of the two tables
      var intents, outbox := s.intents, s.outbox;
      if f.insertIntent {
        return None, steps;
      }
      intents := intents[id := Row(req.kind, req.order, PENDING, req.deadline)];
      if f.insertEvent {
        return None, steps;
      }
      outbox := outbox[row := OutboxRow(id, OUTBOX_PENDING, 0)];
      if f.commit.NotWritten? {
        return None, steps;
      }
      ghost var step := Step.Create(id, req.kind, req.order, req.deadline, row);
      LeadsBy(s, step, [], Do(s, step));
      steps := [step] + [];
      s := s.(intents := intents, outbox := outbox);
      created := if f.commit.Written? then Some(id) else None;
    }
  }
}
