/** Rows of the outbox table and which of them a worker may claim. */
module Outbox {
  datatype Status = PENDING | PROCESSING | FAILED

  /** Times are in nanoseconds. */
  datatype Row = Row(status: Status, retry: nat, createdAt: int, updatedAt: int)

  const MINUTE: int := 60_000_000_000

  /** Waiting, or stuck in processing since before the threshold. */
  predicate Eligible(row: Row, threshold: int) {
    row.status == PENDING || (row.status == PROCESSING && row.updatedAt < threshold)
  }

  /** What a worker writes after a publish that failed. */
  function AfterFailure(row: Row, retry: nat, maxRetries: nat, now: int): Row {
    row.(status := if retry >= maxRetries then FAILED else PENDING, retry := retry + 1, updatedAt := now)
  }

  predicate Distinct(ids: seq<string>) {
    forall i, j :: 0 <= i < j < |ids| ==> ids[i] != ids[j]
  }
}
