/**
 The outbox table and what each statement of the publisher, and a replay, writes into it. A row's place
 in the sequence is its id and its place in creation order.
 */
module Outbox {
  import opened Domain
  import opened Server

  // `leased` says that `claim_until` lies in the future; `owner` outlives it.
  datatype OutboxRow = OutboxRow(
    event: Event, published: bool, deadLettered: bool, owner: Option<Id>, leased: bool, attempts: nat)

  type Table = seq<OutboxRow>

  predicate Precedes(rows: Table, j: nat, i: nat)
    requires j < |rows| && i < |rows|
  {
    rows[j].event.orderId == rows[i].event.orderId && rows[j].event.version < rows[i].event.version
  }

  predicate Waiting(row: OutboxRow) {
    !row.published && !row.deadLettered
  }

  // Free to take, and no earlier event of the same order still waits.
  predicate Claimable(rows: Table, i: nat)
    requires i < |rows|
  {
    && Waiting(rows[i]) && !rows[i].leased
    && forall j :: 0 <= j < |rows| && Precedes(rows, j, i) ==> !Waiting(rows[j])
  }

  function Fresh(event: Event): OutboxRow {
    OutboxRow(event, false, false, None, false, 0)
  }

  function Claimed(row: OutboxRow, worker: Id): OutboxRow {
    row.(owner := Some(worker), leased := true)
  }

  function Marked(row: OutboxRow): OutboxRow {
    row.(published := true, owner := None, leased := false)
  }

  // Guarded on the claim, unlike the two outcome writes.
  function Released(row: OutboxRow, worker: Id): OutboxRow {
    if row.owner == Some(worker) && !row.published then row.(owner := None, leased := false) else row
  }

  // Everything is written from the copy the worker claimed: `attempts` is the count on that copy.
  function Failed(row: OutboxRow, attempts: nat, maxAttempts: nat): OutboxRow {
    row.(attempts := attempts + 1, deadLettered := attempts + 1 >= maxAttempts, owner := None, leased := false)
  }

  function Expired(row: OutboxRow): OutboxRow {
    row.(leased := false)
  }

  predicate CanReplay(row: OutboxRow) {
    row.published && !row.deadLettered
  }

  function Replayed(row: OutboxRow): OutboxRow {
    row.(published := false, owner := None, leased := false, attempts := 0)
  }

  function ClaimedAll(rows: Table, batch: set<nat>, worker: Id): (after: Table)
    ensures |after| == |rows|
    ensures forall i :: 0 <= i < |rows| ==> after[i] == if i in batch then Claimed(rows[i], worker) else rows[i]
  {
    seq(|rows|, i requires 0 <= i < |rows| => if i in batch then Claimed(rows[i], worker) else rows[i])
  }

  function ReleasedAll(rows: Table, ids: set<nat>, worker: Id): (after: Table)
    ensures |after| == |rows|
    ensures forall i :: 0 <= i < |rows| ==> after[i] == if i in ids then Released(rows[i], worker) else rows[i]
  {
    seq(|rows|, i requires 0 <= i < |rows| => if i in ids then Released(rows[i], worker) else rows[i])
  }

  // A row as the worker claimed it.
  datatype Copy = Copy(id: nat, attempts: nat)

  function CopiesOf(rows: Table, batch: set<nat>, from: nat): (copies: seq<Copy>)
    requires from <= |rows|
    ensures forall c <- copies :: from <= c.id < |rows| && c.id in batch && c.attempts == rows[c.id].attempts
    ensures forall i, j :: 0 <= i < j < |copies| ==> copies[i].id < copies[j].id
    ensures forall i <- batch :: from <= i < |rows| ==> Copy(i, rows[i].attempts) in copies
    decreases |rows| - from
  {
    if from == |rows| then []
    else (if from in batch then [Copy(from, rows[from].attempts)] else []) + CopiesOf(rows, batch, from + 1)
  }

  function IdsOf(copies: seq<Copy>): set<nat> {
    set c <- copies :: c.id
  }

  function EventsIn(rows: Table): (events: seq<Event>)
    ensures |events| == |rows|
    ensures forall i :: 0 <= i < |rows| ==> events[i] == rows[i].event
  {
    seq(|rows|, i requires 0 <= i < |rows| => rows[i].event)
  }

  // No two events of an order share a version.
  predicate DistinctVersions(rows: Table) {
    forall i, j :: 0 <= i < j < |rows| && rows[i].event.orderId == rows[j].event.orderId ==>
      rows[i].event.version != rows[j].event.version
  }

  /** A claim takes at most one event of an order: the earliest that waits. */
  lemma OneClaimablePerOrder(rows: Table, i: nat, j: nat)
    requires DistinctVersions(rows) && i < |rows| && j < |rows|
    requires Claimable(rows, i) && Claimable(rows, j) && rows[i].event.orderId == rows[j].event.orderId
    ensures i == j
  {
    assert Precedes(rows, i, j) || Precedes(rows, j, i) || i == j;
  }

  /** A row that has been put back is as if it had never been tried. */
  lemma ReplayStartsOver(row: OutboxRow)
    requires CanReplay(row)
    ensures Replayed(row) == Fresh(row.event) && Waiting(Replayed(row))
  {
  }

  /**
   What each outcome leaves of a row: published for good, or charged with one attempt more than the worker
   claimed it with and dead exactly at the bound; and in either case nobody's, as one given back is that the
   worker still held.
   */
  lemma OutcomesExactly(row: OutboxRow, worker: Id, attempts: nat, maxAttempts: nat)
    ensures Marked(row) == OutboxRow(row.event, true, row.deadLettered, None, false, row.attempts)
    ensures Failed(row, attempts, maxAttempts) ==
      OutboxRow(row.event, row.published, attempts + 1 >= maxAttempts, None, false, attempts + 1)
    ensures Claimed(row, worker) == OutboxRow(row.event, row.published, row.deadLettered, Some(worker), true, row.attempts)
    ensures row.owner == Some(worker) && !row.published ==>
      Released(row, worker) == OutboxRow(row.event, false, row.deadLettered, None, false, row.attempts)
    ensures row.owner != Some(worker) || row.published ==> Released(row, worker) == row
  {
  }
}
