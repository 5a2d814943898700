/**
 The repository over the browser's database: the queue rows in `createdAt` order and the cached snapshots.
 Each method is one transaction on the two tables.
 */
module LocalStore {
  import opened Domain
  import opened ProjectQueue
  import opened TillRules
  import opened SyncSteps

  // What the table's own rules say of its rows: one row an id, in strict `createdAt` order.
  predicate IsQueueTable(rows: seq<Row>) {
    && (forall i, j :: 0 <= i < j < |rows| ==> rows[i].createdAt < rows[j].createdAt)
    && (forall i, j :: 0 <= i < j < |rows| ==> rows[i].mutationId != rows[j].mutationId)
  }

  // Every row keeps its place and everything but its label.
  predicate OnlyLabelsChange(rows: seq<Row>, after: seq<Row>) {
    |after| == |rows| && forall i :: 0 <= i < |rows| ==> after[i] == rows[i].(status := after[i].status)
  }

  // Queued after the head, by the same terminal for the same order.
  predicate IsBehind(row: Row, head: Row) {
    SameGroup(row, head.terminalId, head.orderId) && IsLaterInQueue(row, head)
  }

  predicate SameIntent(row: Row, other: Row) {
    && row.restaurantId == other.restaurantId && row.terminalId == other.terminalId
    && row.orderId == other.orderId && row.command == other.command
  }

  predicate Goes(row: Row) {
    row.status == Pending || row.status == Syncing
  }

  // The gate takes PENDING and SYNCING for one.
  lemma {:induction false} SameGate(rows: seq<Row>, after: seq<Row>, terminalId: Id, orderId: Id)
    requires OnlyLabelsChange(rows, after) && forall i :: 0 <= i < |rows| ==> Goes(rows[i]) == Goes(after[i])
    ensures IsSendable(Group(after, terminalId, orderId)) <==> IsSendable(Group(rows, terminalId, orderId))
  {
    if rows != [] {
      SameGate(rows[..|rows| - 1], after[..|rows| - 1], terminalId, orderId);
      var group, last := Group(rows[..|rows| - 1], terminalId, orderId), rows[|rows| - 1];
      var group', last' := Group(after[..|rows| - 1], terminalId, orderId), after[|rows| - 1];
      GateOfLast(group, last);
      GateOfLast(group', last');
    }
  }

  lemma GateOfLast(group: seq<Row>, last: Row)
    ensures IsSendable(group + [last]) <==> IsSendable(group) && Goes(last)
  {
    if IsSendable(group + [last]) {
      assert forall row <- group :: row in group + [last];
      assert last in group + [last];
    }
  }

  lemma {:induction false} NoneInGroup(rows: seq<Row>, terminalId: Id, orderId: Id)
    requires forall row <- rows :: !SameGroup(row, terminalId, orderId)
    ensures Group(rows, terminalId, orderId) == []
  {
    if rows != [] {
      NoneInGroup(rows[..|rows| - 1], terminalId, orderId);
      assert rows[|rows| - 1] in rows;
    }
  }

  lemma {:induction false} OtherGroupStays(rows: seq<Row>, terminalId: Id, orderId: Id, t: Id, o: Id)
    requires t != terminalId || o != orderId
    ensures Group(DiscardRows(rows, terminalId, orderId), t, o) == Group(rows, t, o)
  {
    if rows != [] {
      var init, last := rows[..|rows| - 1], rows[|rows| - 1];
      OtherGroupStays(init, terminalId, orderId, t, o);
      var kept := DiscardRows(init, terminalId, orderId);
      assert (kept + [last])[..|kept|] == kept;
    }
  }

  lemma {:induction false} KeptTable(rows: seq<Row>, p: Row -> bool)
    requires IsQueueTable(rows)
    ensures IsQueueTable(Keep(rows, p))
  {
    if rows != [] {
      var init, last := rows[..|rows| - 1], rows[|rows| - 1];
      KeptTable(init, p);
      var kept := Keep(init, p);
      forall i | 0 <= i < |kept| ensures kept[i].createdAt < last.createdAt && kept[i].mutationId != last.mutationId {
        assert kept[i] in kept && kept[i] in init;
      }
    }
  }

  class Store {
    var rows: seq<Row>
    var orders: map<Id, Snapshot>

    constructor ()
      ensures rows == [] && orders == map[]
    {
      rows, orders := [], map[];
    }

    method Stamp(now: nat) returns (stamp: nat)
      ensures stamp == QueueStamp(rows, now)
    {
      var floor := 0;
      if rows != [] {
        floor := rows[|rows| - 1].createdAt + 1;
      }
      stamp := if now > floor then now else floor;
    }

    // A row saved again keeps the moment its intent was formed.
    method SavePending(row: Row, now: nat)
      modifies this`rows
      ensures rows == match IndexOf(old(rows), row.mutationId)
        case Some(i) => old(rows)[i := row.(createdAt := old(rows)[i].createdAt)]
        case None => old(rows) + [row.(createdAt := QueueStamp(old(rows), now))]
    {
      match IndexOf(rows, row.mutationId)
      case Some(i) => rows := rows[i := row.(createdAt := rows[i].createdAt)];
      case None =>
        var stamp := Stamp(now);
        rows := rows + [row.(createdAt := stamp)];
    }

    method SetPendingStatus(id: Id, status: RowStatus)
      modifies this`rows
      ensures rows == WithStatus(old(rows), id, status) && OnlyLabelsChange(old(rows), rows)
      ensures forall i :: 0 <= i < |rows| ==>
        rows[i].status == if rows[i].mutationId == id then status else old(rows)[i].status
    {
      rows := MapRows(rows, (row: Row) => if row.mutationId == id then row.(status := status) else row);
    }

    method DeletePending(id: Id)
      modifies this`rows
      ensures rows == Without(old(rows), id)
      ensures forall row: Row :: row in rows <==> row in old(rows) && row.mutationId != id
    {
      rows := Keep(rows, (row: Row) => row.mutationId != id);
    }

    method ReadQueue(terminalId: Id) returns (queue: seq<Row>)
      ensures queue == Keep(rows, (row: Row) => row.terminalId == terminalId)
    {
      queue := Keep(rows, (row: Row) => row.terminalId == terminalId);
    }

    // After a crash nothing of this terminal is in the air. No group becomes sendable by it or stops being so.
    method NormalizeSyncing(terminalId: Id)
      modifies this`rows
      ensures OnlyLabelsChange(old(rows), rows)
      ensures forall row <- rows :: row.terminalId == terminalId ==> row.status != Syncing
      ensures forall i :: 0 <= i < |rows| && rows[i] != old(rows)[i] ==>
        rows[i].terminalId == terminalId && old(rows)[i].status == Syncing && rows[i].status == Pending
      ensures forall t: Id, o: Id :: IsSendable(Group(rows, t, o)) <==> IsSendable(Group(old(rows), t, o))
    {
      ghost var before := rows;
      rows := MapRows(rows, (row: Row) =>
        if row.terminalId == terminalId && row.status == Syncing then row.(status := Pending) else row);
      forall t: Id, o: Id ensures IsSendable(Group(rows, t, o)) <==> IsSendable(Group(before, t, o)) {
        SameGate(before, rows, t, o);
      }
    }

    // The head is in conflict, and exactly the rows behind it in its own group are blocked. The group is
    // not sendable from then on; no other group is touched.
    method HaltQueue(head: Row)
      modifies this`rows
      ensures OnlyLabelsChange(old(rows), rows)
      ensures forall i :: 0 <= i < |rows| && rows[i].mutationId == head.mutationId ==> rows[i].status == ConflictRow
      ensures forall i :: 0 <= i < |rows| && rows[i].mutationId != head.mutationId ==>
        if IsBehind(old(rows)[i], head) then rows[i].status == Blocked else rows[i] == old(rows)[i]
      ensures head in old(rows) ==> !IsSendable(Group(rows, head.terminalId, head.orderId))
    {
      ghost var before := rows;
      rows := HaltRows(rows, head);
      if head in before {
        var i :| 0 <= i < |before| && before[i] == head;
        assert rows[i] in rows && SameGroup(rows[i], head.terminalId, head.orderId);
      }
    }

    // The group is gone as a whole; every other group has the rows it had, and the table stays in order.
    method DiscardOrderQueue(terminalId: Id, orderId: Id)
      modifies this`rows
      ensures Group(rows, terminalId, orderId) == []
      ensures forall row: Row :: row in rows <==> row in old(rows) && !SameGroup(row, terminalId, orderId)
      ensures forall t: Id, o: Id :: t != terminalId || o != orderId ==> Group(rows, t, o) == Group(old(rows), t, o)
      ensures IsQueueTable(old(rows)) ==> IsQueueTable(rows)
    {
      ghost var before := rows;
      rows := DiscardRows(rows, terminalId, orderId);
      NoneInGroup(rows, terminalId, orderId);
      forall t: Id, o: Id | t != terminalId || o != orderId ensures Group(rows, t, o) == Group(before, t, o) {
        OtherGroupStays(before, terminalId, orderId, t, o);
      }
      if IsQueueTable(before) { KeptTable(before, (row: Row) => !SameGroup(row, terminalId, orderId)); }
    }

    // One write: the replacement stands where the old row stood, for the same command of the same terminal on
    // the same order, and every other row is as it was.
    method Reissue(previous: Row, newId: Id, baseVersion: nat) returns (reissued: Row)
      requires previous in rows && forall row <- rows :: row.mutationId == previous.mutationId ==> row == previous
      modifies this`rows
      ensures reissued.mutationId == newId && reissued.baseVersion == baseVersion && reissued.status == Pending
      ensures SameIntent(reissued, previous) && reissued.createdAt == previous.createdAt
      ensures |rows| == |old(rows)| && reissued in rows
      ensures forall i :: 0 <= i < |rows| ==>
        if old(rows)[i] == previous then rows[i] == reissued else rows[i] == old(rows)[i]
      ensures newId != previous.mutationId ==> forall row <- rows :: row.mutationId != previous.mutationId
      ensures IsQueueTable(old(rows)) && (forall row <- old(rows) :: row.mutationId != newId) ==> IsQueueTable(rows)
    {
      reissued := previous.(mutationId := newId, baseVersion := baseVersion, status := Pending);
      ghost var at :| 0 <= at < |rows| && rows[at] == previous;
      rows := MapRows(rows, (row: Row) => if row.mutationId == previous.mutationId then reissued else row);
      assert rows[at] == reissued;
    }

    // The comparison is made inside the transaction that writes.
    method CacheOrder(snapshot: Snapshot)
      modifies this`orders
      ensures orders == Cached(old(orders), snapshot)
    {
      var held: Option<Snapshot> := None;
      if snapshot.id in orders {
        held := Some(orders[snapshot.id]);
      }
      if AcceptsSnapshot(held, snapshot) {
        orders := orders[snapshot.id := snapshot];
      }
    }
  }

  /** The cache never goes back: an answer is kept exactly if nothing newer of its order is held. */
  lemma CacheIsMonotone(orders: map<Id, Snapshot>, snapshot: Snapshot)
    requires forall o <- orders :: orders[o].id == o
    ensures var after := Cached(orders, snapshot);
      && snapshot.id in after
      && after[snapshot.id] == (if snapshot.id in orders && orders[snapshot.id].version > snapshot.version
                                then orders[snapshot.id] else snapshot)
      && (forall o <- orders :: o in after && after[o].id == o && after[o].version >= orders[o].version)
      && (forall o <- after :: after[o] == snapshot || (o in orders && after[o] == orders[o]))
  {
  }
}
