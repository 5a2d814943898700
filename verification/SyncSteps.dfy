/**
 One device's queue and its sync engine, write by write: every disk write and every request is a step of
 its own, so that a crash may fall between any two. The queue table is kept in `createdAt` order.
 */
module SyncSteps {
  import opened Domain
  import opened ProjectQueue
  import opened TillRules

  // How an attempt ends. The last four are the tab dying: before the request, before its answer, after a
  // success was cached but before the row was deleted, and after a conflict's canonical order was cached
  // but before the group was halted.
  datatype Answer =
    | Accepted(order: Snapshot)
    | ConflictWith(canonical: Snapshot)
    | RefusedOutright
    | OfflineNow
    | TransportError
    | DiedUnsent
    | DiedUnanswered
    | DiedBeforeDelete(order: Snapshot)
    | DiedBeforeHalt(canonical: Snapshot)

  // The disk, and what has happened so far: the requests sent, the ids acknowledged, which staged intent
  // each id stands for, how many intents there have been, and the ones given up.
  datatype Client = Client(
    rows: seq<Row>, orders: map<Id, Snapshot>,
    sent: seq<Row>, acknowledged: set<Id>, intentOf: map<Id, nat>, intents: nat, discarded: set<nat>)

  datatype Op =
    | Stage(row: Row, now: nat)
    | Attempt(id: Id, answer: Answer)
    | Discard(terminalId: Id, orderId: Id)
    | Reissue(id: Id, newId: Id, version: nat)
    | AttemptReissued(id: Id, answer: Answer)
    | Normalize(terminalId: Id)

  /* ---- the table ---- */

  predicate SameGroup(row: Row, terminalId: Id, orderId: Id) {
    row.terminalId == terminalId && row.orderId == orderId
  }

  // The rows of one terminal for one order, in queue order.
  function Group(rows: seq<Row>, terminalId: Id, orderId: Id): (group: seq<Row>)
    ensures forall row <- group :: row in rows && SameGroup(row, terminalId, orderId)
    ensures forall row <- rows :: SameGroup(row, terminalId, orderId) ==> row in group
  {
    if rows == [] then []
    else
      var before, last := Group(rows[..|rows| - 1], terminalId, orderId), rows[|rows| - 1];
      if SameGroup(last, terminalId, orderId) then before + [last] else before
  }

  function MapRows(rows: seq<Row>, f: Row -> Row): (mapped: seq<Row>)
    ensures |mapped| == |rows|
    ensures forall i :: 0 <= i < |rows| ==> mapped[i] == f(rows[i])
  {
    seq(|rows|, i requires 0 <= i < |rows| => f(rows[i]))
  }

  function Keep(rows: seq<Row>, p: Row -> bool): (kept: seq<Row>)
    ensures forall row <- kept :: row in rows && p(row)
    ensures forall row <- rows :: p(row) ==> row in kept
  {
    if rows == [] then []
    else
      var before, last := Keep(rows[..|rows| - 1], p), rows[|rows| - 1];
      if p(last) then before + [last] else before
  }

  function WithStatus(rows: seq<Row>, id: Id, status: RowStatus): seq<Row> {
    MapRows(rows, (row: Row) => if row.mutationId == id then row.(status := status) else row)
  }

  function Without(rows: seq<Row>, id: Id): seq<Row> {
    Keep(rows, (row: Row) => row.mutationId != id)
  }

  predicate IsLaterInQueue(row: Row, head: Row) {
    if row.createdAt != head.createdAt then row.createdAt > head.createdAt else row.mutationId > head.mutationId
  }

  // `haltQueue`, by order and terminal, in one write.
  function HaltRows(rows: seq<Row>, head: Row): seq<Row> {
    MapRows(rows, (row: Row) =>
      if row.mutationId == head.mutationId then row.(status := ConflictRow)
      else if SameGroup(row, head.terminalId, head.orderId) && IsLaterInQueue(row, head) then row.(status := Blocked)
      else row)
  }

  function NormalizeRows(rows: seq<Row>, terminalId: Id): seq<Row> {
    MapRows(rows, (row: Row) =>
      if row.terminalId == terminalId && row.status == Syncing then row.(status := Pending) else row)
  }

  function DiscardRows(rows: seq<Row>, terminalId: Id, orderId: Id): seq<Row> {
    Keep(rows, (row: Row) => !SameGroup(row, terminalId, orderId))
  }

  function ReissuedRow(row: Row, newId: Id, version: nat): Row {
    row.(mutationId := newId, status := Pending, baseVersion := if row.command.CreateOrder? then 0 else version)
  }

  // The replacement is put and the old row deleted in one write; `createdAt` keeps its place.
  function ReissueRows(rows: seq<Row>, id: Id, newId: Id, version: nat): seq<Row> {
    MapRows(rows, (row: Row) => if row.mutationId == id then ReissuedRow(row, newId, version) else row)
  }

  function Cached(orders: map<Id, Snapshot>, order: Snapshot): map<Id, Snapshot> {
    var held := if order.id in orders then Some(orders[order.id]) else None;
    if AcceptsSnapshot(held, order) then orders[order.id := order] else orders
  }

  // Strictly after everything on disk, and never behind the clock.
  predicate IsStamp(rows: seq<Row>, now: nat, stamp: nat) {
    stamp >= now && forall row <- rows :: row.createdAt < stamp
  }

  function QueueStamp(rows: seq<Row>, now: nat): (stamp: nat)
  {
    var floor := if rows == [] then 0 else rows[|rows| - 1].createdAt + 1;
    if now > floor then now else floor
  }

  /* ---- the steps ---- */

  function IndexOf(rows: seq<Row>, id: Id): (index: Option<nat>)
    ensures index.Some? ==> index.value < |rows| && rows[index.value].mutationId == id
    ensures index.None? ==> forall row <- rows :: row.mutationId != id
  {
    if rows == [] then None
    else if rows[|rows| - 1].mutationId == id then Some(|rows| - 1)
    else IndexOf(rows[..|rows| - 1], id)
  }

  function GroupOf(rows: seq<Row>, row: Row): seq<Row> {
    Group(rows, row.terminalId, row.orderId)
  }

  predicate IsHead(rows: seq<Row>, row: Row) {
    row in rows && GroupOf(rows, row) != [] && GroupOf(rows, row)[0] == row
  }

  // `attempt`, from the label to whatever it left behind.
  function AttemptRow(c: Client, row: Row, answer: Answer): Client {
    var labelled := c.(rows := WithStatus(c.rows, row.mutationId, Syncing));
    var sent := labelled.(sent := c.sent + [row]);
    match answer
    case DiedUnsent => labelled
    case DiedUnanswered => sent
    case OfflineNow => sent.(rows := WithStatus(sent.rows, row.mutationId, Pending))
    case TransportError => sent.(rows := WithStatus(sent.rows, row.mutationId, Pending))
    case DiedBeforeDelete(order) =>
      sent.(orders := Cached(c.orders, order), acknowledged := c.acknowledged + {row.mutationId})
    case Accepted(order) =>
      sent.(orders := Cached(c.orders, order), acknowledged := c.acknowledged + {row.mutationId},
            rows := Without(sent.rows, row.mutationId))
    case DiedBeforeHalt(canonical) => sent.(orders := Cached(c.orders, canonical))
    case ConflictWith(canonical) =>
      sent.(orders := Cached(c.orders, canonical), rows := HaltRows(sent.rows, row))
    case RefusedOutright => sent.(rows := HaltRows(sent.rows, row))
  }

  function StageStep(c: Client, row: Row, now: nat): Client {
    if row.mutationId in c.intentOf || !IsSendable(GroupOf(c.rows, row)) then c
    else c.(rows := c.rows + [row.(createdAt := QueueStamp(c.rows, now), status := Pending)],
            intentOf := c.intentOf[row.mutationId := c.intents], intents := c.intents + 1)
  }

  // A pass may attempt the head of a group that is not halted.
  predicate MayAttempt(rows: seq<Row>, id: Id) {
    var index := IndexOf(rows, id);
    index.Some? && IsHead(rows, rows[index.value]) && IsSendable(GroupOf(rows, rows[index.value]))
  }

  // A rebase attempts the head it has just re-issued.
  predicate MayAttemptReissued(rows: seq<Row>, id: Id) {
    var index := IndexOf(rows, id);
    index.Some? && IsHead(rows, rows[index.value]) && rows[index.value].status == Pending
  }

  function RowAt(rows: seq<Row>, id: Id): Row
    requires IndexOf(rows, id).Some?
  {
    rows[IndexOf(rows, id).value]
  }

  function IntentsIn(rows: seq<Row>, intentOf: map<Id, nat>): set<nat> {
    set row <- rows | row.mutationId in intentOf :: intentOf[row.mutationId]
  }

  function Step(c: Client, op: Op): Client {
    match op
    case Stage(row, now) => StageStep(c, row, now)
    case Attempt(id, answer) => if MayAttempt(c.rows, id) then AttemptRow(c, RowAt(c.rows, id), answer) else c
    case Discard(terminalId, orderId) =>
      c.(rows := DiscardRows(c.rows, terminalId, orderId),
         discarded := c.discarded + IntentsIn(Group(c.rows, terminalId, orderId), c.intentOf))
    case Reissue(id, newId, version) =>
      if newId in c.intentOf || id !in c.intentOf || IndexOf(c.rows, id).None? || !IsHead(c.rows, RowAt(c.rows, id)) then c
      else c.(rows := ReissueRows(c.rows, id, newId, version), intentOf := c.intentOf[newId := c.intentOf[id]])
    case AttemptReissued(id, answer) =>
      if MayAttemptReissued(c.rows, id) then AttemptRow(c, RowAt(c.rows, id), answer) else c
    case Normalize(terminalId) => c.(rows := NormalizeRows(c.rows, terminalId))
  }

  const BLANK := Client([], map[], [], {}, map[], 0, {})

  function Run(c: Client, ops: seq<Op>): Client {
    if ops == [] then c else Step(Run(c, ops[..|ops| - 1]), ops[|ops| - 1])
  }
}
