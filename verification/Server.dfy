/**
 The server's write path as pure functions over the database value: what one transaction reads, what
 it decides, what it writes, and `Serial`, the whole of `applyMutation` taken in one atomic step.
 */
module Server {
  import opened Domain

  datatype MutationInput = MutationInput(
    orderId: Id, mutationId: Id, terminalId: Id, restaurantId: Id, baseVersion: nat, command: Command)

  datatype OrderRow = OrderRow(
    restaurantId: Id, tableNumber: string, status: Status, version: nat, totalCents: int)

  datatype Payment = Payment(orderId: Id, mutationId: Id, amountCents: int, paymentMethod: PaymentMethod)

  // SHA-256 over the canonical JSON of (orderId, type, payload), taken as injective.
  datatype RequestHash = RequestHash(orderId: Id, command: Command)

  datatype Processed = Processed(hash: RequestHash, terminalId: Id, order: Snapshot)

  datatype EventType =
    | OrderCreated | OrderItemAdded | OrderItemRemoved | OrderQuantityChanged | OrderSentToKitchen
    | OrderPreparing | OrderReady | OrderPaid | OrderCancelledEvent

  // The payload is carried only as far as a consumer reads it: the ticket's table and its lines.
  datatype Event = Event(
    id: nat, orderId: Id, restaurantId: Id, eventType: EventType, version: nat,
    tableNumber: string, items: seq<Line>)

  datatype Db = Db(
    orders: map<Id, OrderRow>,
    items: map<Id, seq<Line>>,
    payments: seq<Payment>,
    processed: map<Id, Processed>,
    outbox: seq<Event>,
    products: map<Id, Product>)

  datatype Reply =
    | AppliedReply(order: Snapshot)
    | AlreadyAppliedReply(order: Snapshot)
    | ConflictReply(reason: ConflictReason, clientBaseVersion: nat, canonical: Snapshot)
    | MutationIdReused
    | CrossTenant
    | OrderNotFound
    | ProductNotFound
    | InternalError

  // What the request validation at the route lets through.
  predicate ValidInput(input: MutationInput) {
    && (input.command.CreateOrder? ==> input.baseVersion == 0)
    && (!input.command.CreateOrder? ==> input.baseVersion >= 1)
    && (input.command.AddItem? || input.command.ChangeQuantity? ==> input.command.quantity > 0)
  }

  function HashOf(input: MutationInput): RequestHash {
    RequestHash(input.orderId, input.command)
  }

  function EventTypeOf(command: Command): EventType {
    match command
    case CreateOrder(_) => OrderCreated
    case AddItem(_, _) => OrderItemAdded
    case RemoveItem(_) => OrderItemRemoved
    case ChangeQuantity(_, _) => OrderQuantityChanged
    case SendToKitchen => OrderSentToKitchen
    case StartPreparing => OrderPreparing
    case MarkReady => OrderReady
    case Pay(_) => OrderPaid
    case Cancel(_) => OrderCancelledEvent
  }

  /* ---- reading ---- */

  function ItemsOf(db: Db, orderId: Id): seq<Line> {
    if orderId in db.items then db.items[orderId] else []
  }

  function SnapshotFrom(orderId: Id, row: OrderRow, items: seq<Line>): Snapshot {
    Snapshot(orderId, row.restaurantId, row.tableNumber, row.status, row.version, row.totalCents, items)
  }

  function Load(db: Db, orderId: Id): Option<Snapshot> {
    if orderId in db.orders then Some(SnapshotFrom(orderId, db.orders[orderId], ItemsOf(db, orderId)))
    else None
  }

  // The committed version of an order; an order that does not exist yet stands at version 0.
  function CommittedVersion(db: Db, orderId: Id): nat {
    if orderId in db.orders then db.orders[orderId].version else 0
  }

  datatype Verdict =
    | Answer(reply: Reply)
    | Write(nextStatus: Status)
    | Settle
    | Refuse(reason: ConflictReason)
    | Raced

  function OutcomeFor(processed: Processed, input: MutationInput): Reply {
    if processed.hash != HashOf(input) then MutationIdReused else AlreadyAppliedReply(processed.order)
  }

  // The checks of `runMutation`, in their order: tenant, idempotency, existence, domain rules.
  function Check(db: Db, input: MutationInput, snapshot: Option<Snapshot>): Verdict {
    if snapshot.Some? && snapshot.value.restaurantId != input.restaurantId then Answer(CrossTenant)
    else if input.mutationId in db.processed then
      Answer(OutcomeFor(db.processed[input.mutationId], input))
    else if !input.command.CreateOrder? && snapshot.None? then Answer(OrderNotFound)
    else match Decide(snapshot, input.command)
      case Conflict(reason) => Refuse(reason)
      case AlreadyApplied => Settle
      case Apply(nextStatus) => Write(nextStatus)
  }

  /* ---- writing ---- */

  function IndexOfProduct(items: seq<Line>, productId: Id): (index: Option<nat>)
    ensures index.Some? ==> index.value < |items| && items[index.value].productId == productId
    ensures index.None? <==> productId !in ProductIds(items)
  {
    if items == [] then None
    else if items[|items| - 1].productId == productId then Some(|items| - 1)
    else
      assert forall line :: line in items ==>
        line in items[..|items| - 1] || line == items[|items| - 1];
      IndexOfProduct(items[..|items| - 1], productId)
  }

  // `insert ... on conflict (order_id, product_id) do update`, lines kept in creation order.
  function UpsertLine(items: seq<Line>, line: Line): seq<Line> {
    match IndexOfProduct(items, line.productId)
    case None => items + [line]
    case Some(i) => items[i := items[i].(quantity := items[i].quantity + line.quantity)]
  }

  function DeleteLine(items: seq<Line>, productId: Id): seq<Line> {
    match IndexOfProduct(items, productId)
    case None => items
    case Some(i) => items[..i] + items[i + 1..]
  }

  function UpdateQuantity(items: seq<Line>, productId: Id, quantity: int): seq<Line> {
    match IndexOfProduct(items, productId)
    case None => items
    case Some(i) => items[i := items[i].(quantity := quantity)]
  }

  predicate ChangesItems(command: Command) {
    command.AddItem? || command.RemoveItem? || command.ChangeQuantity?
  }

  // The lines a command leaves behind; `None` when it names a product the catalogue does not have.
  function ChangedLines(products: map<Id, Product>, items: seq<Line>, command: Command): Option<seq<Line>> {
    match command
    case AddItem(p, quantity) =>
      if p !in products then None
      else Some(UpsertLine(items, Line(p, products[p].name, quantity, products[p].priceCents)))
    case RemoveItem(p) => Some(DeleteLine(items, p))
    case ChangeQuantity(p, quantity) => Some(UpdateQuantity(items, p, quantity))
    case _ => Some(items)
  }

  // `guardedVersionBump`, and `recalculateTotal` where the lines changed.
  function ChangedRow(row: OrderRow, command: Command, nextStatus: Status, lines: seq<Line>): OrderRow {
    row.(version := row.version + 1, status := nextStatus,
         totalCents := if ChangesItems(command) then CalculateTotalCents(lines) else row.totalCents)
  }

  predicate PaymentTaken(payments: seq<Payment>, mutationId: Id) {
    exists i :: 0 <= i < |payments| && payments[i].mutationId == mutationId
  }

  // A payment takes the total that was read, not the one in the row being updated.
  function ChangedPayments(payments: seq<Payment>, input: MutationInput, current: Snapshot): seq<Payment> {
    if input.command.Pay?
    then payments + [Payment(input.orderId, input.mutationId, current.totalCents, input.command.paymentMethod)]
    else payments
  }

  function EventOf(id: nat, input: MutationInput, order: Snapshot): Event {
    Event(id, input.orderId, input.restaurantId, EventTypeOf(input.command), order.version,
          order.tableNumber, if input.command.SendToKitchen? then order.items else [])
  }

  // What a transaction that commits has written: the order, its lines, the payment if there is one,
  // the `processed_mutations` row and one outbox event.
  function CommitAll(db: Db, input: MutationInput, row: OrderRow, lines: seq<Line>, payments: seq<Payment>): Db {
    var order := SnapshotFrom(input.orderId, row, lines);
    db.(orders := db.orders[input.orderId := row],
        items := db.items[input.orderId := lines],
        payments := payments,
        processed := db.processed[input.mutationId := Processed(HashOf(input), input.terminalId, order)],
        outbox := db.outbox + [EventOf(|db.outbox|, input, order)])
  }

  datatype WriteOutcome = Committed(db: Db, order: Snapshot) | RolledBack(verdict: Verdict)

  function CommitUnlessRaced(db: Db, input: MutationInput, row: OrderRow, lines: seq<Line>,
      payments: seq<Payment>): WriteOutcome {
    if input.mutationId in db.processed then RolledBack(Raced)
    else Committed(CommitAll(db, input, row, lines, payments), SnapshotFrom(input.orderId, row, lines))
  }

  function WriteCreation(db: Db, input: MutationInput): WriteOutcome
    requires input.command.CreateOrder?
  {
    var o := input.orderId;
    if o in db.orders then
      if db.orders[o].restaurantId != input.restaurantId then RolledBack(Answer(CrossTenant))
      else if db.orders[o].tableNumber == input.command.tableNumber then RolledBack(Settle)
      else RolledBack(Refuse(OrderAlreadyExists))
    else
      CommitUnlessRaced(db, input, OrderRow(input.restaurantId, input.command.tableNumber, Open, 1, 0), [], db.payments)
  }

  function WriteChange(db: Db, input: MutationInput, current: Snapshot, nextStatus: Status): WriteOutcome {
    var o := input.orderId;
    if o !in db.orders || db.orders[o].version != input.baseVersion then
      RolledBack(Refuse(OrderVersionConflict))
    else
      var lines := ChangedLines(db.products, ItemsOf(db, o), input.command);
      if lines.None? then RolledBack(Answer(ProductNotFound))
      else if input.command.Pay? && PaymentTaken(db.payments, input.mutationId) then
        RolledBack(Answer(InternalError))
      else
        CommitUnlessRaced(db, input, ChangedRow(db.orders[o], input.command, nextStatus, lines.value),
          lines.value, ChangedPayments(db.payments, input, current))
  }

  // `applyEffect` and the two inserts behind it, as the statements see the database when they run.
  function WriteStep(db: Db, input: MutationInput, current: Option<Snapshot>, nextStatus: Status): (w: WriteOutcome)
    ensures w.RolledBack? ==> !w.verdict.Write?
    ensures w.Committed? ==> input.mutationId !in db.processed && input.mutationId in w.db.processed
  {
    if input.command.CreateOrder? then WriteCreation(db, input)
    else if current.None? then RolledBack(Answer(InternalError))
    else WriteChange(db, input, current.value, nextStatus)
  }

  /* ---- the answers given after a rollback ---- */

  // `conflictOutcome`
  function Refusal(db: Db, input: MutationInput, reason: ConflictReason): Reply {
    if input.mutationId in db.processed then OutcomeFor(db.processed[input.mutationId], input)
    else if input.orderId !in db.orders then OrderNotFound
    else ConflictReply(reason, input.baseVersion, Load(db, input.orderId).value)
  }

  // `racedOutcome`
  function RacedReply(db: Db, input: MutationInput): Reply {
    if input.mutationId in db.processed then OutcomeFor(db.processed[input.mutationId], input)
    else InternalError
  }

  datatype Settlement = Settled(db: Db, reply: Reply) | Unsettled(verdict: Verdict)

  // `alreadyAppliedOutcome`: decide again under the order's row lock, then record with do-nothing.
  function SettleStep(db: Db, input: MutationInput): (s: Settlement)
    ensures s.Unsettled? ==> s.verdict.Answer? || s.verdict.Refuse?
    ensures s.Settled? ==> input.orderId in db.orders
    ensures s.Settled? ==> s.reply == AlreadyAppliedReply(Load(db, input.orderId).value)
    ensures s.Settled? ==> Decide(Load(db, input.orderId), input.command) == AlreadyApplied
  {
    if input.orderId !in db.orders then Unsettled(Answer(OrderNotFound))
    else
      var order := Load(db, input.orderId).value;
      match Decide(Some(order), input.command)
      case Conflict(reason) => Unsettled(Refuse(reason))
      case Apply(_) => Unsettled(Refuse(OrderVersionConflict))
      case AlreadyApplied =>
        var stored := Processed(HashOf(input), input.terminalId, order);
        Settled(
          if input.mutationId in db.processed then db
          else db.(processed := db.processed[input.mutationId := stored]),
          AlreadyAppliedReply(order))
  }

  /* ---- the whole of it in one atomic step ---- */

  datatype Result = Result(db: Db, reply: Reply)

  function Finish(db: Db, input: MutationInput, verdict: Verdict): Result
    requires !verdict.Write? && !verdict.Settle?
  {
    match verdict
    case Answer(reply) => Result(db, reply)
    case Refuse(reason) => Result(db, Refusal(db, input, reason))
    case Raced => Result(db, RacedReply(db, input))
  }

  function SettleNow(db: Db, input: MutationInput): Result {
    match SettleStep(db, input)
    case Settled(settled, reply) => Result(settled, reply)
    case Unsettled(verdict) => Finish(db, input, verdict)
  }

  function Serial(db: Db, input: MutationInput): Result {
    var snapshot := Load(db, input.orderId);
    match Check(db, input, snapshot)
    case Settle => SettleNow(db, input)
    case Write(nextStatus) =>
      (match WriteStep(db, input, snapshot, nextStatus)
       case Committed(committed, order) => Result(committed, AppliedReply(order))
       case RolledBack(verdict) =>
         if verdict.Settle? then SettleNow(db, input) else Finish(db, input, verdict))
    case other => Finish(db, input, other)
  }
}
