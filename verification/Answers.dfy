/**
 What a request comes to, case by case: the answer, what is written, and the event the world hears of it.
 */
module Answers {
  import opened Domain
  import opened Server
  import opened ServerInvariants
  import opened MutationHandler

  // The order as an applied change leaves it.
  function Changed(products: map<Id, Product>, order: Snapshot, command: Command, status: Status): Snapshot {
    match ChangedLines(products, order.items, command)
    case None => order
    case Some(lines) =>
      order.(version := order.version + 1, status := status, items := lines,
             totalCents := if ChangesItems(command) then CalculateTotalCents(lines) else order.totalCents)
  }

  // The answer, in the order in which the reasons for it count.
  function AnswerFor(db: Db, input: MutationInput): Reply {
    var order, command := Load(db, input.orderId), input.command;
    if order.Some? && order.value.restaurantId != input.restaurantId then CrossTenant
    else if input.mutationId in db.processed then
      if db.processed[input.mutationId].hash == RequestHash(input.orderId, command)
      then AlreadyAppliedReply(db.processed[input.mutationId].order) else MutationIdReused
    else if order.None? then
      if command.CreateOrder?
      then AppliedReply(Snapshot(input.orderId, input.restaurantId, command.tableNumber, Open, 1, 0, []))
      else OrderNotFound
    else match Decide(order, command)
      case Conflict(reason) => ConflictReply(reason, input.baseVersion, order.value)
      case AlreadyApplied => AlreadyAppliedReply(order.value)
      case Apply(status) =>
        if order.value.version != input.baseVersion then ConflictReply(OrderVersionConflict, input.baseVersion, order.value)
        else if command.AddItem? && command.productId !in db.products then ProductNotFound
        else if command.Pay? && PaymentTaken(db.payments, input.mutationId) then InternalError
        else AppliedReply(Changed(db.products, order.value, command, status))
  }

  /**
   Every request is answered by the first of these reasons that holds: another restaurant's order, an id
   known already, no order, a rule against it, nothing left to do, a version that has passed, an unknown
   product; and otherwise with the order as the command leaves it, one version on.
   */
  lemma AnswersExactly(db: Db, input: MutationInput)
    ensures Serial(db, input).reply == AnswerFor(db, input)
  {
    hide CalculateTotalCents, UpsertLine, DeleteLine, UpdateQuantity;
  }

  // The event type that names each command.
  predicate Names(eventType: EventType, command: Command) {
    match eventType
    case OrderCreated => command.CreateOrder?
    case OrderItemAdded => command.AddItem?
    case OrderItemRemoved => command.RemoveItem?
    case OrderQuantityChanged => command.ChangeQuantity?
    case OrderSentToKitchen => command.SendToKitchen?
    case OrderPreparing => command.StartPreparing?
    case OrderReady => command.MarkReady?
    case OrderPaid => command.Pay?
    case OrderCancelledEvent => command.Cancel?
  }

  predicate Tells(event: Event, id: nat, input: MutationInput, order: Snapshot) {
    && event.id == id && event.orderId == input.orderId && event.restaurantId == input.restaurantId
    && Names(event.eventType, input.command) && event.version == order.version
    && event.tableNumber == order.tableNumber
    && (input.command.SendToKitchen? ==> event.items == order.items)
  }

  predicate Leaves(db: Db, after: Db, input: MutationInput) {
    && after.products == db.products && after.orders.Keys - {input.orderId} == db.orders.Keys - {input.orderId}
    && (forall o <- db.orders :: o != input.orderId ==> Load(after, o) == Load(db, o))
  }

  // What has been committed for a request, with the order it left.
  predicate Committed(db: Db, after: Db, input: MutationInput, order: Snapshot) {
    && Leaves(db, after, input) && Load(after, input.orderId) == Some(order)
    && after.processed == db.processed[input.mutationId :=
         Processed(RequestHash(input.orderId, input.command), input.terminalId, order)]
    && |after.outbox| == |db.outbox| + 1 && after.outbox[..|db.outbox|] == db.outbox
    && Tells(after.outbox[|db.outbox|], |db.outbox|, input, order)
    && after.payments == db.payments +
         if input.command.Pay? then [Payment(input.orderId, input.mutationId, order.totalCents, input.command.paymentMethod)] else []
  }

  lemma CommitWrites(db: Db, input: MutationInput, row: OrderRow, lines: seq<Line>, payments: seq<Payment>)
    requires payments == db.payments +
      if input.command.Pay? then [Payment(input.orderId, input.mutationId, row.totalCents, input.command.paymentMethod)] else []
    ensures Committed(db, CommitAll(db, input, row, lines, payments), input, SnapshotFrom(input.orderId, row, lines))
  {
  }

  /**
   What APPLIED leaves behind: the order as answered, its result under the id, one event that names the
   command, the order and its new version, with the table and, for the kitchen, the lines; and a payment of
   the order's total exactly for a PAY.
   */
  lemma AppliedWrites(db: Db, input: MutationInput)
    requires Serial(db, input).reply.AppliedReply?
    ensures Committed(db, Serial(db, input).db, input, Serial(db, input).reply.order)
  {
    SerialShape(db, input);
    hide Committed, CommitAll, Decide, CalculateTotalCents, ChangedLines;
    var o := input.orderId;
    if input.command.CreateOrder? {
      CommitWrites(db, input, OrderRow(input.restaurantId, input.command.tableNumber, Open, 1, 0), [], db.payments);
    } else {
      var lines := ChangedLines(db.products, ItemsOf(db, o), input.command).value;
      CommitWrites(db, input, ChangedRow(db.orders[o], input.command, Check(db, input, Load(db, o)).nextStatus, lines),
        lines, ChangedPayments(db.payments, input, Load(db, o).value));
    }
  }

  /** And any other answer: at most the result of an acknowledgement that was not recorded yet. */
  lemma OthersWrite(db: Db, input: MutationInput)
    requires !Serial(db, input).reply.AppliedReply?
    ensures var after, reply := Serial(db, input).db, Serial(db, input).reply;
      && SameTables(db, after)
      && after.processed == if reply.AlreadyAppliedReply? && input.mutationId !in db.processed
           then db.processed[input.mutationId :=
             Processed(RequestHash(input.orderId, input.command), input.terminalId, reply.order)]
           else db.processed
  {
    hide CalculateTotalCents, UpsertLine, DeleteLine, UpdateQuantity;
  }

  /**
   The conflict log gains a row exactly when the answer is a conflict: whose command it was, the version it
   was made at, and where the order really stood.
   */
  lemma LogsExactly(db: Db, input: MutationInput)
    ensures var reply := Serial(db, input).reply;
      if reply.ConflictReply? then
        && input.orderId in db.orders && |Logged(input, reply)| == 1
        && var logged := Logged(input, reply)[0];
           && logged.orderId == input.orderId && logged.terminalId == input.terminalId
           && logged.mutationId == input.mutationId && Names(logged.mutationType, input.command)
           && logged.clientBaseVersion == input.baseVersion
           && logged.serverVersion == db.orders[input.orderId].version
           && logged.serverStatus == db.orders[input.orderId].status
      else Logged(input, reply) == []
  {
    AnswersExactly(db, input);
    hide Serial, Decide, ChangedLines;
  }

  /* ---- what somebody who lost a race is answered ---- */

  /** An id that was recorded meanwhile is answered as one that was known from the start, whatever went wrong. */
  lemma RacedIsKnown(db: Db, input: MutationInput, reason: ConflictReason)
    requires input.mutationId in db.processed
    requires input.orderId in db.orders ==> db.orders[input.orderId].restaurantId == input.restaurantId
    ensures Finish(db, input, Raced) == Serial(db, input)
    ensures Refusal(db, input, reason) == Serial(db, input).reply
  {
    AnswersExactly(db, input);
    hide Decide, ChangedLines;
  }

  /** A creation that finds the order there after all is answered as one that comes now. */
  lemma LostCreationIsLate(db: Db, input: MutationInput)
    requires input.command.CreateOrder? && input.orderId in db.orders && input.mutationId !in db.processed
    ensures WriteCreation(db, input) == RolledBack(Check(db, input, Load(db, input.orderId)))
  {
    RefusesExactly(Load(db, input.orderId).value, input.command);
    TakesExactly(Load(db, input.orderId).value, input.command);
    hide Decide;
  }

  /**
   What was to be acknowledged is looked at once more on the locked row: acknowledged if there is still nothing
   left to do; refused, with what stands against it now, if there is; a conflict of versions if the command
   would apply again; and in either of these a result recorded meanwhile answers first.
   */
  lemma SecondLookAnswers(db: Db, input: MutationInput)
    ensures var order := Load(db, input.orderId);
      SettleNow(db, input).reply ==
        if order.None? then OrderNotFound
        else if Decide(order, input.command).AlreadyApplied? then AlreadyAppliedReply(order.value)
        else if input.mutationId in db.processed then OutcomeFor(db.processed[input.mutationId], input)
        else ConflictReply(
          match Decide(order, input.command) case Conflict(reason) => reason case _ => OrderVersionConflict,
          input.baseVersion, order.value)
  {
    hide Decide;
  }
}
