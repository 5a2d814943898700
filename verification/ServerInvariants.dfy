/**
 What every reachable database satisfies: money agrees with the lines and the payments, and each
 order's outbox events number its versions and spell out a path of the transition table.
 */
module ServerInvariants {
  import opened Domain
  import opened Server

  predicate GoodLines(items: seq<Line>) {
    && (forall i, j :: 0 <= i < j < |items| ==> items[i].productId != items[j].productId)
    && (forall i :: 0 <= i < |items| ==> items[i].quantity > 0)
  }

  function PaymentsOf(payments: seq<Payment>, orderId: Id): seq<Payment> {
    if payments == [] then []
    else
      var before := PaymentsOf(payments[..|payments| - 1], orderId);
      var last := payments[|payments| - 1];
      if last.orderId == orderId then before + [last] else before
  }

  function EventsOf(outbox: seq<Event>, orderId: Id): seq<Event> {
    if outbox == [] then []
    else
      var before := EventsOf(outbox[..|outbox| - 1], orderId);
      var last := outbox[|outbox| - 1];
      if last.orderId == orderId then before + [last] else before
  }

  lemma PaymentsOfAppend(payments: seq<Payment>, payment: Payment, orderId: Id)
    ensures PaymentsOf(payments + [payment], orderId) ==
            PaymentsOf(payments, orderId) + if payment.orderId == orderId then [payment] else []
  {
    assert (payments + [payment])[..|payments|] == payments;
  }

  lemma EventsOfAppend(outbox: seq<Event>, event: Event, orderId: Id)
    ensures EventsOf(outbox + [event], orderId) ==
            EventsOf(outbox, orderId) + if event.orderId == orderId then [event] else []
  {
    assert (outbox + [event])[..|outbox|] == outbox;
  }

  // The status an order is left in by the event.
  function StatusAfter(eventType: EventType): Status {
    match eventType
    case OrderSentToKitchen => SentToKitchen
    case OrderPreparing => Preparing
    case OrderReady => Ready
    case OrderPaid => Paid
    case OrderCancelledEvent => Cancelled
    case _ => Open
  }

  /** Versions 1..n once each, in order, and the statuses along them form a path of the table. */
  predicate GoodHistory(events: seq<Event>) {
    && (forall i :: 0 <= i < |events| ==> events[i].version == i + 1)
    && (|events| > 0 ==> events[0].eventType == OrderCreated)
    && (forall i :: 0 < i < |events| ==> events[i].eventType != OrderCreated)
    && (forall i :: 0 < i < |events| ==>
          IsStatusStep(StatusAfter(events[i - 1].eventType), StatusAfter(events[i].eventType)))
  }

  /** The lines the kitchen was sent are the lines the order has kept ever since. */
  predicate FrozenSince(events: seq<Event>, tableNumber: string, items: seq<Line>) {
    forall i :: 0 <= i < |events| && events[i].eventType == OrderSentToKitchen ==>
      events[i].items == items && events[i].tableNumber == tableNumber
  }

  predicate GoodMoney(row: OrderRow, items: seq<Line>, payments: seq<Payment>) {
    && GoodLines(items)
    && row.totalCents == CalculateTotalCents(items)
    && (row.status == Paid ==> |payments| == 1 && payments[0].amountCents == row.totalCents)
    && (row.status != Paid ==> payments == [])
  }

  predicate GoodOrder(row: OrderRow, items: seq<Line>, payments: seq<Payment>, events: seq<Event>) {
    && GoodMoney(row, items, payments)
    && GoodHistory(events)
    && row.version == |events| > 0
    && StatusAfter(events[|events| - 1].eventType) == row.status
    && FrozenSince(events, row.tableNumber, items)
    && (forall i :: 0 <= i < |events| ==> events[i].restaurantId == row.restaurantId)
  }

  predicate GoodOrderIn(db: Db, orderId: Id)
    requires orderId in db.orders && orderId in db.items
  {
    GoodOrder(db.orders[orderId], db.items[orderId], PaymentsOf(db.payments, orderId), EventsOf(db.outbox, orderId))
  }

  // Foreign keys and primary keys: payments and events name existing orders, event ids are unique.
  predicate TablesAgree(db: Db) {
    && db.items.Keys == db.orders.Keys
    && (forall i :: 0 <= i < |db.payments| ==> db.payments[i].orderId in db.orders)
    && (forall i :: 0 <= i < |db.outbox| ==> db.outbox[i].orderId in db.orders && db.outbox[i].id == i)
  }

  predicate GoodDb(db: Db) {
    && TablesAgree(db)
    && (forall o <- db.orders :: GoodOrderIn(db, o))
  }

  lemma {:induction false} NoneOf(payments: seq<Payment>, outbox: seq<Event>, orderId: Id)
    requires forall i :: 0 <= i < |payments| ==> payments[i].orderId != orderId
    requires forall i :: 0 <= i < |outbox| ==> outbox[i].orderId != orderId
    ensures PaymentsOf(payments, orderId) == [] && EventsOf(outbox, orderId) == []
    decreases |payments| + |outbox|
  {
    if payments != [] {
      NoneOf(payments[..|payments| - 1], outbox, orderId);
    }
    if outbox != [] {
      NoneOf(payments, outbox[..|outbox| - 1], orderId);
    }
  }

  lemma LinesStayGood(items: seq<Line>, line: Line, quantity: int)
    requires GoodLines(items) && line.quantity > 0 && quantity > 0
    ensures GoodLines(UpsertLine(items, line))
    ensures GoodLines(DeleteLine(items, line.productId))
    ensures GoodLines(UpdateQuantity(items, line.productId, quantity))
  {
    var index := IndexOfProduct(items, line.productId);
    if index.None? {
      forall i | 0 <= i < |items| ensures items[i].productId != line.productId {
        assert items[i] in items;
      }
    }
  }

  lemma ChangedLinesStayGood(products: map<Id, Product>, items: seq<Line>, command: Command)
    requires GoodLines(items) && ChangedLines(products, items, command).Some?
    requires command.AddItem? || command.ChangeQuantity? ==> command.quantity > 0
    ensures GoodLines(ChangedLines(products, items, command).value)
  {
    match command
    case AddItem(p, quantity) =>
      LinesStayGood(items, Line(p, products[p].name, quantity, products[p].priceCents), 1);
    case RemoveItem(p) => LinesStayGood(items, Line(p, "", 1, 0), 1);
    case ChangeQuantity(p, quantity) => LinesStayGood(items, Line(p, "", 1, 0), quantity);
    case _ =>
  }

  // One more event at the end of an order's history, moving its status along the table.
  lemma HistoryGrows(row: OrderRow, items: seq<Line>, payments: seq<Payment>, events: seq<Event>,
                     event: Event, row': OrderRow, items': seq<Line>, payments': seq<Payment>)
    requires GoodOrder(row, items, payments, events) && GoodMoney(row', items', payments')
    requires row'.version == row.version + 1 == event.version
    requires row'.restaurantId == row.restaurantId == event.restaurantId
    requires row'.tableNumber == row.tableNumber == event.tableNumber
    requires event.eventType != OrderCreated && StatusAfter(event.eventType) == row'.status
    requires IsStatusStep(row.status, row'.status)
    requires row.status != Open ==> items' == items
    requires event.eventType == OrderSentToKitchen ==> event.items == items'
    ensures GoodOrder(row', items', payments', events + [event])
  {
    var grown := events + [event];
    if row.status == Open {
      OpenMeansNeverSent(events);
    }
    assert grown[|grown| - 1] == event && grown[|grown| - 2] == events[|events| - 1];
  }

  /** An order that is open has never been to the kitchen. */
  lemma {:induction false} OpenMeansNeverSent(events: seq<Event>)
    requires GoodHistory(events) && |events| > 0
    requires StatusAfter(events[|events| - 1].eventType) == Open
    ensures forall i :: 0 <= i < |events| ==> StatusAfter(events[i].eventType) == Open
  {
    if |events| > 1 {
      OpenMeansNeverSent(events[..|events| - 1]);
    }
  }

  lemma ChangeKeepsMoney(products: map<Id, Product>, row: OrderRow, items: seq<Line>, payments: seq<Payment>,
                         input: MutationInput, nextStatus: Status)
    requires GoodMoney(row, items, payments) && ValidInput(input)
    requires !input.command.CreateOrder?
    requires Decide(Some(SnapshotFrom(input.orderId, row, items)), input.command) == Apply(nextStatus)
    requires ChangedLines(products, items, input.command).Some?
    ensures var lines := ChangedLines(products, items, input.command).value;
      GoodMoney(ChangedRow(row, input.command, nextStatus, lines), lines,
        ChangedPayments(payments, input, SnapshotFrom(input.orderId, row, items)))
  {
    ChangedLinesStayGood(products, items, input.command);
    DecideFollowsTable(SnapshotFrom(input.orderId, row, items), input.command);
  }

  // The event a change emits says where `Decide` took the order.
  lemma EventNamesStatus(order: Snapshot, command: Command)
    requires !command.CreateOrder? && Decide(Some(order), command).Apply?
    ensures StatusAfter(EventTypeOf(command)) == Decide(Some(order), command).nextStatus
    ensures EventTypeOf(command) != OrderCreated
    ensures ChangesItems(command) ==> order.status == Open
  {
  }

  /** The state a committed change leaves its own order in. */
  lemma {:induction false} ChangeKeepsOrder(products: map<Id, Product>, row: OrderRow, items: seq<Line>,
      payments: seq<Payment>,
                         events: seq<Event>, input: MutationInput, nextStatus: Status, id: nat)
    requires GoodOrder(row, items, payments, events) && ValidInput(input)
    requires !input.command.CreateOrder? && input.restaurantId == row.restaurantId
    requires Decide(Some(SnapshotFrom(input.orderId, row, items)), input.command) == Apply(nextStatus)
    requires ChangedLines(products, items, input.command).Some?
    ensures var lines := ChangedLines(products, items, input.command).value;
      var row' := ChangedRow(row, input.command, nextStatus, lines);
      GoodOrder(row', lines, ChangedPayments(payments, input, SnapshotFrom(input.orderId, row, items)),
        events + [EventOf(id, input, SnapshotFrom(input.orderId, row', lines))])
  {
    var order := SnapshotFrom(input.orderId, row, items);
    var lines := ChangedLines(products, items, input.command).value;
    var row' := ChangedRow(row, input.command, nextStatus, lines);
    ChangeKeepsMoney(products, row, items, payments, input, nextStatus);
    DecideFollowsTable(order, input.command);
    EventNamesStatus(order, input.command);
    HistoryGrows(row, items, payments, events, EventOf(id, input, SnapshotFrom(input.orderId, row', lines)),
      row', lines, ChangedPayments(payments, input, order));
  }

  lemma {:induction false} CommitKeepsOrder(db: Db, input: MutationInput, nextStatus: Status)
    requires input.orderId in db.orders && input.orderId in db.items && GoodOrderIn(db, input.orderId)
    requires ValidInput(input) && !input.command.CreateOrder?
    requires Decide(Load(db, input.orderId), input.command) == Apply(nextStatus)
    requires input.restaurantId == db.orders[input.orderId].restaurantId
    requires WriteChange(db, input, Load(db, input.orderId).value, nextStatus).Committed?
    ensures GoodOrderIn(WriteChange(db, input, Load(db, input.orderId).value, nextStatus).db, input.orderId)
  {
    var o := input.orderId;
    var row, items := db.orders[o], db.items[o];
    var current := SnapshotFrom(o, row, items);
    ChangeKeepsOrder(db.products, row, items, PaymentsOf(db.payments, o), EventsOf(db.outbox, o), input, nextStatus, |db.outbox|);
    var lines := ChangedLines(db.products, items, input.command).value;
    var row' := ChangedRow(row, input.command, nextStatus, lines);
    EventsOfAppend(db.outbox, EventOf(|db.outbox|, input, SnapshotFrom(o, row', lines)), o);
    if input.command.Pay? {
      PaymentsOfAppend(db.payments, Payment(o, input.mutationId, current.totalCents, input.command.paymentMethod), o);
    }
    assert WriteChange(db, input, current, nextStatus).db ==
      CommitAll(db, input, row', lines, ChangedPayments(db.payments, input, current));
  }

  lemma CreationStartsGood(input: MutationInput, id: nat)
    requires ValidInput(input) && input.command.CreateOrder?
    ensures var row := OrderRow(input.restaurantId, input.command.tableNumber, Open, 1, 0);
      GoodOrder(row, [], [], [EventOf(id, input, SnapshotFrom(input.orderId, row, []))])
  {
  }

  lemma {:induction false} CreationIsGood(db: Db, input: MutationInput)
    requires input.orderId !in db.orders
    requires forall i :: 0 <= i < |db.payments| ==> db.payments[i].orderId in db.orders
    requires forall i :: 0 <= i < |db.outbox| ==> db.outbox[i].orderId in db.orders
    requires ValidInput(input) && input.command.CreateOrder?
    requires WriteCreation(db, input).Committed?
    ensures GoodOrderIn(WriteCreation(db, input).db, input.orderId)
  {
    var o := input.orderId;
    var row := OrderRow(input.restaurantId, input.command.tableNumber, Open, 1, 0);
    CreationStartsGood(input, |db.outbox|);
    NoneOf(db.payments, db.outbox, o);
    EventsOfAppend(db.outbox, EventOf(|db.outbox|, input, SnapshotFrom(o, row, [])), o);
  }

  // A commit writes nothing that belongs to another order.
  lemma CommitKeepsOther(db: Db, input: MutationInput, row: OrderRow, lines: seq<Line>, current: Snapshot, other: Id)
    requires other != input.orderId && other in db.orders && other in db.items
    requires GoodOrderIn(db, other)
    ensures GoodOrderIn(CommitAll(db, input, row, lines, ChangedPayments(db.payments, input, current)), other)
  {
    EventsOfAppend(db.outbox, EventOf(|db.outbox|, input, SnapshotFrom(input.orderId, row, lines)), other);
    if input.command.Pay? {
      PaymentsOfAppend(db.payments, Payment(input.orderId, input.mutationId, current.totalCents, input.command.paymentMethod), other);
    }
  }

  lemma CommitKeepsTables(db: Db, input: MutationInput, row: OrderRow, lines: seq<Line>, current: Snapshot)
    requires TablesAgree(db)
    ensures TablesAgree(CommitAll(db, input, row, lines, ChangedPayments(db.payments, input, current)))
  {
  }

  lemma CommitKeepsGood(db: Db, input: MutationInput, row: OrderRow, lines: seq<Line>, current: Snapshot)
    requires GoodDb(db)
    requires GoodOrderIn(CommitAll(db, input, row, lines, ChangedPayments(db.payments, input, current)), input.orderId)
    ensures GoodDb(CommitAll(db, input, row, lines, ChangedPayments(db.payments, input, current)))
  {
    var after := CommitAll(db, input, row, lines, ChangedPayments(db.payments, input, current));
    CommitKeepsTables(db, input, row, lines, current);
    forall other | other in after.orders ensures GoodOrderIn(after, other) {
      if other != input.orderId {
        assert GoodOrderIn(db, other);
        CommitKeepsOther(db, input, row, lines, current, other);
      }
    }
  }

  lemma {:induction false} WriteKeepsGood(db: Db, input: MutationInput, nextStatus: Status)
    requires GoodDb(db) && ValidInput(input)
    requires Check(db, input, Load(db, input.orderId)) == Write(nextStatus)
    requires WriteStep(db, input, Load(db, input.orderId), nextStatus).Committed?
    ensures GoodDb(WriteStep(db, input, Load(db, input.orderId), nextStatus).db)
  {
    var o := input.orderId;
    hide GoodOrder, GoodMoney, GoodHistory, ChangedLines, Decide;
    if input.command.CreateOrder? {
      CreationIsGood(db, input);
      CommitKeepsGood(db, input, OrderRow(input.restaurantId, input.command.tableNumber, Open, 1, 0), [],
        Snapshot(o, 0, "", Open, 0, 0, []));
    } else {
      assert GoodOrderIn(db, o);
      CommitKeepsOrder(db, input, nextStatus);
      var lines := ChangedLines(db.products, db.items[o], input.command).value;
      CommitKeepsGood(db, input, ChangedRow(db.orders[o], input.command, nextStatus, lines), lines, Load(db, o).value);
    }
  }

  // The tables a mutation is about; `processed_mutations` alone may still grow.
  predicate SameTables(db: Db, after: Db) {
    && after.orders == db.orders && after.items == db.items && after.payments == db.payments
    && after.outbox == db.outbox && after.products == db.products
  }

  predicate CommitsTo(db: Db, input: MutationInput, after: Db) {
    var snapshot := Load(db, input.orderId);
    var verdict := Check(db, input, snapshot);
    && verdict.Write?
    && WriteStep(db, input, snapshot, verdict.nextStatus).Committed?
    && after == WriteStep(db, input, snapshot, verdict.nextStatus).db
  }

  /** A request either commits through the guarded write or changes no order, line, payment or event. */
  lemma SerialShape(db: Db, input: MutationInput)
    ensures CommitsTo(db, input, Serial(db, input).db) || SameTables(db, Serial(db, input).db)
    ensures Serial(db, input).reply.AppliedReply? <==> CommitsTo(db, input, Serial(db, input).db)
  {
  }

  lemma SameTablesKeepGood(db: Db, after: Db)
    requires GoodDb(db) && SameTables(db, after)
    ensures GoodDb(after)
  {
    forall o | o in after.orders ensures GoodOrderIn(after, o) {
      assert GoodOrderIn(db, o);
    }
  }

  lemma CommitKeepsGoodDb(db: Db, input: MutationInput, after: Db)
    requires GoodDb(db) && ValidInput(input) && CommitsTo(db, input, after)
    ensures GoodDb(after)
  {
    WriteKeepsGood(db, input, Check(db, input, Load(db, input.orderId)).nextStatus);
  }

  /** Money and history hold after every request, whatever it asks for and however it is answered. */
  lemma {:induction false} SerialKeepsGood(db: Db, input: MutationInput)
    requires GoodDb(db) && ValidInput(input)
    ensures GoodDb(Serial(db, input).db)
  {
    var after := Serial(db, input).db;
    SerialShape(db, input);
    if CommitsTo(db, input, after) {
      CommitKeepsGoodDb(db, input, after);
    } else {
      SameTablesKeepGood(db, after);
    }
  }
}
