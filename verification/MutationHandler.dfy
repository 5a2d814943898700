/**
 The write path in its own form: the tables as fields, the statements of one transaction in their
 order, and a rollback that puts the tables back. Each method is proved against `Server`.
 */
module MutationHandler {
  import opened Domain
  import opened Server

  // A row of `conflict_log`: what was refused, its type named by the event it would have made, and where the
  // order stood.
  datatype LoggedConflict = LoggedConflict(
    orderId: Id, terminalId: Id, mutationId: Id, mutationType: EventType, clientBaseVersion: nat, serverVersion: nat,
    serverStatus: Status)

  // What an answer leaves in the log: a row for a conflict, nothing for anything else.
  function Logged(input: MutationInput, reply: Reply): seq<LoggedConflict> {
    match reply
    case ConflictReply(_, base, canonical) =>
      [LoggedConflict(input.orderId, input.terminalId, input.mutationId, EventTypeOf(input.command), base, canonical.version, canonical.status)]
    case _ => []
  }

  class Database {
    var orders: map<Id, OrderRow>
    var items: map<Id, seq<Line>>
    var payments: seq<Payment>
    var processed: map<Id, Processed>
    var outbox: seq<Event>
    var conflictLog: seq<LoggedConflict>
    const products: map<Id, Product>

    constructor (products: map<Id, Product>)
      ensures State() == Db(map[], map[], [], map[], [], products) && conflictLog == []
    {
      this.orders, this.items, this.payments := map[], map[], [];
      this.processed, this.outbox, this.conflictLog := map[], [], [];
      this.products := products;
    }

    ghost function State(): Db
      reads this
    {
      Db(orders, items, payments, processed, outbox, products)
    }

    // Two statements, the row and then its lines.
    method LoadOrderSnapshot(orderId: Id) returns (snapshot: Option<Snapshot>)
      ensures snapshot == Load(State(), orderId)
    {
      var row := if orderId in orders then Some(orders[orderId]) else None;
      if row.None? {
        return None;
      }
      var lines := if orderId in items then items[orderId] else [];
      snapshot := Some(SnapshotFrom(orderId, row.value, lines));
    }

    // The version comparison lives in the UPDATE itself.
    method GuardedVersionBump(input: MutationInput, nextStatus: Status) returns (bumped: bool)
      modifies this`orders
      ensures bumped <==> input.orderId in old(orders) && old(orders)[input.orderId].version == input.baseVersion
      ensures !bumped ==> orders == old(orders)
      ensures bumped ==> orders == old(orders)[input.orderId :=
        old(orders)[input.orderId].(version := input.baseVersion + 1, status := nextStatus)]
    {
      bumped := input.orderId in orders && orders[input.orderId].version == input.baseVersion;
      if bumped {
        var row := orders[input.orderId];
        orders := orders[input.orderId := row.(version := row.version + 1, status := nextStatus)];
      }
    }

    // The total is derived from the lines that are there, never accumulated.
    method RecalculateTotal(orderId: Id)
      requires orderId in orders && orderId in items
      modifies this`orders
      ensures orders == old(orders)[orderId :=
        old(orders)[orderId].(totalCents := CalculateTotalCents(items[orderId]))]
    {
      var lines := items[orderId];
      var total := 0;
      for i := 0 to |lines|
        invariant total == CalculateTotalCents(lines[..i])
        invariant orders == old(orders)
      {
        assert lines[..i + 1][..i] == lines[..i];
        total := total + lines[i].quantity * lines[i].unitPriceCents;
      }
      assert lines[..|lines|] == lines;
      orders := orders[orderId := orders[orderId].(totalCents := total)];
    }

    method ApplyChange(input: MutationInput, current: Snapshot) returns (refused: Option<Reply>)
      requires input.orderId in orders && input.orderId in items
      modifies this`orders, this`items, this`payments
      ensures refused == (
        if ChangedLines(products, old(items)[input.orderId], input.command).None? then Some(ProductNotFound)
        else if input.command.Pay? && PaymentTaken(old(payments), input.mutationId) then Some(InternalError)
        else None)
      ensures refused.None? ==>
        var lines := ChangedLines(products, old(items)[input.orderId], input.command).value;
        && items == old(items)[input.orderId := lines]
        && orders == (if !ChangesItems(input.command) then old(orders) else old(orders)[input.orderId :=
             old(orders)[input.orderId].(totalCents := CalculateTotalCents(lines))])
        && payments == ChangedPayments(old(payments), input, current)
    {
      refused := None;
      match input.command
      case AddItem(p, quantity) =>
        if p !in products {
          return Some(ProductNotFound);
        }
        var line := Line(p, products[p].name, quantity, products[p].priceCents);
        items := items[input.orderId := UpsertLine(items[input.orderId], line)];
        RecalculateTotal(input.orderId);
      case RemoveItem(p) =>
        items := items[input.orderId := DeleteLine(items[input.orderId], p)];
        RecalculateTotal(input.orderId);
      case ChangeQuantity(p, quantity) =>
        items := items[input.orderId := UpdateQuantity(items[input.orderId], p, quantity)];
        RecalculateTotal(input.orderId);
      case Pay(paymentMethod) =>
        var taken := ExistsPayment(input.mutationId);
        if taken {
          return Some(InternalError);
        }
        payments := payments + [Payment(input.orderId, input.mutationId, current.totalCents, paymentMethod)];
      case _ =>
    }

    // The unique index on `payments.mutation_id`.
    method ExistsPayment(mutationId: Id) returns (taken: bool)
      ensures taken == PaymentTaken(payments, mutationId)
    {
      taken := false;
      for i := 0 to |payments|
        invariant taken <==> exists j :: 0 <= j < i && payments[j].mutationId == mutationId
      {
        if payments[i].mutationId == mutationId {
          taken := true;
        }
      }
    }

    // The transaction must roll back, or the three tables hold what the committed write holds.
    ghost predicate Effected(failure: Option<Verdict>, outcome: WriteOutcome)
      reads this
    {
      match outcome
      case RolledBack(verdict) => failure == Some(verdict)
      case Committed(after, _) =>
        failure.None? && orders == after.orders && items == after.items && payments == after.payments
    }

    method CreateEffect(input: MutationInput) returns (failure: Option<Verdict>)
      requires input.command.CreateOrder? && input.mutationId !in processed
      modifies this`orders, this`items
      ensures Effected(failure, WriteCreation(old(State()), input))
    {
      if input.orderId in orders {
        // A concurrent creation won: the tenant check runs again, on the row that is there.
        var existing := orders[input.orderId];
        if existing.restaurantId != input.restaurantId {
          return Some(Answer(CrossTenant));
        }
        return Some(if existing.tableNumber == input.command.tableNumber then Settle else Refuse(OrderAlreadyExists));
      }
      orders := orders[input.orderId := OrderRow(input.restaurantId, input.command.tableNumber, Open, 1, 0)];
      items := items[input.orderId := []];
      failure := None;
    }

    method ChangeEffect(input: MutationInput, nextStatus: Status, current: Snapshot) returns (failure: Option<Verdict>)
      requires items.Keys == orders.Keys && input.mutationId !in processed
      modifies this`orders, this`items, this`payments
      ensures Effected(failure, WriteChange(old(State()), input, current, nextStatus))
    {
      var bumped := GuardedVersionBump(input, nextStatus);
      if !bumped {
        return Some(Refuse(OrderVersionConflict));
      }
      var refused := ApplyChange(input, current);
      failure := if refused.Some? then Some(Answer(refused.value)) else None;
    }

    // `conflictOutcome`: nothing is written but the conflict log, and that only for a conflict.
    method ConflictOutcome(input: MutationInput, reason: ConflictReason) returns (reply: Reply)
      modifies this`conflictLog
      ensures reply == Refusal(State(), input, reason)
      ensures conflictLog == old(conflictLog) + Logged(input, reply)
    {
      if input.mutationId in processed {
        return OutcomeFor(processed[input.mutationId], input);
      }
      var canonical := LoadOrderSnapshot(input.orderId);
      if canonical.None? {
        return OrderNotFound;
      }
      conflictLog := conflictLog + [LoggedConflict(input.orderId, input.terminalId, input.mutationId, EventTypeOf(input.command),
        input.baseVersion, canonical.value.version, canonical.value.status)];
      reply := ConflictReply(reason, input.baseVersion, canonical.value);
    }

    // `alreadyAppliedOutcome`, under the order's row lock.
    method AlreadyAppliedOutcome(input: MutationInput) returns (reply: Reply)
      modifies this`processed, this`conflictLog
      ensures Result(State(), reply) == SettleNow(old(State()), input)
      ensures conflictLog == old(conflictLog) + Logged(input, reply)
    {
      var order := LoadOrderSnapshot(input.orderId);
      if order.None? {
        return OrderNotFound;
      }
      match Decide(order, input.command)
      case Conflict(reason) => reply := ConflictOutcome(input, reason);
      case Apply(_) => reply := ConflictOutcome(input, OrderVersionConflict);
      case AlreadyApplied =>
        if input.mutationId !in processed {
          processed := processed[input.mutationId := Processed(HashOf(input), input.terminalId, order.value)];
        }
        reply := AlreadyAppliedReply(order.value);
    }

    /**
     One request, with no other transaction in between: tenant, idempotency, domain rules, guarded
     update, effect, `processed_mutations`, outbox, and the answer after a rollback.
     */
    method ApplyMutation(input: MutationInput) returns (reply: Reply)
      requires items.Keys == orders.Keys
      modifies this
      ensures Result(State(), reply) == Serial(old(State()), input)
      ensures items.Keys == orders.Keys && conflictLog == old(conflictLog) + Logged(input, reply)
    {
      var snapshot := LoadOrderSnapshot(input.orderId);
      if snapshot.Some? && snapshot.value.restaurantId != input.restaurantId {
        return CrossTenant;
      }
      if input.mutationId in processed {
        return OutcomeFor(processed[input.mutationId], input);
      }
      if !input.command.CreateOrder? && snapshot.None? {
        return OrderNotFound;
      }
      match Decide(snapshot, input.command)
      case Conflict(reason) => reply := ConflictOutcome(input, reason);
      case AlreadyApplied => reply := AlreadyAppliedOutcome(input);
      case Apply(nextStatus) => reply := Transact(input, snapshot, nextStatus);
    }

    method AfterRollback(input: MutationInput, verdict: Verdict) returns (reply: Reply)
      requires verdict.Settle? || verdict.Answer? || verdict.Refuse?
      requires verdict.Answer? ==> !verdict.reply.ConflictReply?
      modifies this`processed, this`conflictLog
      ensures Result(State(), reply) ==
        if verdict.Settle? then SettleNow(old(State()), input) else Finish(old(State()), input, verdict)
      ensures conflictLog == old(conflictLog) + Logged(input, reply)
    {
      if verdict.Settle? {
        reply := AlreadyAppliedOutcome(input);
      } else if verdict.Refuse? {
        reply := ConflictOutcome(input, verdict.reason);
      } else {
        reply := verdict.reply;
      }
    }

    method Transact(input: MutationInput, snapshot: Option<Snapshot>, nextStatus: Status) returns (reply: Reply)
      requires items.Keys == orders.Keys && snapshot == Load(State(), input.orderId)
      requires Check(State(), input, snapshot) == Write(nextStatus)
      modifies this
      ensures Result(State(), reply) == Serial(old(State()), input)
      ensures items.Keys == orders.Keys && conflictLog == old(conflictLog) + Logged(input, reply)
    {
      var savedOrders, savedItems, savedPayments := orders, items, payments;
      var failure: Option<Verdict>;
      if input.command.CreateOrder? {
        failure := CreateEffect(input);
      } else {
        failure := ChangeEffect(input, nextStatus, snapshot.value);
      }
      assert Effected(failure, WriteStep(old(State()), input, snapshot, nextStatus));
      if failure.Some? {
        orders, items, payments := savedOrders, savedItems, savedPayments;
        reply := AfterRollback(input, failure.value);
        return;
      }
      var order := LoadOrderSnapshot(input.orderId);
      processed := processed[input.mutationId := Processed(HashOf(input), input.terminalId, order.value)];
      outbox := outbox + [EventOf(|outbox|, input, order.value)];
      reply := AppliedReply(order.value);
    }
  }
}
