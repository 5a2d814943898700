/**
 A kitchen display's command on a ticket that has caught up with its order.
 */
module DisplayCommands {
  import opened Domain
  import opened Server
  import opened ServerInvariants
  import opened Kitchen
  import S = Shops
  import TillMoves
  import Transactions

  predicate AllCameOf(db: Db, log: seq<nat>, o: Id) {
    forall i :: 0 <= i < |db.outbox| && db.outbox[i].orderId == o ==> i in log
  }

  // The order's last event is the one its status is from, and a display hears of it.
  lemma LastEventCame(db: Db, log: seq<nat>, o: Id) returns (at: nat)
    requires GoodDb(db) && InOutbox(db.outbox, log) && o in db.orders && AllCameOf(db, log, o)
    requires db.orders[o].status.SentToKitchen? || db.orders[o].status.Preparing?
    ensures at < |log| && KitchenEventCame(db.outbox, log, o, at) && db.outbox[log[at]].version == db.orders[o].version
  {
    assert GoodOrderIn(db, o);
    hide GoodMoney;
    var events := EventsOf(db.outbox, o);
    EventsAreInOutbox(db.outbox, o);
    var last := events[|events| - 1];
    assert last in events && last.id in log;
    at :| 0 <= at < |log| && log[at] == last.id;
  }

  lemma TicketIsCurrent(db: Db, log: seq<nat>, o: Id)
    requires GoodDb(db) && InOrder(db.outbox, log) && o in db.orders && AllCameOf(db, log, o)
    requires db.orders[o].status.SentToKitchen? || db.orders[o].status.Preparing?
    ensures var ticket := TicketIn(ConsumeAll(db.outbox, log), o);
      && ticket.Some? && ticket.value.sourceEventVersion == db.orders[o].version
      && ticket.value.restaurantId == db.orders[o].restaurantId
  {
    assert o in db.items;
    TicketAgreesWithOrder(db, log, o);
    TillMoves.TicketIsNotAhead(db, log, o);
    var at := LastEventCame(db, log, o);
  }

  // What the kitchen asks of an order that stands where the command expects it.
  predicate IsNext(status: Status, command: Command, next: Status) {
    || (status.SentToKitchen? && command.StartPreparing? && next.Preparing?)
    || (status.Preparing? && command.MarkReady? && next.Ready?)
  }

  lemma NextIsApplied(db: Db, input: MutationInput, next: Status)
    requires input.orderId in db.orders && input.mutationId !in db.processed
    requires input.restaurantId == db.orders[input.orderId].restaurantId
    requires input.baseVersion == db.orders[input.orderId].version
    requires IsNext(db.orders[input.orderId].status, input.command, next)
    ensures var order := Load(db, input.orderId).value;
      Serial(db, input).reply == AppliedReply(order.(version := order.version + 1, status := next))
  {
  }

  /**
   A display that has seen every event of an order, and nobody else's command since: what it sends for the
   ticket is applied, and the order moves on by one status and one version.
   */
  lemma CurrentDisplayIsServed(s: S.Shop, id: Id, k: S.Key, log: seq<nat>, command: Command, next: Status)
    requires S.ShopOk(s) && S.IsFresh(s, id)
    requires InOrder(s.server.db.outbox, log) && AllCameOf(s.server.db, log, k.orderId)
    requires k.orderId in s.server.db.orders && IsNext(s.server.db.orders[k.orderId].status, command, next)
    ensures var db, after := s.server.db, S.PostFromKitchenStep(s, id, k, log, command);
      && id in after.posted
      && var order := Load(db, k.orderId).value;
         Serial(db, after.posted[id]).reply == AppliedReply(order.(version := order.version + 1, status := next))
  {
    hide GoodDb, ConsumeAll, AllCameOf, EarlierCame, Load, S.HistoryOk, S.TxPosted, S.TillOk, Serial;
    var db := s.server.db;
    TicketIsCurrent(db, log, k.orderId);
    assert id !in db.processed by { assert id in s.posted ==> S.PostedOk(s, id); }
    NextIsApplied(db, S.PostFromKitchenStep(s, id, k, log, command).posted[id], next);
  }
}
