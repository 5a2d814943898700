/**
 From the orders to the kitchen: whatever the publishing workers and the consumer go through, as long as
 no event is dead-lettered, tickets agree with the orders in the database.
 */
module EventFlow {
  import opened Domain
  import opened Server
  import opened ServerInvariants
  import opened Outbox
  import opened Kitchen
  import TopicOrder

  // With nothing ever dead-lettered, the topic delivers each order's events in order.
  lemma TopicIsInOrder(outbox: seq<Event>, moves: seq<TopicOrder.Move>, maxAttempts: nat)
    requires var b := TopicOrder.Run(moves, maxAttempts); EventsIn(b.rows) == outbox && b.buried == {}
    ensures InOrder(outbox, TopicOrder.Run(moves, maxAttempts).topic)
  {
    var b := TopicOrder.Run(moves, maxAttempts);
    TopicOrder.EventsLandInOrder(moves, maxAttempts);
    forall at | 0 <= at < |b.topic| ensures b.topic[at] < |outbox| && EarlierCame(outbox, b.topic, at) {
      forall j | 0 <= j < |outbox| && IsEarlier(outbox[j], outbox[b.topic[at]]) ensures j in b.topic[..at] {
        assert Precedes(b.rows, j, b.topic[at]) && j !in b.buried;
      }
    }
  }

  /**
   A run of any number of workers and a consumer that reads on or resumes anywhere it has been: the ticket
   of an order exists, shows and states what the order in the database says it should.
   */
  lemma {:induction false} KitchenFollowsOrders(db: Db, moves: seq<TopicOrder.Move>, maxAttempts: nat,
      readMoves: seq<ReadMove>, o: Id)
    requires GoodDb(db) && o in db.orders && o in db.items
    requires var b := TopicOrder.Run(moves, maxAttempts); EventsIn(b.rows) == db.outbox && b.buried == {}
    ensures var log := Read(TopicOrder.Run(moves, maxAttempts).topic, readMoves).log;
      InOrder(db.outbox, log) &&
      var ticket := TicketIn(ConsumeAll(db.outbox, log), o);
      && (ticket.Some? <==> SendCame(db.outbox, log, o))
      && (ticket.Some? ==>
            && ticket.value.items == db.items[o] && ticket.value.tableNumber == db.orders[o].tableNumber
            && IsLastKitchenVersion(db.outbox, log, o, ticket.value.sourceEventVersion))
      && ((forall i :: 0 <= i < |db.outbox| && db.outbox[i].orderId == o ==> i in log) ==>
            Fits(ticket, db.orders[o].status))
  {
    var topic := TopicOrder.Run(moves, maxAttempts).topic;
    TopicIsInOrder(db.outbox, moves, maxAttempts);
    hide *;
    ReadIsInOrder(db.outbox, topic, readMoves);
    TicketAgreesWithOrder(db, Read(topic, readMoves).log, o);
  }
}
