/**
 The kitchen's tickets: one idempotent consumer of the event log, and why its tickets agree with the
 orders whatever is delivered twice.
 */
module Kitchen {
  import opened Domain
  import opened Server
  import opened ServerInvariants

  datatype TicketState = TicketSent | TicketPreparing | TicketReady | TicketCancelled

  datatype Ticket = Ticket(
    restaurantId: Id, tableNumber: string, items: seq<Line>, state: TicketState, sourceEventVersion: nat)

  datatype ProjectionResult = Applied | Duplicate | Recorded | Stale

  // `processed_events` of this consumer, and `kitchen_tickets`.
  datatype Projection = Projection(seen: set<nat>, tickets: map<Id, Ticket>)

  function StateOf(eventType: EventType): Option<TicketState> {
    match eventType
    case OrderPreparing => Some(TicketPreparing)
    case OrderReady => Some(TicketReady)
    case OrderCancelledEvent => Some(TicketCancelled)
    case _ => None
  }

  function WithCreated(tickets: map<Id, Ticket>, event: Event): map<Id, Ticket> {
    var o := event.orderId;
    if o !in tickets then
      tickets[o := Ticket(event.restaurantId, event.tableNumber, event.items, TicketSent, event.version)]
    else if tickets[o].sourceEventVersion < event.version then
      tickets[o := tickets[o].(tableNumber := event.tableNumber, items := event.items,
                               state := TicketSent, sourceEventVersion := event.version)]
    else tickets
  }

  function WithAdvanced(tickets: map<Id, Ticket>, event: Event, state: TicketState): map<Id, Ticket> {
    var o := event.orderId;
    if o in tickets && tickets[o].sourceEventVersion < event.version
    then tickets[o := tickets[o].(state := state, sourceEventVersion := event.version)]
    else tickets
  }

  // One event through the consumer: the marker and the ticket in one transaction.
  function Consume(p: Projection, event: Event): Projection {
    if event.id in p.seen then p
    else
      var state := StateOf(event.eventType);
      Projection(p.seen + {event.id},
        if event.eventType.OrderSentToKitchen? then WithCreated(p.tickets, event)
        else if state.Some? then WithAdvanced(p.tickets, event, state.value)
        else p.tickets)
  }

  // What the consumer reports of it.
  function Outcome(p: Projection, event: Event): ProjectionResult {
    if event.id in p.seen then Duplicate
    else if event.eventType.OrderSentToKitchen? then
      if Consume(p, event).tickets == p.tickets then Stale else Applied
    else if StateOf(event.eventType).None? || event.orderId !in p.tickets then Recorded
    else if p.tickets[event.orderId].sourceEventVersion < event.version then Applied else Stale
  }

  class KitchenProjection {
    var seen: set<nat>
    var tickets: map<Id, Ticket>

    constructor ()
      ensures State() == Projection({}, map[])
    {
      seen, tickets := {}, map[];
    }

    function State(): Projection
      reads this
    {
      Projection(seen, tickets)
    }

    method ApplyKitchenEvent(event: Event) returns (result: ProjectionResult)
      modifies this
      ensures State() == Consume(old(State()), event)
      ensures result == Outcome(old(State()), event)
    {
      if event.id in seen {
        return Duplicate;
      }
      seen := seen + {event.id};
      if event.eventType.OrderSentToKitchen? {
        result := CreateTicket(event);
      } else if StateOf(event.eventType).None? {
        result := Recorded;
      } else {
        result := AdvanceTicket(event, StateOf(event.eventType).value);
      }
    }

    method CreateTicket(event: Event) returns (result: ProjectionResult)
      modifies this`tickets
      ensures tickets == WithCreated(old(tickets), event)
      ensures result == if tickets == old(tickets) then Stale else Applied
    {
      var o := event.orderId;
      result := Applied;
      if o !in tickets {
        tickets := tickets[o := Ticket(event.restaurantId, event.tableNumber, event.items, TicketSent, event.version)];
        assert o in tickets;
      } else if tickets[o].sourceEventVersion < event.version {
        tickets := tickets[o := tickets[o].(tableNumber := event.tableNumber, items := event.items,
                                            state := TicketSent, sourceEventVersion := event.version)];
        assert tickets[o].sourceEventVersion == event.version;
      } else {
        result := Stale;
      }
    }

    method AdvanceTicket(event: Event, state: TicketState) returns (result: ProjectionResult)
      modifies this`tickets
      ensures tickets == WithAdvanced(old(tickets), event, state)
      ensures result == if event.orderId !in old(tickets) then Recorded
        else if old(tickets)[event.orderId].sourceEventVersion < event.version then Applied else Stale
    {
      var o := event.orderId;
      if o in tickets && tickets[o].sourceEventVersion < event.version {
        tickets := tickets[o := tickets[o].(state := state, sourceEventVersion := event.version)];
        result := Applied;
      } else {
        result := if o in tickets then Stale else Recorded;
      }
    }
  }

  /* ---- logs ---- */

  // The log as the ids of the outbox events it carries, in the order the consumer gets them.
  predicate InOutbox(outbox: seq<Event>, log: seq<nat>) {
    forall at :: 0 <= at < |log| ==> log[at] < |outbox|
  }

  function ConsumeAll(outbox: seq<Event>, log: seq<nat>): Projection
    requires InOutbox(outbox, log)
  {
    if log == [] then Projection({}, map[])
    else Consume(ConsumeAll(outbox, log[..|log| - 1]), outbox[log[|log| - 1]])
  }

  /* ---- any log at all ---- */

  // No ticket disappears or goes back, and one whose version is the same is the same.
  ghost predicate GoesForward(before: map<Id, Ticket>, after: map<Id, Ticket>) {
    forall o <- before ::
      && o in after && before[o].sourceEventVersion <= after[o].sourceEventVersion
      && (after[o].sourceEventVersion == before[o].sourceEventVersion ==> after[o] == before[o])
  }

  /** Whatever event comes, however late and however often, no ticket goes back. */
  lemma TicketsGoForward(p: Projection, event: Event)
    ensures GoesForward(p.tickets, Consume(p, event).tickets)
  {
  }

  /** Over any log, whatever has been lost, repeated or overtaken on the way. */
  lemma {:induction false} NoTicketGoesBack(outbox: seq<Event>, log: seq<nat>, more: seq<nat>)
    requires InOutbox(outbox, log) && InOutbox(outbox, log + more)
    ensures GoesForward(ConsumeAll(outbox, log).tickets, ConsumeAll(outbox, log + more).tickets)
    decreases |more|
  {
    hide Consume;
    if more == [] {
      assert log + more == log;
    } else {
      var before := log + more[..|more| - 1];
      assert (log + more)[..|log + more| - 1] == before;
      assert forall at :: 0 <= at < |before| ==> before[at] == (log + more)[at];
      NoTicketGoesBack(outbox, log, more[..|more| - 1]);
      TicketsGoForward(ConsumeAll(outbox, before), outbox[(log + more)[|log + more| - 1]]);
    }
  }

  /**
   What each report means. Only `Applied` moves a ticket, its own and to the event's version; `Duplicate` is an
   event seen before; `Stale` one no newer than its ticket; `Recorded` one that is no business of the kitchen or
   finds no ticket to move.
   */
  lemma ReportsExactly(p: Projection, event: Event)
    ensures var result, after, o := Outcome(p, event), Consume(p, event), event.orderId;
      && after.seen == p.seen + {event.id}
      && (result.Duplicate? <==> event.id in p.seen)
      && (!result.Applied? ==> after.tickets == p.tickets)
      && (result.Applied? ==>
            && after.tickets.Keys == p.tickets.Keys + {o} && after.tickets[o].sourceEventVersion == event.version
            && (forall other <- p.tickets :: other != o ==> after.tickets[other] == p.tickets[other])
            && (o in p.tickets ==> p.tickets[o].sourceEventVersion < event.version))
      && (result.Stale? ==> o in p.tickets && event.version <= p.tickets[o].sourceEventVersion)
      && (result.Recorded? ==> !event.eventType.OrderSentToKitchen?)
      && (result.Recorded? && (event.eventType.OrderPreparing? || event.eventType.OrderReady? || event.eventType.OrderCancelledEvent?) ==>
            o !in p.tickets)
  {
  }

  // What an event says of its order's ticket.
  predicate Shows(ticket: Ticket, event: Event) {
    ticket.sourceEventVersion == event.version && match event.eventType
      case OrderSentToKitchen =>
        ticket.state == TicketSent && ticket.items == event.items && ticket.tableNumber == event.tableNumber
      case OrderPreparing => ticket.state == TicketPreparing
      case OrderReady => ticket.state == TicketReady
      case OrderCancelledEvent => ticket.state == TicketCancelled
      case _ => false
  }

  // The event of the order at a place of the log that the ticket shows.
  predicate ShowsFrom(outbox: seq<Event>, log: seq<nat>, o: Id, ticket: Ticket, at: nat)
    requires InOutbox(outbox, log)
  {
    at < |log| && outbox[log[at]].orderId == o && Shows(ticket, outbox[log[at]])
  }

  lemma AppliedShows(p: Projection, event: Event)
    requires Outcome(p, event).Applied?
    ensures event.orderId in Consume(p, event).tickets && Shows(Consume(p, event).tickets[event.orderId], event)
  {
  }

  /** On any log, a ticket's state and version are those of one event of its order that came. */
  lemma {:induction false} TicketShowsAnEvent(outbox: seq<Event>, log: seq<nat>, o: Id) returns (at: nat)
    requires InOutbox(outbox, log) && o in ConsumeAll(outbox, log).tickets
    ensures ShowsFrom(outbox, log, o, ConsumeAll(outbox, log).tickets[o], at)
  {
    var before, event := log[..|log| - 1], outbox[log[|log| - 1]];
    var p := ConsumeAll(outbox, before);
    ReportsExactly(p, event);
    if Outcome(p, event).Applied? && event.orderId == o {
      AppliedShows(p, event);
      at := |log| - 1;
    } else {
      at := TicketShowsAnEvent(outbox, before, o);
    }
  }

  // Before an event comes, for the first time or again, every earlier event of its order has come.
  predicate InOrder(outbox: seq<Event>, log: seq<nat>) {
    && InOutbox(outbox, log)
    && (forall at :: 0 <= at < |log| ==> EarlierCame(outbox, log, at))
  }

  predicate IsEarlier(event: Event, later: Event) {
    event.orderId == later.orderId && event.version < later.version
  }

  predicate EarlierCame(outbox: seq<Event>, log: seq<nat>, at: nat)
    requires at < |log| && log[at] < |outbox|
  {
    forall j :: 0 <= j < |outbox| && IsEarlier(outbox[j], outbox[log[at]]) ==> j in log[..at]
  }

  // The ticket the first events of an order add up to, with no guard against anything.
  function TicketOf(events: seq<Event>): Option<Ticket> {
    if events == [] then None
    else
      var before, last := TicketOf(events[..|events| - 1]), events[|events| - 1];
      var state := StateOf(last.eventType);
      if last.eventType.OrderSentToKitchen? then
        Some(Ticket(last.restaurantId, last.tableNumber, last.items, TicketSent, last.version))
      else if before.Some? && state.Some? then
        Some(before.value.(state := state.value, sourceEventVersion := last.version))
      else before
  }

  function TicketIn(p: Projection, o: Id): Option<Ticket> {
    if o in p.tickets then Some(p.tickets[o]) else None
  }

  // Exactly the first `k` events of the order have come.
  predicate CameUpTo(outbox: seq<Event>, log: seq<nat>, o: Id, k: nat) {
    && k <= |EventsOf(outbox, o)|
    && forall i :: 0 <= i < |EventsOf(outbox, o)| ==> (EventsOf(outbox, o)[i].id in log <==> i < k)
  }

  predicate Numbered(outbox: seq<Event>) {
    forall i :: 0 <= i < |outbox| ==> outbox[i].id == i
  }

  lemma {:induction false} EventsAreInOutbox(outbox: seq<Event>, o: Id)
    requires Numbered(outbox)
    ensures forall e <- EventsOf(outbox, o) :: e.orderId == o && e.id < |outbox| && outbox[e.id] == e
  {
    if outbox != [] {
      EventsAreInOutbox(outbox[..|outbox| - 1], o);
    }
  }

  lemma {:induction false} OutboxIsInEvents(outbox: seq<Event>, i: nat)
    requires i < |outbox|
    ensures outbox[i] in EventsOf(outbox, outbox[i].orderId)
  {
    var init, last := outbox[..|outbox| - 1], outbox[|outbox| - 1];
    assert outbox == init + [last];
    EventsOfAppend(init, last, outbox[i].orderId);
    if i < |init| {
      OutboxIsInEvents(init, i);
      assert init[i] == outbox[i];
    }
  }

  // A history numbers its events, so an event of an order is found at its version.
  lemma EventAtVersion(outbox: seq<Event>, i: nat)
    requires i < |outbox| && GoodHistory(EventsOf(outbox, outbox[i].orderId))
    ensures var events := EventsOf(outbox, outbox[i].orderId);
      1 <= outbox[i].version <= |events| && events[outbox[i].version - 1] == outbox[i]
  {
    OutboxIsInEvents(outbox, i);
    var events := EventsOf(outbox, outbox[i].orderId);
    var k :| 0 <= k < |events| && events[k] == outbox[i];
    assert events[k].version == k + 1;
  }

  lemma {:induction false} TicketIsNotAhead(events: seq<Event>)
    requires forall i :: 0 <= i < |events| ==> events[i].version == i + 1
    ensures TicketOf(events).Some? ==> TicketOf(events).value.sourceEventVersion <= |events|
  {
    if events != [] {
      TicketIsNotAhead(events[..|events| - 1]);
    }
  }

  lemma {:induction false} NeverSentNoTicket(events: seq<Event>)
    requires forall i :: 0 <= i < |events| ==> !events[i].eventType.OrderSentToKitchen?
    ensures TicketOf(events).None?
  {
    if events != [] {
      NeverSentNoTicket(events[..|events| - 1]);
    }
  }

  // The kitchen is sent an order once: the event finds no ticket.
  lemma SentOnce(events: seq<Event>, k: nat)
    requires GoodHistory(events) && k < |events| && events[k].eventType.OrderSentToKitchen?
    ensures TicketOf(events[..k]).None?
  {
    if k > 0 {
      var before := events[..k];
      assert IsStatusStep(StatusAfter(events[k - 1].eventType), SentToKitchen);
      OpenMeansNeverSent(before);
      NeverSentNoTicket(before);
    }
  }

  // The next event of an order meets the ticket of those before it.
  lemma NextTicket(p: Projection, events: seq<Event>, k: nat)
    requires GoodHistory(events) && k < |events| && events[k].id !in p.seen
    requires TicketIn(p, events[k].orderId) == TicketOf(events[..k])
    ensures TicketIn(Consume(p, events[k]), events[k].orderId) == TicketOf(events[..k + 1])
  {
    assert events[..k + 1][..k] == events[..k];
    TicketIsNotAhead(events[..k]);
    if events[k].eventType.OrderSentToKitchen? { SentOnce(events, k); }
  }

  lemma ConsumeLeavesOthers(p: Projection, event: Event, o: Id)
    requires o != event.orderId
    ensures TicketIn(Consume(p, event), o) == TicketIn(p, o)
  {
  }

  lemma {:induction false} SeenIsLog(outbox: seq<Event>, log: seq<nat>)
    requires Numbered(outbox) && InOutbox(outbox, log)
    ensures forall i: nat :: i in ConsumeAll(outbox, log).seen <==> i in log
  {
    if log != [] {
      SeenIsLog(outbox, log[..|log| - 1]);
      assert forall i: nat :: i in log <==> i in log[..|log| - 1] || i == log[|log| - 1];
    }
  }

  // The step of the induction: one more event has come.
  lemma OneMoreCame(outbox: seq<Event>, log: seq<nat>, next: nat, o: Id, k: nat) returns (k': nat)
    requires Numbered(outbox) && InOrder(outbox, log + [next]) && GoodHistory(EventsOf(outbox, o))
    requires CameUpTo(outbox, log, o, k) && next < |outbox|
    ensures CameUpTo(outbox, log + [next], o, k')
    ensures k' == if outbox[next].orderId == o && next !in log then k + 1 else k
    ensures outbox[next].orderId == o && next !in log ==> k < |EventsOf(outbox, o)| && EventsOf(outbox, o)[k] == outbox[next]
  {
    var events, event := EventsOf(outbox, o), outbox[next];
    EventsAreInOutbox(outbox, o);
    k' := k;
    if event.orderId == o && next !in log {
      EventAtVersion(outbox, next);
      assert EarlierCame(outbox, log + [next], |log|) && (log + [next])[..|log|] == log;
      assert k < |events| ==> outbox[events[k].id] == events[k] && events[k].version == k + 1;
      k' := k + 1;
    }
  }

  lemma {:induction false} CameAndTicket(outbox: seq<Event>, log: seq<nat>, o: Id) returns (k: nat)
    requires Numbered(outbox) && InOrder(outbox, log) && GoodHistory(EventsOf(outbox, o))
    ensures InOutbox(outbox, log) && CameUpTo(outbox, log, o, k)
    ensures TicketIn(ConsumeAll(outbox, log), o) == TicketOf(EventsOf(outbox, o)[..k])
  {
    if log == [] {
      k := 0;
    } else {
      var before, next := log[..|log| - 1], log[|log| - 1];
      assert log == before + [next];
      InOrderBefore(outbox, before, next);
      var came := CameAndTicket(outbox, before, o);
      k := OneMoreCame(outbox, before, next, o, came);
      SeenIsLog(outbox, before);
      var p := ConsumeAll(outbox, before);
      if outbox[next].orderId != o {
        ConsumeLeavesOthers(p, outbox[next], o);
      } else if next !in before {
        NextTicket(p, EventsOf(outbox, o), came);
      }
    }
  }

  lemma InOrderBefore(outbox: seq<Event>, log: seq<nat>, next: nat)
    requires InOrder(outbox, log + [next])
    ensures InOrder(outbox, log)
  {
    var longer := log + [next];
    forall at | 0 <= at < |log| ensures log[at] < |outbox| && EarlierCame(outbox, log, at) {
      assert longer[at] == log[at] && EarlierCame(outbox, longer, at) && longer[..at] == log[..at];
    }
  }

  /* ---- what a ticket says of its order ---- */

  predicate IsKitchenEvent(event: Event) {
    event.eventType.OrderSentToKitchen? || StateOf(event.eventType).Some?
  }

  // The ticket of an order that stands at `status`: READY outlives the payment.
  predicate Fits(ticket: Option<Ticket>, status: Status) {
    match status
    case Open => ticket.None?
    case SentToKitchen => ticket.Some? && ticket.value.state.TicketSent?
    case Preparing => ticket.Some? && ticket.value.state.TicketPreparing?
    case Ready => ticket.Some? && ticket.value.state.TicketReady?
    case Paid => ticket.Some? ==> ticket.value.state.TicketReady?
    case Cancelled => ticket.Some? ==> ticket.value.state.TicketCancelled?
  }

  lemma {:induction false} TicketFits(events: seq<Event>)
    requires GoodHistory(events) && events != []
    ensures Fits(TicketOf(events), StatusAfter(events[|events| - 1].eventType))
  {
    if |events| > 1 {
      var before := events[..|events| - 1];
      TicketFits(before);
      assert IsStatusStep(StatusAfter(events[|events| - 2].eventType), StatusAfter(events[|events| - 1].eventType));
    }
  }

  lemma {:induction false} TicketIffSent(events: seq<Event>)
    ensures TicketOf(events).Some? <==> exists i :: 0 <= i < |events| && events[i].eventType.OrderSentToKitchen?
  {
    if events != [] {
      var before := events[..|events| - 1];
      TicketIffSent(before);
      if i :| 0 <= i < |events| && events[i].eventType.OrderSentToKitchen? {
        assert i < |before| ==> before[i].eventType.OrderSentToKitchen?;
      }
      if j :| 0 <= j < |before| && before[j].eventType.OrderSentToKitchen? {
        assert events[j].eventType.OrderSentToKitchen?;
      }
    }
  }

  lemma {:induction false} TicketIsFrozen(events: seq<Event>, restaurantId: Id, tableNumber: string, items: seq<Line>)
    requires FrozenSince(events, tableNumber, items)
    requires forall i :: 0 <= i < |events| ==> events[i].restaurantId == restaurantId
    ensures var ticket := TicketOf(events); ticket.Some? ==>
      ticket.value.items == items && ticket.value.tableNumber == tableNumber && ticket.value.restaurantId == restaurantId
  {
    if events != [] {
      TicketIsFrozen(events[..|events| - 1], restaurantId, tableNumber, items);
    }
  }

  // The ticket carries the version of the last kitchen event.
  lemma {:induction false} TicketVersion(events: seq<Event>)
    requires forall i :: 0 <= i < |events| ==> events[i].version == i + 1
    ensures var ticket := TicketOf(events); ticket.Some? ==>
      && 1 <= ticket.value.sourceEventVersion <= |events|
      && IsKitchenEvent(events[ticket.value.sourceEventVersion - 1])
      && forall i :: ticket.value.sourceEventVersion <= i < |events| ==> !IsKitchenEvent(events[i])
  {
    if events != [] {
      TicketVersion(events[..|events| - 1]);
    }
  }

  predicate SendCame(outbox: seq<Event>, log: seq<nat>, o: Id)
    requires InOutbox(outbox, log)
  {
    exists at :: 0 <= at < |log| && outbox[log[at]].orderId == o && outbox[log[at]].eventType.OrderSentToKitchen?
  }

  predicate KitchenEventCame(outbox: seq<Event>, log: seq<nat>, o: Id, at: nat)
    requires InOutbox(outbox, log) && at < |log|
  {
    outbox[log[at]].orderId == o && IsKitchenEvent(outbox[log[at]])
  }

  // The version of the last kitchen event of the order among those that came.
  predicate IsLastKitchenVersion(outbox: seq<Event>, log: seq<nat>, o: Id, version: nat)
    requires InOutbox(outbox, log)
  {
    && (exists at :: 0 <= at < |log| && KitchenEventCame(outbox, log, o, at) && outbox[log[at]].version == version)
    && (forall at :: 0 <= at < |log| && KitchenEventCame(outbox, log, o, at) ==> outbox[log[at]].version <= version)
  }

  // An event of the order came exactly if it is one of the first `k`.
  lemma CameAt(outbox: seq<Event>, log: seq<nat>, o: Id, k: nat, at: nat)
    requires Numbered(outbox) && InOutbox(outbox, log) && GoodHistory(EventsOf(outbox, o)) && CameUpTo(outbox, log, o, k)
    requires at < |log| && outbox[log[at]].orderId == o
    ensures 1 <= outbox[log[at]].version <= k && EventsOf(outbox, o)[outbox[log[at]].version - 1] == outbox[log[at]]
  {
    EventAtVersion(outbox, log[at]);
  }

  lemma CameFrom(outbox: seq<Event>, log: seq<nat>, o: Id, k: nat, i: nat) returns (at: nat)
    requires Numbered(outbox) && InOutbox(outbox, log) && CameUpTo(outbox, log, o, k) && i < k
    ensures at < |log| && outbox[log[at]] == EventsOf(outbox, o)[i] && outbox[log[at]].orderId == o
  {
    EventsAreInOutbox(outbox, o);
    var event := EventsOf(outbox, o)[i];
    assert event in EventsOf(outbox, o) && event.id in log;
    at :| 0 <= at < |log| && log[at] == event.id;
  }

  lemma SendCameIff(outbox: seq<Event>, log: seq<nat>, o: Id, k: nat)
    requires Numbered(outbox) && InOutbox(outbox, log) && GoodHistory(EventsOf(outbox, o)) && CameUpTo(outbox, log, o, k)
    ensures SendCame(outbox, log, o) <==> TicketOf(EventsOf(outbox, o)[..k]).Some?
  {
    var events := EventsOf(outbox, o);
    TicketIffSent(events[..k]);
    if at :| 0 <= at < |log| && outbox[log[at]].orderId == o && outbox[log[at]].eventType.OrderSentToKitchen? {
      CameAt(outbox, log, o, k, at);
      assert events[..k][outbox[log[at]].version - 1] == outbox[log[at]];
    }
    if i :| 0 <= i < k && events[..k][i].eventType.OrderSentToKitchen? {
      var at := CameFrom(outbox, log, o, k, i);
      assert outbox[log[at]].eventType.OrderSentToKitchen?;
    }
  }

  lemma VersionIsLast(outbox: seq<Event>, log: seq<nat>, o: Id, k: nat)
    requires Numbered(outbox) && InOutbox(outbox, log) && GoodHistory(EventsOf(outbox, o)) && CameUpTo(outbox, log, o, k)
    requires TicketOf(EventsOf(outbox, o)[..k]).Some?
    ensures IsLastKitchenVersion(outbox, log, o, TicketOf(EventsOf(outbox, o)[..k]).value.sourceEventVersion)
  {
    var events := EventsOf(outbox, o);
    var version := TicketOf(events[..k]).value.sourceEventVersion;
    TicketVersion(events[..k]);
    var last := CameFrom(outbox, log, o, k, version - 1);
    assert KitchenEventCame(outbox, log, o, last) && outbox[log[last]].version == version;
    forall at | 0 <= at < |log| && KitchenEventCame(outbox, log, o, at) ensures outbox[log[at]].version <= version {
      CameAt(outbox, log, o, k, at);
      assert events[..k][outbox[log[at]].version - 1] == outbox[log[at]];
    }
  }

  lemma AllCame(outbox: seq<Event>, log: seq<nat>, o: Id, k: nat)
    requires Numbered(outbox) && CameUpTo(outbox, log, o, k)
    requires forall i :: 0 <= i < |outbox| && outbox[i].orderId == o ==> i in log
    ensures k == |EventsOf(outbox, o)|
  {
    EventsAreInOutbox(outbox, o);
    var events := EventsOf(outbox, o);
    if events != [] {
      assert events[|events| - 1] in events && events[|events| - 1].id in log;
    }
  }

  lemma FrozenBefore(events: seq<Event>, k: nat, tableNumber: string, items: seq<Line>)
    requires FrozenSince(events, tableNumber, items) && k <= |events|
    ensures FrozenSince(events[..k], tableNumber, items)
  {
  }

  lemma OrderFacts(db: Db, o: Id)
    requires GoodDb(db) && o in db.orders && o in db.items
    ensures var events := EventsOf(db.outbox, o);
      && Numbered(db.outbox) && GoodHistory(events) && events != []
      && StatusAfter(events[|events| - 1].eventType) == db.orders[o].status
      && FrozenSince(events, db.orders[o].tableNumber, db.items[o])
      && forall i :: 0 <= i < |events| ==> events[i].restaurantId == db.orders[o].restaurantId
  {
    assert GoodOrderIn(db, o);
    hide GoodMoney, EventsOf;
  }

  /**
   A ticket exists exactly if the event that sent the order to the kitchen has come; it shows the lines the
   order was sent with and still has, and the version of the last kitchen event that came; and once
   everything has come its state is that of the order, READY when the order was paid.
   */
  lemma TicketAgreesWithOrder(db: Db, log: seq<nat>, o: Id)
    requires GoodDb(db) && InOrder(db.outbox, log) && o in db.orders && o in db.items
    ensures var ticket := TicketIn(ConsumeAll(db.outbox, log), o);
      && (ticket.Some? <==> SendCame(db.outbox, log, o))
      && (ticket.Some? ==>
            && ticket.value.items == db.items[o] && ticket.value.tableNumber == db.orders[o].tableNumber
            && ticket.value.restaurantId == db.orders[o].restaurantId
            && IsLastKitchenVersion(db.outbox, log, o, ticket.value.sourceEventVersion))
      && ((forall i :: 0 <= i < |db.outbox| && db.outbox[i].orderId == o ==> i in log) ==>
            Fits(ticket, db.orders[o].status))
  {
    var outbox, events := db.outbox, EventsOf(db.outbox, o);
    hide *;
    OrderFacts(db, o);
    var k := CameAndTicket(outbox, log, o);
    SendCameIff(outbox, log, o, k);
    if TicketOf(events[..k]).Some? {
      VersionIsLast(outbox, log, o, k);
      FrozenBefore(events, k, db.orders[o].tableNumber, db.items[o]);
      TicketIsFrozen(events[..k], db.orders[o].restaurantId, db.orders[o].tableNumber, db.items[o]);
    }
    if forall i :: 0 <= i < |outbox| && outbox[i].orderId == o ==> i in log {
      AllCame(outbox, log, o, k);
      assert events[..k] == events;
      TicketFits(events);
    }
  }

  /* ---- reading the topic ---- */

  // A consumer reads on, or resumes from an offset it has already passed.
  datatype ReadMove = Next | Resume(offset: nat)

  datatype Reader = Reader(offset: nat, log: seq<nat>)

  function Read(topic: seq<nat>, moves: seq<ReadMove>): Reader {
    if moves == [] then Reader(0, [])
    else
      var r := Read(topic, moves[..|moves| - 1]);
      match moves[|moves| - 1]
      case Next => if r.offset < |topic| then Reader(r.offset + 1, r.log + [topic[r.offset]]) else r
      case Resume(offset) => if offset <= r.offset then r.(offset := offset) else r
  }

  lemma {:induction false} ReadIsInOrder(outbox: seq<Event>, topic: seq<nat>, moves: seq<ReadMove>)
    requires InOrder(outbox, topic)
    ensures var r := Read(topic, moves);
      InOrder(outbox, r.log) && r.offset <= |topic| && forall i :: 0 <= i < r.offset ==> topic[i] in r.log
  {
    if moves != [] {
      ReadIsInOrder(outbox, topic, moves[..|moves| - 1]);
      var r, after := Read(topic, moves[..|moves| - 1]), Read(topic, moves);
      if moves[|moves| - 1].Next? && r.offset < |topic| {
        ReadMore(outbox, topic, r);
        assert after.log[|r.log|] == topic[r.offset];
        assert forall i :: i in r.log ==> i in after.log;
      }
    }
  }

  lemma ReadMore(outbox: seq<Event>, topic: seq<nat>, r: Reader)
    requires InOrder(outbox, topic) && InOrder(outbox, r.log) && r.offset < |topic|
    requires forall i :: 0 <= i < r.offset ==> topic[i] in r.log
    ensures InOrder(outbox, r.log + [topic[r.offset]])
  {
    var longer := r.log + [topic[r.offset]];
    forall at | 0 <= at < |longer| ensures longer[at] < |outbox| && EarlierCame(outbox, longer, at) {
      if at < |r.log| {
        assert EarlierCame(outbox, r.log, at) && longer[..at] == r.log[..at];
      } else {
        assert EarlierCame(outbox, topic, r.offset) && longer[..at] == r.log;
      }
    }
  }
}
