/**
 The shared domain package: order statuses and their transitions, prices, and `Decide`, the one
 function that both the tills and the server ask whether a command may apply to an order.
 */
module Domain {

  // Identifiers (uuids, product and terminal keys) only need equality and a total order.
  type Id = nat

  datatype Option<+T> = None | Some(value: T)

  datatype Status = Open | SentToKitchen | Preparing | Ready | Paid | Cancelled

  datatype Line = Line(productId: Id, name: string, quantity: int, unitPriceCents: int)

  datatype Snapshot = Snapshot(
    id: Id, restaurantId: Id, tableNumber: string, status: Status, version: nat,
    totalCents: int, items: seq<Line>)

  datatype Product = Product(name: string, priceCents: int)

  datatype PaymentMethod = Cash | Card

  datatype Command =
    | CreateOrder(tableNumber: string)
    | AddItem(productId: Id, quantity: int)
    | RemoveItem(productId: Id)
    | ChangeQuantity(productId: Id, quantity: int)
    | SendToKitchen
    | StartPreparing
    | MarkReady
    | Pay(paymentMethod: PaymentMethod)
    | Cancel(note: Option<string>)

  datatype ConflictReason =
    | OrderVersionConflict
    | OrderCancelled
    | OrderAlreadyPaid
    | OrderAlreadySentToKitchen
    | OrderAlreadyExists
    | InvalidStatusTransition
    | ItemNotInOrder

  datatype Decision =
    | Apply(nextStatus: Status)
    | AlreadyApplied
    | Conflict(reason: ConflictReason)

  function AllowedTransitions(from: Status): set<Status> {
    match from
    case Open => {SentToKitchen, Paid, Cancelled}
    case SentToKitchen => {Preparing, Cancelled}
    case Preparing => {Ready, Cancelled}
    case Ready => {Paid, Cancelled}
    case Paid => {}
    case Cancelled => {}
  }

  predicate IsValidTransition(from: Status, to: Status) {
    to in AllowedTransitions(from)
  }

  predicate IsTerminal(status: Status) {
    AllowedTransitions(status) == {}
  }

  // What an applied command may do to the status: follow the table, or stay put while open.
  predicate IsStatusStep(from: Status, to: Status) {
    IsValidTransition(from, to) || (from == Open && to == Open)
  }

  function CalculateTotalCents(items: seq<Line>): int {
    if items == [] then 0
    else CalculateTotalCents(items[..|items| - 1]) +
         items[|items| - 1].quantity * items[|items| - 1].unitPriceCents
  }

  lemma TotalOfOne(line: Line)
    ensures CalculateTotalCents([line]) == line.quantity * line.unitPriceCents
  {
    assert [line][..0] == [];
  }

  /** The total adds up: lines put together cost what each part costs. */
  lemma {:induction false} TotalAddsUp(a: seq<Line>, b: seq<Line>)
    ensures CalculateTotalCents(a + b) == CalculateTotalCents(a) + CalculateTotalCents(b)
    decreases |b|
  {
    if b == [] {
      assert a + b == a;
    } else {
      TotalAddsUp(a, b[..|b| - 1]);
      assert (a + b)[..|a + b| - 1] == a + b[..|b| - 1];
    }
  }

  // Taking one line out takes its price out.
  lemma TotalWithout(items: seq<Line>, i: nat)
    requires i < |items|
    ensures CalculateTotalCents(items) ==
      CalculateTotalCents(items[..i] + items[i + 1..]) + items[i].quantity * items[i].unitPriceCents
  {
    hide CalculateTotalCents;
    assert items == items[..i] + [items[i]] + items[i + 1..];
    TotalAddsUp(items[..i] + [items[i]], items[i + 1..]);
    TotalAddsUp(items[..i], [items[i]]);
    TotalAddsUp(items[..i], items[i + 1..]);
    TotalOfOne(items[i]);
  }

  /** So it depends on which lines there are and not on their order. */
  lemma {:induction false} SameLinesSameTotal(a: seq<Line>, b: seq<Line>)
    requires multiset(a) == multiset(b)
    ensures CalculateTotalCents(a) == CalculateTotalCents(b)
    decreases |a|
  {
    assert |a| == |multiset(a)| && |b| == |multiset(b)|;
    if a != [] {
      var init, last := a[..|a| - 1], a[|a| - 1];
      assert a == init + [last];
      assert last in multiset(b);
      var j :| 0 <= j < |b| && b[j] == last;
      assert b == b[..j] + [last] + b[j + 1..];
      assert multiset(init) == multiset(a) - multiset{last};
      assert multiset(b[..j] + b[j + 1..]) == multiset(b) - multiset{last};
      SameLinesSameTotal(init, b[..j] + b[j + 1..]);
      TotalWithout(b, j);
    }
  }

  function ProductIds(items: seq<Line>): set<Id> {
    set line | line in items :: line.productId
  }

  function BlockingStatusConflict(status: Status): Option<ConflictReason> {
    if status == Cancelled then Some(OrderCancelled)
    else if status == Paid then Some(OrderAlreadyPaid)
    else None
  }

  function Decide(order: Option<Snapshot>, command: Command): Decision
    requires order.Some? || command.CreateOrder?
  {
    if command.CreateOrder? then
      if order.None? then Apply(Open)
      else if order.value.tableNumber == command.tableNumber then AlreadyApplied
      else Conflict(OrderAlreadyExists)
    else
      var status := order.value.status;
      if command.Cancel? then
        if status == Cancelled then AlreadyApplied
        else if status == Paid then Conflict(OrderAlreadyPaid)
        else Apply(Cancelled)
      else
        var blocked := BlockingStatusConflict(status);
        if blocked.Some? then Conflict(blocked.value)
        else match command
          case AddItem(_, _) => DecideItemChange(order.value, command)
          case RemoveItem(_) => DecideItemChange(order.value, command)
          case ChangeQuantity(_, _) => DecideItemChange(order.value, command)
          case SendToKitchen =>
            if status == Open then Apply(SentToKitchen) else Conflict(OrderAlreadySentToKitchen)
          case StartPreparing => DecideTransition(status, Preparing)
          case MarkReady => DecideTransition(status, Ready)
          case Pay(_) => DecideTransition(status, Paid)
  }

  function DecideItemChange(order: Snapshot, command: Command): Decision
    requires command.AddItem? || command.RemoveItem? || command.ChangeQuantity?
  {
    if order.status != Open then Conflict(OrderAlreadySentToKitchen)
    else if command.AddItem? then Apply(order.status)
    else if command.productId in ProductIds(order.items) then Apply(order.status)
    else if command.RemoveItem? then AlreadyApplied
    else Conflict(ItemNotInOrder)
  }

  function DecideTransition(from: Status, to: Status): Decision {
    if IsValidTransition(from, to) then Apply(to) else Conflict(InvalidStatusTransition)
  }

  /** Whatever `Decide` lets through moves an existing order along the table, or not at all while open. */
  lemma DecideFollowsTable(order: Snapshot, command: Command)
    requires Decide(Some(order), command).Apply?
    ensures IsStatusStep(order.status, Decide(Some(order), command).nextStatus)
    ensures !IsTerminal(order.status)
  {
  }

  // The order has a line of the product.
  predicate Holds(order: Snapshot, productId: Id) {
    exists i :: 0 <= i < |order.items| && order.items[i].productId == productId
  }

  lemma HeldIsListed(order: Snapshot, productId: Id)
    ensures productId in ProductIds(order.items) <==> Holds(order, productId)
  {
  }

  /** Which commands an existing order takes, and where each one leaves it. */
  lemma TakesExactly(order: Snapshot, command: Command)
    ensures var s := order.status;
      Decide(Some(order), command).Apply? <==> match command
        case CreateOrder(_) => false
        case AddItem(_, _) => s == Open
        case RemoveItem(p) => s == Open && Holds(order, p)
        case ChangeQuantity(p, _) => s == Open && Holds(order, p)
        case SendToKitchen => s == Open
        case StartPreparing => s == SentToKitchen
        case MarkReady => s == Preparing
        case Pay(_) => s == Open || s == Ready
        case Cancel(_) => s != Paid && s != Cancelled
    ensures Decide(Some(order), command).Apply? ==> Decide(Some(order), command).nextStatus == match command
        case SendToKitchen => SentToKitchen
        case StartPreparing => Preparing
        case MarkReady => Ready
        case Pay(_) => Paid
        case Cancel(_) => Cancelled
        case _ => Open
  {
    if command.RemoveItem? || command.ChangeQuantity? { HeldIsListed(order, command.productId); }
  }

  /** Which it has been given what it asks for already, and why each of the others is refused. */
  lemma RefusesExactly(order: Snapshot, command: Command)
    ensures Decide(Some(order), command).AlreadyApplied? <==> match command
        case CreateOrder(table) => order.tableNumber == table
        case RemoveItem(p) => order.status == Open && !Holds(order, p)
        case Cancel(_) => order.status == Cancelled
        case _ => false
    ensures Decide(Some(order), command).Conflict? ==>
      Decide(Some(order), command).reason == (
        if command.CreateOrder? then OrderAlreadyExists
        else if order.status == Cancelled then OrderCancelled
        else if order.status == Paid then OrderAlreadyPaid
        else match command
          case AddItem(_, _) => OrderAlreadySentToKitchen
          case RemoveItem(_) => OrderAlreadySentToKitchen
          case ChangeQuantity(_, _) => if order.status == Open then ItemNotInOrder else OrderAlreadySentToKitchen
          case SendToKitchen => OrderAlreadySentToKitchen
          case _ => InvalidStatusTransition)
  {
    if command.RemoveItem? || command.ChangeQuantity? { HeldIsListed(order, command.productId); }
  }

  lemma CreatesExactly(command: Command)
    requires command.CreateOrder?
    ensures Decide(None, command) == Apply(Open)
  {
  }
}
