/**
 What an item command does to the lines of an order, place by place and in money, on the server and in the
 till's projection.
 */
module LineChanges {
  import opened Domain
  import opened ProjectQueue
  import opened Server
  import opened ServerInvariants

  predicate HasLine(items: seq<Line>, productId: Id) {
    exists i :: 0 <= i < |items| && items[i].productId == productId
  }

  // Every line keeps its place, its name and its price; only the quantity of the product's line is another.
  predicate OnlyQuantity(items: seq<Line>, after: seq<Line>, productId: Id, quantity: int -> int) {
    && |after| == |items|
    && forall i :: 0 <= i < |items| ==>
      after[i] == if items[i].productId == productId then items[i].(quantity := quantity(items[i].quantity)) else items[i]
  }

  // An addition counts on top of what is there, at the price it was first ordered at; a new line goes last.
  predicate IsAddition(items: seq<Line>, after: seq<Line>, productId: Id, quantity: int, name: string, priceCents: int) {
    if HasLine(items, productId) then OnlyQuantity(items, after, productId, (before: int) => before + quantity)
    else after == items + [Line(productId, name, quantity, priceCents)]
  }

  predicate IsRemoval(items: seq<Line>, after: seq<Line>, productId: Id) {
    forall i :: 0 <= i < |items| && items[i].productId == productId ==> after == items[..i] + items[i + 1..]
  }

  predicate IsChange(items: seq<Line>, after: seq<Line>, command: Command, name: string, priceCents: int) {
    match command
    case AddItem(p, quantity) => IsAddition(items, after, p, quantity, name, priceCents)
    case RemoveItem(p) => IsRemoval(items, after, p)
    case ChangeQuantity(p, quantity) => OnlyQuantity(items, after, p, (before: int) => quantity)
    case _ => after == items
  }

  lemma IndexIsTheLine(items: seq<Line>, productId: Id)
    requires GoodLines(items)
    ensures IndexOfProduct(items, productId).Some? <==> HasLine(items, productId)
    ensures forall i :: 0 <= i < |items| && items[i].productId == productId ==> IndexOfProduct(items, productId) == Some(i)
  {
    assert forall i :: 0 <= i < |items| ==> items[i].productId in ProductIds(items);
  }

  /** The lines the server writes, for each command. */
  lemma ServerLines(products: map<Id, Product>, items: seq<Line>, command: Command)
    requires GoodLines(items) && ChangedLines(products, items, command).Some?
    ensures command.AddItem? ==> command.productId in products
    ensures IsChange(items, ChangedLines(products, items, command).value, command,
      if command.AddItem? then products[command.productId].name else "",
      if command.AddItem? then products[command.productId].priceCents else 0)
  {
    if ChangesItems(command) { IndexIsTheLine(items, command.productId); }
  }

  lemma {:induction false} NoneRemoved(items: seq<Line>, productId: Id)
    requires !HasLine(items, productId)
    ensures WithoutProduct(items, productId) == items
  {
    if items != [] {
      var init := items[..|items| - 1];
      assert forall i :: 0 <= i < |init| ==> init[i] == items[i];
      NoneRemoved(init, productId);
    }
  }

  lemma {:induction false} OneRemoved(items: seq<Line>, i: nat)
    requires GoodLines(items) && i < |items|
    ensures WithoutProduct(items, items[i].productId) == items[..i] + items[i + 1..]
  {
    var n := |items| - 1;
    var init := items[..n];
    if i == n {
      NoneRemoved(init, items[i].productId);
    } else {
      OneRemoved(init, i);
      assert items[..i] + items[i + 1..] == init[..i] + init[i + 1..] + [items[n]];
    }
  }

  /** The lines the till projects, with the names and prices of its own menu. */
  lemma TillLines(order: Snapshot, row: Row, menu: Menu)
    requires GoodLines(order.items) && !row.command.CreateOrder? && Decide(Some(order), row.command).Apply?
    ensures var next := ApplyOne(Some(order), row, menu);
      && next.Some?
      && IsChange(order.items, next.value.items, row.command,
           if row.command.AddItem? && row.command.productId in menu then menu[row.command.productId].name else "",
           if row.command.AddItem? && row.command.productId in menu then menu[row.command.productId].priceCents else 0)
      && next.value == order.(items := next.value.items, version := row.baseVersion + 1,
           status := Decide(Some(order), row.command).nextStatus,
           totalCents := if ChangesItems(row.command) then CalculateTotalCents(next.value.items) else order.totalCents)
  {
    if row.command.RemoveItem? {
      forall i | 0 <= i < |order.items| && order.items[i].productId == row.command.productId
        ensures WithoutProduct(order.items, row.command.productId) == order.items[..i] + order.items[i + 1..] {
        OneRemoved(order.items, i);
      }
    }
    hide WithoutProduct, Decide, CalculateTotalCents;
  }

  /** What a till shows of a new order before the server has seen it, and of a command that does not apply. */
  lemma TillShowsExactly(order: Option<Snapshot>, row: Row, menu: Menu)
    ensures order.None? && row.command.CreateOrder? ==>
      ApplyOne(order, row, menu) ==
        Some(Snapshot(row.orderId, row.restaurantId, row.command.tableNumber, Open, row.baseVersion + 1, 0, []))
    ensures order.None? && !row.command.CreateOrder? ==> ApplyOne(order, row, menu) == None
    ensures order.Some? && !Decide(order, row.command).Apply? ==> ApplyOne(order, row, menu) == order
  {
  }

  /* ---- in money ---- */

  lemma TotalOfUpdate(items: seq<Line>, i: nat, line: Line)
    requires i < |items|
    ensures CalculateTotalCents(items[i := line]) == CalculateTotalCents(items)
      - items[i].quantity * items[i].unitPriceCents + line.quantity * line.unitPriceCents
  {
    hide CalculateTotalCents;
    TotalWithout(items, i);
    TotalWithout(items[i := line], i);
    assert items[i := line][..i] + items[i := line][i + 1..] == items[..i] + items[i + 1..];
  }

  lemma OneIsUpdated(items: seq<Line>, after: seq<Line>, i: nat, quantity: int -> int)
    requires GoodLines(items) && i < |items| && OnlyQuantity(items, after, items[i].productId, quantity)
    ensures after == items[i := items[i].(quantity := quantity(items[i].quantity))]
  {
  }

  lemma Distributes(a: int, b: int, c: int)
    ensures (a + b) * c == a * c + b * c
    ensures (a - b) * c == a * c - b * c
  {
  }

  // A new quantity on a line is worth the difference.
  lemma QuantityIsWorth(items: seq<Line>, after: seq<Line>, i: nat, quantity: int -> int)
    requires GoodLines(items) && i < |items| && OnlyQuantity(items, after, items[i].productId, quantity)
    ensures CalculateTotalCents(after) - CalculateTotalCents(items) ==
      (quantity(items[i].quantity) - items[i].quantity) * items[i].unitPriceCents
  {
    hide CalculateTotalCents, GoodLines, OnlyQuantity;
    var line := items[i];
    OneIsUpdated(items, after, i, quantity);
    TotalOfUpdate(items, i, line.(quantity := quantity(line.quantity)));
    Distributes(quantity(line.quantity), line.quantity, line.unitPriceCents);
  }

  lemma LineIsThere(items: seq<Line>, i: nat)
    requires i < |items|
    ensures HasLine(items, items[i].productId)
  {
  }

  /** What each change of a line is worth. */
  lemma MoneyMoves(items: seq<Line>, after: seq<Line>, command: Command, name: string, priceCents: int, i: nat)
    requires GoodLines(items) && IsChange(items, after, command, name, priceCents)
    requires ChangesItems(command) ==> i < |items| && items[i].productId == command.productId
    ensures CalculateTotalCents(after) - CalculateTotalCents(items) == match command
      case AddItem(_, quantity) => quantity * items[i].unitPriceCents
      case RemoveItem(_) => -(items[i].quantity * items[i].unitPriceCents)
      case ChangeQuantity(_, quantity) => (quantity - items[i].quantity) * items[i].unitPriceCents
      case _ => 0
  {
    hide CalculateTotalCents, GoodLines, OnlyQuantity, HasLine;
    match command
    case AddItem(_, quantity) =>
      LineIsThere(items, i);
      QuantityIsWorth(items, after, i, (before: int) => before + quantity);
      assert items[i].quantity + quantity - items[i].quantity == quantity;
    case RemoveItem(_) => TotalWithout(items, i);
    case ChangeQuantity(_, quantity) => QuantityIsWorth(items, after, i, (before: int) => quantity);
    case _ =>
  }

  lemma MoneyOfNewLine(items: seq<Line>, after: seq<Line>, productId: Id, quantity: int, name: string, priceCents: int)
    requires IsAddition(items, after, productId, quantity, name, priceCents) && !HasLine(items, productId)
    ensures CalculateTotalCents(after) == CalculateTotalCents(items) + quantity * priceCents
  {
    hide CalculateTotalCents;
    TotalAddsUp(items, [Line(productId, name, quantity, priceCents)]);
    TotalOfOne(Line(productId, name, quantity, priceCents));
  }
}
