/**
 The till's view of an order: the last canonical snapshot with every queued mutation folded onto it.
 */
module ProjectQueue {
  import opened Domain

  datatype RowStatus = Pending | Syncing | ConflictRow | Blocked

  // One row of the `pendingMutations` table.
  datatype Row = Row(
    mutationId: Id, restaurantId: Id, terminalId: Id, orderId: Id, baseVersion: nat,
    command: Command, createdAt: nat, status: RowStatus)

  type Menu = map<Id, Product>

  function WithItems(order: Snapshot, items: seq<Line>): Snapshot {
    order.(items := items, totalCents := CalculateTotalCents(items))
  }

  function MapLine(items: seq<Line>, productId: Id, f: Line -> Line): (mapped: seq<Line>)
    ensures |mapped| == |items|
    ensures forall i :: 0 <= i < |items| ==>
      mapped[i] == if items[i].productId == productId then f(items[i]) else items[i]
  {
    seq(|items|, i requires 0 <= i < |items| =>
      if items[i].productId == productId then f(items[i]) else items[i])
  }

  function WithoutProduct(items: seq<Line>, productId: Id): seq<Line> {
    if items == [] then []
    else
      var kept := WithoutProduct(items[..|items| - 1], productId);
      var last := items[|items| - 1];
      if last.productId == productId then kept else kept + [last]
  }

  function ProjectedLine(menu: Menu, productId: Id, quantity: int): Line {
    if productId in menu then Line(productId, menu[productId].name, quantity, menu[productId].priceCents)
    else Line(productId, "", quantity, 0)
  }

  function ApplyOne(order: Option<Snapshot>, row: Row, menu: Menu): Option<Snapshot> {
    if row.command.CreateOrder? && order.None? then
      Some(Snapshot(row.orderId, row.restaurantId, row.command.tableNumber, Open,
                    row.baseVersion + 1, 0, []))
    else if order.None? then None
    else
      var decision := Decide(order, row.command);
      if !decision.Apply? then order
      else
        var next := order.value.(status := decision.nextStatus, version := row.baseVersion + 1);
        Some(match row.command
          case AddItem(productId, quantity) =>
            if productId in ProductIds(next.items) then
              WithItems(next, MapLine(next.items, productId,
                (line: Line) => line.(quantity := line.quantity + quantity)))
            else
              WithItems(next, next.items + [ProjectedLine(menu, productId, quantity)])
          case RemoveItem(productId) =>
            WithItems(next, WithoutProduct(next.items, productId))
          case ChangeQuantity(productId, quantity) =>
            WithItems(next, MapLine(next.items, productId, (line: Line) => line.(quantity := quantity)))
          case _ => next)
  }

  function Project(canonical: Option<Snapshot>, queue: seq<Row>, menu: Menu): Option<Snapshot>
    decreases |queue|
  {
    if queue == [] then canonical
    else Project(ApplyOne(canonical, queue[0], menu), queue[1..], menu)
  }

  function NextBaseVersion(projected: Option<Snapshot>): nat {
    if projected.None? then 0 else projected.value.version
  }

  lemma {:induction false} ProjectAppends(canonical: Option<Snapshot>, queue: seq<Row>, row: Row, menu: Menu)
    ensures Project(canonical, queue + [row], menu) == ApplyOne(Project(canonical, queue, menu), row, menu)
    decreases |queue|
  {
    if queue == [] {
      assert ([row])[1..] == [];
    } else {
      assert (queue + [row])[0] == queue[0];
      assert (queue + [row])[1..] == queue[1..] + [row];
      ProjectAppends(ApplyOne(canonical, queue[0], menu), queue[1..], row, menu);
    }
  }
}
