/**
 What `decide` can see of an order, how far apart two states of one order are, and the version a till stamps
 on its next row, in those terms.
 */
module Chains {
  import opened Domain
  import opened ProjectQueue

  // What `Decide` can see of an order.
  datatype Shape = Absent | Present(table: string, status: Status, held: set<Id>)

  datatype Reaction = Moves(next: Shape) | Satisfied | Refused

  function ShapeOf(order: Option<Snapshot>): Shape {
    match order
    case None => Absent
    case Some(o) => Present(o.tableNumber, o.status, ProductIds(o.items))
  }

  function React(shape: Shape, command: Command): Reaction {
    match command
    case CreateOrder(table) =>
      if shape.Absent? then Moves(Present(table, Open, {}))
      else if shape.table == table then Satisfied else Refused
    case Cancel(_) =>
      if shape.Absent? || shape.status == Paid then Refused
      else if shape.status == Cancelled then Satisfied
      else Moves(shape.(status := Cancelled))
    case AddItem(p, _) =>
      if shape.Present? && shape.status == Open then Moves(shape.(held := shape.held + {p})) else Refused
    case RemoveItem(p) =>
      if shape.Absent? || shape.status != Open then Refused
      else if p in shape.held then Moves(shape.(held := shape.held - {p})) else Satisfied
    case ChangeQuantity(p, _) =>
      if shape.Present? && shape.status == Open && p in shape.held then Moves(shape) else Refused
    case SendToKitchen => ReactTo(shape, SentToKitchen)
    case StartPreparing => ReactTo(shape, Preparing)
    case MarkReady => ReactTo(shape, Ready)
    case Pay(_) => ReactTo(shape, Paid)
  }

  function ReactTo(shape: Shape, to: Status): Reaction {
    if shape.Present? && IsValidTransition(shape.status, to) then Moves(shape.(status := to)) else Refused
  }

  function After(shape: Shape, command: Command): Shape {
    match React(shape, command)
    case Moves(next) => next
    case _ => shape
  }

  // The commands the server may acknowledge without applying them.
  predicate Satisfiable(command: Command) {
    command.CreateOrder? || command.RemoveItem? || command.Cancel?
  }

  lemma ReactIsDecide(order: Option<Snapshot>, command: Command)
    requires order.Some? || command.CreateOrder?
    ensures React(ShapeOf(order), command).Moves? <==> Decide(order, command).Apply?
    ensures React(ShapeOf(order), command).Satisfied? <==> Decide(order, command).AlreadyApplied?
    ensures Decide(order, command).AlreadyApplied? ==> Satisfiable(command)
  {
  }

  /* ---- how far one state of an order is from a later one ---- */

  function Rank(status: Status): nat {
    match status
    case Open => 0
    case SentToKitchen => 1
    case Preparing => 2
    case Ready => 3
    case Paid => 4
    case Cancelled => 5
  }

  predicate Later(a: Shape, b: Shape) {
    a.Present? ==>
      && b.Present? && a.table == b.table && Rank(a.status) <= Rank(b.status)
      && (IsTerminal(a.status) ==> a.status == b.status)
  }

  // At least this many commands lie between `a` and a later `b`: each takes away one product that
  // `a` holds, moves the status, or creates the order.
  function Dist(a: Shape, b: Shape): nat {
    if b.Absent? then 0
    else if a.Absent? then 1 + (if b.status == Open then 0 else 1)
    else |a.held - b.held| + (if a.status == b.status then 0 else 1)
  }

  lemma DistSelf(a: Shape)
    ensures Dist(a, a) == 0 && Later(a, a)
  {
    if a.Present? { assert a.held - a.held == {}; }
  }

  lemma SubsetSize(a: set<Id>, b: set<Id>)
    requires a <= b
    ensures |a| <= |b|
  {
    assert b == a + (b - a);
  }

  // A command both states can take, when it is one that could also be acknowledged unapplied.
  lemma DistBoth(a: Shape, b: Shape, command: Command)
    requires Later(a, b) && Satisfiable(command)
    requires React(a, command).Moves? && React(b, command).Moves?
    ensures Later(After(a, command), After(b, command)) && Dist(After(a, command), After(b, command)) <= Dist(a, b)
  {
    var a', b' := After(a, command), After(b, command);
    if a.Present? {
      SubsetSize(a'.held - b'.held, a.held - b.held);
    }
  }

  // A command that `a` would take and `b` already satisfies was taken in between.
  lemma DistSatisfied(a: Shape, b: Shape, command: Command)
    requires Later(a, b) && React(a, command).Moves? && React(b, command).Satisfied?
    ensures Later(After(a, command), b) && Dist(After(a, command), b) + 1 <= Dist(a, b)
  {
    var a' := After(a, command);
    if command.RemoveItem? {
      var p := command.productId;
      assert a.held - b.held == (a'.held - b.held) + {p};
      assert p !in a'.held - b.held;
    }
  }

  // States at distance zero take the same steps.
  lemma DistZero(a: Shape, b: Shape, command: Command)
    requires Later(a, b) && Dist(a, b) == 0 && !Satisfiable(command)
    ensures React(a, command).Moves? ==> React(b, command).Moves?
    ensures Later(After(a, command), After(b, command)) && Dist(After(a, command), After(b, command)) == 0
  {
    if a.Present? {
      assert a.held - b.held == {};
      forall p | p in a.held ensures p in b.held {
        assert p !in a.held - b.held;
      }
      var a', b' := After(a, command), After(b, command);
      assert a'.held <= b'.held;
      assert a'.held - b'.held == {};
    }
  }

  /* ---- stamping the next row ---- */

  // The version the till's projection shows after the rows: the last predicted change decides.
  function Label(shown: nat, shape: Shape, rows: seq<Row>): nat
    decreases |rows|
  {
    if rows == [] then shown
    else Label(if React(shape, rows[0].command).Moves? then rows[0].baseVersion + 1 else shown,
               After(shape, rows[0].command), rows[1..])
  }

  lemma {:induction false} LineIds(items: seq<Line>, p: Id, line: Line, f: Line -> Line)
    requires forall l: Line :: f(l).productId == l.productId
    ensures ProductIds(items + [line]) == ProductIds(items) + {line.productId}
    ensures ProductIds(MapLine(items, p, f)) == ProductIds(items)
    ensures ProductIds(WithoutProduct(items, p)) == ProductIds(items) - {p}
  {
    AppendIds(items, line);
    MapIds(items, p, f);
    WithoutIds(items, p);
  }

  lemma MapIds(items: seq<Line>, p: Id, f: Line -> Line)
    requires forall l: Line :: f(l).productId == l.productId
    ensures ProductIds(MapLine(items, p, f)) == ProductIds(items)
  {
    var mapped := MapLine(items, p, f);
    forall q | q in ProductIds(items) ensures q in ProductIds(mapped) {
      var i :| 0 <= i < |items| && items[i].productId == q;
      assert mapped[i].productId == q && mapped[i] in mapped;
    }
    forall q | q in ProductIds(mapped) ensures q in ProductIds(items) {
      var i :| 0 <= i < |mapped| && mapped[i].productId == q;
      assert items[i].productId == q && items[i] in items;
    }
  }

  lemma AppendIds(items: seq<Line>, line: Line)
    ensures ProductIds(items + [line]) == ProductIds(items) + {line.productId}
  {
    assert forall l :: l in items + [line] <==> l in items || l == line;
  }

  lemma {:induction false} WithoutIds(items: seq<Line>, p: Id)
    ensures ProductIds(WithoutProduct(items, p)) == ProductIds(items) - {p}
  {
    if items == [] {
      assert ProductIds(items) == {};
    } else {
      var init, last := items[..|items| - 1], items[|items| - 1];
      WithoutIds(init, p);
      assert items == init + [last];
      AppendIds(init, last);
      AppendIds(WithoutProduct(init, p), last);
    }
  }

  // What the till's arithmetic does to the products held.
  lemma ItemsShape(order: Snapshot, row: Row, menu: Menu)
    requires Decide(Some(order), row.command).Apply? && !row.command.CreateOrder?
    ensures var next := ApplyOne(Some(order), row, menu);
      && next.Some? && next.value.tableNumber == order.tableNumber && next.value.version == row.baseVersion + 1
      && next.value.status == Decide(Some(order), row.command).nextStatus
      && ProductIds(next.value.items) == (match row.command
           case AddItem(p, _) => ProductIds(order.items) + {p}
           case RemoveItem(p) => ProductIds(order.items) - {p}
           case _ => ProductIds(order.items))
  {
    hide ProductIds, MapLine, WithoutProduct, Decide, CalculateTotalCents;
    match row.command
    case AddItem(p, q) =>
      LineIds(order.items, p, ProjectedLine(menu, p, q), (line: Line) => line.(quantity := line.quantity + q));
    case RemoveItem(p) => LineIds(order.items, p, Line(p, "", 0, 0), (line: Line) => line);
    case ChangeQuantity(p, q) => LineIds(order.items, p, Line(p, "", 0, 0), (line: Line) => line.(quantity := q));
    case _ =>
  }

  // One row of the till's projection, as a shape and a version.
  lemma ApplyOneShape(order: Option<Snapshot>, row: Row, menu: Menu)
    ensures ShapeOf(ApplyOne(order, row, menu)) == After(ShapeOf(order), row.command)
    ensures NextBaseVersion(ApplyOne(order, row, menu)) ==
      if React(ShapeOf(order), row.command).Moves? then row.baseVersion + 1 else NextBaseVersion(order)
  {
    if order.Some? {
      ReactIsDecide(order, row.command);
      if Decide(order, row.command).Apply? && !row.command.CreateOrder? {
        ItemsShape(order.value, row, menu);
        hide ProductIds, ApplyOne;
      }
    }
  }

  /** `Label` is what `nextBaseVersion` stamps. */
  lemma {:induction false} ProjectionLabel(order: Option<Snapshot>, queue: seq<Row>, menu: Menu)
    ensures NextBaseVersion(Project(order, queue, menu)) == Label(NextBaseVersion(order), ShapeOf(order), queue)
    decreases |queue|
  {
    if queue != [] {
      ApplyOneShape(order, queue[0], menu);
      ProjectionLabel(ApplyOne(order, queue[0], menu), queue[1..], menu);
    }
  }
}
