/**
 Offline convergence: a queue staged while nobody else wrote, replayed with any answers lost and any
 crashes on the way, leaves the server's order exactly as the till had projected it.
 */
module Convergence {
  import opened Domain
  import opened ProjectQueue
  import opened Server
  import opened ServerInvariants
  import opened TillRules

  // One till draining one order's queue.
  datatype Drain = Drain(db: Db, cached: Option<Snapshot>, queue: seq<Row>, halted: bool)

  // What became of an attempt at the head: it never got out; it was served but nothing came back; the
  // answer was cached but the row not yet deleted; or the row was deleted.
  datatype Fate = Unsent | AnswerLost | CrashedBeforeDelete | Completed

  // `attempt`, with the server behind it.
  function Attempt(d: Drain, fate: Fate): Drain {
    if d.queue == [] || d.halted || fate.Unsent? then d
    else
      var result := Serial(d.db, RequestOf(d.queue[0]));
      var served := d.(db := result.db);
      if fate.AnswerLost? then served
      else if result.reply.AppliedReply? || result.reply.AlreadyAppliedReply? then
        var cached := if AcceptsSnapshot(d.cached, result.reply.order)
          then served.(cached := Some(result.reply.order)) else served;
        if fate.CrashedBeforeDelete? then cached else cached.(queue := d.queue[1..])
      else served.(halted := true)
  }

  function Replay(d: Drain, fates: seq<Fate>): Drain {
    if fates == [] then d else Attempt(Replay(d, fates[..|fates| - 1]), fates[|fates| - 1])
  }

  // A pass in which every attempt completes.
  function CleanPass(d: Drain, rows: nat): Drain
    decreases rows
  {
    if rows == 0 then d else CleanPass(Attempt(d, Completed), rows - 1)
  }

  /* ---- what was staged ---- */

  // The shared rules let the row through, and the catalogue knows its product.
  predicate NotRefused(products: map<Id, Product>, order: Option<Snapshot>, command: Command) {
    && (order.None? ==> command.CreateOrder?)
    && !Decide(order, command).Conflict?
    && (command.AddItem? ==> command.productId in products)
  }

  // Every row was stamped against the projection of the rows before it.
  predicate Staged(products: map<Id, Product>, order: Option<Snapshot>, queue: seq<Row>)
    decreases |queue|
  {
    queue == [] ||
    (&& queue[0].baseVersion == NextBaseVersion(order)
     && NotRefused(products, order, queue[0].command)
     && Staged(products, ApplyOne(order, queue[0], products), queue[1..]))
  }

  predicate Unused(db: Db, id: Id) {
    id !in db.processed && !PaymentTaken(db.payments, id)
  }

  // One restaurant's rows for one order, each valid, each with an id of its own.
  predicate OneOrder(queue: seq<Row>, orderId: Id, restaurantId: Id) {
    && (forall i :: 0 <= i < |queue| ==>
          queue[i].orderId == orderId && queue[i].restaurantId == restaurantId && ValidInput(RequestOf(queue[i])))
    && (forall i, j :: 0 <= i < j < |queue| ==> queue[i].mutationId != queue[j].mutationId)
  }

  predicate AllUnused(db: Db, queue: seq<Row>) {
    forall i :: 0 <= i < |queue| ==> Unused(db, queue[i].mutationId)
  }

  predicate OwnedBy(order: Option<Snapshot>, orderId: Id, restaurantId: Id) {
    order.Some? ==> order.value.id == orderId && order.value.restaurantId == restaurantId
  }

  /* ---- one row: the server does what the projection says ---- */

  lemma UniqueIndex(items: seq<Line>, productId: Id)
    requires GoodLines(items)
    ensures var index := IndexOfProduct(items, productId);
      index.Some? ==> forall i :: 0 <= i < |items| && i != index.value ==> items[i].productId != productId
  {
  }

  lemma SameMapped(items: seq<Line>, productId: Id, f: Line -> Line)
    requires GoodLines(items) && productId in ProductIds(items)
    ensures var i := IndexOfProduct(items, productId).value; MapLine(items, productId, f) == items[i := f(items[i])]
  {
    UniqueIndex(items, productId);
  }

  lemma {:induction false} NothingToRemove(items: seq<Line>, productId: Id)
    requires forall i :: 0 <= i < |items| ==> items[i].productId != productId
    ensures WithoutProduct(items, productId) == items
  {
    if items != [] {
      NothingToRemove(items[..|items| - 1], productId);
    }
  }

  lemma DeleteLast(items: seq<Line>, productId: Id)
    requires items != [] && items[|items| - 1].productId == productId
    ensures DeleteLine(items, productId) == items[..|items| - 1]
  {
  }

  lemma DeleteBeforeLast(items: seq<Line>, productId: Id)
    requires items != [] && items[|items| - 1].productId != productId
    ensures DeleteLine(items, productId) == DeleteLine(items[..|items| - 1], productId) + [items[|items| - 1]]
  {
    var init, last := items[..|items| - 1], items[|items| - 1];
    assert items == init + [last];
    var index := IndexOfProduct(init, productId);
    if index.Some? {
      assert items[..index.value] + items[index.value + 1..] == (init[..index.value] + init[index.value + 1..]) + [last];
    }
  }

  lemma {:induction false} SameRemoved(items: seq<Line>, productId: Id)
    requires GoodLines(items)
    ensures WithoutProduct(items, productId) == DeleteLine(items, productId)
  {
    if items != [] {
      var init := items[..|items| - 1];
      if items[|items| - 1].productId == productId {
        NothingToRemove(init, productId);
        DeleteLast(items, productId);
      } else {
        SameRemoved(init, productId);
        DeleteBeforeLast(items, productId);
      }
    }
  }

  lemma SameLines(products: map<Id, Product>, order: Snapshot, row: Row)
    requires GoodLines(order.items) && NotRefused(products, Some(order), row.command)
    requires Decide(Some(order), row.command).Apply?
    ensures ChangedLines(products, order.items, row.command) == Some(ApplyOne(Some(order), row, products).value.items)
  {
    match row.command
    case AddItem(p, quantity) =>
      if p in ProductIds(order.items) {
        SameMapped(order.items, p, (line: Line) => line.(quantity := line.quantity + quantity));
      }
    case RemoveItem(p) => SameRemoved(order.items, p);
    case ChangeQuantity(p, quantity) =>
      SameMapped(order.items, p, (line: Line) => line.(quantity := quantity));
    case _ =>
  }

  lemma SameOrder(products: map<Id, Product>, order: Snapshot, row: Row, nextStatus: Status)
    requires GoodLines(order.items) && order.totalCents == CalculateTotalCents(order.items)
    requires NotRefused(products, Some(order), row.command) && row.baseVersion == order.version
    requires Decide(Some(order), row.command) == Apply(nextStatus) && !row.command.CreateOrder?
    ensures var lines := ChangedLines(products, order.items, row.command).value;
      var orderRow := OrderRow(order.restaurantId, order.tableNumber, order.status, order.version, order.totalCents);
      ApplyOne(Some(order), row, products) ==
        Some(SnapshotFrom(order.id, ChangedRow(orderRow, row.command, nextStatus, lines), lines))
  {
    SameLines(products, order, row);
  }

  // The head commits, and the order becomes what the till projected.
  predicate CommitsAsProjected(db: Db, row: Row, after: Db) {
    var projected := ApplyOne(Load(db, row.orderId), row, db.products);
    && projected.Some?
    && Serial(db, RequestOf(row)) == Result(after, AppliedReply(projected.value))
    && Load(after, row.orderId) == projected
    && after.processed == db.processed[row.mutationId := Processed(HashOf(RequestOf(row)), row.terminalId, projected.value)]
    && after.products == db.products
    && OnlyPaidBy(db.payments, after.payments, row.mutationId)
  }

  predicate OnlyPaidBy(payments: seq<Payment>, after: seq<Payment>, id: Id) {
    after == payments || (|after| == |payments| + 1 && after[..|payments|] == payments && after[|payments|].mutationId == id)
  }

  lemma {:induction false} ChangeAsProjected(db: Db, row: Row)
    requires GoodDb(db) && Unused(db, row.mutationId) && !row.command.CreateOrder?
    requires OwnedBy(Load(db, row.orderId), row.orderId, row.restaurantId)
    requires row.baseVersion == NextBaseVersion(Load(db, row.orderId))
    requires NotRefused(db.products, Load(db, row.orderId), row.command) && Decide(Load(db, row.orderId), row.command).Apply?
    ensures CommitsAsProjected(db, row, Serial(db, RequestOf(row)).db)
  {
    var o, input := row.orderId, RequestOf(row);
    assert GoodOrderIn(db, o);
    var order := Load(db, o).value;
    var nextStatus := Decide(Some(order), row.command).nextStatus;
    SameOrder(db.products, order, row, nextStatus);
    SameLines(db.products, order, row);
    hide GoodOrder, GoodDb, ChangedLines, Decide, ApplyOne, CalculateTotalCents, OwnedBy;
    WritesChange(db, input, nextStatus);
    hide Serial, WriteStep, Check;
    assert OnlyPaidBy(db.payments, ChangedPayments(db.payments, input, order), row.mutationId);
  }

  // Nothing on the write path stops a request at the version the order stands at.
  lemma WritesChange(db: Db, input: MutationInput, nextStatus: Status)
    requires input.orderId in db.orders && input.orderId in db.items && !input.command.CreateOrder?
    requires Unused(db, input.mutationId) && db.orders[input.orderId].restaurantId == input.restaurantId
    requires db.orders[input.orderId].version == input.baseVersion
    requires Decide(Load(db, input.orderId), input.command) == Apply(nextStatus)
    requires ChangedLines(db.products, db.items[input.orderId], input.command).Some?
    ensures var lines := ChangedLines(db.products, db.items[input.orderId], input.command).value;
      var row := ChangedRow(db.orders[input.orderId], input.command, nextStatus, lines);
      Serial(db, input) == Result(
        CommitAll(db, input, row, lines, ChangedPayments(db.payments, input, Load(db, input.orderId).value)),
        AppliedReply(SnapshotFrom(input.orderId, row, lines)))
  {
    hide ChangedLines, Decide, CommitAll, ChangedRow;
  }

  lemma CreationAsProjected(db: Db, row: Row)
    requires Unused(db, row.mutationId) && row.command.CreateOrder? && row.baseVersion == 0
    requires Load(db, row.orderId).None?
    ensures CommitsAsProjected(db, row, Serial(db, RequestOf(row)).db)
  {
  }

  lemma SettlesAsProjected(db: Db, row: Row)
    requires Unused(db, row.mutationId) && OwnedBy(Load(db, row.orderId), row.orderId, row.restaurantId)
    requires NotRefused(db.products, Load(db, row.orderId), row.command)
    requires Decide(Load(db, row.orderId), row.command).AlreadyApplied?
    ensures var order := Load(db, row.orderId); var result := Serial(db, RequestOf(row));
      && order.Some? && ApplyOne(order, row, db.products) == order
      && result.reply == AlreadyAppliedReply(order.value)
      && result.db == db.(processed := db.processed[row.mutationId :=
           Processed(HashOf(RequestOf(row)), row.terminalId, order.value)])
  {
  }

  /* ---- the invariant of a replay ---- */

  predicate Common(d: Drain, o: Id, restaurantId: Id, products: map<Id, Product>) {
    && !d.halted && GoodDb(d.db) && d.db.products == products
    && OneOrder(d.queue, o, restaurantId) && OwnedBy(Load(d.db, o), o, restaurantId)
    && (d.cached.Some? ==>
          Load(d.db, o).Some? && d.cached.value.id == o && d.cached.value.version <= Load(d.db, o).value.version)
  }

  // What is left, staged on the order as it stands, still leads to the target.
  predicate LeadsTo(db: Db, o: Id, queue: seq<Row>, target: Option<Snapshot>) {
    AllUnused(db, queue) && Staged(db.products, Load(db, o), queue) && Project(Load(db, o), queue, db.products) == target
  }

  predicate StoredFor(db: Db, row: Row) {
    && row.mutationId in db.processed && Load(db, row.orderId).Some?
    && db.processed[row.mutationId].hash == HashOf(RequestOf(row))
    && db.processed[row.mutationId].order == Load(db, row.orderId).value
  }

  predicate HeadServed(d: Drain, o: Id, restaurantId: Id, products: map<Id, Product>, target: Option<Snapshot>) {
    && Common(d, o, restaurantId, products)
    && d.queue != [] && StoredFor(d.db, d.queue[0]) && LeadsTo(d.db, o, d.queue[1..], target)
  }

  predicate HeadUnserved(d: Drain, o: Id, restaurantId: Id, products: map<Id, Product>, target: Option<Snapshot>) {
    Common(d, o, restaurantId, products) && d.cached == Load(d.db, o) && LeadsTo(d.db, o, d.queue, target)
  }

  predicate OnCourse(d: Drain, o: Id, restaurantId: Id, products: map<Id, Product>, target: Option<Snapshot>) {
    HeadServed(d, o, restaurantId, products, target) || HeadUnserved(d, o, restaurantId, products, target)
  }

  lemma StillUnused(db: Db, after: Db, head: Row, queue: seq<Row>, order: Snapshot)
    requires AllUnused(db, queue)
    requires forall i :: 0 <= i < |queue| ==> queue[i].mutationId != head.mutationId
    requires after.processed == db.processed[head.mutationId := Processed(HashOf(RequestOf(head)), head.terminalId, order)]
    requires OnlyPaidBy(db.payments, after.payments, head.mutationId)
    ensures AllUnused(after, queue)
  {
    forall i | 0 <= i < |queue| ensures Unused(after, queue[i].mutationId) {
      assert Unused(db, queue[i].mutationId);
    }
  }

  // What being served does to the head, whichever way the server takes it.
  predicate ServedAsProjected(db: Db, row: Row, after: Db, reply: Reply) {
    var projected := ApplyOne(Load(db, row.orderId), row, db.products);
    && projected.Some? && Load(after, row.orderId) == projected && StoredFor(after, row)
    && (reply == AppliedReply(projected.value) || reply == AlreadyAppliedReply(projected.value))
    && after.processed == db.processed[row.mutationId := Processed(HashOf(RequestOf(row)), row.terminalId, projected.value)]
    && OnlyPaidBy(db.payments, after.payments, row.mutationId) && after.products == db.products
  }

  lemma RowAsProjected(db: Db, row: Row)
    requires GoodDb(db) && Unused(db, row.mutationId) && ValidInput(RequestOf(row))
    requires OwnedBy(Load(db, row.orderId), row.orderId, row.restaurantId)
    requires row.baseVersion == NextBaseVersion(Load(db, row.orderId))
    requires NotRefused(db.products, Load(db, row.orderId), row.command)
    ensures var result := Serial(db, RequestOf(row)); ServedAsProjected(db, row, result.db, result.reply)
    ensures GoodDb(Serial(db, RequestOf(row)).db)
  {
    SerialKeepsGood(db, RequestOf(row));
    hide Serial, GoodDb, Decide, Unused, OwnedBy, CommitsAsProjected, ServedAsProjected, Load;
    if Decide(Load(db, row.orderId), row.command).AlreadyApplied? {
      SettlesAsProjected(db, row);
      SettledIsServed(db, row);
    } else if row.command.CreateOrder? {
      CreationIsFirst(db, row);
      CreationAsProjected(db, row);
      CommittedIsServed(db, row, Serial(db, RequestOf(row)).db);
    } else {
      ChangeAsProjected(db, row);
      CommittedIsServed(db, row, Serial(db, RequestOf(row)).db);
    }
  }

  lemma SettledIsServed(db: Db, row: Row)
    requires var order := Load(db, row.orderId); var result := Serial(db, RequestOf(row));
      && order.Some? && ApplyOne(order, row, db.products) == order
      && result.reply == AlreadyAppliedReply(order.value)
      && result.db == db.(processed := db.processed[row.mutationId :=
           Processed(HashOf(RequestOf(row)), row.terminalId, order.value)])
    ensures var result := Serial(db, RequestOf(row)); ServedAsProjected(db, row, result.db, result.reply)
  {
    hide Serial, ApplyOne;
  }

  lemma CommittedIsServed(db: Db, row: Row, after: Db)
    requires CommitsAsProjected(db, row, after)
    ensures ServedAsProjected(db, row, after, Serial(db, RequestOf(row)).reply)
  {
    hide Serial, ApplyOne;
  }

  lemma CreationIsFirst(db: Db, row: Row)
    requires row.command.CreateOrder? && Decide(Load(db, row.orderId), row.command).Apply?
    ensures Load(db, row.orderId).None?
  {
  }

  lemma ServeHead(d: Drain, o: Id, restaurantId: Id, products: map<Id, Product>, target: Option<Snapshot>)
    requires HeadUnserved(d, o, restaurantId, products, target) && d.queue != []
    ensures var result := Serial(d.db, RequestOf(d.queue[0]));
      && HeadServed(d.(db := result.db), o, restaurantId, products, target)
      && Load(result.db, o).Some?
      && (result.reply == AppliedReply(Load(result.db, o).value) || result.reply == AlreadyAppliedReply(Load(result.db, o).value))
  {
    var head, rest := d.queue[0], d.queue[1..];
    var result := Serial(d.db, RequestOf(head));
    hide Serial, GoodDb, Unused, NotRefused, ApplyOne, Load, ValidInput, OnlyPaidBy, OwnedBy, Project;
    HeadAndRest(d.db, d.queue, o, restaurantId);
    assert LeadsTo(d.db, o, d.queue, target) && Common(d, o, restaurantId, products);
    hide OneOrder, AllUnused, LeadsTo, Common, HeadUnserved, HeadServed;
    RowAsProjected(d.db, head);
    AppliedIsLater(d.db, head);
    StillUnused(d.db, result.db, head, rest, Load(result.db, o).value);
    HeadIsServed(d, result, o, restaurantId, products, target);
  }

  lemma HeadAndRest(db: Db, queue: seq<Row>, o: Id, restaurantId: Id)
    requires OneOrder(queue, o, restaurantId) && AllUnused(db, queue) && queue != []
    ensures Unused(db, queue[0].mutationId) && AllUnused(db, queue[1..])
    ensures queue[0].orderId == o && queue[0].restaurantId == restaurantId && ValidInput(RequestOf(queue[0]))
    ensures forall i :: 0 <= i < |queue[1..]| ==> queue[1..][i].mutationId != queue[0].mutationId
  {
  }

  lemma HeadIsServed(d: Drain, result: Result, o: Id, restaurantId: Id, products: map<Id, Product>,
      target: Option<Snapshot>)
    requires HeadUnserved(d, o, restaurantId, products, target) && d.queue != []
    requires GoodDb(result.db) && ServedAsProjected(d.db, d.queue[0], result.db, result.reply)
    requires OwnedBy(Load(result.db, o), o, restaurantId)
    requires Load(d.db, o).Some? ==> NextBaseVersion(Load(d.db, o)) <= NextBaseVersion(Load(result.db, o))
    requires AllUnused(result.db, d.queue[1..])
    ensures HeadServed(d.(db := result.db), o, restaurantId, products, target)
  {
    hide GoodDb, Unused, NotRefused, ApplyOne, Load, ValidInput, OnlyPaidBy;
  }

  lemma AppliedIsLater(db: Db, row: Row)
    requires row.baseVersion == NextBaseVersion(Load(db, row.orderId)) && OwnedBy(Load(db, row.orderId), row.orderId, row.restaurantId)
    ensures var projected := ApplyOne(Load(db, row.orderId), row, db.products);
      && OwnedBy(projected, row.orderId, row.restaurantId)
      && (Load(db, row.orderId).Some? ==> projected.Some? && NextBaseVersion(Load(db, row.orderId)) <= NextBaseVersion(projected))
  {
    hide Decide, CalculateTotalCents;
  }

  lemma ServeHeadAgain(d: Drain, o: Id, restaurantId: Id, products: map<Id, Product>, target: Option<Snapshot>)
    requires HeadServed(d, o, restaurantId, products, target)
    ensures Load(d.db, o).Some?
    ensures Serial(d.db, RequestOf(d.queue[0])) == Result(d.db, AlreadyAppliedReply(Load(d.db, o).value))
  {
    hide GoodDb, Staged, Project, AllUnused;
  }

  // The answer is cached, and the row may go.
  lemma CacheAndDrop(d: Drain, o: Id, restaurantId: Id, products: map<Id, Product>, target: Option<Snapshot>)
    requires HeadServed(d, o, restaurantId, products, target)
    ensures AcceptsSnapshot(d.cached, Load(d.db, o).value)
    ensures HeadServed(d.(cached := Load(d.db, o)), o, restaurantId, products, target)
    ensures HeadUnserved(d.(cached := Load(d.db, o), queue := d.queue[1..]), o, restaurantId, products, target)
  {
    hide GoodDb, Staged, Project, AllUnused;
  }

  lemma {:induction false} AttemptKeepsCourse(d: Drain, fate: Fate, o: Id, restaurantId: Id, products: map<Id,
      Product>, target: Option<Snapshot>)
    requires OnCourse(d, o, restaurantId, products, target)
    ensures OnCourse(Attempt(d, fate), o, restaurantId, products, target)
    ensures fate.Completed? && d.queue != [] ==>
      HeadUnserved(Attempt(d, fate), o, restaurantId, products, target) && |Attempt(d, fate).queue| == |d.queue| - 1
  {
    hide HeadServed, HeadUnserved, Serial;
    if d.queue != [] && !fate.Unsent? {
      var served := d.(db := Serial(d.db, RequestOf(d.queue[0])).db);
      if HeadServed(d, o, restaurantId, products, target) {
        ServeHeadAgain(d, o, restaurantId, products, target);
      } else {
        ServeHead(d, o, restaurantId, products, target);
      }
      CacheAndDrop(served, o, restaurantId, products, target);
      NotHalted(d, o, restaurantId, products, target);
    }
  }

  lemma {:induction false} NotHalted(d: Drain, o: Id, restaurantId: Id, products: map<Id, Product>,
      target: Option<Snapshot>)
    requires OnCourse(d, o, restaurantId, products, target)
    ensures !d.halted
  {
  }

  lemma {:induction false} ReplayKeepsCourse(d: Drain, fates: seq<Fate>, o: Id, restaurantId: Id, products: map<Id,
      Product>, target: Option<Snapshot>)
    requires OnCourse(d, o, restaurantId, products, target)
    ensures OnCourse(Replay(d, fates), o, restaurantId, products, target)
  {
    hide OnCourse, Attempt;
    if fates != [] {
      ReplayKeepsCourse(d, fates[..|fates| - 1], o, restaurantId, products, target);
      AttemptKeepsCourse(Replay(d, fates[..|fates| - 1]), fates[|fates| - 1], o, restaurantId, products, target);
    }
  }

  lemma {:induction false} CleanPassDrains(d: Drain, o: Id, restaurantId: Id, products: map<Id, Product>,
      target: Option<Snapshot>)
    requires OnCourse(d, o, restaurantId, products, target)
    ensures var end := CleanPass(d, |d.queue|); end.queue == [] && HeadUnserved(end, o, restaurantId, products, target)
    decreases |d.queue|
  {
    hide HeadUnserved, OnCourse, Attempt;
    if d.queue == [] {
      EmptyIsUnserved(d, o, restaurantId, products, target);
    } else {
      AttemptKeepsCourse(d, Completed, o, restaurantId, products, target);
      CleanPassDrains(Attempt(d, Completed), o, restaurantId, products, target);
    }
  }

  lemma EmptyIsUnserved(d: Drain, o: Id, restaurantId: Id, products: map<Id, Product>, target: Option<Snapshot>)
    requires OnCourse(d, o, restaurantId, products, target) && d.queue == []
    ensures HeadUnserved(d, o, restaurantId, products, target)
  {
  }

  /**
   Whatever was lost and wherever the till died, one clean pass empties the queue and leaves the order on
   the server, lines and total included, equal to what the till showed before the first request went out.
   */
  lemma OfflineConvergence(d: Drain, o: Id, restaurantId: Id, fates: seq<Fate>)
    requires GoodDb(d.db) && !d.halted && d.cached == Load(d.db, o)
    requires OneOrder(d.queue, o, restaurantId) && OwnedBy(d.cached, o, restaurantId) && AllUnused(d.db, d.queue)
    requires Staged(d.db.products, d.cached, d.queue)
    ensures var replayed := Replay(d, fates);
      var end := CleanPass(replayed, |replayed.queue|);
      && end.queue == [] && !end.halted
      && Load(end.db, o) == Project(d.cached, d.queue, d.db.products)
      && end.cached == Load(end.db, o)
  {
    var target := Project(d.cached, d.queue, d.db.products);
    hide GoodDb;
    assert HeadUnserved(d, o, restaurantId, d.db.products, target);
    ReplayKeepsCourse(d, fates, o, restaurantId, d.db.products, target);
    CleanPassDrains(Replay(d, fates), o, restaurantId, d.db.products, target);
  }
}
