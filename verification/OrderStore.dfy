/**
 The screen's own state on a till: the canonical snapshot it shows, the order it is on, the mirror of its
 queue, and the one chain through which commands are stamped and put on disk.
 */
module OrderStore {
  import opened Domain
  import opened ProjectQueue
  import opened TillRules
  import opened SyncSteps
  import opened LocalStore

  function QueueOf(rows: seq<Row>, terminalId: Option<Id>): seq<Row> {
    match terminalId
    case None => []
    case Some(t) => Keep(rows, (row: Row) => row.terminalId == t)
  }

  function QueueFor(queue: seq<Row>, orderId: Option<Id>): seq<Row> {
    match orderId
    case None => []
    case Some(o) => Keep(queue, (row: Row) => row.orderId == o)
  }

  // The screen's part of the mirror is the terminal's group on disk.
  lemma {:induction false} QueueForIsGroup(rows: seq<Row>, terminalId: Id, orderId: Id)
    ensures QueueFor(QueueOf(rows, Some(terminalId)), Some(orderId)) == Group(rows, terminalId, orderId)
  {
    if rows != [] {
      var init, last := rows[..|rows| - 1], rows[|rows| - 1];
      QueueForIsGroup(init, terminalId, orderId);
      var kept := QueueOf(init, Some(terminalId));
      assert (kept + [last])[..|kept|] == kept;
    }
  }

  // One step of the stepper on a line: an absolute quantity, or a removal below one.
  function StepPlan(order: Option<Snapshot>, productId: Id, delta: int): Option<Command> {
    if order.None? then None
    else StepOf(order.value.items, productId, delta)
  }

  function StepOf(items: seq<Line>, productId: Id, delta: int): Option<Command> {
    if items == [] then None
    else if items[0].productId == productId then
      var next := items[0].quantity + delta;
      Some(if next < 1 then RemoveItem(productId) else ChangeQuantity(productId, next))
    else StepOf(items[1..], productId, delta)
  }

  class Screen {
    const store: Store
    var activeTerminalId: Option<Id>
    var order: Option<Snapshot>
    var currentOrderId: Option<Id>
    var queue: seq<Row>

    constructor (store: Store)
      ensures this.store == store && order == None && currentOrderId == None && activeTerminalId == None && queue == []
    {
      this.store := store;
      activeTerminalId, order, currentOrderId, queue := None, None, None, [];
    }

    // The mirror is replaced wholesale after every write, so it is the disk when a command is staged.
    predicate Mirrors()
      reads this, store
    {
      queue == QueueOf(store.rows, activeTerminalId)
    }

    function Projected(menu: Menu): Option<Snapshot>
      reads this
    {
      Project(order, QueueFor(queue, currentOrderId), menu)
    }

    predicate IsHalted()
      reads this
    {
      !IsSendable(QueueFor(queue, currentOrderId))
    }

    // What is shown never goes back while the screen stays on one order.
    method Adopt(snapshot: Snapshot)
      modifies this`order, this`currentOrderId
      ensures old(order).Some? && old(order).value.id == snapshot.id && snapshot.version < old(order).value.version ==>
        order == old(order) && currentOrderId == old(currentOrderId)
      ensures !(old(order).Some? && old(order).value.id == snapshot.id && snapshot.version < old(order).value.version) ==>
        order == Some(snapshot) && currentOrderId == Some(snapshot.id)
      ensures old(order).Some? && old(order).value.id == snapshot.id ==>
        order.Some? && order.value.version >= old(order).value.version
    {
      if AcceptsSnapshot(order, snapshot) {
        order := Some(snapshot);
        currentOrderId := Some(snapshot.id);
      }
    }

    method RefreshQueue()
      modifies this`queue
      ensures Mirrors()
    {
      if activeTerminalId.None? {
        queue := [];
      } else {
        queue := store.ReadQueue(activeTerminalId.value);
      }
    }

    // An answer is cached whatever the screen shows, and shown only if the screen is still on its order.
    method OnCanonical(terminalId: Id, snapshot: Snapshot)
      modifies this`order, this`currentOrderId, store`orders
      ensures store.orders == Cached(old(store.orders), snapshot)
      ensures currentOrderId == old(currentOrderId)
      ensures order == (if activeTerminalId == Some(terminalId) && currentOrderId == Some(snapshot.id)
                           && AcceptsSnapshot(old(order), snapshot) then Some(snapshot) else old(order))
    {
      store.CacheOrder(snapshot);
      if activeTerminalId == Some(terminalId) && currentOrderId == Some(snapshot.id) {
        Adopt(snapshot);
      }
    }

    // A row is written before anything is attempted, and only for the terminal on screen.
    method Stage(row: Row, now: nat) returns (stored: bool)
      requires Mirrors() && forall held <- store.rows :: held.mutationId != row.mutationId
      modifies this`queue, store`rows
      ensures Mirrors() && (stored <==> activeTerminalId == Some(row.terminalId))
      ensures store.rows == if stored then old(store.rows) + [row.(createdAt := QueueStamp(old(store.rows), now))]
                            else old(store.rows)
    {
      stored := activeTerminalId == Some(row.terminalId);
      if stored {
        store.SavePending(row, now);
        RefreshQueue();
      }
    }

    // The halt check, the plan, the stamp and the write are one link of the chain: the plan is made from the
    // very projection the row is stamped with, that of the group on disk. `intended` is the order the operator
    // was looking at when the screen was touched.
    method StageCommand(terminalId: Id, restaurantId: Id, intended: Option<Id>, plan: Option<Snapshot> -> Option<Command>,
        id: Id, now: nat, menu: Menu)
      returns (staged: Option<Row>)
      requires Mirrors() && forall held <- store.rows :: held.mutationId != id
      modifies this`queue, store`rows
      ensures Mirrors()
      ensures staged.Some? <==>
        && activeTerminalId == Some(terminalId) && currentOrderId == intended && currentOrderId.Some?
        && IsSendable(Group(old(store.rows), terminalId, currentOrderId.value))
        && plan(Project(order, Group(old(store.rows), terminalId, currentOrderId.value), menu)).Some?
      ensures staged.None? ==> store.rows == old(store.rows)
      ensures staged.Some? ==>
        var projected := Project(order, Group(old(store.rows), terminalId, currentOrderId.value), menu);
        && store.rows == old(store.rows) + [staged.value]
        && staged.value == Row(id, restaurantId, terminalId, currentOrderId.value, NextBaseVersion(projected),
                               plan(projected).value, QueueStamp(old(store.rows), now), Pending)
    {
      staged := None;
      if activeTerminalId == Some(terminalId) && currentOrderId.Some? {
        QueueForIsGroup(store.rows, terminalId, currentOrderId.value);
      }
      if IsHalted() || currentOrderId != intended {
        return;
      }
      var projected := Projected(menu);
      var planned := plan(projected);
      if planned.None? || currentOrderId.None? {
        return;
      }
      var row := Row(id, restaurantId, terminalId, currentOrderId.value, NextBaseVersion(projected), planned.value, 0, Pending);
      var stored := Stage(row, now);
      if stored {
        staged := Some(store.rows[|store.rows| - 1]);
      }
    }

    // A tap on the stepper: what it asks for is worked out from every tap before it.
    method StepQuantity(terminalId: Id, restaurantId: Id, intended: Option<Id>, productId: Id, delta: int, id: Id, now: nat,
        menu: Menu)
      returns (staged: Option<Row>)
      requires Mirrors() && forall held <- store.rows :: held.mutationId != id
      modifies this`queue, store`rows
      ensures Mirrors()
      ensures staged.Some? <==>
        && activeTerminalId == Some(terminalId) && currentOrderId == intended && currentOrderId.Some?
        && IsSendable(Group(old(store.rows), terminalId, currentOrderId.value))
        && StepPlan(Project(order, Group(old(store.rows), terminalId, currentOrderId.value), menu), productId, delta).Some?
      ensures staged.None? ==> store.rows == old(store.rows)
      ensures staged.Some? ==>
        var projected := Project(order, Group(old(store.rows), terminalId, currentOrderId.value), menu);
        && store.rows == old(store.rows) + [staged.value]
        && staged.value == Row(id, restaurantId, terminalId, currentOrderId.value, NextBaseVersion(projected),
                               StepPlan(projected, productId, delta).value, QueueStamp(old(store.rows), now), Pending)
    {
      staged := StageCommand(terminalId, restaurantId, intended,
        (projected: Option<Snapshot>) => StepPlan(projected, productId, delta), id, now, menu);
    }

    // A new order: the pointer moves inside the chain, and the creation asserts version 0.
    method StageCreation(terminalId: Id, restaurantId: Id, tableNumber: string, orderId: Id, id: Id, now: nat)
      returns (staged: bool)
      requires Mirrors() && forall held <- store.rows :: held.mutationId != id
      modifies this, store`rows
      ensures Mirrors() && order == None && currentOrderId == Some(orderId) && activeTerminalId == old(activeTerminalId)
      ensures staged <==> activeTerminalId == Some(terminalId)
      ensures !staged ==> store.rows == old(store.rows)
      ensures staged ==> |store.rows| == |old(store.rows)| + 1 && store.rows[..|old(store.rows)|] == old(store.rows)
      ensures staged ==> store.rows[|old(store.rows)|] == Row(id, restaurantId, terminalId, orderId, 0,
        CreateOrder(tableNumber), QueueStamp(old(store.rows), now), Pending)
    {
      order, currentOrderId := None, Some(orderId);
      staged := Stage(Row(id, restaurantId, terminalId, orderId, 0, CreateOrder(tableNumber), 0, Pending), now);
    }
  }

  /**
   A burst of taps is stamped at consecutive versions: a command the projection takes moves the next stamp
   one on from its own, and one it would refuse or already has leaves the stamp where it is.
   */
  lemma NextStampFollows(canonical: Option<Snapshot>, queue: seq<Row>, row: Row, menu: Menu)
    requires row.baseVersion == NextBaseVersion(Project(canonical, queue, menu))
    ensures var before, after := Project(canonical, queue, menu), Project(canonical, queue + [row], menu);
      NextBaseVersion(after) ==
        if row.command.CreateOrder? && before.None? then 1
        else if before.Some? && Decide(before, row.command).Apply? then row.baseVersion + 1
        else NextBaseVersion(before)
  {
    ProjectAppends(canonical, queue, row, menu);
  }

  /** A step asks for the projected quantity plus the step, and never for less than one. */
  lemma {:induction false} StepAsksForOneMore(items: seq<Line>, productId: Id, delta: int, i: nat)
    requires i < |items| && items[i].productId == productId
    requires forall k :: 0 <= k < i ==> items[k].productId != productId
    ensures StepOf(items, productId, delta) ==
      Some(if items[i].quantity + delta < 1 then RemoveItem(productId) else ChangeQuantity(productId, items[i].quantity + delta))
    decreases i
  {
    if i > 0 {
      StepAsksForOneMore(items[1..], productId, delta, i - 1);
    }
  }

  /** And for nothing where the order has no line of the product. */
  lemma {:induction false} StepNeedsALine(items: seq<Line>, productId: Id, delta: int)
    requires forall k :: 0 <= k < |items| ==> items[k].productId != productId
    ensures StepOf(items, productId, delta) == None
  {
    if items != [] {
      StepNeedsALine(items[1..], productId, delta);
    }
  }
}
