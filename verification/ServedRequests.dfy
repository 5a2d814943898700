/**
 What one statement group of a transaction comes to, as the tills can tell: nothing, a new version of its
 order, or an acknowledgement that the order is already as asked.
 */
module ServedRequests {
  import opened Domain
  import opened ProjectQueue
  import opened Server
  import opened ServerInvariants
  import opened Chains
  import opened Reach
  import opened QueueChain
  import opened Shops
  import opened TillRules
  import opened TillMoves
  import Transactions

  // A request made the next version of its order.
  predicate Makes(db: Db, after: Db, history: seq<Version>, input: MutationInput, order: Snapshot) {
    && input.mutationId !in db.processed && after.products == db.products
    && after.processed == db.processed[input.mutationId := Processed(HashOf(input), input.terminalId, order)]
    && input.baseVersion == |history| && order.version == |history| + 1
    && order.restaurantId == input.restaurantId
    && Load(after, input.orderId) == Some(order)
    && !Hopeless(db.products, Now(history), input)
    && React(Now(history).shape, input.command) == Moves(ShapeOf(Some(order)))
  }

  // A request was acknowledged because the order is already as it asks.
  predicate Acknowledges(db: Db, after: Db, history: seq<Version>, input: MutationInput) {
    && input.mutationId !in db.processed && history != [] && after.products == db.products
    && after.processed == db.processed[input.mutationId :=
         Processed(HashOf(input), input.terminalId, history[|history| - 1].order)]
    && Load(after, input.orderId) == Load(db, input.orderId)
    && Now(history).owner == input.restaurantId
    && !Hopeless(db.products, Now(history), input)
    && React(Now(history).shape, input.command).Satisfied?
  }

  ghost predicate OthersStay(db: Db, after: Db, orderId: Id) {
    forall o: Id :: o != orderId ==> Load(after, o) == Load(db, o)
  }

  lemma ServerIds(items: seq<Line>, line: Line, quantity: int)
    requires GoodLines(items)
    ensures ProductIds(UpsertLine(items, line)) == ProductIds(items) + {line.productId}
    ensures ProductIds(DeleteLine(items, line.productId)) == ProductIds(items) - {line.productId}
    ensures ProductIds(UpdateQuantity(items, line.productId, quantity)) == ProductIds(items)
  {
    AppendIds(items, line);
    match IndexOfProduct(items, line.productId)
    case None =>
    case Some(i) =>
      SameIds(items, i, items[i].(quantity := items[i].quantity + line.quantity));
      SameIds(items, i, items[i].(quantity := quantity));
      DeletedIds(items, i);
  }

  lemma SameIds(items: seq<Line>, i: nat, line: Line)
    requires i < |items| && line.productId == items[i].productId
    ensures ProductIds(items[i := line]) == ProductIds(items)
  {
    var next := items[i := line];
    forall p | p in ProductIds(items) ensures p in ProductIds(next) {
      var j :| 0 <= j < |items| && items[j].productId == p;
      assert next[j].productId == p && next[j] in next;
    }
    forall p | p in ProductIds(next) ensures p in ProductIds(items) {
      var j :| 0 <= j < |next| && next[j].productId == p;
      assert items[j].productId == p && items[j] in items;
    }
  }

  lemma DeletedIds(items: seq<Line>, i: nat)
    requires GoodLines(items) && i < |items|
    ensures ProductIds(items[..i] + items[i + 1..]) == ProductIds(items) - {items[i].productId}
  {
    var next := items[..i] + items[i + 1..];
    forall p | p in ProductIds(items) - {items[i].productId} ensures p in ProductIds(next) {
      var j :| 0 <= j < |items| && items[j].productId == p;
      assert items[j] == next[if j < i then j else j - 1];
    }
    forall p | p in ProductIds(next) ensures p in ProductIds(items) - {items[i].productId} {
      var j :| 0 <= j < |next| && next[j].productId == p;
      assert next[j] == items[if j < i then j else j + 1];
    }
  }

  // The lines the server writes hold the products the shared rules predict.
  lemma ChangedIds(products: map<Id, Product>, order: Snapshot, command: Command, nextStatus: Status)
    requires GoodLines(order.items) && !command.CreateOrder?
    requires Decide(Some(order), command) == Apply(nextStatus)
    requires ChangedLines(products, order.items, command).Some?
    ensures React(ShapeOf(Some(order)), command) ==
      Moves(Present(order.tableNumber, nextStatus, ProductIds(ChangedLines(products, order.items, command).value)))
  {
    match command
    case AddItem(p, quantity) =>
      ServerIds(order.items, Line(p, products[p].name, quantity, products[p].priceCents), 0);
    case RemoveItem(p) => ServerIds(order.items, Line(p, "", 0, 0), 0);
    case ChangeQuantity(p, quantity) => ServerIds(order.items, Line(p, "", 0, 0), quantity);
    case _ =>
  }

  lemma LastIsLoaded(db: Db, history: seq<Version>, orderId: Id)
    requires HistoryOk(db, history, orderId)
    ensures Now(history) == StandingOf(db, orderId)
    ensures CommittedVersion(db, orderId) == |history|
    ensures history == [] <==> orderId !in db.orders
    ensures history != [] ==> history[|history| - 1].order.version == |history|
  {
    if history != [] { assert MadeAt(history, |history| - 1); }
  }

  lemma ChangeMakes(db: Db, input: MutationInput, after: Db, history: seq<Version>)
    requires HistoryOk(db, history, input.orderId) && !input.command.CreateOrder? && ValidInput(input)
    requires input.orderId in db.items && GoodLines(db.items[input.orderId])
    requires CommitsTo(db, input, after)
    ensures Makes(db, after, history, input, Load(after, input.orderId).value)
  {
    var o := input.orderId;
    LastIsLoaded(db, history, o);
    var nextStatus := Check(db, input, Load(db, o)).nextStatus;
    ChangedIds(db.products, Load(db, o).value, input.command, nextStatus);
    assert input.command.AddItem? ==> input.command.productId in db.products;
    hide HistoryOk, GoodLines, React, At, ChangedLines, Decide, Now;
  }

  lemma CreationMakes(db: Db, input: MutationInput, after: Db, history: seq<Version>)
    requires HistoryOk(db, history, input.orderId) && input.command.CreateOrder? && ValidInput(input)
    requires CommitsTo(db, input, after)
    ensures Makes(db, after, history, input, Load(after, input.orderId).value)
  {
    LastIsLoaded(db, history, input.orderId);
    var order := Load(after, input.orderId).value;
    assert order.items == [] && ProductIds(order.items) == {};
  }

  lemma CommitMakes(db: Db, input: MutationInput, after: Db, history: seq<Version>)
    requires GoodDb(db) && HistoryOk(db, history, input.orderId) && ValidInput(input)
    requires CommitsTo(db, input, after)
    ensures Load(after, input.orderId).Some? && Makes(db, after, history, input, Load(after, input.orderId).value)
  {
    if input.command.CreateOrder? {
      CreationMakes(db, input, after, history);
    } else {
      assert GoodOrderIn(db, input.orderId);
      ChangeMakes(db, input, after, history);
    }
  }

  lemma CommitLeavesOthers(db: Db, input: MutationInput, after: Db)
    requires CommitsTo(db, input, after)
    ensures OthersStay(db, after, input.orderId)
  {
  }

  lemma SettlingAcknowledges(db: Db, input: MutationInput, history: seq<Version>)
    requires HistoryOk(db, history, input.orderId) && SettleStep(db, input).Settled?
    requires Transactions.TxOk(db, Transactions.Settling(input))
    requires SettleStep(db, input).db != db
    ensures Acknowledges(db, SettleStep(db, input).db, history, input)
  {
    LastIsLoaded(db, history, input.orderId);
    ReactIsDecide(Load(db, input.orderId), input.command);
  }

  // The history once a statement group has done what it does.
  function HistoryAfter(history: seq<Version>, input: MutationInput, effect: Transactions.Effect): seq<Version> {
    if effect.commits != [] && Load(effect.db, input.orderId).Some?
    then history + [Version(Load(effect.db, input.orderId).value, input.command)] else history
  }

  // What one statement group of a transaction comes to, as the tills can tell.
  ghost predicate Serves(db: Db, tx: Transactions.Tx, history: seq<Version>, effect: Transactions.Effect) {
    && effect.tx.input == tx.input && AnswerOk(effect.db, effect.tx)
    && CarriesOk(HistoryAfter(history, tx.input, effect), effect.tx)
    && OthersStay(db, effect.db, tx.input.orderId)
    && (if effect.commits != [] then
          && effect.commits == [tx.input] && Load(effect.db, tx.input.orderId).Some?
          && Makes(db, effect.db, history, tx.input, Load(effect.db, tx.input.orderId).value)
        else effect.db == db || Acknowledges(db, effect.db, history, tx.input))
  }

  lemma {:induction false} WritingServes(db: Db, input: MutationInput, snapshot: Option<Snapshot>,
      nextStatus: Status, history: seq<Version>)
    requires GoodDb(db) && Transactions.TxOk(db, Transactions.Writing(input, snapshot, nextStatus))
    requires HistoryOk(db, history, input.orderId)
    ensures var tx := Transactions.Writing(input, snapshot, nextStatus);
      Serves(db, tx, history, Transactions.Progress(db, tx))
  {
    hide GoodDb, WriteStep, HistoryOk, OthersStay, Transactions.TxOk, Makes, Serves, Load;
    if WriteStep(db, input, snapshot, nextStatus).Committed? {
      WriteMakes(db, input, snapshot, nextStatus, history);
      var w := WriteStep(db, input, snapshot, nextStatus);
      CommittedServes(db, Transactions.Writing(input, snapshot, nextStatus), w.db, w.order, history);
    } else {
      RollbackServes(db, input, snapshot, nextStatus, history);
    }
  }

  lemma {:induction false} WriteMakes(db: Db, input: MutationInput, snapshot: Option<Snapshot>, nextStatus: Status,
      history: seq<Version>)
    requires GoodDb(db) && Transactions.TxOk(db, Transactions.Writing(input, snapshot, nextStatus))
    requires HistoryOk(db, history, input.orderId) && WriteStep(db, input, snapshot, nextStatus).Committed?
    ensures var w := WriteStep(db, input, snapshot, nextStatus);
      && Load(w.db, input.orderId) == Some(w.order) && Makes(db, w.db, history, input, w.order)
      && OthersStay(db, w.db, input.orderId)
  {
    assert ValidInput(input);
    hide GoodDb, WriteStep, CommitsTo, HistoryOk, OthersStay, Transactions.TxOk, Serial, ValidInput, Makes, Load;
    var w := WriteStep(db, input, snapshot, nextStatus);
    CommitReplies(db, input, snapshot, nextStatus);
    Transactions.WritingIsSerial(db, input, snapshot, nextStatus);
    CommitMakes(db, input, w.db, history);
    CommitLeavesOthers(db, input, w.db);
  }

  lemma RollbackServes(db: Db, input: MutationInput, snapshot: Option<Snapshot>, nextStatus: Status, history: seq<Version>)
    requires WriteStep(db, input, snapshot, nextStatus).RolledBack?
    ensures var tx := Transactions.Writing(input, snapshot, nextStatus);
      Serves(db, tx, history, Transactions.Progress(db, tx))
  {
    CommitReplies(db, input, snapshot, nextStatus);
    hide WriteStep, Load;
  }

  lemma CommittedServes(db: Db, tx: Transactions.Tx, after: Db, order: Snapshot, history: seq<Version>)
    requires Load(after, tx.input.orderId) == Some(order) && Makes(db, after, history, tx.input, order)
    requires OthersStay(db, after, tx.input.orderId)
    ensures Serves(db, tx, history,
      Transactions.Effect(after, Transactions.Answered(tx.input, AppliedReply(order)), [tx.input]))
  {
    hide OthersStay, Load, Hopeless, React, Now;
  }

  lemma CommitReplies(db: Db, input: MutationInput, snapshot: Option<Snapshot>, nextStatus: Status)
    ensures var w := WriteStep(db, input, snapshot, nextStatus);
      w.Committed? ==> Load(w.db, input.orderId) == Some(w.order)
    ensures var w := WriteStep(db, input, snapshot, nextStatus);
      w.RolledBack? && w.verdict.Answer? ==> w.verdict.reply in {CrossTenant, ProductNotFound, InternalError}
  {
  }

  lemma SettlingServes(db: Db, input: MutationInput, history: seq<Version>)
    requires HistoryOk(db, history, input.orderId) && StoredOk(db, history, input)
    requires Transactions.TxOk(db, Transactions.Settling(input))
    ensures var tx := Transactions.Settling(input); Serves(db, tx, history, Transactions.Progress(db, tx))
  {
    var settlement := SettleStep(db, input);
    if settlement.Settled? {
      LastIsLoaded(db, history, input.orderId);
      if settlement.db != db { SettlingAcknowledges(db, input, history); }
      hide HistoryOk, At, React, Decide, Now;
    }
  }

  // A check, or an answer given after a rollback, writes nothing; a success it reports is a stored one.
  lemma ReadingServes(db: Db, tx: Transactions.Tx, history: seq<Version>)
    requires HistoryOk(db, history, tx.input.orderId) && StoredOk(db, history, tx.input)
    requires AnswerOk(db, tx) && CarriesOk(history, tx) && !tx.Writing? && !tx.Settling?
    ensures Serves(db, tx, history, Transactions.Progress(db, tx))
  {
    hide Decide, GoodVersions;
    if tx.Refusing? && tx.input.orderId in db.orders {
      LastIsLoaded(db, history, tx.input.orderId);
    } else if tx.RowShown? {
      LinesAreLast(db, tx.input, tx.shown, history);
    }
  }

  // The lines a refusal reads are those of the order as it now stands.
  lemma LinesAreLast(db: Db, input: MutationInput, row: OrderRow, history: seq<Version>)
    requires HistoryOk(db, history, input.orderId) && 1 <= row.version <= |history|
    requires SnapshotFrom(input.orderId, row, history[row.version - 1].order.items) == history[row.version - 1].order
    ensures IsView(history, Some(SnapshotFrom(input.orderId, row, ItemsOf(db, input.orderId))))
  {
    LastIsLoaded(db, history, input.orderId);
    var canonical := SnapshotFrom(input.orderId, row, ItemsOf(db, input.orderId));
    assert ItemsOf(db, input.orderId) == history[|history| - 1].order.items;
    assert SeenAt(history, canonical, |history|);
  }

  lemma ProgressServes(db: Db, tx: Transactions.Tx, history: seq<Version>)
    requires GoodDb(db) && Transactions.TxOk(db, tx) && AnswerOk(db, tx) && CarriesOk(history, tx)
    requires HistoryOk(db, history, tx.input.orderId) && StoredOk(db, history, tx.input)
    ensures Serves(db, tx, history, Transactions.Progress(db, tx))
  {
    hide GoodDb, Transactions.TxOk, HistoryOk, StoredOk, Serves, AnswerOk, CarriesOk, Transactions.Progress;
    match tx
    case Writing(input, snapshot, nextStatus) => WritingServes(db, input, snapshot, nextStatus, history);
    case Settling(input) => SettlingServes(db, input, history);
    case _ => ReadingServes(db, tx, history);
  }

  /* ---- what the server's moves leave true ---- */

  lemma MadeKeepsHistory(history: seq<Version>, version: Version)
    requires GoodVersions(history) && version.order.version == |history| + 1
    requires React(Now(history).shape, version.command) == Moves(ShapeOf(Some(version.order)))
    requires Now(history).shape.Present? ==> Now(history).owner == version.order.restaurantId
    ensures GoodVersions(history + [version])
  {
    var longer := history + [version];
    forall i | 0 <= i < |longer| ensures MadeAt(longer, i) {
      assert At(longer, i) == At(history, i);
      if i < |history| {
        assert MadeAt(history, i) && At(longer, i + 1) == At(history, i + 1);
      }
    }
  }

  lemma MadeKeepsServed(history: seq<Version>, version: Version, input: MutationInput, order: Snapshot)
    requires ServedOk(history, input, order)
    ensures ServedOk(history + [version], input, order)
  {
    assert At(history + [version], order.version) == At(history, order.version);
  }

  lemma MadeKeepsView(history: seq<Version>, version: Version, view: Option<Snapshot>)
    requires IsView(history, view)
    ensures IsView(history + [version], view)
  {
    if view.Some? {
      var lines :| 0 <= lines <= |history| && SeenAt(history, view.value, lines);
      assert SeenAt(history + [version], view.value, lines);
    }
  }

  lemma MadeKeepsCarried(history: seq<Version>, version: Version, tx: Transactions.Tx)
    requires CarriesOk(history, tx)
    ensures CarriesOk(history + [version], tx)
  {
    if tx.Answered? && tx.reply.ConflictReply? {
      MadeKeepsView(history, version, Some(tx.reply.canonical));
    }
    hide IsView, SnapshotFrom;
  }

  // A made version is where the order stands next.
  lemma MadeIsNext(db: Db, after: Db, history: seq<Version>, input: MutationInput, order: Snapshot)
    requires Makes(db, after, history, input, order)
    ensures Now(history + [Version(order, input.command)]) == Next(Now(history), input)
    ensures Reach.Ahead(Now(history), Now(history + [Version(order, input.command)]))
    ensures Now(history).shape.Present? ==> Now(history).owner == input.restaurantId
  {
    NextIsAhead(Now(history), input);
  }
}
