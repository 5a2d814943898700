/**
 What the guarded UPDATE does and does not protect. It compares the row with the version the client
 sent, not with the version the transaction read, so it makes a write serial exactly when the client
 was not ahead of the order it was decided on.
 */
module VersionGuard {
  import opened Domain
  import opened Server
  import opened ServerInvariants
  import opened Transactions

  // However the others got in between the read and the write, a write that commits is the serial one.
  ghost predicate AlwaysSerial(db: Db, input: MutationInput, nextStatus: Status) {
    forall others: seq<MutationInput> ::
      (forall i :: 0 <= i < |others| ==> ValidInput(others[i])) ==>
      WriteIsSerial(SerialRun(db, others), input, Load(db, input.orderId), nextStatus)
  }

  predicate WriteIsSerial(db: Db, input: MutationInput, snapshot: Option<Snapshot>, nextStatus: Status) {
    WriteStep(db, input, snapshot, nextStatus).Committed? ==>
    WriteStep(db, input, snapshot, nextStatus).db == Serial(db, input).db
  }

  // The request is for an order of its own tenant, and its id and its product are in order.
  predicate Presentable(db: Db, input: MutationInput) {
    && !input.command.CreateOrder?
    && input.orderId in db.orders && input.orderId in db.items
    && db.orders[input.orderId].restaurantId == input.restaurantId
    && input.mutationId !in db.processed
    && !PaymentTaken(db.payments, input.mutationId)
    && (input.command.AddItem? ==> input.command.productId in db.products)
  }

  // Nothing but the version can refuse it.
  predicate Writable(db: Db, input: MutationInput) {
    && ValidInput(input) && Presentable(db, input)
    && Decide(Load(db, input.orderId), input.command).Apply?
  }

  // How many more commits an order can still take; no bound while its lines can be changed for ever.
  function Room(db: Db, orderId: Id): Option<nat>
    requires orderId in db.orders && orderId in db.items
  {
    match db.orders[orderId].status
    case Open => if db.products == map[] && db.items[orderId] == [] then Some(4) else None
    case SentToKitchen => Some(3)
    case Preparing => Some(2)
    case Ready => Some(1)
    case _ => Some(0)
  }

  // The order may still come to stand at the version.
  predicate CanReach(db: Db, orderId: Id, version: nat)
    requires orderId in db.orders && orderId in db.items
  {
    version <= db.orders[orderId].version ||
      (Room(db, orderId).Some? ==> version - db.orders[orderId].version <= Room(db, orderId).value)
  }

  /* ---- a client that is not ahead ---- */

  lemma {:induction false} OthersKeepRead(db: Db, others: seq<MutationInput>, input: MutationInput)
    requires GoodDb(db) && ReadOk(db, input, Load(db, input.orderId))
    requires forall i :: 0 <= i < |others| ==> ValidInput(others[i])
    ensures GoodDb(SerialRun(db, others))
    ensures ReadOk(SerialRun(db, others), input, Load(db, input.orderId))
  {
    if others != [] {
      var before := others[..|others| - 1];
      OthersKeepRead(db, before, input);
      OtherKeepsRead(SerialRun(db, before), others[|others| - 1], input, Load(db, input.orderId));
    }
  }

  lemma {:induction false} OtherKeepsRead(db: Db, other: MutationInput, input: MutationInput, snapshot: Option<Snapshot>)
    requires GoodDb(db) && ReadOk(db, input, snapshot) && ValidInput(other)
    ensures GoodDb(Serial(db, other).db)
    ensures ReadOk(Serial(db, other).db, input, snapshot)
  {
    var after := Serial(db, other).db;
    SerialKeepsGood(db, other);
    SerialShape(db, other);
    if CommitsTo(db, other, after) {
      CommitIsLater(db, other, after);
      GoodIsVersioned(after);
      LaterLoads(db, after, input.orderId);
      if snapshot.Some? {
        LaterKeepsOwner(db, after, input.orderId, snapshot.value.restaurantId);
      }
    }
  }

  lemma {:induction false} NotAheadIsSerial(db: Db, input: MutationInput, nextStatus: Status)
    requires GoodDb(db) && Writable(db, input) && Decide(Load(db, input.orderId), input.command) == Apply(nextStatus)
    requires NotAhead(db, input)
    ensures AlwaysSerial(db, input, nextStatus)
  {
    var snapshot := Load(db, input.orderId);
    forall others: seq<MutationInput> | forall i :: 0 <= i < |others| ==> ValidInput(others[i])
      ensures WriteIsSerial(SerialRun(db, others), input, snapshot, nextStatus)
    {
      OthersKeepRead(db, others, input);
      if WriteStep(SerialRun(db, others), input, snapshot, nextStatus).Committed? {
        WritingIsSerial(SerialRun(db, others), input, snapshot, nextStatus);
      }
    }
  }

  /* ---- a client that is ahead ---- */

  lemma {:induction false} FreshId(taken: set<Id>) returns (id: Id)
    ensures id !in taken
  {
    if taken == {} {
      id := 0;
    } else {
      var top := MaxId(taken);
      id := top + 1;
    }
  }

  lemma {:induction false} MaxId(taken: set<Id>) returns (top: Id)
    requires taken != {}
    ensures forall other <- taken :: other <= top
  {
    var some :| some in taken;
    if taken == {some} {
      top := some;
    } else {
      var rest := MaxId(taken - {some});
      top := if rest < some then some else rest;
      forall other | other in taken ensures other <= top {
        assert other == some || other in taken - {some};
      }
    }
  }

  lemma {:induction false} SerialRunPrepend(db: Db, first: MutationInput, rest: seq<MutationInput>)
    ensures SerialRun(db, [first] + rest) == SerialRun(Serial(db, first).db, rest)
  {
    if rest == [] {
      assert [first] + rest == [first] && ([first])[..0] == [];
    } else {
      assert ([first] + rest)[..|rest|] == [first] + rest[..|rest| - 1];
      SerialRunPrepend(db, first, rest[..|rest| - 1]);
    }
  }

  function RequestAt(db: Db, input: MutationInput, id: Id, command: Command): MutationInput
    requires input.orderId in db.orders
  {
    MutationInput(input.orderId, id, input.terminalId, input.restaurantId, db.orders[input.orderId].version, command)
  }

  // Another terminal's command on the order as it stands commits and moves it one version on.
  lemma OtherCommits(db: Db, input: MutationInput, command: Command, lines: seq<Line>) returns (other: MutationInput)
    requires Presentable(db, input) && db.orders[input.orderId].version >= 1
    requires !command.CreateOrder? && !command.Pay? && Decide(Load(db, input.orderId), command).Apply?
    requires ChangedLines(db.products, db.items[input.orderId], command) == Some(lines)
    requires command.AddItem? || command.ChangeQuantity? ==> command.quantity > 0
    ensures ValidInput(other)
    ensures var after, o := Serial(db, other).db, input.orderId;
      && Presentable(after, input)
      && after.orders[o].version == db.orders[o].version + 1
      && after.orders[o].status == Decide(Load(db, o), command).nextStatus
      && after.items[o] == lines && after.products == db.products
  {
    var taken := db.processed.Keys + (set payment <- db.payments :: payment.mutationId) + {input.mutationId};
    var id := FreshId(taken);
    other := RequestAt(db, input, id, command);
    assert !PaymentTaken(db.payments, id);
    hide ChangedLines, Decide;
  }

  lemma {:induction false} Strides(db: Db, input: MutationInput, version: nat) returns (other: MutationInput)
    requires Presentable(db, input) && 1 <= db.orders[input.orderId].version && db.orders[input.orderId].version + 1 < version
    requires CanReach(db, input.orderId, version)
    ensures ValidInput(other)
    ensures var after, o := Serial(db, other).db, input.orderId;
      && Presentable(after, input) && after.orders[o].version == db.orders[o].version + 1
      && CanReach(after, o, version)
  {
    var o := input.orderId;
    var lines := db.items[o];
    hide Serial, ChangedLines, CanReach;
    Nonterminal(db, o, version);
    if db.orders[o].status == Open && lines != [] {
      var p := lines[0].productId;
      assert lines[0] in lines && p in ProductIds(lines);
      ChangesLines(db.products, lines, ChangeQuantity(p, 1));
      other := OtherCommits(db, input, ChangeQuantity(p, 1), ChangedLines(db.products, lines, ChangeQuantity(p, 1)).value);
    } else if db.orders[o].status == Open && db.products != map[] {
      var p :| p in db.products;
      ChangesLines(db.products, lines, AddItem(p, 1));
      other := OtherCommits(db, input, AddItem(p, 1), ChangedLines(db.products, lines, AddItem(p, 1)).value);
    } else {
      var command := if db.orders[o].status == Open then SendToKitchen
        else if db.orders[o].status == SentToKitchen then StartPreparing else MarkReady;
      ChangesLines(db.products, lines, command);
      other := OtherCommits(db, input, command, lines);
    }
    StillReaches(db, Serial(db, other).db, o, version);
  }

  lemma Nonterminal(db: Db, o: Id, version: nat)
    requires o in db.orders && o in db.items && db.orders[o].version + 1 < version && CanReach(db, o, version)
    ensures db.orders[o].status in {Open, SentToKitchen, Preparing}
  {
  }

  // What the commands do to the lines, as far as it matters.
  lemma ChangesLines(products: map<Id, Product>, lines: seq<Line>, command: Command)
    ensures (command.AddItem? && command.productId in products) || (command.ChangeQuantity? && lines != []) ==>
      ChangedLines(products, lines, command).Some? && ChangedLines(products, lines, command).value != []
    ensures !ChangesItems(command) ==> ChangedLines(products, lines, command) == Some(lines)
  {
  }

  lemma StillReaches(db: Db, after: Db, o: Id, version: nat)
    requires o in db.orders && o in db.items && o in after.orders && o in after.items
    requires db.orders[o].version + 1 < version && CanReach(db, o, version)
    requires after.orders[o].version == db.orders[o].version + 1 && after.products == db.products
    requires if db.orders[o].status == Open && (db.items[o] != [] || db.products != map[])
      then after.orders[o].status == Open && after.items[o] != []
      else Room(db, o).Some? && Room(after, o).Some? && Room(after, o).value + 1 == Room(db, o).value
    ensures CanReach(after, o, version)
  {
  }

  predicate Closed(db: Db, input: MutationInput) {
    && Presentable(db, input)
    && db.orders[input.orderId].version == input.baseVersion
    && db.orders[input.orderId].status == Cancelled
  }

  // The others move the order on, and then cancel it at just the version the request waits for.
  lemma {:induction false} OthersClose(db: Db, input: MutationInput) returns (others: seq<MutationInput>)
    requires Presentable(db, input)
    requires 1 <= db.orders[input.orderId].version < input.baseVersion && CanReach(db, input.orderId, input.baseVersion)
    ensures forall i :: 0 <= i < |others| ==> ValidInput(others[i])
    ensures Closed(SerialRun(db, others), input)
    decreases input.baseVersion - db.orders[input.orderId].version
  {
    hide Serial, CanReach;
    if db.orders[input.orderId].version + 1 == input.baseVersion {
      var last := Cancels(db, input);
      others := [last];
      SerialRunPrepend(db, last, []);
    } else {
      var first := Strides(db, input, input.baseVersion);
      var rest := OthersClose(Serial(db, first).db, input);
      others := [first] + rest;
      SerialRunPrepend(db, first, rest);
    }
  }

  lemma Cancels(db: Db, input: MutationInput) returns (last: MutationInput)
    requires Presentable(db, input) && 1 <= db.orders[input.orderId].version
    requires db.orders[input.orderId].version + 1 == input.baseVersion && CanReach(db, input.orderId, input.baseVersion)
    ensures ValidInput(last) && Closed(Serial(db, last).db, input)
  {
    hide Serial;
    ChangesLines(db.products, db.items[input.orderId], Cancel(None));
    last := OtherCommits(db, input, Cancel(None), db.items[input.orderId]);
  }

  lemma ClosedIsNotSerial(db: Db, input: MutationInput, current: Snapshot, nextStatus: Status)
    requires Closed(db, input)
    ensures !WriteIsSerial(db, input, Some(current), nextStatus)
  {
    var o := input.orderId;
    var after := WriteStep(db, input, Some(current), nextStatus).db;
    assert after.orders[o].version == input.baseVersion + 1;
    ClosedDoesNotCommit(db, input);
  }

  lemma ClosedDoesNotCommit(db: Db, input: MutationInput)
    requires Closed(db, input)
    ensures Serial(db, input).db.orders == db.orders
  {
    SerialShape(db, input);
    var verdict := Check(db, input, Load(db, input.orderId));
    assert !verdict.Write?;
  }

  /* ---- a client that is out of reach ---- */

  // The versions an order can still come to.
  predicate Bounded(db: Db, o: Id, last: nat) {
    && o in db.orders && o in db.items && Room(db, o).Some? && db.orders[o].version + Room(db, o).value <= last
  }

  lemma CommitTakesRoom(db: Db, other: MutationInput, after: Db, last: nat)
    requires Bounded(db, other.orderId, last) && CommitsTo(db, other, after)
    ensures Bounded(after, other.orderId, last)
  {
  }

  lemma {:induction false} OtherStaysBounded(db: Db, other: MutationInput, o: Id, last: nat)
    requires Bounded(db, o, last)
    ensures Bounded(Serial(db, other).db, o, last)
  {
    var after := Serial(db, other).db;
    SerialShape(db, other);
    hide Serial, Check, WriteStep;
    if CommitsTo(db, other, after) {
      if other.orderId == o {
        CommitTakesRoom(db, other, after, last);
      } else {
        CommitElsewhere(db, other, after, o);
      }
    }
  }

  lemma CommitElsewhere(db: Db, other: MutationInput, after: Db, o: Id)
    requires CommitsTo(db, other, after) && other.orderId != o && o in db.orders && o in db.items
    ensures o in after.orders && after.orders[o] == db.orders[o] && o in after.items && after.items[o] == db.items[o]
    ensures after.products == db.products
  {
  }

  lemma {:induction false} OthersStayBounded(db: Db, others: seq<MutationInput>, o: Id, last: nat)
    requires Bounded(db, o, last)
    ensures Bounded(SerialRun(db, others), o, last)
  {
    hide Serial, Bounded;
    if others != [] {
      OthersStayBounded(db, others[..|others| - 1], o, last);
      OtherStaysBounded(SerialRun(db, others[..|others| - 1]), others[|others| - 1], o, last);
    }
  }

  lemma {:induction false} OutOfReachIsSerial(db: Db, input: MutationInput, nextStatus: Status)
    requires Presentable(db, input) && !CanReach(db, input.orderId, input.baseVersion)
    ensures AlwaysSerial(db, input, nextStatus)
  {
    var o := input.orderId;
    var last := db.orders[o].version + Room(db, o).value;
    forall others: seq<MutationInput> | forall i :: 0 <= i < |others| ==> ValidInput(others[i])
      ensures WriteIsSerial(SerialRun(db, others), input, Load(db, o), nextStatus)
    {
      OthersStayBounded(db, others, o, last);
      BoundedRefuses(SerialRun(db, others), input, Load(db, o), nextStatus, last);
    }
  }

  lemma BoundedRefuses(db: Db, input: MutationInput, snapshot: Option<Snapshot>, nextStatus: Status, last: nat)
    requires Bounded(db, input.orderId, last) && last < input.baseVersion && !input.command.CreateOrder?
    ensures WriteIsSerial(db, input, snapshot, nextStatus)
  {
    assert !WriteStep(db, input, snapshot, nextStatus).Committed?;
  }

  /**
   The version guard alone serialises a write, whatever is committed between the read and the write, if and
   only if the client had not stamped it ahead of the version that was read, or so far ahead that the order
   can never come to stand there.
   */
  lemma {:induction false} GuardIsSerialIff(db: Db, input: MutationInput, nextStatus: Status)
    requires GoodDb(db) && Writable(db, input)
    requires Decide(Load(db, input.orderId), input.command) == Apply(nextStatus)
    ensures AlwaysSerial(db, input, nextStatus) <==>
      NotAhead(db, input) || !CanReach(db, input.orderId, input.baseVersion)
  {
    hide Serial, AlwaysSerial, CanReach;
    if NotAhead(db, input) {
      NotAheadIsSerial(db, input, nextStatus);
    } else if CanReach(db, input.orderId, input.baseVersion) {
      GoodIsVersioned(db);
      var others := OthersClose(db, input);
      ClosedIsNotSerial(SerialRun(db, others), input, Load(db, input.orderId).value, nextStatus);
      OneIsNotAlways(db, input, nextStatus, others);
    } else {
      OutOfReachIsSerial(db, input, nextStatus);
    }
  }

  lemma OneIsNotAlways(db: Db, input: MutationInput, nextStatus: Status, others: seq<MutationInput>)
    requires forall i :: 0 <= i < |others| ==> ValidInput(others[i])
    requires !WriteIsSerial(SerialRun(db, others), input, Load(db, input.orderId), nextStatus)
    ensures !AlwaysSerial(db, input, nextStatus)
  {
  }

  // A payment that gets past the guard takes the total that was read.
  lemma PaymentTakesRead(db: Db, pay: MutationInput, current: Snapshot)
    requires pay.command.Pay? && pay.orderId in db.orders && pay.orderId in db.items
    requires db.orders[pay.orderId].version == pay.baseVersion
    requires pay.mutationId !in db.processed && !PaymentTaken(db.payments, pay.mutationId)
    ensures var w := WriteStep(db, pay, Some(current), Paid);
      && w.Committed? && w.order.status == Paid && w.order.totalCents == db.orders[pay.orderId].totalCents
      && w.db.payments == db.payments + [Payment(pay.orderId, pay.mutationId, current.totalCents, pay.command.paymentMethod)]
  {
  }

  // The first line on an empty order.
  lemma FirstLine(db: Db, add: MutationInput, row: OrderRow)
    requires add.command.AddItem? && add.command.productId in db.products && ValidInput(add)
    requires db.orders == map[add.orderId := row] && db.items == map[add.orderId := []] && db.processed == map[]
    requires row.status == Open && row.version == add.baseVersion && row.restaurantId == add.restaurantId
    ensures var after := Serial(db, add).db; var product := db.products[add.command.productId];
      && after.orders == map[add.orderId := row.(version := row.version + 1, totalCents := add.command.quantity * product.priceCents)]
      && add.orderId in after.items && after.processed.Keys == {add.mutationId} && after.payments == db.payments
  {
    var product := db.products[add.command.productId];
    var line := Line(add.command.productId, product.name, add.command.quantity, product.priceCents);
    assert UpsertLine([], line) == [line];
    assert [line][..0] == [];
    assert CalculateTotalCents([line]) == CalculateTotalCents([]) + add.command.quantity * product.priceCents;
    hide UpsertLine, CalculateTotalCents, ProductIds;
  }

  /**
   The smallest case: a payment stamped one version ahead is decided on the empty order, another
   terminal adds a line, and the order ends up paid with nothing for a total of 900.
   */
  lemma AheadPaymentTakesStaleTotal()
    ensures var products := map[7 := Product("soup", 900)];
      var db := Db(map[1 := OrderRow(5, "T1", Open, 1, 0)], map[1 := []], [], map[], [], products);
      var pay := MutationInput(1, 11, 3, 5, 2, Pay(Card));
      var add := MutationInput(1, 12, 4, 5, 1, AddItem(7, 1));
      var w := WriteStep(Serial(db, add).db, pay, Load(db, 1), Paid);
      && Check(db, pay, Load(db, 1)) == Write(Paid) && !NotAhead(db, pay)
      && w.Committed? && w.order.status == Paid && w.order.totalCents == 900
      && w.db.payments == [Payment(1, 11, 0, Card)]
  {
    var products := map[7 := Product("soup", 900)];
    var row := OrderRow(5, "T1", Open, 1, 0);
    var db := Db(map[1 := row], map[1 := []], [], map[], [], products);
    var pay := MutationInput(1, 11, 3, 5, 2, Pay(Card));
    var add := MutationInput(1, 12, 4, 5, 1, AddItem(7, 1));
    assert Check(db, pay, Load(db, 1)) == Write(Paid) && !NotAhead(db, pay);
    hide Serial, WriteStep, Check, NotAhead;
    FirstLine(db, add, row);
    PaymentTakesRead(Serial(db, add).db, pay, Load(db, 1).value);
  }
}
