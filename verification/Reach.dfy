/**
 Which queues can never put a request ahead of its order. `Sound` looks only at the order as it is
 committed and at the rows still to be served: it follows what becomes of each of them, as far as a queue
 can get. It survives every commit of everybody else.
 */
module Reach {
  import opened Domain
  import opened ProjectQueue
  import opened Server
  import opened TillRules
  import opened Chains

  // Where an order stands: its committed version, what `Decide` can see of it, and whose it is.
  datatype Standing = Standing(version: nat, shape: Shape, owner: Id)

  function StandingOf(db: Db, orderId: Id): Standing {
    match Load(db, orderId)
    case None => Standing(0, Absent, 0)
    case Some(order) => Standing(order.version, ShapeOf(Some(order)), order.restaurantId)
  }

  // No till ever gets past this request: whatever else is committed, the server refuses it or never sees it.
  predicate Hopeless(products: map<Id, Product>, at: Standing, input: MutationInput) {
    || !ValidInput(input)
    || (input.command.AddItem? && input.command.productId !in products)
    || (at.shape.Present? && at.owner != input.restaurantId)
    || (if Satisfiable(input.command) then at.shape.Present? && React(at.shape, input.command).Refused?
        else input.baseVersion < at.version || !React(at.shape, input.command).Moves?)
  }

  // The order once the request is behind it, by whoever's hand.
  function Next(at: Standing, input: MutationInput): Standing {
    match React(at.shape, input.command)
    case Moves(shape) => Standing(at.version + 1, shape, input.restaurantId)
    case _ => at
  }

  predicate Sound(products: map<Id, Product>, at: Standing, rows: seq<Row>)
    decreases |rows|
  {
    rows == [] ||
    (var input := RequestOf(rows[0]);
     && input.baseVersion <= at.version
     && (Hopeless(products, at, input) || Sound(products, Next(at, input), rows[1..])))
  }

  // The version the order has when the whole queue is behind it; nothing if a row on the way is hopeless.
  function Reached(products: map<Id, Product>, at: Standing, rows: seq<Row>): Option<nat>
    decreases |rows|
  {
    if rows == [] then Some(at.version)
    else if Hopeless(products, at, RequestOf(rows[0])) then None
    else Reached(products, Next(at, RequestOf(rows[0])), rows[1..])
  }

  /** One more row keeps a queue sound exactly when it is stamped no higher than the version the queue reaches. */
  lemma {:induction false} SoundAppend(products: map<Id, Product>, at: Standing, rows: seq<Row>, row: Row)
    ensures Sound(products, at, rows + [row]) <==>
      Sound(products, at, rows) &&
      (Reached(products, at, rows).Some? ==> row.baseVersion <= Reached(products, at, rows).value)
    decreases |rows|
  {
    if rows == [] {
      assert ([row])[1..] == [];
      assert rows + [row] == [row];
    } else {
      assert (rows + [row])[1..] == rows[1..] + [row];
      if !Hopeless(products, at, RequestOf(rows[0])) {
        SoundAppend(products, Next(at, RequestOf(rows[0])), rows[1..], row);
      }
    }
  }

  /* ---- how far an order has moved ---- */

  // At least this many commands lie between two states of one order.
  function Gap(a: Shape, b: Shape): nat {
    if b.Absent? then 0
    else if a.Absent? then 1 + |b.held| + (if b.status == Open then 0 else 1)
    else |a.held - b.held| + |b.held - a.held| + (if a.status == b.status then 0 else 1)
  }

  predicate Ahead(a: Standing, b: Standing) {
    && Later(a.shape, b.shape)
    && a.version + Gap(a.shape, b.shape) <= b.version
    && (a.shape.Present? ==> a.owner == b.owner)
  }

  lemma GapCoversDist(a: Shape, b: Shape)
    ensures Dist(a, b) <= Gap(a, b)
  {
  }

  lemma NoGap(a: Shape, b: Shape)
    requires Later(a, b) && Gap(a, b) == 0
    ensures a == b
  {
    if a.Present? {
      assert a.held - b.held == {} && b.held - a.held == {};
      forall p ensures p in a.held <==> p in b.held {
        assert p !in a.held - b.held && p !in b.held - a.held;
      }
      assert a.held == b.held;
    }
  }

  // One command moves an order by one.
  lemma GapStep(a: Shape, command: Command)
    requires React(a, command).Moves?
    ensures Later(a, After(a, command)) && Gap(a, After(a, command)) <= 1
  {
    var b := After(a, command);
    if a.Present? {
      if command.AddItem? {
        SubsetSize(b.held - a.held, {command.productId});
        assert a.held - b.held == {};
      } else if command.RemoveItem? {
        SubsetSize(a.held - b.held, {command.productId});
        assert b.held - a.held == {};
      } else {
        assert a.held - b.held == {} && b.held - a.held == {};
      }
    }
  }

  lemma NextIsAhead(at: Standing, input: MutationInput)
    requires at.shape.Present? ==> at.owner == input.restaurantId
    ensures Ahead(at, Next(at, input))
  {
    if React(at.shape, input.command).Moves? {
      GapStep(at.shape, input.command);
    } else if at.shape.Present? {
      assert at.shape.held - at.shape.held == {};
    }
  }

  lemma GapRemoved(a: set<Id>, b: set<Id>, p: Id)
    ensures |(a - {p}) - (b - {p})| + |(b - {p}) - (a - {p})| + (if p in a then 1 else 0) <=
      |a - b| + |b - a| + (if p in b then 1 else 0)
  {
    var a', b' := a - {p}, b - {p};
    assert a' - b' == (a - b) - {p} && b' - a' == (b - a) - {p};
  }

  lemma AbsentFrom(a: set<Id>, p: Id)
    ensures p !in a ==> a - {p} == a
  {
  }

  // A command that both states take, or that one takes and the other has had already.
  lemma GapBoth(a: Shape, b: Shape, command: Command)
    requires Later(a, b) && Satisfiable(command)
    requires a.Present? || command.CreateOrder?
    requires !React(b, command).Refused?
    ensures Later(After(a, command), After(b, command))
    ensures Gap(After(a, command), After(b, command)) +
      (if React(a, command).Moves? then 1 else 0) <= Gap(a, b) + if React(b, command).Moves? then 1 else 0
  {
    if command.RemoveItem? {
      GapRemoved(a.held, b.held, command.productId);
      AbsentFrom(a.held, command.productId);
      AbsentFrom(b.held, command.productId);
    } else if command.CreateOrder? && a.Absent? && b.Present? {
      assert {} - b.held == {} && b.held - {} == b.held;
    }
  }

  // One row of the transfer below.
  lemma TransferRow(products: map<Id, Product>, a: Standing, b: Standing, input: MutationInput)
    requires Ahead(a, b) && input.baseVersion <= a.version
    requires a.shape.Absent? ==> a.version == 0
    ensures Hopeless(products, a, input) ==> Hopeless(products, b, input)
    ensures !Hopeless(products, b, input) ==> Ahead(Next(a, input), Next(b, input))
    ensures !Hopeless(products, a, input) && Next(a, input).shape.Absent? ==> Next(a, input).version == 0
  {
    if a.version == b.version { NoGap(a.shape, b.shape); }
    if !Hopeless(products, b, input) {
      if Satisfiable(input.command) {
        GapBoth(a.shape, b.shape, input.command);
      } else {
        NoGap(a.shape, b.shape);
        NextIsAhead(a, input);
      }
    }
  }

  /** What others commit never makes a sound queue unsound. */
  lemma {:induction false} TransferSound(products: map<Id, Product>, a: Standing, b: Standing, rows: seq<Row>)
    requires Ahead(a, b) && (a.shape.Absent? ==> a.version == 0)
    requires Sound(products, a, rows)
    ensures Sound(products, b, rows)
    decreases |rows|
  {
    if rows != [] {
      var input := RequestOf(rows[0]);
      TransferRow(products, a, b, input);
      if !Hopeless(products, b, input) {
        TransferSound(products, Next(a, input), Next(b, input), rows[1..]);
      }
    }
  }
}
