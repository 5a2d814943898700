/**
 What a till projects its queue from is a snapshot of some earlier moment, and it may learn another one
 before it stages the next row. `Steady` carries a queue through all the states it may come to project from
 at once: whichever it is, the version it shows stays within what the order is going to have.
 */
module Views {
  import opened Domain
  import opened ProjectQueue
  import opened Server
  import opened TillRules
  import opened Chains
  import opened Reach

  // States of one order, oldest first.
  predicate Ordered(views: seq<Shape>) {
    forall i, j :: 0 <= i < j < |views| ==> Later(views[i], views[j])
  }

  // They end in the order as it is.
  predicate LeadTo(views: seq<Shape>, shape: Shape) {
    views != [] && views[|views| - 1] == shape && Ordered(views)
  }

  predicate AllPresent(views: seq<Shape>) {
    forall i :: 0 <= i < |views| ==> views[i].Present?
  }

  // The commands along the way that a till can have counted on and that somebody else has had.
  function Drift(views: seq<Shape>): nat {
    if |views| <= 1 then 0
    else Drift(views[..|views| - 1]) + Dist(views[|views| - 2], views[|views| - 1])
  }

  function AfterAll(views: seq<Shape>, command: Command): (after: seq<Shape>)
    ensures |after| == |views|
    ensures forall i :: 0 <= i < |views| ==> after[i] == After(views[i], command)
  {
    seq(|views|, i requires 0 <= i < |views| => After(views[i], command))
  }

  predicate Steady(products: map<Id, Product>, at: Standing, views: seq<Shape>, rows: seq<Row>)
    decreases |rows|
  {
    rows == [] ||
    (var input := RequestOf(rows[0]);
     && input.baseVersion + Drift(views) <= at.version
     && (|| Hopeless(products, at, input)
         || (&& (input.command.CreateOrder? || AllPresent(views))
             && Steady(products, Next(at, input), AfterAll(views, input.command), rows[1..]))))
  }

  /* ---- drift ---- */

  lemma Triangle(a: Shape, e: Shape, b: Shape)
    requires Later(a, e) && Later(e, b)
    ensures Later(a, b) && Dist(a, b) <= Dist(a, e) + Dist(e, b)
  {
    if a.Present? {
      SubsetSize(a.held - b.held, (a.held - e.held) + (e.held - b.held));
      SubsetSize((a.held - e.held) + (e.held - b.held), (a.held - e.held) + (e.held - b.held));
    }
  }

  lemma {:induction false} DistWithin(views: seq<Shape>, i: nat, j: nat)
    requires Ordered(views) && i < j < |views|
    ensures Dist(views[i], views[j]) <= Drift(views)
    decreases |views|
  {
    hide Dist, Later;
    var init := views[..|views| - 1];
    if j < |init| {
      DistWithin(init, i, j);
    } else if i < j - 1 {
      DistWithin(init, i, j - 1);
      Triangle(views[i], views[j - 1], views[j]);
    }
  }

  lemma {:induction false} DriftJoin(front: seq<Shape>, back: seq<Shape>)
    requires front != [] && back != []
    ensures Drift(front + back) == Drift(front) + Dist(front[|front| - 1], back[0]) + Drift(back)
    decreases |back|
  {
    hide Dist;
    var init := back[..|back| - 1];
    assert (front + back)[..|front + back| - 1] == front + init;
    if init != [] {
      DriftJoin(front, init);
    } else {
      assert front + init == front;
    }
  }

  /* ---- one row ---- */

  // No state on the way to an order that takes the command refuses it.
  lemma NoneRefuses(products: map<Id, Product>, at: Standing, views: seq<Shape>, input: MutationInput, i: nat)
    requires LeadTo(views, at.shape) && !Hopeless(products, at, input) && Satisfiable(input.command)
    requires input.command.CreateOrder? || AllPresent(views)
    requires i < |views|
    ensures !React(views[i], input.command).Refused?
  {
    if i < |views| - 1 {
      assert Later(views[i], at.shape);
    }
  }

  lemma PairShrinks(a: Shape, b: Shape, command: Command)
    requires Later(a, b) && Satisfiable(command)
    requires !React(a, command).Refused? && !React(b, command).Refused?
    ensures Later(After(a, command), After(b, command))
    ensures Dist(After(a, command), After(b, command)) +
      (if React(a, command).Moves? && React(b, command).Satisfied? then 1 else 0) <= Dist(a, b)
  {
    if React(a, command).Moves? {
      if React(b, command).Moves? {
        DistBoth(a, b, command);
      } else {
        DistSatisfied(a, b, command);
      }
    } else if command.RemoveItem? {
      SubsetSize(a.held - (b.held - {command.productId}), a.held - b.held);
    }
  }

  predicate SomeMoves(views: seq<Shape>, command: Command) {
    exists i :: 0 <= i < |views| && React(views[i], command).Moves?
  }

  lemma {:induction false} SatisfiableShrinks(views: seq<Shape>, command: Command)
    requires Ordered(views) && views != [] && Satisfiable(command)
    requires forall i :: 0 <= i < |views| ==> !React(views[i], command).Refused?
    ensures Ordered(AfterAll(views, command))
    ensures Drift(AfterAll(views, command)) +
      (if SomeMoves(views, command) && React(views[|views| - 1], command).Satisfied? then 1 else 0) <= Drift(views)
    decreases |views|
  {
    hide Dist, Later, After, React, Satisfiable, SomeMoves;
    forall i, j | 0 <= i < j < |views| ensures Later(After(views[i], command), After(views[j], command)) {
      PairShrinks(views[i], views[j], command);
    }
    if |views| == 1 {
      if React(views[0], command).Satisfied? { OneMoves(views, command); }
    } else {
      var init := views[..|views| - 1];
      SatisfiableShrinks(init, command);
      PairShrinks(views[|views| - 2], views[|views| - 1], command);
      assert AfterAll(views, command)[..|views| - 1] == AfterAll(init, command);
      MovesEarlier(views, command);
    }
  }

  lemma OneMoves(views: seq<Shape>, command: Command)
    requires |views| == 1 && React(views[0], command).Satisfied?
    ensures !SomeMoves(views, command)
  {
  }

  lemma MovesEarlier(views: seq<Shape>, command: Command)
    requires |views| > 1
    ensures SomeMoves(views, command) && React(views[|views| - 1], command).Satisfied? ==>
      SomeMoves(views[..|views| - 1], command)
  {
    hide React;
    if SomeMoves(views, command) && React(views[|views| - 1], command).Satisfied? {
      var i :| 0 <= i < |views| && React(views[i], command).Moves?;
      assert views[..|views| - 1][i] == views[i];
    }
  }

  lemma {:induction false} ZeroStays(views: seq<Shape>, command: Command)
    requires Ordered(views) && Drift(views) == 0 && !Satisfiable(command)
    ensures Ordered(AfterAll(views, command)) && Drift(AfterAll(views, command)) == 0
    decreases |views|
  {
    hide Dist, Later, After, React, Satisfiable;
    forall i, j | 0 <= i < j < |views| ensures Later(After(views[i], command), After(views[j], command)) {
      DistWithin(views, i, j);
      DistZero(views[i], views[j], command);
    }
    if |views| > 1 {
      var init := views[..|views| - 1];
      ZeroStays(init, command);
      DistZero(views[|views| - 2], views[|views| - 1], command);
      assert AfterAll(views, command)[..|views| - 1] == AfterAll(init, command);
    }
  }

  lemma SatisfiableGoes(products: map<Id, Product>, at: Standing, views: seq<Shape>, input: MutationInput)
    requires LeadTo(views, at.shape) && !Hopeless(products, at, input) && Satisfiable(input.command)
    requires input.command.CreateOrder? || AllPresent(views)
    ensures Ordered(AfterAll(views, input.command)) && Drift(AfterAll(views, input.command)) <= Drift(views)
    ensures React(at.shape, input.command).Satisfied? && SomeMoves(views, input.command) ==>
      Drift(AfterAll(views, input.command)) + 1 <= Drift(views)
  {
    forall i | 0 <= i < |views| ensures !React(views[i], input.command).Refused? {
      NoneRefuses(products, at, views, input, i);
    }
    hide Drift, Ordered, Hopeless, React, After, AllPresent, SomeMoves;
    SatisfiableShrinks(views, input.command);
  }

  lemma OtherGoes(products: map<Id, Product>, at: Standing, views: seq<Shape>, input: MutationInput)
    requires LeadTo(views, at.shape) && !Hopeless(products, at, input) && !Satisfiable(input.command)
    requires input.baseVersion + Drift(views) <= at.version
    ensures Drift(views) == 0
    ensures Ordered(AfterAll(views, input.command)) && Drift(AfterAll(views, input.command)) == 0
  {
    assert input.baseVersion == at.version;
    hide Drift, Ordered, Hopeless, React, After;
    ZeroStays(views, input.command);
  }

  lemma PresentStays(views: seq<Shape>, command: Command)
    requires command.CreateOrder? || AllPresent(views)
    ensures AllPresent(AfterAll(views, command))
  {
    forall i | 0 <= i < |views| ensures After(views[i], command).Present? {
      assert command.CreateOrder? || views[i].Present?;
    }
  }

  lemma NextShape(at: Standing, input: MutationInput)
    ensures Next(at, input).shape == After(at.shape, input.command)
    ensures Next(at, input).version == at.version + if React(at.shape, input.command).Moves? then 1 else 0
  {
  }

  // The row goes, whoever had its command: the views go with it and do not drift further apart.
  lemma RowGoes(products: map<Id, Product>, at: Standing, views: seq<Shape>, input: MutationInput)
    requires LeadTo(views, at.shape) && !Hopeless(products, at, input)
    requires input.command.CreateOrder? || AllPresent(views)
    requires input.baseVersion + Drift(views) <= at.version
    ensures LeadTo(AfterAll(views, input.command), Next(at, input).shape)
    ensures Drift(AfterAll(views, input.command)) <= Drift(views)
    ensures !Satisfiable(input.command) ==> Drift(views) == 0
    ensures Satisfiable(input.command) && React(at.shape, input.command).Satisfied? && SomeMoves(views, input.command) ==>
      Drift(AfterAll(views, input.command)) + 1 <= Drift(views)
    ensures AllPresent(AfterAll(views, input.command))
  {
    hide Hopeless, Drift, Ordered, React, After, AllPresent, SomeMoves, Next, Satisfiable;
    PresentStays(views, input.command);
    NextShape(at, input);
    if Satisfiable(input.command) {
      SatisfiableGoes(products, at, views, input);
    } else {
      OtherGoes(products, at, views, input);
    }
  }

  /* ---- what a steady queue is good for ---- */

  lemma {:induction false} SteadyIsSound(products: map<Id, Product>, at: Standing, views: seq<Shape>, rows: seq<Row>)
    requires Steady(products, at, views, rows)
    ensures Sound(products, at, rows)
    decreases |rows|
  {
    if rows != [] && !Hopeless(products, at, RequestOf(rows[0])) {
      SteadyIsSound(products, Next(at, RequestOf(rows[0])), AfterAll(views, RequestOf(rows[0]).command), rows[1..]);
    }
  }

  /** It stays steady when somebody else commits. */
  lemma {:induction false} SteadyCommits(products: map<Id, Product>, at: Standing, views: seq<Shape>, rows: seq<Row>,
      later: Standing)
    requires LeadTo(views, at.shape) && Ahead(at, later) && later.shape.Present?
    requires at.shape.Absent? ==> at.version == 0
    requires Steady(products, at, views, rows)
    ensures Steady(products, later, views + [later.shape], rows)
    decreases |rows|
  {
    hide LeadTo, Ahead, Drift, AfterAll, Hopeless, Next, AllPresent;
    if rows != [] {
      var input := RequestOf(rows[0]);
      CommittedRow(products, at, views, input, later);
      if !Hopeless(products, later, input) {
        SteadyCommits(products, Next(at, input), AfterAll(views, input.command), rows[1..], Next(later, input));
      }
    }
  }

  // One row of it.
  lemma CommittedRow(products: map<Id, Product>, at: Standing, views: seq<Shape>, input: MutationInput, later: Standing)
    requires LeadTo(views, at.shape) && Ahead(at, later) && later.shape.Present?
    requires at.shape.Absent? ==> at.version == 0
    requires input.baseVersion + Drift(views) <= at.version
    ensures input.baseVersion + Drift(views + [later.shape]) <= later.version
    ensures Hopeless(products, at, input) ==> Hopeless(products, later, input)
    ensures AllPresent(views) ==> AllPresent(views + [later.shape])
    ensures !Hopeless(products, later, input) && (input.command.CreateOrder? || AllPresent(views)) ==>
      && LeadTo(AfterAll(views, input.command), Next(at, input).shape)
      && Ahead(Next(at, input), Next(later, input)) && Next(later, input).shape.Present?
      && (Next(at, input).shape.Absent? ==> Next(at, input).version == 0)
    ensures AfterAll(views + [later.shape], input.command) == AfterAll(views, input.command) + [Next(later, input).shape]
  {
    hide Later, Gap, Dist, Hopeless;
    var longer := views + [later.shape];
    assert longer[..|views|] == views;
    GapCoversDist(at.shape, later.shape);
    TransferRow(products, at, later, input);
    if !Hopeless(products, later, input) && (input.command.CreateOrder? || AllPresent(views)) {
      RowGoes(products, at, views, input);
    }
  }

  /* ---- staging ---- */

  // Everything the till sees is seen in one of the views.
  predicate Covers(views: seq<Shape>, seen: Shape) {
    match seen
    case Absent => exists i :: 0 <= i < |views| && views[i].Absent?
    case Present(_, status, held) =>
      && StatusIn(views, status)
      && (forall p <- held :: HeldIn(views, p))
  }

  predicate StatusIn(views: seq<Shape>, status: Status) {
    exists i :: 0 <= i < |views| && views[i].Present? && views[i].status == status
  }

  predicate HeldIn(views: seq<Shape>, p: Id) {
    exists i :: 0 <= i < |views| && views[i].Present? && p in views[i].held
  }

  // Where a view is of an order not known yet, it is the one the till sees, and it shows no version.
  predicate NothingYet(views: seq<Shape>, seen: Shape, shown: nat) {
    AllPresent(views) || (seen.Absent? && shown == 0)
  }

  lemma CoveredMoves(products: map<Id, Product>, at: Standing, views: seq<Shape>, seen: Shape, input: MutationInput)
    requires LeadTo(views, at.shape) && !Hopeless(products, at, input) && Satisfiable(input.command)
    requires input.command.CreateOrder? || AllPresent(views)
    requires Covers(views, seen) && React(seen, input.command).Moves?
    ensures SomeMoves(views, input.command)
  {
    match input.command
    case CreateOrder(_) =>
      var i :| 0 <= i < |views| && views[i].Absent?;
      assert React(views[i], input.command).Moves?;
    case Cancel(_) =>
      assert StatusIn(views, seen.status);
      var i :| 0 <= i < |views| && views[i].Present? && views[i].status == seen.status;
      assert React(views[i], input.command).Moves?;
    case RemoveItem(p) =>
      assert HeldIn(views, p);
      var i :| 0 <= i < |views| && views[i].Present? && p in views[i].held;
      NoneRefuses(products, at, views, input, i);
      assert React(views[i], input.command).Moves?;
  }

  lemma CoveredCreation(views: seq<Shape>, seen: Shape, command: Command)
    requires Covers(views, seen) && command.CreateOrder?
    ensures Covers(AfterAll(views, command), After(seen, command))
  {
    var after := AfterAll(views, command);
    if seen.Absent? {
      var i :| 0 <= i < |views| && views[i].Absent?;
      assert after[i].Present? && after[i].status == Open;
    } else {
      var i :| 0 <= i < |views| && views[i].Present? && views[i].status == seen.status;
      assert after[i] == views[i];
      forall p | p in seen.held ensures HeldIn(after, p) {
        assert HeldIn(views, p);
        var j :| 0 <= j < |views| && views[j].Present? && p in views[j].held;
        assert after[j] == views[j];
      }
    }
  }

  lemma CoveredHeld(views: seq<Shape>, seen: Shape, command: Command, p: Id)
    requires Covers(views, seen) && AllPresent(views) && seen.Present? && !command.CreateOrder?
    requires p in After(seen, command).held && p in seen.held
    requires command.RemoveItem? ==> p != command.productId
    ensures HeldIn(AfterAll(views, command), p)
  {
    assert HeldIn(views, p);
    var j :| 0 <= j < |views| && views[j].Present? && p in views[j].held;
    assert p in AfterAll(views, command)[j].held;
  }

  // The views that come before the order as it is are not behind a status it is not behind.
  lemma StatusesBefore(views: seq<Shape>, shape: Shape, i: nat)
    requires LeadTo(views, shape) && AllPresent(views) && i < |views|
    ensures shape.Present? && Rank(views[i].status) <= Rank(shape.status)
    ensures Drift(views) == 0 ==> views[i].status == shape.status
    ensures IsTerminal(views[i].status) ==> views[i].status == shape.status
  {
    if i < |views| - 1 {
      assert Later(views[i], shape);
      DistWithin(views, i, |views| - 1);
    }
  }

  lemma CoveredStatus(products: map<Id, Product>, at: Standing, views: seq<Shape>, seen: Shape, input: MutationInput)
    requires LeadTo(views, at.shape) && !Hopeless(products, at, input) && AllPresent(views) && !input.command.CreateOrder?
    requires !Satisfiable(input.command) ==> Drift(views) == 0
    requires Covers(views, seen) && seen.Present?
    ensures StatusIn(AfterAll(views, input.command), After(seen, input.command).status)
    ensures ChangesItems(input.command) ==> seen.status == Open && views[0].status == Open
  {
    var i :| 0 <= i < |views| && views[i].Present? && views[i].status == seen.status;
    StatusesBefore(views, at.shape, i);
    StatusesBefore(views, at.shape, 0);
    assert views[0].Present?;
    hide LeadTo, Drift, AllPresent, Covers;
    SameStatusAfter(views[i], seen, input.command);
    assert AfterAll(views, input.command)[i].status == After(seen, input.command).status;
  }

  // Without looking at the lines, a command does the same to two states of one status.
  lemma SameStatusAfter(a: Shape, b: Shape, command: Command)
    requires a.Present? && b.Present? && a.status == b.status && !command.CreateOrder?
    ensures After(a, command).Present? && After(b, command).Present? && After(a, command).status == After(b, command).status
  {
  }

  lemma CoveredStays(products: map<Id, Product>, at: Standing, views: seq<Shape>, seen: Shape, input: MutationInput)
    requires LeadTo(views, at.shape) && !Hopeless(products, at, input)
    requires input.command.CreateOrder? || AllPresent(views)
    requires !Satisfiable(input.command) ==> Drift(views) == 0
    requires Covers(views, seen)
    ensures Covers(AfterAll(views, input.command), After(seen, input.command))
  {
    hide LeadTo, Hopeless, Drift, Satisfiable;
    var command := input.command;
    if command.CreateOrder? {
      CoveredCreation(views, seen, command);
    } else {
      assert seen.Present?;
      CoveredStatus(products, at, views, seen, input);
      forall p | p in After(seen, command).held ensures HeldIn(AfterAll(views, command), p) {
        if p in seen.held {
          CoveredHeld(views, seen, command, p);
        } else {
          assert p in AfterAll(views, command)[0].held;
        }
      }
    }
  }

  /** A row stamped at the version shown, whichever view it was projected from, keeps the queue steady. */
  lemma {:induction false} SteadyExtends(products: map<Id, Product>, at: Standing, views: seq<Shape>, rows: seq<Row>,
      seen: Shape, shown: nat, row: Row)
    requires LeadTo(views, at.shape) && Steady(products, at, views, rows)
    requires Covers(views, seen) && NothingYet(views, seen, shown)
    requires shown + Drift(views) <= at.version
    requires row.baseVersion <= Label(shown, seen, rows)
    ensures Steady(products, at, views, rows + [row])
    decreases |rows|
  {
    hide Later, Dist, Drift, Hopeless, Covers, Ordered;
    if rows == [] {
      assert (rows + [row])[1..] == [];
      InvalidUnlessKnown(products, at, RequestOf(row));
    } else {
      var input := RequestOf(rows[0]);
      assert (rows + [row])[1..] == rows[1..] + [row];
      if !Hopeless(products, at, input) {
        RowGoes(products, at, views, input);
        CoveredStays(products, at, views, seen, input);
        ShownStays(products, at, views, seen, shown, input);
        SteadyExtends(products, Next(at, input), AfterAll(views, input.command), rows[1..], After(seen, input.command),
          if React(seen, input.command).Moves? then input.baseVersion + 1 else shown, row);
      }
    }
  }

  lemma InvalidUnlessKnown(products: map<Id, Product>, at: Standing, input: MutationInput)
    ensures input.baseVersion == 0 && !input.command.CreateOrder? ==> Hopeless(products, at, input)
  {
  }

  lemma ShownStays(products: map<Id, Product>, at: Standing, views: seq<Shape>, seen: Shape, shown: nat,
      input: MutationInput)
    requires LeadTo(views, at.shape) && !Hopeless(products, at, input)
    requires input.command.CreateOrder? || AllPresent(views)
    requires input.baseVersion + Drift(views) <= at.version && shown + Drift(views) <= at.version
    requires Covers(views, seen)
    ensures (if React(seen, input.command).Moves? then input.baseVersion + 1 else shown) +
      Drift(AfterAll(views, input.command)) <= Next(at, input).version
  {
    RowGoes(products, at, views, input);
    if Satisfiable(input.command) && React(seen, input.command).Moves? {
      CoveredMoves(products, at, views, seen, input);
      NoneRefuses(products, at, views, input, |views| - 1);
    }
  }

  /* ---- fewer views, and views in between ---- */

  /** A till that has learned of something newer has fewer views to come to. */
  lemma {:induction false} SteadyWithout(products: map<Id, Product>, at: Standing, views: seq<Shape>, rows: seq<Row>, i: nat)
    requires LeadTo(views, at.shape) && i < |views| - 1
    requires Steady(products, at, views, rows)
    ensures LeadTo(views[..i] + views[i + 1..], at.shape)
    ensures Steady(products, at, views[..i] + views[i + 1..], rows)
    decreases |rows|
  {
    hide Later, Dist, Hopeless, Drift, Ordered, LeadTo, AllPresent, React, After;
    var fewer := views[..i] + views[i + 1..];
    OrderedWithout(views, at.shape, i);
    if rows != [] {
      var input := RequestOf(rows[0]);
      if !Hopeless(products, at, input) {
        RowGoes(products, at, views, input);
        SteadyWithout(products, Next(at, input), AfterAll(views, input.command), rows[1..], i);
        AfterWithout(views, input.command, i);
      }
    }
  }

  lemma AfterWithout(views: seq<Shape>, command: Command, i: nat)
    requires i < |views|
    ensures AfterAll(views, command)[..i] + AfterAll(views, command)[i + 1..] == AfterAll(views[..i] + views[i + 1..], command)
  {
  }

  lemma OrderedWithout(views: seq<Shape>, shape: Shape, i: nat)
    requires LeadTo(views, shape) && i < |views| - 1
    ensures LeadTo(views[..i] + views[i + 1..], shape)
    ensures Drift(views[..i] + views[i + 1..]) <= Drift(views)
    ensures AllPresent(views) ==> AllPresent(views[..i] + views[i + 1..])
  {
    hide Later, Dist, Drift;
    DriftWithout(views, i);
  }

  lemma DriftWithout(views: seq<Shape>, i: nat)
    requires Ordered(views) && i < |views| - 1
    ensures Drift(views[..i] + views[i + 1..]) <= Drift(views)
  {
    hide Later, Dist, Drift;
    assert views == (views[..i] + [views[i]]) + views[i + 1..];
    DriftJoin(views[..i] + [views[i]], views[i + 1..]);
    if i > 0 {
      DriftJoin(views[..i], [views[i]]);
      DriftJoin(views[..i], views[i + 1..]);
      Triangle(views[i - 1], views[i], views[i + 1]);
    } else {
      assert views[..i] + views[i + 1..] == views[i + 1..];
    }
    DriftOfOne(views[i]);
  }

  lemma DriftOfOne(view: Shape)
    ensures Drift([view]) == 0
  {
  }

  // In every respect like the one before or like the one after.
  predicate Between(a: Shape, e: Shape, b: Shape) {
    || e == a || e == b
    || (&& a.Present? && e.Present? && b.Present?
        && a.table == e.table == b.table && a.status == e.status == b.status
        && a.held * b.held <= e.held <= a.held + b.held)
  }

  lemma BetweenAddsNothing(a: Shape, e: Shape, b: Shape)
    requires Between(a, e, b) && Later(a, b)
    ensures Later(a, e) && Later(e, b) && Dist(a, e) + Dist(e, b) == Dist(a, b)
  {
    DistSelf(a);
    DistSelf(b);
    if e != a && e != b {
      assert a.held - b.held == (a.held - e.held) + (e.held - b.held);
    }
  }

  lemma BetweenStays(a: Shape, e: Shape, b: Shape, command: Command)
    requires Between(a, e, b)
    ensures Between(After(a, command), After(e, command), After(b, command))
  {
  }

  lemma {:induction false} SteadyWithin(products: map<Id, Product>, at: Standing, front: seq<Shape>, view: Shape,
      back: seq<Shape>, rows: seq<Row>)
    requires front != [] && back != [] && LeadTo(front + back, at.shape)
    requires Between(front[|front| - 1], view, back[0])
    requires Steady(products, at, front + back, rows)
    ensures LeadTo(front + [view] + back, at.shape)
    ensures Steady(products, at, front + [view] + back, rows)
    decreases |rows|
  {
    hide Later, Dist, Hopeless, Drift, Between, Ordered, AllPresent, Next, After;
    DriftWithin(front, view, back);
    if rows != [] {
      var input := RequestOf(rows[0]);
      if !Hopeless(products, at, input) {
        var command := input.command;
        RowGoes(products, at, front + back, input);
        BetweenStays(front[|front| - 1], view, back[0], command);
        BetweenIsPresent(front, view, back);
        assert AfterAll(front + back, command) == AfterAll(front, command) + AfterAll(back, command);
        SteadyWithin(products, Next(at, input), AfterAll(front, command), After(view, command), AfterAll(back, command), rows[1..]);
        assert AfterAll(front + [view] + back, command) ==
          AfterAll(front, command) + [After(view, command)] + AfterAll(back, command);
      }
    }
  }

  lemma BetweenIsPresent(front: seq<Shape>, view: Shape, back: seq<Shape>)
    requires front != [] && back != [] && Between(front[|front| - 1], view, back[0])
    ensures AllPresent(front + back) ==> AllPresent(front + [view] + back)
  {
    if AllPresent(front + back) {
      assert (front + back)[|front| - 1].Present? && (front + back)[|front|].Present?;
      forall i | 0 <= i < |front + [view] + back| ensures (front + [view] + back)[i].Present? {
        assert i < |front| ==> (front + back)[i].Present?;
        assert i > |front| ==> (front + back)[i - 1].Present?;
      }
    }
  }

  lemma DriftWithin(front: seq<Shape>, view: Shape, back: seq<Shape>)
    requires front != [] && back != [] && Ordered(front + back)
    requires Between(front[|front| - 1], view, back[0])
    ensures Ordered(front + [view] + back) && Drift(front + [view] + back) == Drift(front + back)
  {
    var a, b := front[|front| - 1], back[0];
    assert (front + back)[|front| - 1] == a && (front + back)[|front|] == b;
    BetweenAddsNothing(a, view, b);
    hide Later, Dist, Drift, Between;
    assert front + [view] + back == (front + [view]) + back;
    DriftJoin(front, back);
    DriftJoin(front + [view], back);
    DriftJoin(front, [view]);
    DriftOfOne(view);
    OrderedWithin(front, view, back);
  }

  lemma OrderedWithin(front: seq<Shape>, view: Shape, back: seq<Shape>)
    requires front != [] && back != [] && Ordered(front + back)
    requires Later(front[|front| - 1], view) && Later(view, back[0])
    ensures Ordered(front + [view] + back)
  {
    var both, all := front + back, front + [view] + back;
    hide Later;
    forall i, j | 0 <= i < j < |all| ensures Later(all[i], all[j]) {
      if j == |front| {
        if i < |front| - 1 { assert Later(both[i], both[|front| - 1]); Triangle(both[i], both[|front| - 1], view); }
      } else if i == |front| {
        if j > |front| + 1 { assert Later(both[|front|], both[j - 1]); Triangle(view, both[|front|], both[j - 1]); }
      } else {
        assert all[i] == both[if i < |front| then i else i - 1] && all[j] == both[if j < |front| then j else j - 1];
      }
    }
  }
}
