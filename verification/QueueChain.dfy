/**
 The invariant a careful till keeps between its queue for an order, the snapshot it has saved and the
 order's committed history; and every move of the till or the server under which it survives.
 */
module QueueChain {
  import opened Domain
  import opened ProjectQueue
  import opened Server
  import opened TillRules
  import opened Chains
  import opened Reach
  import opened Views

  // One committed version of the order, and the command that made it.
  datatype Version = Version(order: Snapshot, command: Command)

  function At(history: seq<Version>, version: nat): Shape
    requires version <= |history|
  {
    if version == 0 then Absent else ShapeOf(Some(history[version - 1].order))
  }

  predicate MadeAt(history: seq<Version>, i: nat)
    requires i < |history|
  {
    && history[i].order.version == i + 1
    && React(At(history, i), history[i].command) == Moves(At(history, i + 1))
    && (i > 0 ==> history[i].order.restaurantId == history[i - 1].order.restaurantId)
  }

  predicate GoodVersions(history: seq<Version>) {
    forall i :: 0 <= i < |history| ==> MadeAt(history, i)
  }

  // Where the order stands at the end of its history.
  function Now(history: seq<Version>): Standing {
    Standing(|history|, At(history, |history|), if history == [] then 0 else history[|history| - 1].order.restaurantId)
  }

  // A snapshot read in two statements: the row of one version, the lines of that one or a later one.
  function Seen(history: seq<Version>, version: nat, lines: nat): Snapshot
    requires 1 <= version <= lines <= |history|
  {
    history[version - 1].order.(items := history[lines - 1].order.items)
  }

  predicate SeenAt(history: seq<Version>, order: Snapshot, lines: nat) {
    1 <= order.version <= lines <= |history| && order == Seen(history, order.version, lines)
  }

  predicate IsView(history: seq<Version>, view: Option<Snapshot>) {
    view.Some? ==> exists lines :: 0 <= lines <= |history| && SeenAt(history, view.value, lines)
  }

  // The states a till may come to project from once it holds `held`.
  function ViewsFrom(history: seq<Version>, held: nat): (views: seq<Shape>)
    requires held <= |history|
    ensures |views| == |history| - held + 1
  {
    seq(|history| - held + 1, i requires 0 <= i <= |history| - held => At(history, held + i))
  }

  // The head's request has been served with this result: it made that version, or that version
  // already satisfied it.
  predicate ResultOk(history: seq<Version>, row: Row, result: nat) {
    && 1 <= result <= |history|
    && row.baseVersion <= result
    && (MadeBy(history, row, result) || React(At(history, result), row.command).Satisfied?)
  }

  predicate MadeBy(history: seq<Version>, row: Row, result: nat)
    requires 1 <= result <= |history|
  {
    result == row.baseVersion + 1 && history[result - 1].command == row.command
  }

  // While the head has been served and is still queued, the till projects it again; the views from
  // before its result are read with it, and the later ones both with it and without.
  function ServedViews(history: seq<Version>, held: nat, result: nat, command: Command): seq<Shape>
    requires held <= |history| && result <= |history|
  {
    Projected(history, held, result, command) + ViewsFrom(history, if held < result then result else held)
  }

  function Projected(history: seq<Version>, held: nat, result: nat, command: Command): seq<Shape>
    requires held <= |history| && result <= |history|
  {
    if held < result then AfterAll(ViewsFrom(history, held)[..result - held], command)
    else [After(At(history, held), command)]
  }

  // What was counted on before the result is within what had been committed by then.
  predicate LeadOk(history: seq<Version>, held: nat, row: Row, result: nat)
    requires 1 <= result <= |history| && held <= |history|
  {
    held < result ==>
      var drift := Drift(Projected(history, held, result, row.command) + [At(history, result)]);
      && row.baseVersion + drift <= result
      && (SomeMoves(ViewsFrom(history, held)[..result - held], row.command) ==> row.baseVersion + 1 + drift <= result)
      && (MadeBy(history, row, result) ==> drift == 0)
  }

  // The head has been served and waits for its answer, with the rest of the queue behind it.
  predicate ServedSteady(products: map<Id, Product>, history: seq<Version>, held: nat, head: Row, rest: seq<Row>, result: nat) {
    && held <= |history|
    && ResultOk(history, head, result)
    && LeadTo(ServedViews(history, held, result, head.command), Now(history).shape)
    && Steady(products, Now(history), ServedViews(history, held, result, head.command), rest)
    && LeadOk(history, held, head, result)
  }

  predicate QueueOk(products: map<Id, Product>, history: seq<Version>, held: nat, rows: seq<Row>, result: Option<nat>) {
    && held <= |history|
    && (rows == [] ||
        match result
        case None => Steady(products, Now(history), ViewsFrom(history, held), rows)
        case Some(r) => ServedSteady(products, history, held, rows[0], rows[1..], r))
  }

  /* ---- facts about the history ---- */

  lemma HistoryStep(history: seq<Version>, i: nat)
    requires GoodVersions(history) && i < |history|
    ensures Later(At(history, i), At(history, i + 1)) && Dist(At(history, i), At(history, i + 1)) <= 1
    ensures At(history, i + 1).Present?
  {
    assert MadeAt(history, i);
    GapStep(At(history, i), history[i].command);
    GapCoversDist(At(history, i), At(history, i + 1));
  }

  lemma {:induction false} HistoryLater(history: seq<Version>, i: nat, j: nat)
    requires GoodVersions(history) && i <= j <= |history|
    ensures Later(At(history, i), At(history, j))
    decreases j - i
  {
    if i == j {
      DistSelf(At(history, i));
    } else {
      HistoryLater(history, i, j - 1);
      HistoryStep(history, j - 1);
    }
  }

  // The views between two versions drift no further apart than the commits between them.
  lemma {:induction false} DriftOfHistory(history: seq<Version>, i: nat, j: nat)
    requires GoodVersions(history) && i <= j <= |history|
    ensures LeadTo(ViewsFrom(history, i)[..j - i + 1], At(history, j))
    ensures Drift(ViewsFrom(history, i)[..j - i + 1]) <= j - i
    decreases j - i
  {
    hide GoodVersions, At, Dist, Later;
    var views := ViewsFrom(history, i)[..j - i + 1];
    if i < j {
      DriftOfHistory(history, i, j - 1);
      HistoryStep(history, j - 1);
      assert views[..|views| - 1] == ViewsFrom(history, i)[..j - i];
    }
    forall a, b | 0 <= a < b < |views| ensures Later(views[a], views[b]) {
      HistoryLater(history, i + a, i + b);
    }
  }

  lemma DriftOfViews(history: seq<Version>, held: nat)
    requires GoodVersions(history) && held <= |history|
    ensures LeadTo(ViewsFrom(history, held), Now(history).shape)
    ensures held + Drift(ViewsFrom(history, held)) <= |history|
  {
    hide GoodVersions, Drift;
    DriftOfHistory(history, held, |history|);
    assert ViewsFrom(history, held)[..|history| - held + 1] == ViewsFrom(history, held);
  }

  // A product put back in between costs a commit that lets nothing drift.
  lemma {:induction false} DriftWithGain(history: seq<Version>, i: nat, j: nat, p: Id)
    requires GoodVersions(history) && 1 <= i < j <= |history|
    requires At(history, i).Present? && p !in At(history, i).held && At(history, j).Present? && p in At(history, j).held
    ensures i + Drift(ViewsFrom(history, i)) + 1 <= |history|
    decreases j - i
  {
    hide GoodVersions, Drift, Later, Dist;
    HistoryStep(history, i);
    DriftOfViews(history, i + 1);
    DriftFirst(history, i);
    if p in At(history, i + 1).held {
      GainIsFree(history, i, p);
    } else {
      DriftWithGain(history, i + 1, j, p);
    }
  }

  lemma GainIsFree(history: seq<Version>, i: nat, p: Id)
    requires GoodVersions(history) && 1 <= i < |history|
    requires p !in At(history, i).held && At(history, i + 1).Present? && p in At(history, i + 1).held
    ensures Dist(At(history, i), At(history, i + 1)) == 0
  {
    assert MadeAt(history, i);
    assert At(history, i).held - At(history, i + 1).held == {};
  }

  lemma DriftFirst(history: seq<Version>, i: nat)
    requires i < |history|
    ensures Drift(ViewsFrom(history, i)) == Dist(At(history, i), At(history, i + 1)) + Drift(ViewsFrom(history, i + 1))
    ensures ViewsFrom(history, i) == [At(history, i)] + ViewsFrom(history, i + 1)
  {
    hide Drift, Dist, At;
    assert ViewsFrom(history, i) == [At(history, i)] + ViewsFrom(history, i + 1);
    DriftJoin([At(history, i)], ViewsFrom(history, i + 1));
    DriftOfOne(At(history, i));
  }

  /* ---- what follows for the queue ---- */

  // The rows whose fate is still open.
  function Waiting(rows: seq<Row>, result: Option<nat>): seq<Row> {
    if rows != [] && result.Some? then rows[1..] else rows
  }

  lemma QueueIsSound(products: map<Id, Product>, history: seq<Version>, held: nat, rows: seq<Row>, result: Option<nat>)
    requires QueueOk(products, history, held, rows, result)
    ensures Sound(products, Now(history), Waiting(rows, result))
  {
    hide Drift, Hopeless;
    if rows != [] {
      match result
      case None => SteadyIsSound(products, Now(history), ViewsFrom(history, held), rows);
      case Some(r) => SteadyIsSound(products, Now(history), ServedViews(history, held, r, rows[0].command), rows[1..]);
    }
  }

  /* ---- the server's moves ---- */

  lemma LongerViews(history: seq<Version>, version: Version, held: nat)
    requires held <= |history|
    ensures ViewsFrom(history + [version], held) == ViewsFrom(history, held) + [Now(history + [version]).shape]
    ensures forall i :: 0 <= i <= |history| ==> At(history + [version], i) == At(history, i)
  {
    var longer := history + [version];
    forall i | 0 <= i <= |history| ensures At(longer, i) == At(history, i) {
      assert i > 0 ==> longer[i - 1] == history[i - 1];
    }
    hide At;
    assert ViewsFrom(longer, held)[..|history| - held + 1] == ViewsFrom(history, held);
  }

  lemma LongerServed(history: seq<Version>, version: Version, held: nat, row: Row, result: nat)
    requires 1 <= result <= |history| && held <= |history|
    ensures ServedViews(history + [version], held, result, row.command) ==
      ServedViews(history, held, result, row.command) + [Now(history + [version]).shape]
    ensures LeadOk(history, held, row, result) ==> LeadOk(history + [version], held, row, result)
    ensures ResultOk(history, row, result) ==> ResultOk(history + [version], row, result)
  {
    hide At, Drift, React, After;
    LongerViews(history, version, held);
    LongerViews(history, version, result);
    if held < result {
      assert ViewsFrom(history + [version], held)[..result - held] == ViewsFrom(history, held)[..result - held];
    }
  }

  /** Somebody else's commit. */
  lemma {:induction false} CommitKeepsQueue(products: map<Id, Product>, history: seq<Version>, held: nat,
      rows: seq<Row>, result: Option<nat>, version: Version)
    requires GoodVersions(history) && QueueOk(products, history, held, rows, result)
    requires Ahead(Now(history), Now(history + [version]))
    ensures QueueOk(products, history + [version], held, rows, result)
  {
    if rows != [] {
      var now, later := Now(history), Now(history + [version]);
      assert now.shape.Absent? ==> now.version == 0;
      assert later.shape.Present?;
      LongerViews(history, version, held);
      hide At, GoodVersions, Steady, LeadOk, ResultOk, ServedViews, Ahead, Now, ViewsFrom, LeadTo;
      match result
      case None =>
        DriftOfViews(history, held);
        SteadyCommits(products, now, ViewsFrom(history, held), rows, later);
      case Some(r) =>
        OfResult(history, rows[0], r);
        LongerServed(history, version, held, rows[0], r);
        AheadLeadsOn(ServedViews(history, held, r, rows[0].command), now, later);
        SteadyCommits(products, now, ServedViews(history, held, r, rows[0].command), rows[1..], later);
    }
  }

  lemma OfResult(history: seq<Version>, row: Row, result: nat)
    requires ResultOk(history, row, result)
    ensures 1 <= result <= |history|
  {
  }

  lemma AheadLeadsOn(views: seq<Shape>, now: Standing, later: Standing)
    requires LeadTo(views, now.shape) && Ahead(now, later)
    ensures LeadTo(views + [later.shape], later.shape)
  {
    var longer := views + [later.shape];
    hide Later;
    forall i, j | 0 <= i < j < |longer| ensures Later(longer[i], longer[j]) {
      if j == |views| {
        if i < |views| - 1 {
          assert Later(views[i], now.shape);
          Triangle(views[i], now.shape, later.shape);
        }
      } else {
        assert Later(views[i], views[j]);
      }
    }
  }

  // A command that has just moved an order does nothing more to what can be seen of it.
  lemma AfterTwice(shape: Shape, command: Command)
    requires React(shape, command).Moves?
    ensures After(After(shape, command), command) == After(shape, command)
  {
  }

  // The same view once more at the end.
  lemma SteadyTwice(products: map<Id, Product>, at: Standing, views: seq<Shape>, rows: seq<Row>)
    requires LeadTo(views, at.shape) && Steady(products, at, views, rows)
    ensures LeadTo(views + [at.shape], at.shape) && Steady(products, at, views + [at.shape], rows)
    ensures Drift(views + [at.shape]) == Drift(views)
  {
    hide Steady, Later, Drift;
    var front := views[..|views| - 1];
    assert views == front + [at.shape];
    assert views + [at.shape] == front + [at.shape] + [at.shape];
    DistSelf(at.shape);
    DriftOfOne(at.shape);
    DriftJoin(views, [at.shape]);
    if front == [] {
      assert views == [at.shape] && views + [at.shape] == [at.shape, at.shape];
      SteadyTwiceAlone(products, at, rows);
    } else {
      SteadyWithin(products, at, front, at.shape, [at.shape], rows);
    }
  }

  lemma {:induction false} SteadyTwiceAlone(products: map<Id, Product>, at: Standing, rows: seq<Row>)
    requires Steady(products, at, [at.shape], rows)
    ensures LeadTo([at.shape, at.shape], at.shape) && Steady(products, at, [at.shape, at.shape], rows)
    decreases |rows|
  {
    DistSelf(at.shape);
    assert [at.shape, at.shape][..1] == [at.shape];
    DriftOfOne(at.shape);
    hide Later, Dist, Hopeless;
    if rows != [] && !Hopeless(products, at, RequestOf(rows[0])) {
      var input := RequestOf(rows[0]);
      NextShape(at, input);
      assert AfterAll([at.shape], input.command) == [Next(at, input).shape];
      assert AfterAll([at.shape, at.shape], input.command) == [Next(at, input).shape, Next(at, input).shape];
      SteadyTwiceAlone(products, Next(at, input), rows[1..]);
    }
  }

  /** The head commits: it makes the next version. */
  lemma {:induction false} OwnCommitKeepsQueue(products: map<Id, Product>, history: seq<Version>, held: nat,
      rows: seq<Row>, version: Version)
    requires GoodVersions(history) && QueueOk(products, history, held, rows, None) && rows != []
    requires !Hopeless(products, Now(history), RequestOf(rows[0]))
    requires rows[0].baseVersion == |history| && version.command == rows[0].command
    requires React(Now(history).shape, rows[0].command).Moves?
    requires Now(history + [version]) == Next(Now(history), RequestOf(rows[0]))
    ensures QueueOk(products, history + [version], held, rows, Some(|history| + 1))
  {
    var input, longer, result := RequestOf(rows[0]), history + [version], |history| + 1;
    var views, next := ViewsFrom(history, held), Now(longer);
    DriftOfViews(history, held);
    LongerViews(history, version, held);
    OwnViews(history, version, held, input.command);
    hide At, GoodVersions, Hopeless, Drift, ViewsFrom, LeadTo, ServedViews, React, Projected, Now;
    RowGoes(products, Now(history), views, input);
    SteadyTwice(products, next, AfterAll(views, input.command), rows[1..]);
    OwnLead(history, version, held, rows[0]);
  }

  lemma OwnViews(history: seq<Version>, version: Version, held: nat, command: Command)
    requires held <= |history|
    ensures var longer := history + [version];
      && Projected(longer, held, |history| + 1, command) == AfterAll(ViewsFrom(history, held), command)
      && ServedViews(longer, held, |history| + 1, command) == AfterAll(ViewsFrom(history, held), command) + [Now(longer).shape]
      && At(longer, |history| + 1) == Now(longer).shape
  {
    var longer := history + [version];
    hide After, React;
    LongerViews(history, version, held);
    assert ViewsFrom(longer, held)[..|history| + 1 - held] == ViewsFrom(history, held);
    assert ViewsFrom(longer, |history| + 1) == [Now(longer).shape];
  }

  lemma OwnLead(history: seq<Version>, version: Version, held: nat, row: Row)
    requires held <= |history| && row.baseVersion == |history| && version.command == row.command
    requires Drift(AfterAll(ViewsFrom(history, held), row.command) + [At(history + [version], |history| + 1)]) == 0
    ensures LeadOk(history + [version], held, row, |history| + 1) && ResultOk(history + [version], row, |history| + 1)
  {
    hide After, React, Drift, At;
    OwnViews(history, version, held, row.command);
  }

  /** The head is acknowledged because the order already satisfies it. */
  lemma {:induction false} SettleKeepsQueue(products: map<Id, Product>, history: seq<Version>, held: nat, rows: seq<Row>)
    requires GoodVersions(history) && QueueOk(products, history, held, rows, None) && rows != [] && |history| > 0
    requires !Hopeless(products, Now(history), RequestOf(rows[0]))
    requires React(Now(history).shape, rows[0].command).Satisfied?
    ensures QueueOk(products, history, held, rows, Some(|history|))
  {
    var input, result := RequestOf(rows[0]), |history|;
    var views, at := ViewsFrom(history, held), Now(history);
    DriftOfViews(history, held);
    assert Satisfiable(input.command);
    assert Next(at, input) == at;
    SettledViews(history, held, input.command);
    hide At, GoodVersions, Hopeless, Drift, ViewsFrom, LeadTo, ServedViews, React, Projected, Now, AllPresent, Satisfiable;
    RowGoes(products, at, views, input);
    if held < result {
      SettledLead(products, history, held, rows[0]);
    } else {
      SteadyTwice(products, at, views, rows[1..]);
      assert AfterAll(views, input.command) == views;
    }
  }

  lemma SettledViews(history: seq<Version>, held: nat, command: Command)
    requires held <= |history| && |history| > 0 && React(Now(history).shape, command).Satisfied?
    ensures var views := ViewsFrom(history, held);
      && (held < |history| ==>
            && ServedViews(history, held, |history|, command) == AfterAll(views, command)
            && Projected(history, held, |history|, command) + [At(history, |history|)] == AfterAll(views, command))
      && (held == |history| ==>
            && views == [Now(history).shape] && AfterAll(views, command) == views
            && ServedViews(history, held, |history|, command) == views + [Now(history).shape])
  {
    var views := ViewsFrom(history, held);
    assert ViewsFrom(history, |history|) == [Now(history).shape];
    if held < |history| {
      assert AfterAll(views, command) == AfterAll(views[..|history| - held], command) + [Now(history).shape];
    }
  }

  lemma SettledLead(products: map<Id, Product>, history: seq<Version>, held: nat, row: Row)
    requires GoodVersions(history) && held < |history|
    requires React(Now(history).shape, row.command).Satisfied?
    requires var views := ViewsFrom(history, held);
      && row.baseVersion + Drift(views) <= |history|
      && Drift(AfterAll(views, row.command)) <= Drift(views)
      && (SomeMoves(views, row.command) ==> Drift(AfterAll(views, row.command)) + 1 <= Drift(views))
    ensures LeadOk(history, held, row, |history|) && ResultOk(history, row, |history|)
  {
    var views := ViewsFrom(history, held);
    SettledViews(history, held, row.command);
    LastMoved(history, held, row);
    hide Drift, After, Projected, React, Now, AfterAll, ViewsFrom, GoodVersions, ServedViews;
    if SomeMoves(views[..|history| - held], row.command) {
      var i :| 0 <= i < |history| - held && React(views[i], row.command).Moves?;
      assert SomeMoves(views, row.command);
    }
  }

  // The command that made the last version moved the state before it.
  lemma LastMoved(history: seq<Version>, held: nat, row: Row)
    requires GoodVersions(history) && held < |history|
    ensures MadeBy(history, row, |history|) ==> SomeMoves(ViewsFrom(history, held), row.command)
    ensures At(history, |history|) == Now(history).shape
  {
    hide React;
    var views := ViewsFrom(history, held);
    if MadeBy(history, row, |history|) {
      assert MadeAt(history, |history| - 1);
      assert React(views[|history| - 1 - held], row.command).Moves?;
    }
  }

  /* ---- the till's moves ---- */

  // A command that has been served moves the order again only if it is about the lines.
  lemma ServedMovesOnlyItems(history: seq<Version>, row: Row, result: nat, held: nat)
    requires GoodVersions(history) && ResultOk(history, row, result) && result <= held <= |history|
    requires React(At(history, held), row.command).Moves?
    ensures ChangesItems(row.command)
    ensures row.command.AddItem? ==> result == row.baseVersion + 1
    ensures held == result ==> !row.command.RemoveItem? && result == row.baseVersion + 1
    ensures held == result ==> After(At(history, held), row.command) == At(history, held)
  {
    assert MadeAt(history, result - 1);
    HistoryLater(history, result, held);
  }

  lemma LinesBetween(a: Shape, b: Shape, command: Command)
    requires a.Present? && b.Present? && a.table == b.table && ChangesItems(command)
    requires Later(a, b)
    ensures Between(After(a, command), After(b, command), b)
  {
  }

  // Projecting the head from the next version is nothing but in between.
  lemma ProjectedBetween(history: seq<Version>, row: Row, result: nat, held: nat)
    requires GoodVersions(history) && ResultOk(history, row, result) && result <= held < |history|
    ensures Between(After(At(history, held), row.command), After(At(history, held + 1), row.command), At(history, held + 1))
  {
    HistoryStep(history, held);
    HistoryStep(history, held - 1);
    if ChangesItems(row.command) {
      LinesBetween(At(history, held), At(history, held + 1), row.command);
    } else if React(At(history, held + 1), row.command).Moves? {
      ServedMovesOnlyItems(history, row, result, held + 1);
    }
  }

  lemma ResultBetween(history: seq<Version>, row: Row, result: nat)
    requires GoodVersions(history) && ResultOk(history, row, result)
    ensures After(At(history, result), row.command) == At(history, result)
  {
    if MadeBy(history, row, result) {
      assert MadeAt(history, result - 1);
      AfterTwice(At(history, result - 1), row.command);
    }
  }

  // A till behind the result learns one more version, still behind it.
  lemma LearnBefore(products: map<Id, Product>, history: seq<Version>, held: nat, head: Row, rest: seq<Row>, result: nat)
    requires ServedSteady(products, history, held, head, rest, result) && held + 1 < result
    ensures ServedSteady(products, history, held + 1, head, rest, result)
  {
    hide Steady, LeadOk, LeadTo, Now, ServedViews, ResultOk;
    ResultIsThere(history, head, result);
    var views := ServedViews(history, held, result, head.command);
    ServedTail(history, held, result, head.command);
    LeadTail(history, held, head, result);
    SteadyWithout(products, Now(history), views, rest, 0);
  }

  lemma ResultIsThere(history: seq<Version>, row: Row, result: nat)
    requires ResultOk(history, row, result)
    ensures 1 <= result <= |history|
  {
  }

  lemma ServedTail(history: seq<Version>, held: nat, result: nat, command: Command)
    requires held + 1 < result <= |history|
    ensures var views := ServedViews(history, held, result, command);
      |views| > 1 && views[..0] + views[1..] == ServedViews(history, held + 1, result, command)
  {
    ProjectedTail(history, held, result, command);
    hide Projected;
    assert ViewsFrom(history, result) != [];
    hide ViewsFrom;
  }

  lemma ProjectedTail(history: seq<Version>, held: nat, result: nat, command: Command)
    requires held + 1 < result <= |history|
    ensures Projected(history, held, result, command) != []
    ensures Projected(history, held, result, command)[1..] == Projected(history, held + 1, result, command)
    ensures ViewsFrom(history, held)[..result - held][1..] == ViewsFrom(history, held + 1)[..result - held - 1]
  {
    hide After, React;
  }

  lemma LeadTail(history: seq<Version>, held: nat, row: Row, result: nat)
    requires 1 <= result <= |history| && held + 1 < result && LeadOk(history, held, row, result)
    requires LeadTo(ServedViews(history, held, result, row.command), Now(history).shape)
    ensures LeadOk(history, held + 1, row, result)
  {
    hide Later, At, After, React, ServedViews, Projected, Drift, LeadTo;
    ProjectedTail(history, held, result, row.command);
    ServedLead(history, held, row, result);
    var projected := Projected(history, held, result, row.command);
    var lead, tail := projected + [At(history, result)], projected[1..] + [At(history, result)];
    assert lead[..0] + lead[1..] == tail;
    DriftWithout(lead, 0);
    FewerMove(history, held, result, row.command);
  }

  lemma ServedLead(history: seq<Version>, held: nat, row: Row, result: nat)
    requires 1 <= result <= |history| && held + 1 < result
    requires LeadTo(ServedViews(history, held, result, row.command), Now(history).shape)
    ensures Ordered(Projected(history, held, result, row.command) + [At(history, result)])
  {
    hide At, After, React, Later, Projected, Drift;
    var projected, all := Projected(history, held, result, row.command), ServedViews(history, held, result, row.command);
    assert ViewsFrom(history, result)[0] == At(history, result);
    assert all[..|projected| + 1] == projected + [At(history, result)];
  }

  lemma FewerMove(history: seq<Version>, held: nat, result: nat, command: Command)
    requires held + 1 < result <= |history|
    ensures SomeMoves(ViewsFrom(history, held + 1)[..result - held - 1], command) ==>
      SomeMoves(ViewsFrom(history, held)[..result - held], command)
  {
    hide React, At;
    var views := ViewsFrom(history, held)[..result - held];
    if SomeMoves(ViewsFrom(history, held + 1)[..result - held - 1], command) {
      var i :| 0 <= i < result - held - 1 && React(ViewsFrom(history, held + 1)[i], command).Moves?;
      assert React(views[i + 1], command).Moves?;
    }
  }

  // It learns the very version its head was answered with.
  lemma LearnResult(products: map<Id, Product>, history: seq<Version>, held: nat, head: Row, rest: seq<Row>)
    requires GoodVersions(history) && held < |history| && ServedSteady(products, history, held, head, rest, held + 1)
    ensures ServedSteady(products, history, held + 1, head, rest, held + 1)
  {
    var command, result := head.command, held + 1;
    var before, at := After(At(history, held), command), Now(history);
    ResultBetween(history, head, result);
    ViewsOfResult(history, held, command);
    assert ViewsFrom(history, result)[0] == At(history, result);
    hide At, GoodVersions, Steady, ViewsFrom, React, After, Now, Later, ServedViews, LeadTo, ResultOk;
    SteadyWithin(products, at, [before], At(history, result), ViewsFrom(history, result), rest);
    ReplaceFirst(products, at, before, At(history, result), ViewsFrom(history, result), rest);
  }

  lemma ViewsOfResult(history: seq<Version>, held: nat, command: Command)
    requires held < |history|
    ensures ServedViews(history, held, held + 1, command) == [After(At(history, held), command)] + ViewsFrom(history, held + 1)
    ensures ServedViews(history, held + 1, held + 1, command) ==
      [After(At(history, held + 1), command)] + ViewsFrom(history, held + 1)
  {
    hide At, After, React;
    assert AfterAll(ViewsFrom(history, held)[..1], command) == [After(At(history, held), command)];
  }

  lemma ReplaceFirst(products: map<Id, Product>, at: Standing, first: Shape, second: Shape, back: seq<Shape>, rows: seq<Row>)
    requires back != [] && LeadTo([first] + [second] + back, at.shape)
    requires Steady(products, at, [first] + [second] + back, rows)
    ensures LeadTo([second] + back, at.shape) && Steady(products, at, [second] + back, rows)
  {
    hide Steady, LeadTo;
    var views := [first] + [second] + back;
    assert views[..0] + views[1..] == [second] + back;
    SteadyWithout(products, at, views, rows, 0);
  }

  // It learns of something newer than the head's result.
  lemma LearnAfter(products: map<Id, Product>, history: seq<Version>, held: nat, head: Row, rest: seq<Row>, result: nat)
    requires GoodVersions(history) && ServedSteady(products, history, held, head, rest, result)
    requires result <= held < |history|
    ensures ServedSteady(products, history, held + 1, head, rest, result)
  {
    var command, at := head.command, Now(history);
    var first, second, back := After(At(history, held), command), After(At(history, held + 1), command), ViewsFrom(history, held + 1);
    ProjectedBetween(history, head, result, held);
    assert back[0] == At(history, held + 1);
    ViewsAfter(history, held, result, command);
    hide GoodVersions, Steady, ViewsFrom, React, After, Now, Later, At, Drift, Between, LeadTo, ServedViews, Projected, ResultOk;
    ReplaceTwo(products, at, first, At(history, held), second, back, rest);
  }

  lemma ViewsAfter(history: seq<Version>, held: nat, result: nat, command: Command)
    requires result <= held < |history|
    ensures ServedViews(history, held, result, command) ==
      [After(At(history, held), command), At(history, held)] + ViewsFrom(history, held + 1)
    ensures ServedViews(history, held + 1, result, command) ==
      [After(At(history, held + 1), command)] + ViewsFrom(history, held + 1)
  {
    hide At, After, React;
    DriftFirst(history, held);
  }

  lemma ReplaceTwo(products: map<Id, Product>, at: Standing, first: Shape, dropped: Shape, second: Shape, back: seq<Shape>,
      rows: seq<Row>)
    requires back != [] && LeadTo([first, dropped] + back, at.shape)
    requires Steady(products, at, [first, dropped] + back, rows)
    requires Between(first, second, back[0])
    ensures LeadTo([second] + back, at.shape) && Steady(products, at, [second] + back, rows)
  {
    hide Steady, LeadTo, Between;
    var views := [first, dropped] + back;
    assert views[..1] + views[2..] == [first] + back;
    SteadyWithout(products, at, views, rows, 1);
    SteadyWithin(products, at, [first], second, back, rows);
    ReplaceFirst(products, at, first, second, back, rows);
  }

  lemma LearnOne(products: map<Id, Product>, history: seq<Version>, held: nat, rows: seq<Row>, result: Option<nat>)
    requires GoodVersions(history) && QueueOk(products, history, held, rows, result) && held < |history|
    ensures QueueOk(products, history, held + 1, rows, result)
  {
    hide ServedSteady, Steady, ViewsFrom, GoodVersions, Now;
    if rows != [] {
      match result
      case None => LearnUnserved(products, history, held, rows);
      case Some(r) =>
        if held + 1 < r {
          LearnBefore(products, history, held, rows[0], rows[1..], r);
        } else if held + 1 == r {
          LearnResult(products, history, held, rows[0], rows[1..]);
        } else {
          LearnAfter(products, history, held, rows[0], rows[1..], r);
        }
    }
  }

  lemma LearnUnserved(products: map<Id, Product>, history: seq<Version>, held: nat, rows: seq<Row>)
    requires GoodVersions(history) && held < |history|
    requires Steady(products, Now(history), ViewsFrom(history, held), rows)
    ensures Steady(products, Now(history), ViewsFrom(history, held + 1), rows)
  {
    var views := ViewsFrom(history, held);
    ViewsTail(history, held);
    hide Steady, ViewsFrom, GoodVersions, Now, LeadTo, Drift;
    DriftOfViews(history, held);
    SteadyWithout(products, Now(history), views, rows, 0);
  }

  lemma ViewsTail(history: seq<Version>, held: nat)
    requires held < |history|
    ensures var views := ViewsFrom(history, held); |views| > 1 && views[..0] + views[1..] == ViewsFrom(history, held + 1)
  {
    DriftFirst(history, held);
  }

  /** A till may save any snapshot that is not older, torn or whole, whatever is still queued. */
  lemma {:induction false} LearnKeepsQueue(products: map<Id, Product>, history: seq<Version>, held: nat, rows: seq<Row>,
      result: Option<nat>, newer: nat)
    requires GoodVersions(history) && QueueOk(products, history, held, rows, result) && held <= newer <= |history|
    ensures QueueOk(products, history, newer, rows, result)
    decreases newer - held
  {
    hide QueueOk, GoodVersions;
    if held < newer {
      LearnOne(products, history, held, rows, result);
      LearnKeepsQueue(products, history, held + 1, rows, result, newer);
    }
  }

  /** The answer is in hand and saved: the head leaves the queue. */
  lemma DropKeepsQueue(products: map<Id, Product>, history: seq<Version>, held: nat, rows: seq<Row>, result: nat)
    requires GoodVersions(history) && QueueOk(products, history, held, rows, Some(result)) && rows != []
    requires result <= held
    ensures QueueOk(products, history, held, rows[1..], None)
  {
    hide At, GoodVersions, Steady, ViewsFrom, React, After, Now, Later;
    var views := ServedViews(history, held, result, rows[0].command);
    assert views[..0] + views[1..] == ViewsFrom(history, held);
    SteadyWithout(products, Now(history), views, rows[1..], 0);
  }

  /* ---- staging ---- */

  // What the till sees in a snapshot of version `held`.
  predicate SeesFrom(history: seq<Version>, held: nat, seen: Shape, lines: nat) {
    && held <= lines <= |history|
    && (if held == 0 then seen.Absent?
        else At(history, held).Present? && At(history, lines).Present?
             && seen == At(history, held).(held := At(history, lines).held))
  }

  lemma ViewsCover(history: seq<Version>, held: nat, seen: Shape, lines: nat)
    requires GoodVersions(history) && SeesFrom(history, held, seen, lines)
    ensures Covers(ViewsFrom(history, held), seen) && NothingYet(ViewsFrom(history, held), seen, held)
  {
    var views := ViewsFrom(history, held);
    hide React;
    assert views[0] == At(history, held) && views[lines - held] == At(history, lines);
    if seen.Present? {
      forall i | 0 <= i < |views| ensures views[i].Present? {
        HistoryStep(history, held + i - 1);
      }
      assert views[0].Present? && views[0].status == seen.status;
      forall p | p in seen.held ensures HeldIn(views, p) {
        assert p in views[lines - held].held;
      }
    }
  }

  lemma StageUnserved(products: map<Id, Product>, history: seq<Version>, held: nat, rows: seq<Row>, seen: Shape,
      lines: nat, row: Row)
    requires GoodVersions(history) && QueueOk(products, history, held, rows, None)
    requires SeesFrom(history, held, seen, lines) && row.baseVersion <= Label(held, seen, rows)
    ensures QueueOk(products, history, held, rows + [row], None)
  {
    DriftOfViews(history, held);
    ViewsCover(history, held, seen, lines);
    hide At, GoodVersions, ViewsFrom, Covers, NothingYet, SeesFrom, LeadTo;
    SteadyExtends(products, Now(history), ViewsFrom(history, held), rows, seen, held, row);
  }

  lemma SameReaction(history: seq<Version>, held: nat, seen: Shape, lines: nat, command: Command)
    requires GoodVersions(history) && SeesFrom(history, held, seen, lines)
    requires !command.RemoveItem? && !command.ChangeQuantity?
    ensures React(seen, command).Moves? <==> React(At(history, held), command).Moves?
    ensures React(seen, command).Moves? && held > 0 ==>
      After(seen, command).status == After(At(history, held), command).status
  {
  }

  lemma SameStatus(history: seq<Version>, held: nat, seen: Shape, lines: nat, command: Command)
    requires GoodVersions(history) && SeesFrom(history, held, seen, lines)
    ensures After(seen, command).Present? <==> After(At(history, held), command).Present?
    ensures After(seen, command).Present? ==> After(seen, command).status == After(At(history, held), command).status
  {
    if held > 0 && !command.CreateOrder? { SameStatusAfter(seen, At(history, held), command); }
  }

  // The states the till sees once its served head is projected onto them again.
  lemma ServedCover(history: seq<Version>, held: nat, row: Row, result: nat, seen: Shape, lines: nat)
    requires GoodVersions(history) && ResultOk(history, row, result)
    requires SeesFrom(history, held, seen, lines)
    ensures Covers(ServedViews(history, held, result, row.command), After(seen, row.command))
  {
    var views, after := ServedViews(history, held, result, row.command), After(seen, row.command);
    ServedAt(history, held, row, result);
    SameStatus(history, held, seen, lines, row.command);
    hide React, After, GoodVersions, ServedViews, ResultOk, SeesFrom;
    if after.Present? {
      assert views[0].Present? && views[0].status == after.status;
      forall p | p in after.held ensures HeldIn(views, p) {
        HeldAfterwards(history, held, row, result, seen, lines, p);
      }
    } else {
      assert views[0].Absent?;
    }
  }

  lemma ServedAt(history: seq<Version>, held: nat, row: Row, result: nat)
    requires ResultOk(history, row, result) && held <= |history|
    ensures var views := ServedViews(history, held, result, row.command);
      && views != [] && views[0] == After(At(history, held), row.command)
      && (forall i: nat :: held <= i < result ==> i - held < |views| && views[i - held] == After(At(history, i), row.command))
      && (forall i: nat :: held <= i <= |history| && result <= i ==>
            var k := if held < result then i - held else i - held + 1;
            k < |views| && views[k] == At(history, i))
  {
    hide At, React, After;
    var projected := Projected(history, held, result, row.command);
    var rest := ViewsFrom(history, if held < result then result else held);
    assert |projected| == if held < result then result - held else 1;
    assert ServedViews(history, held, result, row.command) == projected + rest;
    hide ServedViews, Projected, ViewsFrom;
  }

  lemma HeldAfterwards(history: seq<Version>, held: nat, row: Row, result: nat, seen: Shape, lines: nat, p: Id)
    requires GoodVersions(history) && ResultOk(history, row, result) && SeesFrom(history, held, seen, lines)
    requires After(seen, row.command).Present? && p in After(seen, row.command).held
    ensures HeldIn(ServedViews(history, held, result, row.command), p)
  {
    var views := ServedViews(history, held, result, row.command);
    ServedAt(history, held, row, result);
    HistoryLater(history, held, lines);
    if seen.Present? && p in seen.held {
      hide After, React, GoodVersions, ServedViews, ResultOk;
      if lines < result {
        KeptAfter(seen, At(history, lines), row.command, p);
        assert p in views[lines - held].held;
      } else {
        assert p in views[if held < result then lines - held else lines - held + 1].held;
      }
    } else {
      hide GoodVersions, ServedViews, ResultOk;
      GainedAfter(seen, At(history, held), row.command, p);
      assert views[0].Present? && p in views[0].held;
    }
  }

  lemma KeptAfter(seen: Shape, shape: Shape, command: Command, p: Id)
    requires seen.Present? && shape.Present? && Rank(seen.status) <= Rank(shape.status)
    requires p in seen.held && p in shape.held && p in After(seen, command).held
    ensures After(shape, command).Present? && p in After(shape, command).held
  {
  }

  lemma GainedAfter(seen: Shape, shape: Shape, command: Command, p: Id)
    requires After(seen, command).Present? && p in After(seen, command).held && (seen.Present? ==> p !in seen.held)
    requires if seen.Absent? then shape.Absent? else shape.Present? && shape.status == seen.status
    ensures After(shape, command).Present? && p in After(shape, command).held
  {
  }

  // The version shown behind the served head leaves room for everything that may be counted on.
  lemma ServedLabel(history: seq<Version>, held: nat, row: Row, result: nat, seen: Shape, lines: nat)
    requires GoodVersions(history) && ResultOk(history, row, result) && SeesFrom(history, held, seen, lines)
    requires LeadOk(history, held, row, result)
    requires LeadTo(ServedViews(history, held, result, row.command), Now(history).shape)
    ensures (if React(seen, row.command).Moves? then row.baseVersion + 1 else held) +
      Drift(ServedViews(history, held, result, row.command)) <= |history|
  {
    hide LeadTo, React, LeadOk, ServedViews, Drift, Dist;
    ServedDrift(history, held, row.command, result);
    if held < result {
      LabelBefore(history, held, row, result, seen, lines);
    } else {
      LabelAfter(history, held, row, result, seen, lines);
    }
  }

  lemma ServedDrift(history: seq<Version>, held: nat, command: Command, result: nat)
    requires GoodVersions(history) && 1 <= result <= |history| && held <= |history|
    ensures var drift := Drift(ServedViews(history, held, result, command));
      if held < result then
        && drift == Drift(Projected(history, held, result, command) + [At(history, result)]) + Drift(ViewsFrom(history, result))
        && result + Drift(ViewsFrom(history, result)) <= |history|
      else
        && drift == Dist(After(At(history, held), command), At(history, held)) + Drift(ViewsFrom(history, held))
        && held + Drift(ViewsFrom(history, held)) <= |history|
  {
    hide GoodVersions, Drift, React, After, Dist, LeadTo, At;
    var from := if held < result then result else held;
    DriftOfViews(history, from);
    var projected := Projected(history, held, result, command);
    assert ViewsFrom(history, from)[0] == At(history, from);
    DriftJoin(projected, ViewsFrom(history, from));
    DriftJoin(projected, [At(history, from)]);
    DriftOfOne(At(history, from));
    if held >= result { DriftOfOne(After(At(history, held), command)); }
  }

  lemma LabelAfter(history: seq<Version>, held: nat, row: Row, result: nat, seen: Shape, lines: nat)
    requires GoodVersions(history) && ResultOk(history, row, result) && result <= held <= |history|
    requires SeesFrom(history, held, seen, lines)
    requires held + Drift(ViewsFrom(history, held)) <= |history|
    ensures (if React(seen, row.command).Moves? then row.baseVersion + 1 else held) +
      Dist(After(At(history, held), row.command), At(history, held)) + Drift(ViewsFrom(history, held)) <= |history|
  {
    var shape := At(history, held);
    DistSelf(shape);
    hide Drift;
    if !row.command.RemoveItem? && !row.command.ChangeQuantity? {
      SameReaction(history, held, seen, lines, row.command);
    }
    if React(shape, row.command).Moves? {
      ServedMovesOnlyItems(history, row, result, held);
      ItemsDist(shape, row.command);
    }
    if React(seen, row.command).Moves? && row.command.RemoveItem? && held == row.baseVersion {
      assert held == result && React(shape, row.command).Satisfied?;
      DriftWithGain(history, held, lines, row.command.productId);
    }
  }

  lemma ItemsDist(shape: Shape, command: Command)
    requires shape.Present? && ChangesItems(command)
    ensures Dist(After(shape, command), shape) <= if command.AddItem? then 1 else 0
  {
    var projected := After(shape, command);
    if command.AddItem? {
      SubsetSize(projected.held - shape.held, {command.productId});
    } else {
      assert projected.held - shape.held == {};
    }
  }

  lemma LabelBefore(history: seq<Version>, held: nat, row: Row, result: nat, seen: Shape, lines: nat)
    requires GoodVersions(history) && ResultOk(history, row, result) && SeesFrom(history, held, seen, lines)
    requires held < result && LeadOk(history, held, row, result)
    requires result + Drift(ViewsFrom(history, result)) <= |history|
    ensures (if React(seen, row.command).Moves? then row.baseVersion + 1 else held) +
      Drift(Projected(history, held, result, row.command) + [At(history, result)]) + Drift(ViewsFrom(history, result)) <= |history|
  {
    hide Drift, GoodVersions, Projected;
    if !MadeBy(history, row, result) {
      if React(seen, row.command).Moves? {
        MovesBefore(history, held, row, result, seen, lines);
      } else if held > 0 {
        DriftBefore(history, held, row, result);
      }
    }
  }

  lemma MovesBefore(history: seq<Version>, held: nat, row: Row, result: nat, seen: Shape, lines: nat)
    requires GoodVersions(history) && 1 <= result <= |history| && React(At(history, result), row.command).Satisfied?
    requires held < result && SeesFrom(history, held, seen, lines)
    requires React(seen, row.command).Moves?
    ensures SomeMoves(ViewsFrom(history, held)[..result - held], row.command)
      || result + Drift(ViewsFrom(history, result)) + 1 <= |history|
  {
    var views := ViewsFrom(history, held)[..result - held];
    hide Drift;
    if !row.command.RemoveItem? {
      SameReaction(history, held, seen, lines, row.command);
      assert React(views[0], row.command).Moves?;
    } else if lines < result {
      HistoryLater(history, lines, result);
      assert React(views[lines - held], row.command).Moves?;
    } else {
      DriftWithGain(history, result, lines, row.command.productId);
    }
  }

  lemma DriftBefore(history: seq<Version>, held: nat, row: Row, result: nat)
    requires GoodVersions(history) && 0 < held < result <= |history| && React(At(history, result), row.command).Satisfied?
    ensures held + Drift(Projected(history, held, result, row.command) + [At(history, result)]) <= result
  {
    var views := ViewsFrom(history, held)[..result - held + 1];
    DriftOfHistory(history, held, result);
    forall i | 0 <= i < |views| ensures !React(views[i], row.command).Refused? {
      NotRefusedBefore(history, held + i, row.command, result);
    }
    assert Satisfiable(row.command);
    hide GoodVersions, Drift, LeadTo, At, React;
    assert AfterAll(views, row.command) == Projected(history, held, result, row.command) + [At(history, result)] by {
      BeforeAndResult(history, held, row, result);
    }
    assert Ordered(views) by { DriftOfHistory(history, held, result); LeadIsOrdered(views, At(history, result)); }
    SatisfiableShrinks(views, row.command);
  }

  lemma NotRefusedBefore(history: seq<Version>, version: nat, command: Command, result: nat)
    requires GoodVersions(history) && 0 < version <= result <= |history|
    requires React(At(history, result), command).Satisfied?
    ensures !React(At(history, version), command).Refused?
  {
    HistoryLater(history, version, result);
    HistoryStep(history, version - 1);
  }

  lemma LeadIsOrdered(views: seq<Shape>, shape: Shape)
    requires LeadTo(views, shape)
    ensures Ordered(views)
  {
  }

  lemma BeforeAndResult(history: seq<Version>, held: nat, row: Row, result: nat)
    requires held < result <= |history| && React(At(history, result), row.command).Satisfied?
    ensures AfterAll(ViewsFrom(history, held)[..result - held + 1], row.command) ==
      Projected(history, held, result, row.command) + [At(history, result)]
  {
  }

  lemma ServedNothingYet(history: seq<Version>, held: nat, row: Row, result: nat, seen: Shape, lines: nat)
    requires GoodVersions(history) && ResultOk(history, row, result) && SeesFrom(history, held, seen, lines)
    ensures NothingYet(ServedViews(history, held, result, row.command), After(seen, row.command),
      if React(seen, row.command).Moves? then row.baseVersion + 1 else held)
  {
    var views := ServedViews(history, held, result, row.command);
    if held > 0 || row.command.CreateOrder? {
      forall i | 0 <= i < |views| ensures views[i].Present? {
        ServedPresent(history, held, row, result, i);
      }
    }
  }

  lemma ServedLength(history: seq<Version>, held: nat, result: nat, command: Command)
    requires held <= |history| && 1 <= result <= |history|
    ensures |ServedViews(history, held, result, command)| == |history| - held + if held < result then 1 else 2
  {
    hide At, After, React;
  }

  lemma ServedPresent(history: seq<Version>, held: nat, row: Row, result: nat, i: nat)
    requires GoodVersions(history) && ResultOk(history, row, result) && held <= |history|
    requires held > 0 || row.command.CreateOrder?
    requires i < |ServedViews(history, held, result, row.command)|
    ensures ServedViews(history, held, result, row.command)[i].Present?
  {
    hide React, After, ServedViews, At, GoodVersions;
    ResultIsThere(history, row, result);
    ServedLength(history, held, result, row.command);
    var j := if held < result || i == 0 then held + i else held + i - 1;
    if j > 0 { HistoryStep(history, j - 1); }
    ServedAt(history, held, row, result);
    PresentAfter(At(history, j), row.command);
  }

  lemma PresentAfter(shape: Shape, command: Command)
    requires shape.Present? || command.CreateOrder?
    ensures After(shape, command).Present?
  {
  }

  lemma {:induction false} StageServed(products: map<Id, Product>, history: seq<Version>, held: nat, head: Row,
      rest: seq<Row>, result: nat, seen: Shape, lines: nat, row: Row)
    requires GoodVersions(history) && ServedSteady(products, history, held, head, rest, result)
    requires SeesFrom(history, held, seen, lines)
    requires row.baseVersion <= Label(if React(seen, head.command).Moves? then head.baseVersion + 1 else held,
                                      After(seen, head.command), rest)
    ensures ServedSteady(products, history, held, head, rest + [row], result)
  {
    ServedCover(history, held, head, result, seen, lines);
    ServedNothingYet(history, held, head, result, seen, lines);
    ServedLabel(history, held, head, result, seen, lines);
    hide At, GoodVersions, ViewsFrom, Covers, NothingYet, SeesFrom, LeadTo, React, After, ServedViews, ResultOk, LeadOk,
      Drift, Label, Steady;
    SteadyExtends(products, Now(history), ServedViews(history, held, result, head.command), rest, After(seen, head.command),
      if React(seen, head.command).Moves? then head.baseVersion + 1 else held, row);
  }

  /** Staging: the till stamps what its projection shows, if the version it shows is the one it has saved. */
  lemma StageKeepsQueue(products: map<Id, Product>, history: seq<Version>, held: nat, rows: seq<Row>,
      result: Option<nat>, seen: Shape, lines: nat, row: Row)
    requires GoodVersions(history) && QueueOk(products, history, held, rows, result)
    requires rows == [] ==> result.None?
    requires SeesFrom(history, held, seen, lines) && row.baseVersion <= Label(held, seen, rows)
    ensures QueueOk(products, history, held, rows + [row], result)
  {
    hide QueueOk, GoodVersions, SeesFrom, React, After, ServedSteady;
    match result
    case None => StageUnserved(products, history, held, rows, seen, lines, row);
    case Some(r) =>
      assert (rows + [row])[0] == rows[0] && (rows + [row])[1..] == rows[1..] + [row];
      ServedOfQueue(products, history, held, rows, r);
      StageServed(products, history, held, rows[0], rows[1..], r, seen, lines, row);
      ServedOfQueue(products, history, held, rows + [row], r);
  }

  lemma ServedOfQueue(products: map<Id, Product>, history: seq<Version>, held: nat, rows: seq<Row>, result: nat)
    requires rows != []
    ensures QueueOk(products, history, held, rows, Some(result)) <==>
      held <= |history| && ServedSteady(products, history, held, rows[0], rows[1..], result)
  {
    hide ServedSteady;
  }
}
