/**
 What one careless stamp leads to, as a whole run. A till shows a snapshot it has not saved yet and stages
 a row on it; its tab dies and comes back with the older snapshot; the next row is stamped too high, and
 once the first one has been acknowledged it goes out ahead of its order.
 */
module LostSnapshot {
  import opened Domain
  import opened ProjectQueue
  import opened Server
  import opened Chains
  import opened Reach
  import opened QueueChain
  import opened Shops
  import opened TillRules
  import opened TillMoves
  import opened ServedRequests
  import opened NeverAhead
  import opened Overtaking
  import ExactlyOnce

  const MENU: map<Id, Product> := map[5 := Product("Tea", 450)]
  const TILL := Key(1, 1)
  const OTHER := Key(2, 1)

  function RowFor(id: Id, version: nat, command: Command): Row {
    Row(id, 7, 1, 1, version, command, 0, Pending)
  }

  function Stages(id: Id, command: Command): seq<Move> {
    [Stage(TILL, id, 7, command, 0, map[])]
  }

  // The till opens the order and puts a tea on it, at versions 1 and 2.
  function TeaOrdered(): seq<Move> {
    Stages(10, CreateOrder("7")) + Round(TILL, 1, RequestOf(RowFor(10, 0, CreateOrder("7"))), 1)
      + [Show(TILL, 1, 1)] + Stages(11, AddItem(5, 1)) + Round(TILL, 2, RequestOf(RowFor(11, 1, AddItem(5, 1))), 2)
  }

  // Another till takes it off again, at version 3.
  function TeaRemoved(): seq<Move> {
    Joining(OTHER, 20, 7, RemoveItem(5), 2)
      + Round(OTHER, 3, RequestOf(JoinedRow(OTHER, 20, 7, RemoveItem(5), 2)), 3)
  }

  // The till is shown version 3, stages a removal on it, and reloads version 2.
  function Lost(): seq<Move> {
    [Show(TILL, 3, 3)] + Stages(12, RemoveItem(5)) + [Reload(TILL)] + Stages(13, AddItem(5, 1))
  }

  function Sent(): seq<Move> {
    Round(TILL, 4, RequestOf(RowFor(12, 3, RemoveItem(5))), 3) + [Post(TILL)]
  }

  function LostSnapshotRun(): seq<Move> {
    TeaOrdered() + TeaRemoved() + Lost() + Sent()
  }

  // What matters of the machine between two parts of the run.
  datatype Point = Point(at: Standing, queue: seq<Row>, ids: set<Id>, txs: set<Id>, done: set<Id>)

  ghost predicate Stands(s: Shop, p: Point) {
    && Ok(s) && s.server.db.products == MENU
    && Now(HistoryOf(s, 1)) == p.at
    && TillOf(s, TILL).queue == p.queue && TillOf(s, TILL).rebase.None?
    && s.minted.Keys == p.ids && s.server.txs.Keys == p.txs && s.server.db.processed.Keys == p.done
  }

  predicate Shows(view: Option<Snapshot>, version: nat, shape: Shape) {
    Held(view) == version && ShapeOf(view) == shape
  }

  /* ---- the till's own steps ---- */

  lemma {:induction false} StagesRow(s: Shop, p: Point, id: Id, command: Command, version: nat)
    requires Stands(s, p) && id !in p.ids && IsSendable(p.queue)
    requires Label(Held(TillOf(s, TILL).shown), ShapeOf(TillOf(s, TILL).shown), p.queue) == version
    ensures var after := RunFrom(s, Stages(id, command));
      && Stands(after, p.(queue := p.queue + [RowFor(id, version, command)], ids := p.ids + {id}))
      && TillOf(after, TILL).saved == TillOf(s, TILL).saved && TillOf(after, TILL).shown == TillOf(s, TILL).shown
      && TillOf(after, OTHER) == TillOf(s, OTHER)
  {
    hide Ok, Label, Project, StageStep, RunFrom, SoundRunFrom, StampsSoundly, IsSendable, Now;
    var stage := Stage(TILL, id, 7, command, 0, map[]);
    ProjectionLabel(TillOf(s, TILL).shown, p.queue, map[]);
    var row := StageIsStaged(s, TILL, id, 7, command, 0, map[]);
    OkStep(s, stage) by { StageSendsNothing(s, stage); }
    RunOne(s, stage);
  }

  lemma {:induction false} ShowsVersion(s: Shop, p: Point)
    requires Stands(s, p) && p.at.version > 0 && Held(TillOf(s, TILL).shown) <= p.at.version
    ensures var after := RunFrom(s, [Show(TILL, p.at.version, p.at.version)]);
      && Stands(after, p) && Shows(TillOf(after, TILL).shown, p.at.version, p.at.shape)
      && TillOf(after, TILL).saved == TillOf(s, TILL).saved && TillOf(after, OTHER) == TillOf(s, OTHER)
  {
    hide Ok, Seen, RunFrom, SoundRunFrom, StampsSoundly, GoodVersions;
    var show := Show(TILL, p.at.version, p.at.version);
    WholeIsShown(s, 1);
    OkStep(s, show) by { ShowSendsNothing(s, show); }
    RunOne(s, show);
  }

  lemma ShowSendsNothing(s: Shop, move: Move)
    requires move.Show? || move.Reload?
    ensures SendsInTime(s, move)
  {
  }

  // The snapshot of the order as it stands.
  lemma WholeIsShown(s: Shop, o: Id)
    requires Ok(s) && HistoryOf(s, o) != []
    ensures var history := HistoryOf(s, o); var view := Some(Seen(history, |history|, |history|));
      Shows(view, Now(history).version, Now(history).shape)
  {
    var history := HistoryOf(s, o);
    hide GoodVersions;
    assert HistoryOk(s.server.db, history, o);
    SeenIsView(history, |history|, |history|);
  }

  lemma {:induction false} Reloads(s: Shop, p: Point)
    requires Stands(s, p)
    ensures var after := RunFrom(s, [Reload(TILL)]);
      Stands(after, p) && TillOf(after, TILL).shown == TillOf(s, TILL).saved
  {
    hide Ok, Seen, RunFrom, SoundRunFrom, StampsSoundly, Now;
    OkStep(s, Reload(TILL)) by { ShowSendsNothing(s, Reload(TILL)); }
    RunOne(s, Reload(TILL));
  }

  /* ---- rows that go through ---- */

  lemma {:induction false} RowCommits(s: Shop, p: Point, row: Row, t: Id)
    requires Stands(s, p) && p.queue == [row] && t !in p.txs && row.status == Pending && row.mutationId !in p.done
    requires !Hopeless(MENU, p.at, RequestOf(row)) && React(p.at.shape, row.command).Moves?
    requires row.baseVersion == p.at.version
    ensures var after := RunFrom(s, Round(TILL, t, RequestOf(row), p.at.version + 1)); var next := Next(p.at, RequestOf(row));
      && Stands(after, p.(at := next, queue := [], txs := p.txs + {t}, done := p.done + {row.mutationId}))
      && Shows(TillOf(after, TILL).saved, next.version, next.shape) && TillOf(after, TILL).shown == TillOf(s, TILL).shown
      && TillOf(after, OTHER) == TillOf(s, OTHER)
  {
    hide Ok, Hopeless, React, RunFrom, SoundRunFrom, Round, Next, Seen;
    NowVersion(s, TILL);
    assert IsSendable([row]);
    RoundCommits(s, TILL, t);
    WholeIsShown(RunFrom(s, Round(TILL, t, RequestOf(row), p.at.version + 1)), 1);
  }

  lemma {:induction false} OtherCommits(s: Shop, p: Point, id: Id, command: Command, t: Id)
    requires Stands(s, p) && TillOf(s, OTHER) == EMPTY_TILL && id !in p.ids && id !in p.done && t !in p.txs && p.at.version > 0
    requires var row := JoinedRow(OTHER, id, 7, command, p.at.version);
      !Hopeless(MENU, p.at, RequestOf(row)) && React(p.at.shape, command).Moves?
    ensures var row := JoinedRow(OTHER, id, 7, command, p.at.version);
      var moves := Joining(OTHER, id, 7, command, p.at.version) + Round(OTHER, t, RequestOf(row), p.at.version + 1);
      var after := RunFrom(s, moves);
      && Stands(after, p.(at := Next(p.at, RequestOf(row)), ids := p.ids + {id}, txs := p.txs + {t}, done := p.done + {id}))
      && TillOf(after, TILL) == TillOf(s, TILL)
  {
    hide Ok, Hopeless, React, RunFrom, SoundRunFrom, Round, Joining, Next, Seen, Current;
    var row := JoinedRow(OTHER, id, 7, command, p.at.version);
    NowVersion(s, OTHER);
    Joins(s, OTHER, id, 7, command);
    var joined := RunFrom(s, Joining(OTHER, id, 7, command, p.at.version));
    JoinedIsCurrent(s, joined, OTHER, row);
    RoundCommits(joined, OTHER, t);
    RunConcat(s, Joining(OTHER, id, 7, command, p.at.version), Round(OTHER, t, RequestOf(row), p.at.version + 1));
    assert TillOf(joined, TILL) == TillOf(s, TILL);
  }

  /* ---- the run ---- */

  function Tea(version: nat, held: set<Id>): Standing {
    Standing(version, Present("7", Open, held), 7)
  }

  const START := Point(Standing(0, Absent, 0), [], {}, {}, {})
  const ORDERED := Point(Tea(2, {5}), [], {10, 11}, {1, 2}, {10, 11})
  const REMOVED := Point(Tea(3, {}), [], {10, 11, 20}, {1, 2, 3}, {10, 11, 20})

  lemma OpeningStands()
    ensures Stands(Opening(MENU), START) && TillOf(Opening(MENU), TILL) == EMPTY_TILL && TillOf(Opening(MENU), OTHER) == EMPTY_TILL
  {
    OpeningIsOk(MENU);
    OpeningIsBooked(MENU);
    hide ShopOk, ExactlyOnce.IdsOk;
  }

  // What the four commands do to the order as it stands.
  lemma Reactions()
    ensures var create := RequestOf(RowFor(10, 0, CreateOrder("7")));
      && !Hopeless(MENU, START.at, create) && React(Absent, create.command).Moves? && Next(START.at, create) == Tea(1, {})
    ensures var add := RequestOf(RowFor(11, 1, AddItem(5, 1)));
      && !Hopeless(MENU, Tea(1, {}), add) && React(Tea(1, {}).shape, add.command).Moves? && Next(Tea(1, {}), add) == Tea(2, {5})
    ensures var remove := RequestOf(JoinedRow(OTHER, 20, 7, RemoveItem(5), 2));
      && !Hopeless(MENU, Tea(2, {5}), remove) && React(Tea(2, {5}).shape, remove.command).Moves?
      && Next(Tea(2, {5}), remove) == Tea(3, {})
    ensures var remove := RequestOf(RowFor(12, 3, RemoveItem(5)));
      && !Hopeless(MENU, Tea(3, {}), remove) && React(Tea(3, {}).shape, remove.command).Satisfied?
  {
    assert {5} - {5} == {};
    assert {} + {5} == {5};
  }

  lemma {:induction false} Orders()
    ensures var s := Run(MENU, TeaOrdered());
      && Stands(s, ORDERED) && Shows(TillOf(s, TILL).saved, 2, Tea(2, {5}).shape)
      && Held(TillOf(s, TILL).shown) == 1 && TillOf(s, OTHER) == EMPTY_TILL
  {
    hide Stands, RunFrom, Round, Hopeless, Next, React, SoundRunFrom, Ok;
    Reactions();
    OpeningStands();
    var s := Opening(MENU);
    var first, second := RowFor(10, 0, CreateOrder("7")), RowFor(11, 1, AddItem(5, 1));
    StagesRow(s, START, 10, CreateOrder("7"), 0);
    var staged := RunFrom(s, Stages(10, CreateOrder("7")));
    assert [] + [first] == [first] && {} + {10} == {10};
    RowCommits(staged, START.(queue := [first], ids := {10}), first, 1);
    var round1, round2 := Round(TILL, 1, RequestOf(first), 1), Round(TILL, 2, RequestOf(second), 2);
    var created := RunFrom(staged, round1);
    var p := Point(Tea(1, {}), [], {10}, {1}, {10});
    assert {} + {1} == {1} && {} + {10} == {10};
    ShowsVersion(created, p);
    var shown := RunFrom(created, [Show(TILL, 1, 1)]);
    StagesRow(shown, p, 11, AddItem(5, 1), 1);
    var again := RunFrom(shown, Stages(11, AddItem(5, 1)));
    assert [] + [second] == [second];
    RowCommits(again, p.(queue := [second], ids := {10} + {11}), second, 2);
    assert {10} + {11} == {10, 11} && {1} + {2} == {1, 2};
    RunConcat(s, Stages(10, CreateOrder("7")), round1);
    RunConcat(s, Stages(10, CreateOrder("7")) + round1, [Show(TILL, 1, 1)]);
    RunConcat(s, Stages(10, CreateOrder("7")) + round1 + [Show(TILL, 1, 1)], Stages(11, AddItem(5, 1)));
    RunConcat(s, Stages(10, CreateOrder("7")) + round1 + [Show(TILL, 1, 1)] + Stages(11, AddItem(5, 1)), round2);
  }

  lemma {:induction false} Removes(s: Shop)
    requires Stands(s, ORDERED) && TillOf(s, OTHER) == EMPTY_TILL
    ensures var after := RunFrom(s, TeaRemoved()); Stands(after, REMOVED) && TillOf(after, TILL) == TillOf(s, TILL)
  {
    hide Stands, RunFrom, Round, Joining, Hopeless, Next, React, Ok;
    Reactions();
    OtherCommits(s, ORDERED, 20, RemoveItem(5), 3);
    assert {10, 11} + {20} == {10, 11, 20} && {1, 2} + {3} == {1, 2, 3};
  }

  // The row staged on version 3 counts as one still to come once version 2 is shown again.
  lemma LabelOfLost(shown: Option<Snapshot>)
    requires Shows(shown, 2, Tea(2, {5}).shape)
    ensures Label(Held(shown), ShapeOf(shown), [RowFor(12, 3, RemoveItem(5))]) == 4
  {
    var row := RowFor(12, 3, RemoveItem(5));
    assert [row][1..] == [];
    assert Label(4, After(ShapeOf(shown), row.command), []) == 4;
  }

  lemma {:induction false} Loses(s: Shop)
    requires Stands(s, REMOVED) && Shows(TillOf(s, TILL).saved, 2, Tea(2, {5}).shape) && Held(TillOf(s, TILL).shown) == 1
    ensures Stands(RunFrom(s, Lost()),
      REMOVED.(queue := [RowFor(12, 3, RemoveItem(5)), RowFor(13, 4, AddItem(5, 1))], ids := REMOVED.ids + {12} + {13}))
  {
    hide Stands, RunFrom, Ok, Label, ShapeOf;
    var first := RowFor(12, 3, RemoveItem(5));
    ShowsVersion(s, REMOVED);
    var shown := RunFrom(s, [Show(TILL, 3, 3)]);
    EmptyLabel(3, ShapeOf(TillOf(shown, TILL).shown));
    StagesRow(shown, REMOVED, 12, RemoveItem(5), 3);
    var staged := RunFrom(shown, Stages(12, RemoveItem(5)));
    assert [] + [first] == [first];
    var p := REMOVED.(queue := [first], ids := REMOVED.ids + {12});
    Reloads(staged, p);
    var reloaded := RunFrom(staged, [Reload(TILL)]);
    LabelOfLost(TillOf(reloaded, TILL).shown);
    StagesRow(reloaded, p, 13, AddItem(5, 1), 4);
    assert [first] + [RowFor(13, 4, AddItem(5, 1))] == [first, RowFor(13, 4, AddItem(5, 1))];
    RunConcat(s, [Show(TILL, 3, 3)], Stages(12, RemoveItem(5)));
    RunConcat(s, [Show(TILL, 3, 3)] + Stages(12, RemoveItem(5)), [Reload(TILL)]);
    RunConcat(s, [Show(TILL, 3, 3)] + Stages(12, RemoveItem(5)) + [Reload(TILL)], Stages(13, AddItem(5, 1)));
  }

  lemma EmptyLabel(shown: nat, shape: Shape)
    ensures Label(shown, shape, []) == shown
  {
  }

  lemma {:induction false} Overtaken(s: Shop)
    requires Stands(s,
      REMOVED.(queue := [RowFor(12, 3, RemoveItem(5)), RowFor(13, 4, AddItem(5, 1))], ids := REMOVED.ids + {12} + {13}))
    ensures var after := RunFrom(s, Sent());
      && 13 in after.posted && after.posted[13] == RequestOf(RowFor(13, 4, AddItem(5, 1)))
      && CommittedVersion(after.server.db, 1) == 3
  {
    hide RunFrom, Round, Hopeless, Next, React, Ok, Seen, SoundRunFrom;
    var queue := [RowFor(12, 3, RemoveItem(5)), RowFor(13, 4, AddItem(5, 1))];
    Reactions();
    NowVersion(s, TILL);
    assert IsSendable(queue);
    RoundSettles(s, TILL, 4);
    var round := Round(TILL, 4, RequestOf(queue[0]), 3);
    var settled := RunFrom(s, round);
    GoneIsOk(s, settled, TILL, 4);
    assert TillOf(settled, TILL).queue == [queue[1]];
    CommittedIsNow(settled, 1);
    RunConcat(s, round, [Post(TILL)]);
    RunOne(settled, Post(TILL));
  }

  lemma GoneIsOk(s: Shop, after: Shop, k: Key, t: Id)
    requires TillOf(s, k).queue != [] && HeadGone(s, after, k, t)
    ensures Ok(after) && TillOf(after, k).queue == TillOf(s, k).queue[1..]
  {
    hide Ok, Seen;
  }

  lemma CommittedIsNow(s: Shop, o: Id)
    requires Ok(s)
    ensures CommittedVersion(s.server.db, o) == Now(HistoryOf(s, o)).version
  {
    hide ExactlyOnce.IdsOk, GoodVersions;
    assert HistoryOk(s.server.db, HistoryOf(s, o), o);
    LastIsLoaded(s.server.db, HistoryOf(s, o), o);
  }

  /** The run ends with a request on its way at version 4 of an order that has had three. */
  lemma {:induction false} LosingASnapshotGetsAhead()
    ensures var s := Run(MENU, LostSnapshotRun());
      && 13 in s.posted && s.posted[13] == MutationInput(1, 13, 1, 7, 4, AddItem(5, 1))
      && CommittedVersion(s.server.db, 1) == 3 && !NoneAhead(s)
  {
    hide RunFrom, Stands, TeaOrdered, TeaRemoved, Lost, Sent;
    var s := Opening(MENU);
    Orders();
    var ordered := Run(MENU, TeaOrdered());
    Removes(ordered);
    var removed := RunFrom(ordered, TeaRemoved());
    Loses(removed);
    Overtaken(RunFrom(removed, Lost()));
    RunConcat(s, TeaOrdered(), TeaRemoved());
    RunConcat(s, TeaOrdered() + TeaRemoved(), Lost());
    RunConcat(s, TeaOrdered() + TeaRemoved() + Lost(), Sent());
    assert IsAhead(Run(MENU, LostSnapshotRun()), 13);
  }
}
