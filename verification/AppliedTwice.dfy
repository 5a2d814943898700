/**
 What an unguarded rebase leads to, as a whole run. A till's tea is refused because another till was
 faster; the rebase sends it again, the server applies it and the answer is lost; the next rebase sends it
 under yet another id, and the order has two teas for one tap.
 */
module AppliedTwice {
  import opened Domain
  import opened ProjectQueue
  import opened Server
  import opened Chains
  import opened Reach
  import opened QueueChain
  import opened Shops
  import opened TillRules
  import opened ServedRequests
  import opened NeverAhead
  import opened Overtaking
  import opened LostSnapshot
  import opened Intents
  import opened AppliedOnce
  import Refusals
  import ExactlyOnce
  import Transactions

  /* ---- one turn of a rebase, its answer lost ---- */

  function ReissuedRow(row: Row, id: Id, version: nat): Row {
    row.(mutationId := id, status := Pending, baseVersion := version)
  }

  function LostTurn(id: Id, t: Id, input: MutationInput): seq<Move> {
    [StartRebase(TILL)] + [Reissue(TILL, id)] + ([PostReissued(TILL)] + Serving(t, input) + [StopRebase(TILL)])
  }

  // The machine where it stands while the till's rebase is at a version.
  ghost predicate RebasesAt(s: Shop, p: Point, version: nat) {
    && Ok(s) && s.server.db.products == MENU
    && Now(HistoryOf(s, 1)) == p.at
    && TillOf(s, TILL).queue == p.queue && TillOf(s, TILL).rebase == Some(version)
    && s.minted.Keys == p.ids && s.server.txs.Keys == p.txs && s.server.db.processed.Keys == p.done
  }

  // The till shows the order as it did, and no commit or id was forgotten.
  predicate Remembers(s: Shop, after: Shop) {
    && TillOf(after, TILL).shown == TillOf(s, TILL).shown
    && s.server.commits <= after.server.commits
    && (forall id <- s.minted :: id in after.minted && after.minted[id] == s.minted[id])
  }

  lemma {:induction false} Starts(s: Shop, p: Point)
    requires Stands(s, p) && !IsSendable(p.queue) && Held(TillOf(s, TILL).shown) == p.at.version
    ensures var after := Step(s, StartRebase(TILL)); RebasesAt(after, p, p.at.version) && Remembers(s, after)
  {
    hide Ok, IsSendable, Now;
    OkStep(s, StartRebase(TILL));
  }

  lemma {:induction false} Replaces(s: Shop, p: Point, version: nat, id: Id)
    requires RebasesAt(s, p, version) && p.queue != [] && id !in p.ids && !p.queue[0].command.CreateOrder?
    ensures var after := Step(s, Reissue(TILL, id));
      && RebasesAt(after, p.(queue := [ReissuedRow(p.queue[0], id, version)] + p.queue[1..], ids := p.ids + {id}), version)
      && Remembers(s, after) && id in after.minted && after.minted[id] == OriginOf(s, p.queue[0].mutationId)
  {
    hide Ok, IsSendable, Now;
    OkStep(s, Reissue(TILL, id));
  }

  lemma {:induction false} Resends(s: Shop, p: Point, version: nat)
    requires RebasesAt(s, p, version) && p.queue != [] && p.queue[0].status == Pending && p.queue[0].baseVersion <= p.at.version
    ensures var after := Step(s, PostReissued(TILL)); var input := RequestOf(p.queue[0]);
      && RebasesAt(after, p, version) && Remembers(s, after)
      && input.mutationId in after.posted && after.posted[input.mutationId] == input
  {
    hide Ok, IsSendable;
    NowVersion(s, TILL);
    hide Now;
    OkStep(s, PostReissued(TILL));
  }

  lemma {:induction false} IsApplied(s: Shop, p: Point, version: nat, t: Id)
    requires RebasesAt(s, p, version) && p.queue != [] && t !in p.txs
    requires var input := RequestOf(p.queue[0]);
      && input.orderId == 1 && input.mutationId in s.posted && s.posted[input.mutationId] == input
      && !Hopeless(MENU, p.at, input) && React(p.at.shape, input.command).Moves?
      && input.baseVersion == p.at.version && input.mutationId !in p.done
    ensures var input := RequestOf(p.queue[0]); var after := RunFrom(s, Serving(t, input));
      && RebasesAt(after, p.(at := Next(p.at, input), txs := p.txs + {t}, done := p.done + {input.mutationId}), version)
      && Remembers(s, after) && input in after.server.commits
  {
    hide Ok, Hopeless, React, Next, Serving, RunFrom;
    NowVersion(s, TILL);
    hide Now;
    Commits(s, t, RequestOf(p.queue[0]));
  }

  lemma {:induction false} Stops(s: Shop, p: Point, version: nat)
    requires RebasesAt(s, p, version)
    ensures var after := Step(s, StopRebase(TILL)); Stands(after, p) && Remembers(s, after)
  {
    hide Ok, Now;
    OkStep(s, StopRebase(TILL));
  }

  // A rebase that is cut off after its first request: it was applied, under an id of the same intent.
  lemma {:induction false} TurnIsLost(s: Shop, p: Point, id: Id, t: Id)
    requires Stands(s, p) && p.queue != [] && !IsSendable(p.queue) && Held(TillOf(s, TILL).shown) == p.at.version
    requires id !in p.ids && id !in p.done && t !in p.txs && p.queue[0].orderId == 1 && p.queue[0].mutationId in s.minted
    requires var row := ReissuedRow(p.queue[0], id, p.at.version);
      && !row.command.CreateOrder? && !Hopeless(MENU, p.at, RequestOf(row)) && React(p.at.shape, row.command).Moves?
    ensures var row := ReissuedRow(p.queue[0], id, p.at.version);
      var after := RunFrom(s, LostTurn(id, t, RequestOf(row)));
      && Stands(after, Point(Next(p.at, RequestOf(row)), [row] + p.queue[1..], p.ids + {id}, p.txs + {t}, p.done + {id}))
      && Remembers(s, after) && RequestOf(row) in after.server.commits
      && id in after.minted && after.minted[id] == OriginOf(s, p.queue[0].mutationId)
  {
    hide Stands, RebasesAt, IsSendable, Hopeless, React, Next, Step, Serving, RunFrom, Ok, SoundRunFrom;
    var version, row := p.at.version, ReissuedRow(p.queue[0], id, p.at.version);
    Starts(s, p);
    var s1 := Step(s, StartRebase(TILL));
    Replaces(s1, p, version, id);
    var s2 := Step(s1, Reissue(TILL, id));
    var p2 := p.(queue := [row] + p.queue[1..], ids := p.ids + {id});
    Resends(s2, p2, version);
    var s3 := Step(s2, PostReissued(TILL));
    IsApplied(s3, p2, version, t);
    var s4 := RunFrom(s3, Serving(t, RequestOf(row)));
    var p4 := p2.(at := Next(p.at, RequestOf(row)), txs := p.txs + {t}, done := p.done + {id});
    Stops(s4, p4, version);
    TurnRuns(s, id, t, RequestOf(row));
  }

  lemma TurnRuns(s: Shop, id: Id, t: Id, input: MutationInput)
    ensures RunFrom(s, LostTurn(id, t, input)) ==
      Step(RunFrom(Step(Step(Step(s, StartRebase(TILL)), Reissue(TILL, id)), PostReissued(TILL)), Serving(t, input)), StopRebase(TILL))
  {
    hide Step, Serving, SoundRunFrom, RunFrom;
    var s1 := Step(s, StartRebase(TILL));
    var s2 := Step(s1, Reissue(TILL, id));
    var s3 := Step(s2, PostReissued(TILL));
    var s4 := RunFrom(s3, Serving(t, input));
    RunOne(s, StartRebase(TILL));
    RunOne(s1, Reissue(TILL, id));
    RunOne(s2, PostReissued(TILL));
    RunOne(s4, StopRebase(TILL));
    RunConcat(s, [StartRebase(TILL)], [Reissue(TILL, id)]);
    RunConcat(s, [StartRebase(TILL)] + [Reissue(TILL, id)], [PostReissued(TILL)] + Serving(t, input) + [StopRebase(TILL)]);
    RunConcat(s2, [PostReissued(TILL)], Serving(t, input));
    RunConcat(s2, [PostReissued(TILL)] + Serving(t, input), [StopRebase(TILL)]);
  }

  /* ---- a refusal ---- */

  function Refusing(t: Id, input: MutationInput): seq<Move> {
    Serving(t, input) + [Serve(Transactions.Advance(t)), Serve(Transactions.Advance(t)), Serve(Transactions.Advance(t))]
  }

  // A change whose version is not the order's, once it has been decided that it would apply.
  predicate ComesLate(db: Db, input: MutationInput) {
    && !input.command.CreateOrder? && input.orderId in db.orders && db.orders[input.orderId].version != input.baseVersion
    && input.mutationId !in db.processed
    && db.orders[input.orderId].restaurantId == input.restaurantId
    && Decide(Load(db, input.orderId), input.command).Apply?
  }

  function RefusalOf(db: Db, input: MutationInput): Transactions.Tx
    requires input.orderId in db.orders
  {
    Transactions.Answered(input, ConflictReply(OrderVersionConflict, input.baseVersion, Load(db, input.orderId).value))
  }

  lemma RefusalSteps(db: Db, input: MutationInput)
    requires ComesLate(db, input)
    ensures Decided(db, input).Writing?
    ensures var row := db.orders[input.orderId];
      && Transactions.Progress(db, Decided(db, input)) ==
           Transactions.Effect(db, Transactions.Rejecting(input, Refuse(OrderVersionConflict)), [])
      && Transactions.Progress(db, Transactions.Rejecting(input, Refuse(OrderVersionConflict))) ==
           Transactions.Effect(db, Transactions.Refusing(input, OrderVersionConflict), [])
      && Transactions.Progress(db, Transactions.Refusing(input, OrderVersionConflict)) ==
           Transactions.Effect(db, Transactions.RowShown(input, OrderVersionConflict, row), [])
      && Transactions.Progress(db, Transactions.RowShown(input, OrderVersionConflict, row)) ==
           Transactions.Effect(db, RefusalOf(db, input), [])
  {
    hide Decide;
  }

  lemma Refuses(s: Shop, t: Id, input: MutationInput)
    requires t !in s.server.txs && ValidInput(input) && ComesLate(s.server.db, input)
    requires input.mutationId in s.posted && s.posted[input.mutationId] == input
    ensures RunFrom(s, Refusing(t, input)) == WithTx(s, t, RefusalOf(s.server.db, input))
  {
    var db, advance := s.server.db, Serve(Transactions.Advance(t));
    var row := db.orders[input.orderId];
    RefusalSteps(db, input);
    hide Step, Load, WithTx, ValidInput, Transactions.Progress, Decided, Serving, RefusalOf, ComesLate;
    ServingEnds(s, t, input);
    ReadOnce(s, t, Decided(db, input), Transactions.Rejecting(input, Refuse(OrderVersionConflict)));
    ReadOnce(s, t, Transactions.Rejecting(input, Refuse(OrderVersionConflict)), Transactions.Refusing(input, OrderVersionConflict));
    ReadOnce(s, t, Transactions.Refusing(input, OrderVersionConflict), Transactions.RowShown(input, OrderVersionConflict, row));
    ReadOnce(s, t, Transactions.RowShown(input, OrderVersionConflict, row), RefusalOf(db, input));
    RunNext(s, Serving(t, input), advance);
    RunNext(s, Serving(t, input) + [advance], advance);
    RunNext(s, Serving(t, input) + [advance] + [advance], advance);
    assert Refusing(t, input) == Serving(t, input) + [advance] + [advance] + [advance];
  }

  // The head is sent, refused and halted, and the till shows the order as it stands.
  function Refused(t: Id, input: MutationInput, version: nat): seq<Move> {
    [Post(TILL)] + (Refusing(t, input) + [Halt(TILL)]) + [Show(TILL, version, version)]
  }

  lemma {:induction false} PostsHead(s: Shop, p: Point)
    requires Stands(s, p) && p.queue != [] && IsSendable(p.queue) && p.queue[0].baseVersion <= p.at.version
    ensures var after := RunFrom(s, [Post(TILL)]); var input := RequestOf(p.queue[0]);
      && Stands(after, p) && Remembers(s, after)
      && input.mutationId in after.posted && after.posted[input.mutationId] == input
  {
    hide Ok, IsSendable, RunFrom, SoundRunFrom;
    NowVersion(s, TILL);
    hide Now;
    Posts(s, TILL);
  }

  lemma {:induction false} IsRefusedNow(s: Shop, p: Point, t: Id)
    requires Stands(s, p) && p.queue != [] && t !in p.txs && p.queue[0].orderId == 1
    requires var input := RequestOf(p.queue[0]);
      && input.mutationId in s.posted && s.posted[input.mutationId] == input && ValidInput(input)
      && ComesLate(s.server.db, input)
    ensures var input := RequestOf(p.queue[0]); var after := RunFrom(s, Refusing(t, input));
      && Stands(after, p.(txs := p.txs + {t})) && Remembers(s, after) && IsRefused(after, t, p.queue[0].mutationId)
  {
    hide Ok, RunFrom, SoundRunFrom, Now, ComesLate, Load, Serving, Step, ValidInput;
    var input := RequestOf(p.queue[0]);
    assert 1 in s.server.db.orders by { OrderIsThere(s, input); }
    Refuses(s, t, input);
    OkRun(s, Refusing(t, input)) by { NothingSentRefusing(t, input); }
  }

  lemma OrderIsThere(s: Shop, input: MutationInput)
    requires ComesLate(s.server.db, input)
    ensures input.orderId in s.server.db.orders
  {
  }

  lemma NothingSentRefusing(t: Id, input: MutationInput)
    ensures SendsNothing(Refusing(t, input))
  {
  }

  lemma {:induction false} HaltsNow(s: Shop, p: Point)
    requires Stands(s, p) && p.queue != []
    ensures var after := RunFrom(s, [Halt(TILL)]); Stands(after, p.(queue := Halted(p.queue))) && Remembers(s, after)
  {
    hide Ok, Now, Halted, RunFrom, SoundRunFrom;
    OkStep(s, Halt(TILL));
    RunOne(s, Halt(TILL));
  }

  /* ---- guarded runs ---- */

  lemma {:induction false} GuardedConcat(s: Shop, first: seq<Move>, then': seq<Move>)
    requires GuardedRunFrom(s, first) && GuardedRunFrom(RunFrom(s, first), then')
    ensures GuardedRunFrom(s, first + then')
    decreases |then'|
  {
    hide Step, IsGuarded;
    if then' == [] {
      assert first + then' == first;
    } else {
      var shorter := then'[..|then'| - 1];
      assert (first + then')[..|first + then'| - 1] == first + shorter;
      GuardedConcat(s, first, shorter);
      RunConcat(s, first, shorter);
    }
  }

  lemma GuardedOne(s: Shop, move: Move)
    requires IsGuarded(s, move)
    ensures GuardedRunFrom(s, [move])
  {
    hide IsGuarded;
    assert [move][..0] == [];
  }

  predicate NeedsNoGuard(moves: seq<Move>) {
    forall i :: 0 <= i < |moves| ==> !moves[i].Halt? && !moves[i].Reissue?
  }

  lemma {:induction false} UnguardedMoves(s: Shop, moves: seq<Move>)
    requires NeedsNoGuard(moves)
    ensures GuardedRunFrom(s, moves)
  {
    hide Step;
    if moves != [] { UnguardedMoves(s, moves[..|moves| - 1]); }
  }

  lemma PlainMoves(k: Key, t: Id, input: MutationInput, version: nat)
    ensures NeedsNoGuard(Round(k, t, input, version)) && NeedsNoGuard(Refusing(t, input)) && NeedsNoGuard(Serving(t, input))
  {
  }

  lemma PlainParts()
    ensures NeedsNoGuard(TeaOrdered()) && NeedsNoGuard(TwoTaps()) && NeedsNoGuard(TeaRemoved())
  {
    PlainMoves(TILL, 1, RequestOf(RowFor(10, 0, CreateOrder("7"))), 1);
    PlainMoves(TILL, 2, RequestOf(RowFor(11, 1, AddItem(5, 1))), 2);
    PlainMoves(OTHER, 3, RequestOf(JoinedRow(OTHER, 20, 7, RemoveItem(5), 2)), 3);
    hide Round, RowFor, RequestOf, JoinedRow;
  }

  lemma TurnIsGuarded(s: Shop, id: Id, t: Id, input: MutationInput)
    requires TillOf(s, TILL).queue != [] ==> IsOnHold(TillOf(s, TILL).queue[0])
    ensures GuardedRunFrom(s, LostTurn(id, t, input))
  {
    hide Step, Serving, GuardedRunFrom, RunFrom, SoundRunFrom;
    var s1 := Step(s, StartRebase(TILL));
    StartKeepsRows(s);
    RunOne(s, StartRebase(TILL));
    GuardedOne(s, StartRebase(TILL));
    GuardedOne(s1, Reissue(TILL, id));
    GuardedConcat(s, [StartRebase(TILL)], [Reissue(TILL, id)]);
    var rest := [PostReissued(TILL)] + Serving(t, input) + [StopRebase(TILL)];
    PlainMoves(TILL, t, input, 0);
    UnguardedMoves(RunFrom(s, [StartRebase(TILL)] + [Reissue(TILL, id)]), rest);
    GuardedConcat(s, [StartRebase(TILL)] + [Reissue(TILL, id)], rest);
  }

  lemma StartKeepsRows(s: Shop)
    ensures TillOf(Step(s, StartRebase(TILL)), TILL).queue == TillOf(s, TILL).queue
  {
    hide IsSendable;
  }

  /* ---- the run ---- */

  const TEA := AddItem(5, 1)

  function TwoTaps(): seq<Move> {
    [Show(TILL, 2, 2)] + Stages(12, TEA) + Stages(13, TEA)
  }

  function TeaRow(id: Id, version: nat): Row {
    RowFor(id, version, TEA)
  }

  // The first rebase, then the order as it stands is shown.
  function SentAgain(): seq<Move> {
    LostTurn(14, 5, RequestOf(TeaRow(14, 3))) + [Show(TILL, 4, 4)]
  }

  // Everything up to the second rebase.
  function UntilSecondRebase(): seq<Move> {
    TeaOrdered() + TwoTaps() + TeaRemoved() + Refused(4, RequestOf(TeaRow(12, 2)), 3) + SentAgain()
  }

  function TwiceRun(): seq<Move> {
    UntilSecondRebase() + LostTurn(15, 6, RequestOf(TeaRow(15, 4)))
  }

  function Tapped(): seq<Row> {
    [TeaRow(12, 2), TeaRow(13, 3)]
  }

  function AfterTaps(): Point {
    ORDERED.(queue := Tapped(), ids := ORDERED.ids + {12} + {13})
  }

  function AfterRemoval(): Point {
    AfterTaps().(at := Tea(3, {}), ids := AfterTaps().ids + {20}, txs := {1, 2} + {3}, done := {10, 11} + {20})
  }

  function AfterRefusal(): Point {
    AfterRemoval().(queue := Halted(Tapped()), txs := AfterRemoval().txs + {4})
  }

  function Follower(): seq<Row> {
    [TeaRow(13, 3).(status := Blocked)]
  }

  function AfterFirst(): Point {
    Point(Tea(4, {5}), [TeaRow(14, 3)] + Follower(), AfterRefusal().ids + {14}, AfterRefusal().txs + {5}, AfterRefusal().done + {14})
  }

  lemma TeaReactions()
    ensures !Hopeless(MENU, Tea(3, {}), RequestOf(TeaRow(14, 3))) && React(Tea(3, {}).shape, TEA).Moves?
    ensures Next(Tea(3, {}), RequestOf(TeaRow(14, 3))) == Tea(4, {5})
    ensures !Hopeless(MENU, Tea(4, {5}), RequestOf(TeaRow(15, 4))) && React(Tea(4, {5}).shape, TEA).Moves?
  {
    assert {} + {5} == {5} && {5} + {5} == {5};
  }

  lemma LabelOfTaps(shown: Option<Snapshot>)
    requires Shows(shown, 2, Tea(2, {5}).shape)
    ensures Label(Held(shown), ShapeOf(shown), []) == 2 && Label(Held(shown), ShapeOf(shown), [TeaRow(12, 2)]) == 3
  {
    var row := TeaRow(12, 2);
    assert [row][1..] == [];
    assert Label(3, After(ShapeOf(shown), row.command), []) == 3;
  }

  lemma {:induction false} Taps(s: Shop)
    requires Stands(s, ORDERED) && Held(TillOf(s, TILL).shown) == 1 && TillOf(s, OTHER) == EMPTY_TILL
    ensures var after := RunFrom(s, TwoTaps());
      && Stands(after, AfterTaps()) && TillOf(after, OTHER) == EMPTY_TILL && Held(TillOf(after, TILL).shown) == 2
  {
    hide Stands, RunFrom, Ok, Label, ShapeOf, SoundRunFrom, IsSendable;
    ShowsVersion(s, ORDERED);
    var shown := RunFrom(s, [Show(TILL, 2, 2)]);
    LabelOfTaps(TillOf(shown, TILL).shown);
    PendingIsSendable();
    StagesRow(shown, ORDERED, 12, TEA, 2);
    var first := RunFrom(shown, Stages(12, TEA));
    assert [] + [TeaRow(12, 2)] == [TeaRow(12, 2)];
    StagesRow(first, ORDERED.(queue := [TeaRow(12, 2)], ids := ORDERED.ids + {12}), 13, TEA, 3);
    assert [TeaRow(12, 2)] + [TeaRow(13, 3)] == Tapped();
    RunConcat(s, [Show(TILL, 2, 2)], Stages(12, TEA));
    RunConcat(s, [Show(TILL, 2, 2)] + Stages(12, TEA), Stages(13, TEA));
  }

  lemma PendingIsSendable()
    ensures IsSendable([]) && IsSendable([TeaRow(12, 2)]) && IsSendable(Tapped())
  {
  }

  lemma {:induction false} RemovesBehind(s: Shop)
    requires Stands(s, AfterTaps()) && TillOf(s, OTHER) == EMPTY_TILL
    ensures var after := RunFrom(s, TeaRemoved()); Stands(after, AfterRemoval()) && TillOf(after, TILL) == TillOf(s, TILL)
  {
    hide Stands, RunFrom, Round, Joining, Hopeless, Next, React, Ok;
    Reactions();
    OtherCommits(s, AfterTaps(), 20, RemoveItem(5), 3);
  }

  lemma OrderStands(s: Shop, p: Point)
    requires Stands(s, p)
    ensures StandingOf(s.server.db, 1) == p.at && s.server.db.processed.Keys == p.done
  {
    hide ExactlyOnce.IdsOk, HistoryOk, Now, StandingOf, TillOk, Transactions.SysOk, PostedOk, TxPosted;
    assert HistoryOk(s.server.db, HistoryOf(s, 1), 1);
    LastIsLoaded(s.server.db, HistoryOf(s, 1), 1);
  }

  lemma TeaComesLate(db: Db)
    requires StandingOf(db, 1) == Tea(3, {}) && 12 !in db.processed
    ensures ComesLate(db, RequestOf(TeaRow(12, 2)))
  {
    ReactIsDecide(Load(db, 1), TEA);
    hide Decide;
  }

  lemma {:induction false} FirstIsRefused(s: Shop)
    requires Stands(s, AfterRemoval()) && Held(TillOf(s, TILL).shown) == 2
    ensures var moves := Refused(4, RequestOf(TeaRow(12, 2)), 3); var after := RunFrom(s, moves);
      && Stands(after, AfterRefusal()) && Held(TillOf(after, TILL).shown) == 3 && GuardedRunFrom(s, moves)
  {
    hide RunFrom, Ok, SoundRunFrom, Now, ComesLate, Stands, Refusing, GuardedRunFrom, Halted, IsSendable, IsGuarded, IsRefused, Remembers;
    var p, input := AfterRemoval(), RequestOf(TeaRow(12, 2));
    PendingIsSendable();
    PostsHead(s, p);
    var s1 := RunFrom(s, [Post(TILL)]);
    OrderStands(s1, p);
    TeaComesLate(s1.server.db);
    IsRefusedNow(s1, p, 4);
    var s2 := RunFrom(s1, Refusing(4, input));
    HaltsNow(s2, p.(txs := p.txs + {4}));
    var s3 := RunFrom(s2, [Halt(TILL)]);
    QueueStands(s2, p.(txs := p.txs + {4}));
    assert Held(TillOf(s3, TILL).shown) == 2 by { ShownIsKept(s, s1); ShownIsKept(s1, s2); ShownIsKept(s2, s3); }
    ShowsVersion(s3, AfterRefusal());
    RefusedRuns(s, s1, s2, s3, input, p);
  }

  lemma ShownIsKept(s: Shop, after: Shop)
    requires Remembers(s, after)
    ensures TillOf(after, TILL).shown == TillOf(s, TILL).shown
  {
  }

  lemma {:induction false} RefusedRuns(s: Shop, s1: Shop, s2: Shop, s3: Shop, input: MutationInput, p: Point)
    requires s1 == RunFrom(s, [Post(TILL)]) && s2 == RunFrom(s1, Refusing(4, input)) && s3 == RunFrom(s2, [Halt(TILL)])
    requires TillOf(s2, TILL).queue != [] && IsRefused(s2, 4, TillOf(s2, TILL).queue[0].mutationId)
    ensures RunFrom(s, Refused(4, input, 3)) == RunFrom(s3, [Show(TILL, 3, 3)]) && GuardedRunFrom(s, Refused(4, input, 3))
  {
    var post, halt, show := [Post(TILL)], [Halt(TILL)], [Show(TILL, 3, 3)];
    assert IsGuarded(s2, Halt(TILL));
    PlainMoves(TILL, 4, input, 0);
    hide RunFrom, SoundRunFrom, GuardedRunFrom, Refusing, IsGuarded, IsRefused;
    UnguardedMoves(s, post);
    UnguardedMoves(s1, Refusing(4, input));
    GuardedOne(s2, Halt(TILL));
    UnguardedMoves(s3, show);
    RunConcat(s1, Refusing(4, input), halt);
    RunConcat(s, post, Refusing(4, input) + halt);
    RunConcat(s, post + (Refusing(4, input) + halt), show);
    GuardedConcat(s1, Refusing(4, input), halt);
    GuardedConcat(s, post, Refusing(4, input) + halt);
    GuardedConcat(s, post + (Refusing(4, input) + halt), show);
  }

  lemma HaltedTaps()
    ensures Halted(Tapped()) == [TeaRow(12, 2).(status := ConflictRow)] + Follower()
    ensures ReissuedRow(Halted(Tapped())[0], 14, 3) == TeaRow(14, 3) && ReissuedRow(TeaRow(14, 3), 15, 4) == TeaRow(15, 4)
    ensures Halted(Tapped())[1..] == Follower()
    ensures !IsSendable(Halted(Tapped())) && !IsSendable([TeaRow(14, 3)] + Follower())
    ensures IsOnHold(Halted(Tapped())[0])
  {
    var halted, stuck := Halted(Tapped()), [TeaRow(14, 3)] + Follower();
    assert halted[0] in halted && stuck[1] in stuck;
  }

  lemma RowIsMinted(s: Shop, p: Point)
    requires Stands(s, p) && p.queue != []
    ensures p.queue[0].mutationId in s.minted && s.minted[p.queue[0].mutationId].Intent? && s.minted[p.queue[0].mutationId].k == TILL
  {
    hide Ok, Now;
    HeadIsRow(s, TILL);
  }

  lemma {:induction false} FirstRebase(s: Shop)
    requires Stands(s, AfterRefusal()) && Held(TillOf(s, TILL).shown) == 3
    ensures var after := RunFrom(s, SentAgain());
      && Stands(after, AfterFirst()) && Held(TillOf(after, TILL).shown) == 4
      && RequestOf(TeaRow(14, 3)) in after.server.commits && 14 in after.minted && after.minted[14].Intent? && after.minted[14].k == TILL
    ensures GuardedRunFrom(s, SentAgain())
  {
    hide RunFrom, Ok, SoundRunFrom, Now, Stands, GuardedRunFrom, Halted, IsSendable, Hopeless, React, Next, LostTurn, Remembers;
    HaltedTaps();
    TeaReactions();
    var turn := LostTurn(14, 5, RequestOf(TeaRow(14, 3)));
    RowIsMinted(s, AfterRefusal());
    TurnIsLost(s, AfterRefusal(), 14, 5);
    var lost := RunFrom(s, turn);
    ShownIsKept(s, lost);
    ShowsVersion(lost, AfterFirst());
    ShowKeepsServer(lost, 4);
    RunConcat(s, turn, [Show(TILL, 4, 4)]);
    assert TillOf(s, TILL).queue == AfterRefusal().queue by { QueueStands(s, AfterRefusal()); }
    TurnIsGuarded(s, 14, 5, RequestOf(TeaRow(14, 3)));
    UnguardedMoves(lost, [Show(TILL, 4, 4)]);
    GuardedConcat(s, turn, [Show(TILL, 4, 4)]);
  }

  lemma QueueStands(s: Shop, p: Point)
    requires Stands(s, p)
    ensures TillOf(s, TILL).queue == p.queue
  {
  }

  lemma ShowKeepsServer(s: Shop, version: nat)
    ensures var after := RunFrom(s, [Show(TILL, version, version)]); after.server == s.server && after.minted == s.minted
  {
    hide Seen, RunFrom, SoundRunFrom;
    RunOne(s, Show(TILL, version, version));
  }

  lemma {:induction false} SecondRebase(s: Shop)
    requires Stands(s, AfterFirst()) && Held(TillOf(s, TILL).shown) == 4
    requires RequestOf(TeaRow(14, 3)) in s.server.commits && 14 in s.minted && s.minted[14].Intent? && s.minted[14].k == TILL
    ensures var after := RunFrom(s, LostTurn(15, 6, RequestOf(TeaRow(15, 4))));
      && RequestOf(TeaRow(14, 3)) in after.server.commits && RequestOf(TeaRow(15, 4)) in after.server.commits
      && 14 in after.minted && 15 in after.minted && after.minted[15] == after.minted[14] == s.minted[14]
      && NoneAhead(after)
  {
    hide RunFrom, Ok, SoundRunFrom, Now, Stands, IsSendable, Hopeless, React, Next, LostTurn, NoneAhead;
    HaltedTaps();
    TeaReactions();
    TurnIsLost(s, AfterFirst(), 15, 6);
    var after := RunFrom(s, LostTurn(15, 6, RequestOf(TeaRow(15, 4))));
    assert ShopOk(after) by {
      StandsIsOk(after, Point(Next(Tea(4, {5}), RequestOf(TeaRow(15, 4))), [TeaRow(15, 4)] + AfterFirst().queue[1..],
                              AfterFirst().ids + {15}, AfterFirst().txs + {6}, AfterFirst().done + {15}));
    }
    NoneIsAhead(after);
  }

  lemma StandsIsOk(s: Shop, p: Point)
    requires Stands(s, p)
    ensures ShopOk(s)
  {
    hide ShopOk;
  }

  /**
   One tap, two teas: with no request ahead, and every move guarded but the second rebase's, two ids of one
   intent are committed.
   */
  lemma {:induction false} OneTapTwice()
    ensures var s := Run(MENU, TwiceRun());
      && GuardedRunFrom(Opening(MENU), UntilSecondRebase()) && NoneAhead(s)
      && MutationInput(1, 14, 1, 7, 3, AddItem(5, 1)) in s.server.commits
      && MutationInput(1, 15, 1, 7, 4, AddItem(5, 1)) in s.server.commits
      && 14 in s.minted && s.minted[14].Intent? && OriginOf(s, 15) == s.minted[14]
  {
    hide RunFrom, SoundRunFrom, Stands, GuardedRunFrom, TeaOrdered, TwoTaps, TeaRemoved, Refused, SentAgain, LostTurn, NoneAhead;
    var s := Opening(MENU);
    Orders();
    var s1 := Run(MENU, TeaOrdered());
    Taps(s1);
    var s2 := RunFrom(s1, TwoTaps());
    RemovesBehind(s2);
    var s3 := RunFrom(s2, TeaRemoved());
    FirstIsRefused(s3);
    var refusal := Refused(4, RequestOf(TeaRow(12, 2)), 3);
    var s4 := RunFrom(s3, refusal);
    FirstRebase(s4);
    var s5 := RunFrom(s4, SentAgain());
    SecondRebase(s5);
    RunConcat(s, TeaOrdered(), TwoTaps());
    RunConcat(s, TeaOrdered() + TwoTaps(), TeaRemoved());
    RunConcat(s, TeaOrdered() + TwoTaps() + TeaRemoved(), refusal);
    RunConcat(s, TeaOrdered() + TwoTaps() + TeaRemoved() + refusal, SentAgain());
    RunConcat(s, UntilSecondRebase(), LostTurn(15, 6, RequestOf(TeaRow(15, 4))));
    UntilThenIsGuarded(s, s3, s4, refusal);
  }

  lemma {:induction false} UntilThenIsGuarded(s: Shop, s3: Shop, s4: Shop, refusal: seq<Move>)
    requires s3 == RunFrom(s, TeaOrdered() + TwoTaps() + TeaRemoved()) && s4 == RunFrom(s, TeaOrdered() + TwoTaps() + TeaRemoved() + refusal)
    requires GuardedRunFrom(s3, refusal) && GuardedRunFrom(s4, SentAgain())
    ensures GuardedRunFrom(s, TeaOrdered() + TwoTaps() + TeaRemoved() + refusal + SentAgain())
  {
    hide RunFrom, GuardedRunFrom, TeaOrdered, TwoTaps, TeaRemoved, SentAgain;
    PlainParts();
    UnguardedMoves(s, TeaOrdered() + TwoTaps() + TeaRemoved());
    GuardedConcat(s, TeaOrdered() + TwoTaps() + TeaRemoved(), refusal);
    GuardedConcat(s, TeaOrdered() + TwoTaps() + TeaRemoved() + refusal, SentAgain());
  }

  /* ---- what the guard is for ---- */

  lemma NotBlockedIsReady(db: Db, history: seq<Version>, input: MutationInput)
    requires HistoryOk(db, history, input.orderId) && !Refusals.IsBlocked(db, input) && input.baseVersion <= |history|
    ensures !Hopeless(db.products, Now(history), input) && React(Now(history).shape, input.command).Moves?
    ensures input.baseVersion == |history|
  {
    LastIsLoaded(db, history, input.orderId);
    if input.orderId in db.orders || input.command.CreateOrder? { ReactIsDecide(Load(db, input.orderId), input.command); }
    hide Decide, HistoryOk, Now;
  }

  // Nothing that goes out is ahead when it does.
  predicate SoundSends(s: Shop, moves: seq<Move>) {
    moves == [] || (SoundSends(s, moves[..|moves| - 1]) && SendsInTime(RunFrom(s, moves[..|moves| - 1]), moves[|moves| - 1]))
  }

  // In some continuation the request has been applied.
  ghost predicate MayBeApplied(s: Shop, input: MutationInput) {
    exists more: seq<Move> :: SoundSends(s, more) && input in RunFrom(s, more).server.commits
  }

  // A request that is out and not over is applied in some continuation, if it has not been applied already.
  lemma {:induction false} LiveMayBeApplied(s: Shop, id: Id, t: Id)
    requires Ok(s) && id in s.posted && !IsDone(s, id) && t !in s.server.txs
    ensures MayBeApplied(s, s.posted[id])
  {
    var input := s.posted[id];
    if input in s.server.commits {
      assert SoundSends(s, []) && input in RunFrom(s, []).server.commits;
    } else {
      hide Refusals.IsBlocked, TillOk, TxPosted, ExactlyOnce.IdsOk, Transactions.SysOk, MayBeApplied;
      assert PostedOk(s, id) && HistoryOk(s.server.db, HistoryOf(s, input.orderId), input.orderId);
      hide Ok, HistoryOk, Hopeless, React, Now, RunFrom, Serving;
      NotBlockedIsReady(s.server.db, HistoryOf(s, input.orderId), input);
      Commits(s, t, input);
      ServingSends(s, t, input);
      AppliedBy(s, Serving(t, input), input);
    }
  }

  lemma AppliedBy(s: Shop, more: seq<Move>, input: MutationInput)
    requires SoundSends(s, more) && input in RunFrom(s, more).server.commits
    ensures MayBeApplied(s, input)
  {
  }

  lemma {:induction false} ServingSends(s: Shop, t: Id, input: MutationInput)
    ensures SoundSends(s, Serving(t, input))
  {
    assert SendsNothing(Serving(t, input));
    hide Serving;
    QuietSends(s, Serving(t, input));
  }

  lemma {:induction false} QuietSends(s: Shop, moves: seq<Move>)
    requires SendsNothing(moves)
    ensures SoundSends(s, moves)
  {
    hide Step;
    if moves != [] { QuietSends(s, moves[..|moves| - 1]); }
  }

  lemma {:induction false} StaysOver(s: Shop, moves: seq<Move>, input: MutationInput)
    requires Ok(s) && SoundSends(s, moves) && Refusals.IsOver(s.server, input)
    ensures Ok(RunFrom(s, moves)) && Refusals.IsOver(RunFrom(s, moves).server, input)
  {
    hide Ok, Step, Refusals.IsOver, SendsInTime, Transactions.Step, Reaches;
    if moves != [] {
      var before, move := RunFrom(s, moves[..|moves| - 1]), moves[|moves| - 1];
      StaysOver(s, moves[..|moves| - 1], input);
      OkStep(before, move);
      ServerStep(before, move);
      if move.Serve? {
        assert Transactions.SysOk(before.server) by { OkServer(before); }
        Refusals.StepStaysOver(before.server, move.step, input);
      }
    }
  }

  lemma OkServer(s: Shop)
    requires Ok(s)
    ensures Transactions.SysOk(s.server)
  {
    hide ExactlyOnce.IdsOk, Transactions.SysOk;
  }

  lemma {:induction false} DoneIsNotApplied(s: Shop, id: Id)
    requires Ok(s) && id in s.posted && IsDone(s, id)
    ensures !MayBeApplied(s, s.posted[id])
  {
    hide Ok, RunFrom, SoundSends;
    forall more: seq<Move> | SoundSends(s, more) ensures s.posted[id] !in RunFrom(s, more).server.commits {
      StaysOver(s, more, s.posted[id]);
    }
  }

  /**
   Exactly what a rebase has to know of a row it has sent: once the row has been replaced, its own request has
   been or may still be applied, if and only if the request is not over.
   */
  lemma {:induction false} ReplacedMayBeAppliedIff(s: Shop, k: Key, id: Id, t: Id)
    requires Ok(s) && TillOf(s, k).queue != [] && TillOf(s, k).queue[0].mutationId in s.posted && t !in s.server.txs
    ensures var was := TillOf(s, k).queue[0].mutationId;
      MayBeApplied(Step(s, Reissue(k, id)), s.posted[was]) <==> !IsDone(s, was)
  {
    hide *;
    var was, after := TillOf(s, k).queue[0].mutationId, Step(s, Reissue(k, id));
    ReissuePostsNothing(s, k, id);
    OkStep(s, Reissue(k, id));
    SameDone(s, after, was);
    if IsDone(s, was) { DoneIsNotApplied(after, was); } else { LiveMayBeApplied(after, was, t); }
  }

  lemma ReissuePostsNothing(s: Shop, k: Key, id: Id)
    ensures var after := Step(s, Reissue(k, id)); after.posted == s.posted && after.server == s.server
    ensures SendsInTime(s, Reissue(k, id))
  {
  }

  lemma SameDone(s: Shop, after: Shop, id: Id)
    requires after.posted == s.posted && after.server == s.server
    ensures IsDone(after, id) == IsDone(s, id)
  {
    hide Refusals.IsOver;
  }
}
