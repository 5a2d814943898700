/**
 What a till has to take care of so that every row it stamps leaves its queue sound: to stamp only when the
 version it shows is the one it has saved, and to start a rebase only then too.
 */
module CarefulTills {
  import opened Domain
  import opened ProjectQueue
  import opened Server
  import opened ServerInvariants
  import opened Chains
  import opened Reach
  import opened Views
  import opened QueueChain
  import opened Shops
  import opened TillRules
  import opened TillMoves
  import opened ServedRequests
  import opened NeverAhead
  import Kitchen
  import Transactions

  // Nothing is shown that a reload would lose when a row is stamped or a rebase begins, and nothing is
  // staged for an order while its rebase is running.
  predicate IsCareful(s: Shop, move: Move) {
    && (move.Stage? ==> Held(TillOf(s, move.k).shown) == Held(TillOf(s, move.k).saved) && TillOf(s, move.k).rebase.None?)
    && (move.StartRebase? ==> Held(TillOf(s, move.k).shown) <= Held(TillOf(s, move.k).saved))
  }

  predicate CarefulRunFrom(s: Shop, moves: seq<Move>) {
    moves == [] ||
    (CarefulRunFrom(s, moves[..|moves| - 1]) && IsCareful(RunFrom(s, moves[..|moves| - 1]), moves[|moves| - 1]))
  }

  predicate CareOk(products: map<Id, Product>, history: seq<Version>, result: Option<nat>, till: Till) {
    && (IsSendable(till.queue) ==> QueueOk(products, history, Held(till.saved), till.queue, result))
    && (till.rebase.Some? || !IsSendable(till.queue) ==> HaltOk(till.queue, Held(till.saved)))
    && (till.rebase.Some? && till.queue != [] ==> till.rebase.value <= Held(till.saved))
  }

  predicate TillCare(s: Shop, k: Key) {
    CareOk(s.server.db.products, HistoryOf(s, k.orderId), ResultOf(s.server.db.processed, TillOf(s, k).queue), TillOf(s, k))
  }

  ghost predicate AllCare(s: Shop) {
    forall k: Key :: TillCare(s, k)
  }

  lemma CareIsSound(s: Shop, k: Key)
    requires TillCare(s, k)
    ensures TillSound(s, k)
  {
    hide HaltOk;
    var till := TillOf(s, k);
    if IsSendable(till.queue) {
      hide QueueOk;
      QueueIsSound(s.server.db.products, HistoryOf(s, k.orderId), Held(till.saved), till.queue,
        ResultOf(s.server.db.processed, till.queue));
    }
  }

  /* ---- the server's moves ---- */

  lemma MadeKeepsCare(products: map<Id, Product>, history: seq<Version>, result: Option<nat>, till: Till, version: Version)
    requires GoodVersions(history) && CareOk(products, history, result, till)
    requires Reach.Ahead(Now(history), Now(history + [version]))
    ensures CareOk(products, history + [version], result, till)
  {
    hide QueueOk, GoodVersions, Reach.Ahead, Now;
    if IsSendable(till.queue) {
      CommitKeepsQueue(products, history, Held(till.saved), till.queue, result, version);
    }
  }

  lemma MadeByHead(products: map<Id, Product>, history: seq<Version>, till: Till, version: Version)
    requires GoodVersions(history) && CareOk(products, history, None, till) && till.queue != []
    requires !Hopeless(products, Now(history), RequestOf(till.queue[0]))
    requires till.queue[0].baseVersion == |history| && version.command == till.queue[0].command
    requires React(Now(history).shape, till.queue[0].command).Moves?
    requires Now(history + [version]) == Next(Now(history), RequestOf(till.queue[0]))
    ensures CareOk(products, history + [version], Some(|history| + 1), till)
  {
    hide QueueOk, GoodVersions, Hopeless, Now;
    if IsSendable(till.queue) {
      OwnCommitKeepsQueue(products, history, Held(till.saved), till.queue, version);
    }
  }

  lemma AcknowledgedHead(products: map<Id, Product>, history: seq<Version>, till: Till)
    requires GoodVersions(history) && CareOk(products, history, None, till) && till.queue != [] && history != []
    requires !Hopeless(products, Now(history), RequestOf(till.queue[0]))
    requires React(Now(history).shape, till.queue[0].command).Satisfied?
    ensures CareOk(products, history, Some(|history|), till)
  {
    hide QueueOk, GoodVersions, Hopeless, Now;
    if IsSendable(till.queue) {
      SettleKeepsQueue(products, history, Held(till.saved), till.queue);
    }
  }

  // A row of another order's queue is not the request that was served.
  lemma ElsewhereKeepsResult(s: Shop, k: Key, input: MutationInput, order: Snapshot)
    requires TillOk(s, k) && input.orderId != k.orderId
    requires input.mutationId in s.posted && s.posted[input.mutationId] == input
    ensures ResultOf(s.server.db.processed[input.mutationId := Processed(HashOf(input), input.terminalId, order)], TillOf(s, k).queue)
      == ResultOf(s.server.db.processed, TillOf(s, k).queue)
  {
    if TillOf(s, k).queue != [] { HeadInput(s, k, input); }
  }

  lemma GrownCare(s: Shop, after: Shop, input: MutationInput, order: Snapshot, k: Key)
    requires Grown(s, after, input, order) && TillOk(s, k) && TillCare(s, k)
    requires GoodVersions(HistoryOf(s, k.orderId))
    ensures TillCare(after, k)
  {
    var history, till := HistoryOf(s, k.orderId), TillOf(s, k);
    hide TillOk, OthersStay, Hopeless, Now, GoodVersions, CareOk, React;
    if k.orderId != input.orderId {
      ElsewhereKeepsResult(s, k, input, order);
    } else {
      MadeIsNext(s.server.db, after.server.db, history, input, order);
      if till.queue != [] && till.queue[0].mutationId == input.mutationId {
        HeadInput(s, k, input);
        MadeByHead(s.server.db.products, history, till, Version(order, input.command));
      } else {
        MadeKeepsCare(s.server.db.products, history, ResultOf(s.server.db.processed, till.queue), till, Version(order, input.command));
      }
    }
  }

  lemma NotedCare(s: Shop, after: Shop, input: MutationInput, k: Key)
    requires Noted(s, after, input) && TillOk(s, k) && TillCare(s, k)
    requires GoodVersions(HistoryOf(s, k.orderId))
    ensures TillCare(after, k)
  {
    hide TillOk, OthersStay, Hopeless, Now, GoodVersions, CareOk, React;
    var history, till := HistoryOf(s, k.orderId), TillOf(s, k);
    if k.orderId != input.orderId {
      ElsewhereKeepsResult(s, k, input, HistoryOf(s, input.orderId)[|HistoryOf(s, input.orderId)| - 1].order);
    } else if till.queue != [] && till.queue[0].mutationId == input.mutationId {
      HeadInput(s, k, input);
      AcknowledgedHead(s.server.db.products, history, till);
      LastVersion(history);
    }
  }

  lemma LastVersion(history: seq<Version>)
    requires GoodVersions(history) && history != []
    ensures history[|history| - 1].order.version == |history|
  {
    assert MadeAt(history, |history| - 1);
  }

  lemma {:induction false} ServedCare(s: Shop, after: Shop, input: MutationInput, order: Snapshot, k: Key)
    requires Served(s, after, input, order) && TillOk(s, k) && TillCare(s, k)
    requires GoodVersions(HistoryOf(s, k.orderId))
    ensures TillCare(after, k)
  {
    hide Grown, Noted, TillOk, GoodVersions;
    if Grown(s, after, input, order) {
      GrownCare(s, after, input, order, k);
    } else if Noted(s, after, input) {
      NotedCare(s, after, input, k);
    } else {
      hide CareOk;
    }
  }

  lemma {:induction false} ServeKeepsCare(s: Shop, step: Transactions.Move)
    requires ShopOk(s) && AllCare(s)
    ensures AllCare(ServeStep(s, step))
  {
    var after := ServeStep(s, step);
    if step.Advance? && step.t in s.server.txs {
      hide TillCare, Served, ServeStep, Transactions.Progress;
      var order := AdvanceIsServed(s, step.t);
      var input := s.server.txs[step.t].input;
      forall k: Key ensures TillCare(after, k) {
        PartsOf(s, k);
        ServedCare(s, after, input, order, k);
      }
    } else {
      hide CareOk, ShopOk;
      forall k: Key ensures TillCare(after, k) {
        assert TillCare(s, k);
      }
    }
  }

  /* ---- the till's moves ---- */

  // A till changes what it holds or what it has queued.
  lemma SameCare(s: Shop, after: Shop, k: Key)
    requires TillCare(s, k) && after.server == s.server && HistoryOf(after, k.orderId) == HistoryOf(s, k.orderId)
    requires var a, b := TillOf(s, k), TillOf(after, k); b.queue == a.queue && b.saved == a.saved && b.rebase == a.rebase
    ensures TillCare(after, k)
  {
    hide QueueOk, HaltOk;
  }

  lemma HaltOkLater(rows: seq<Row>, version: nat, later: nat)
    requires HaltOk(rows, version) && version <= later
    ensures HaltOk(rows, later)
  {
  }

  lemma {:induction false} SaveKeepsCare(s: Shop, k: Key, version: nat, lines: nat)
    requires ShopOk(s) && TillCare(s, k)
    ensures TillCare(SaveStep(s, k, version, lines), k)
  {
    hide ShopOk, QueueOk, HaltOk, GoodVersions, Seen;
    PartsOf(s, k);
    var till, history := TillOf(s, k), HistoryOf(s, k.orderId);
    if Arrives(s, k, till.saved, version, lines) {
      SeenIsView(history, version, lines);
      if IsSendable(till.queue) {
        LearnKeepsQueue(s.server.db.products, history, Held(till.saved), till.queue,
          ResultOf(s.server.db.processed, till.queue), version);
      }
      if till.rebase.Some? || !IsSendable(till.queue) { HaltOkLater(till.queue, Held(till.saved), version); }
    }
  }

  lemma ForgetKeepsCare(s: Shop, k: Key)
    requires TillCare(s, k)
    ensures TillCare(ForgetStep(s, k), k)
  {
  }

  // What is shown, read as a state of the order.
  lemma ShownIsSeen(history: seq<Version>, view: Option<Snapshot>) returns (lines: nat)
    requires GoodVersions(history) && IsView(history, view)
    ensures SeesFrom(history, Held(view), ShapeOf(view), lines)
  {
    lines := 0;
    if view.Some? {
      lines :| 0 <= lines <= |history| && SeenAt(history, view.value, lines);
    }
  }

  lemma {:induction false} StagedCare(s: Shop, k: Key, row: Row, menu: Menu)
    requires ShopOk(s) && TillCare(s, k) && IsSendable(TillOf(s, k).queue) && IsFresh(s, row.mutationId)
    requires row.status == Pending && TillOf(s, k).rebase.None?
    requires Held(TillOf(s, k).shown) == Held(TillOf(s, k).saved)
    requires row.baseVersion == NextBaseVersion(Project(TillOf(s, k).shown, TillOf(s, k).queue, menu))
    ensures TillCare(Staged(s, k, row), k)
  {
    hide ShopOk, QueueOk, GoodVersions, Project, Label, IsView, SeesFrom;
    var till, history := TillOf(s, k), HistoryOf(s, k.orderId);
    PartsOf(s, k);
    FreshIsUnposted(s, row.mutationId);
    var lines := ShownIsSeen(history, till.shown);
    ProjectionLabel(till.shown, till.queue, menu);
    StageKeepsQueue(s.server.db.products, history, Held(till.saved), till.queue,
      ResultOf(s.server.db.processed, till.queue), ShapeOf(till.shown), lines, row);
    assert till.queue != [] ==> (till.queue + [row])[0] == till.queue[0];
  }

  lemma {:induction false} StageKeepsCare(s: Shop, move: Move)
    requires move.Stage? && ShopOk(s) && TillCare(s, move.k) && IsCareful(s, move)
    ensures TillCare(Step(s, move), move.k)
  {
    hide ShopOk, IsSendable, Staged, StageStep, CareOk;
    var row := StageIsStaged(s, move.k, move.id, move.restaurantId, move.command, move.stamp, move.menu);
    if IsFresh(s, move.id) && IsSendable(TillOf(s, move.k).queue) {
      StagedCare(s, move.k, row, move.menu);
    }
  }

  lemma RestIsHalted(queue: seq<Row>, version: nat)
    requires HaltOk(queue, version) && queue != []
    ensures HaltOk(queue[1..], version)
    ensures IsSendable(queue[1..]) ==> queue[1..] == []
  {
    if |queue| > 1 { assert queue[1..][0] == queue[1] && queue[1] in queue[1..]; }
  }

  lemma {:induction false} DropKeepsCare(s: Shop, k: Key, t: Id)
    requires ShopOk(s) && TillCare(s, k)
    ensures TillCare(DropStep(s, k, t), k)
  {
    hide ShopOk, GoodVersions, IsSendable, HaltOk;
    PartsOf(s, k);
    var till, history := TillOf(s, k), HistoryOf(s, k.orderId);
    if till.queue != [] && IsSuccess(s, t, till.queue[0].mutationId) && s.server.txs[t].reply.order.version <= Held(till.saved) {
      SuccessIsStored(s, t, till.queue[0].mutationId);
      NextIsUnserved(s, k);
      ViewIsHeld(history, till.saved);
      if till.rebase.Some? || !IsSendable(till.queue) { RestIsHalted(till.queue, Held(till.saved)); }
      if IsSendable(till.queue) {
        RestIsSendable(till.queue);
        DropKeepsQueue(s.server.db.products, history, Held(till.saved), till.queue,
          ResultOf(s.server.db.processed, till.queue).value);
      }
    }
  }

  lemma RestIsSendable(queue: seq<Row>)
    requires IsSendable(queue) && queue != []
    ensures IsSendable(queue[1..])
  {
  }

  lemma HaltKeepsCare(s: Shop, k: Key)
    requires TillCare(s, k) && TillOf(s, k).queue != []
    ensures TillCare(HaltStep(s, k), k)
  {
    hide QueueOk;
    var halted := Halted(TillOf(s, k).queue);
    assert halted[0].status == ConflictRow && halted[0] in halted;
  }

  lemma EmptyIsCare(s: Shop, k: Key)
    requires ShopOk(s) && TillOf(s, k).queue == []
    ensures TillCare(s, k)
  {
    PartsOf(s, k);
    ViewIsHeld(HistoryOf(s, k.orderId), TillOf(s, k).saved);
  }

  // One re-issued row at a version that is held.
  lemma ReissuedAlone(products: map<Id, Product>, history: seq<Version>, held: nat, row: Row)
    requires GoodVersions(history) && held <= |history| && row.baseVersion <= held
    ensures QueueOk(products, history, held, [row], None)
  {
    var views := ViewsFrom(history, held);
    DriftOfViews(history, held);
    if held > 0 {
      forall i | 0 <= i < |views| ensures views[i].Present? {
        HistoryStep(history, held + i - 1);
      }
    }
    hide Drift, GoodVersions, Hopeless, Now, LeadTo, At;
    assert [row][1..] == [];
    InvalidUnlessKnown(products, Now(history), RequestOf(row));
    assert held > 0 ==> AllPresent(views);
    NothingIsSteady(products, Next(Now(history), RequestOf(row)), AfterAll(views, row.command));
  }

  lemma NothingIsSteady(products: map<Id, Product>, at: Standing, views: seq<Shape>)
    ensures Steady(products, at, views, [])
  {
  }

  lemma {:induction false} ReissueKeepsCare(s: Shop, k: Key, id: Id)
    requires ShopOk(s) && TillCare(s, k)
    ensures TillCare(ReissueStep(s, k, id), k)
  {
    hide ShopOk, QueueOk, GoodVersions;
    var till, history := TillOf(s, k), HistoryOf(s, k.orderId);
    PartsOf(s, k);
    FreshIsUnposted(s, id);
    ViewIsHeld(history, till.saved);
    if IsFresh(s, id) && till.rebase.Some? && till.queue != [] {
      var head := till.queue[0];
      var reissued := head.(mutationId := id, status := Pending,
                            baseVersion := if head.command.CreateOrder? then 0 else till.rebase.value);
      var rows := [reissued] + till.queue[1..];
      if |rows| == 1 {
        assert rows == [reissued];
        ReissuedAlone(s.server.db.products, history, Held(till.saved), reissued);
      } else {
        assert rows[1].status == Blocked && rows[1] in rows;
      }
    }
  }

  lemma RebaseKeepsCare(s: Shop, k: Key, t: Id)
    requires TillCare(s, k)
    ensures Held(TillOf(s, k).shown) <= Held(TillOf(s, k).saved) ==> TillCare(StartRebaseStep(s, k), k)
    ensures TillCare(CarryStep(s, k, t), k)
    ensures TillCare(WithTill(s, k, TillOf(s, k).(rebase := None)), k)
  {
    hide QueueOk, HaltOk, IsSendable, IsSuccess;
  }

  lemma {:induction false} OwnMoveKeepsCare(s: Shop, move: Move)
    requires !move.Serve? && ShopOk(s) && TillCare(s, move.k) && IsCareful(s, move)
    requires ShopOk(Step(s, move))
    ensures TillCare(Step(s, move), move.k)
  {
    hide ShopOk, CareOk;
    TillMovesLeaveOthers(s, move);
    if move.Save? {
      SaveKeepsCare(s, move.k, move.version, move.lines);
    } else if move.Forget? {
      ForgetKeepsCare(s, move.k);
    } else if move.Stage? {
      StageKeepsCare(s, move);
    } else if move.Drop? {
      DropKeepsCare(s, move.k, move.t);
    } else if move.Halt? {
      if TillOf(s, move.k).queue != [] { HaltKeepsCare(s, move.k); }
    } else if move.Discard? {
      EmptyIsCare(Step(s, move), move.k);
    } else if move.Reissue? {
      ReissueKeepsCare(s, move.k, move.id);
    } else if move.StartRebase? || move.StopRebase? {
      RebaseKeepsCare(s, move.k, 0);
    } else if move.Carry? {
      RebaseKeepsCare(s, move.k, move.t);
    } else {
      OtherMovesLeaveCare(s, move);
      SameCare(s, Step(s, move), move.k);
    }
  }

  lemma OtherMovesLeaveCare(s: Shop, move: Move)
    requires move.Show? || move.Reload? || move.Leave? || move.Post? || move.PostReissued? || move.PostFromKitchen?
    ensures var a, b := TillOf(s, move.k), TillOf(Step(s, move), move.k);
      b.queue == a.queue && b.saved == a.saved && b.rebase == a.rebase
  {
    hide Kitchen.ConsumeAll, IsSendable, Seen;
  }

  lemma {:induction false} StepKeepsCare(s: Shop, move: Move)
    requires ShopOk(s) && AllCare(s) && IsCareful(s, move)
    requires ShopOk(Step(s, move))
    ensures AllCare(Step(s, move))
  {
    hide ShopOk, Step, TillCare;
    if move.Serve? {
      ServeKeepsCare(s, move.step);
      assert Step(s, move) == ServeStep(s, move.step) by { ServeIsStep(s, move); }
    } else {
      var after := Step(s, move);
      TillMovesLeaveOthers(s, move);
      forall k: Key ensures TillCare(after, k) {
        assert TillCare(s, k);
        if k == move.k {
          OwnMoveKeepsCare(s, move);
        } else {
          OthersLeft(s, after, move.k, k);
          SameCare(s, after, k);
        }
      }
    }
  }

  lemma ServeIsStep(s: Shop, move: Move)
    requires move.Serve?
    ensures Step(s, move) == ServeStep(s, move.step)
  {
  }

  lemma CareKeepsSound(s: Shop)
    requires AllCare(s)
    ensures AllSound(s)
  {
    hide TillCare, TillSound;
    forall k: Key ensures TillSound(s, k) {
      CareIsSound(s, k);
    }
  }

  lemma {:induction false} CarefulStep(s: Shop, move: Move)
    requires ShopOk(s) && AllCare(s) && IsCareful(s, move)
    ensures ShopOk(Step(s, move)) && AllCare(Step(s, move))
    ensures StampsSoundly(s, move)
  {
    hide ShopOk, AllCare, AllSound, IsCareful;
    CareKeepsSound(s);
    SoundSendsInTime(s, move);
    StepKeepsShop(s, move);
    StepKeepsCare(s, move);
    CareKeepsSound(Step(s, move));
    assert StampsSoundly(s, move) by { SoundStamps(s, move); }
  }

  lemma SoundStamps(s: Shop, move: Move)
    requires AllSound(Step(s, move))
    ensures StampsSoundly(s, move)
  {
    hide Step, TillSound;
  }

  lemma OpeningIsCare(products: map<Id, Product>)
    ensures AllCare(Opening(products))
  {
    var s := Opening(products);
    forall k: Key ensures TillCare(s, k) {
      assert TillOf(s, k) == EMPTY_TILL;
    }
  }

  lemma {:induction false} CarefulRunIsOk(products: map<Id, Product>, moves: seq<Move>)
    requires CarefulRunFrom(Opening(products), moves)
    ensures ShopOk(Run(products, moves)) && AllCare(Run(products, moves))
    ensures SoundRunFrom(Opening(products), moves)
  {
    hide ShopOk, AllCare, StampsSoundly, IsCareful, Step;
    if moves == [] {
      OpeningIsOk(products);
      OpeningIsCare(products);
    } else {
      CarefulRunIsOk(products, moves[..|moves| - 1]);
      CarefulStep(Run(products, moves[..|moves| - 1]), moves[|moves| - 1]);
    }
  }

  /**
   Never ahead: with any number of tills and displays, lost answers, refusals, torn snapshots, discards,
   rebases and reloads, if each till stamps rows and starts rebases only while the version it shows is the
   one it has saved, no request on its way carries a version its order has not reached; and at every point
   the database is the one that taking the effective requests one at a time produces.
   */
  lemma {:induction false} NoRequestIsAhead(products: map<Id, Product>, moves: seq<Move>)
    requires CarefulRunFrom(Opening(products), moves)
    ensures NoneAhead(Run(products, moves)) && Serialised(products, moves)
  {
    hide ShopOk, AllCare, NoneAhead, Serialised, SoundRunFrom;
    CarefulRunIsOk(products, moves);
    SoundStampsAreNeverAhead(products, moves);
  }
}
