/**
 The other half of never-ahead: a row stamped higher than its queue can reach does get ahead of its order
 in some continuation, so leaving the queue sound is exactly what a till must do.
 */
module Overtaking {
  import opened Domain
  import opened ProjectQueue
  import opened Server
  import opened ServerInvariants
  import opened Chains
  import opened Reach
  import opened QueueChain
  import opened Shops
  import opened TillRules
  import opened TillMoves
  import opened ServedRequests
  import opened NeverAhead
  import ExactlyOnce
  import Transactions
  import VersionGuard

  lemma {:induction false} RunConcat(s: Shop, first: seq<Move>, then': seq<Move>)
    ensures RunFrom(s, first + then') == RunFrom(RunFrom(s, first), then')
    ensures SoundRunFrom(s, first) && SoundRunFrom(RunFrom(s, first), then') ==> SoundRunFrom(s, first + then')
    decreases |then'|
  {
    hide Step, StampsSoundly;
    if then' == [] {
      assert first + then' == first;
    } else {
      assert (first + then')[..|first + then'| - 1] == first + then'[..|then'| - 1];
      RunConcat(s, first, then'[..|then'| - 1]);
    }
  }

  lemma RunOne(s: Shop, move: Move)
    ensures RunFrom(s, [move]) == Step(s, move)
    ensures StampsSoundly(s, move) ==> SoundRunFrom(s, [move])
  {
    hide Step, StampsSoundly;
    assert [move][..0] == [];
  }

  // Books and invariant together.
  ghost predicate Ok(s: Shop) {
    ShopOk(s) && ExactlyOnce.IdsOk(s.server)
  }

  lemma {:induction false} StepKeepsIds(s: Shop, move: Move)
    requires ExactlyOnce.IdsOk(s.server)
    ensures ExactlyOnce.IdsOk(Step(s, move).server)
  {
    hide Step, ExactlyOnce.IdsOk, Transactions.Step, Reaches;
    ServerStep(s, move);
    if move.Serve? { ExactlyOnce.StepKeepsIds(s.server, move.step); }
  }

  lemma {:induction false} OkStep(s: Shop, move: Move)
    requires Ok(s) && SendsInTime(s, move)
    ensures Ok(Step(s, move))
  {
    hide ShopOk, ExactlyOnce.IdsOk, Step, SendsInTime;
    StepKeepsShop(s, move);
    StepKeepsIds(s, move);
  }

  predicate SendsNothing(moves: seq<Move>) {
    forall i :: 0 <= i < |moves| ==> !moves[i].Post? && !moves[i].PostReissued? && !moves[i].Stage? && !moves[i].Reissue?
  }

  lemma {:induction false} OkRun(s: Shop, moves: seq<Move>)
    requires Ok(s) && SendsNothing(moves)
    ensures Ok(RunFrom(s, moves)) && SoundRunFrom(s, moves)
  {
    hide Ok, Step;
    if moves != [] {
      OkRun(s, moves[..|moves| - 1]);
      OkStep(RunFrom(s, moves[..|moves| - 1]), moves[|moves| - 1]);
    }
  }

  /* ---- one request all the way through ---- */

  function Serving(t: Id, input: MutationInput): seq<Move> {
    Reading(t, input) + [Serve(Transactions.Advance(t))]
  }

  function Reading(t: Id, input: MutationInput): seq<Move> {
    [Serve(Transactions.Arrive(t, input)), Serve(Transactions.Advance(t)), Serve(Transactions.Advance(t)),
     Serve(Transactions.Advance(t))]
  }

  // What a transaction has decided once it has read the order as it stands.
  function Decided(db: Db, input: MutationInput): Transactions.Tx {
    Transactions.Follow(input, Load(db, input.orderId), Check(db, input, Load(db, input.orderId)))
  }

  function WithTx(s: Shop, t: Id, tx: Transactions.Tx): Shop {
    s.(server := s.server.(txs := s.server.txs[t := tx]))
  }

  lemma RunNext(s: Shop, moves: seq<Move>, move: Move)
    ensures RunFrom(s, moves + [move]) == Step(RunFrom(s, moves), move)
  {
    hide Step;
    assert (moves + [move])[..|moves|] == moves;
  }

  lemma Reads(s: Shop, t: Id, input: MutationInput)
    requires t !in s.server.txs && ValidInput(input)
    requires input.mutationId in s.posted && s.posted[input.mutationId] == input
    ensures RunFrom(s, Reading(t, input)) == WithTx(s, t, Decided(s.server.db, input))
  {
    var db := s.server.db;
    var row := if input.orderId in db.orders then Some(db.orders[input.orderId]) else None;
    var arrive, advance := Serve(Transactions.Arrive(t, input)), Serve(Transactions.Advance(t));
    ReadSteps(db, input);
    assert Step(s, arrive) == WithTx(s, t, Transactions.Arrived(input));
    hide Step, Load, Check, WithTx, ValidInput, Transactions.Progress, Decided;
    ReadOnce(s, t, Transactions.Arrived(input), Transactions.RowRead(input, row));
    ReadOnce(s, t, Transactions.RowRead(input, row), Transactions.Loaded(input, Load(db, input.orderId)));
    ReadOnce(s, t, Transactions.Loaded(input, Load(db, input.orderId)), Decided(db, input));
    RunOne(s, arrive);
    RunNext(s, [arrive], advance);
    RunNext(s, [arrive] + [advance], advance);
    RunNext(s, [arrive] + [advance] + [advance], advance);
    assert Reading(t, input) == [arrive] + [advance] + [advance] + [advance];
  }

  lemma ReadSteps(db: Db, input: MutationInput)
    ensures var row := if input.orderId in db.orders then Some(db.orders[input.orderId]) else None;
      && Transactions.Progress(db, Transactions.Arrived(input)) == Transactions.Effect(db, Transactions.RowRead(input, row), [])
      && Transactions.Progress(db, Transactions.RowRead(input, row)) ==
           Transactions.Effect(db, Transactions.Loaded(input, Load(db, input.orderId)), [])
      && Transactions.Progress(db, Transactions.Loaded(input, Load(db, input.orderId))) ==
           Transactions.Effect(db, Decided(db, input), [])
  {
    hide Check;
  }

  lemma ReadOnce(s: Shop, t: Id, tx: Transactions.Tx, next: Transactions.Tx)
    requires Transactions.Progress(s.server.db, tx) == Transactions.Effect(s.server.db, next, [])
    ensures Step(WithTx(s, t, tx), Serve(Transactions.Advance(t))) == WithTx(s, t, next)
  {
    hide Transactions.Progress;
    assert s.server.txs[t := tx][t := next] == s.server.txs[t := next];
    assert s.server.commits + [] == s.server.commits;
  }

  lemma ServingEnds(s: Shop, t: Id, input: MutationInput)
    requires t !in s.server.txs && ValidInput(input)
    requires input.mutationId in s.posted && s.posted[input.mutationId] == input
    ensures RunFrom(s, Serving(t, input)) ==
      Step(WithTx(s, t, Decided(s.server.db, input)), Serve(Transactions.Advance(t)))
  {
    hide Step, Reading, Decided;
    Reads(s, t, input);
    RunConcat(s, Reading(t, input), [Serve(Transactions.Advance(t))]);
    RunOne(RunFrom(s, Reading(t, input)), Serve(Transactions.Advance(t)));
  }

  // A payment on the books belongs to an id that is.
  lemma {:induction false} PaidIsProcessed(db: Db, commits: seq<MutationInput>, id: Id)
    requires ExactlyOnce.BooksOk(db, commits) && PaymentTaken(db.payments, id)
    ensures id in db.processed
  {
    var i :| 0 <= i < |db.payments| && db.payments[i].mutationId == id;
    PaymentIsListed(db.payments, i);
    PayIdIsCommitted(commits, id);
  }

  lemma {:induction false} PaymentIsListed(payments: seq<Payment>, i: nat)
    requires i < |payments|
    ensures payments[i].mutationId in ExactlyOnce.PaymentIds(payments)
  {
    if i < |payments| - 1 { PaymentIsListed(payments[..|payments| - 1], i); }
  }

  lemma {:induction false} PayIdIsCommitted(commits: seq<MutationInput>, id: Id)
    requires id in ExactlyOnce.PayIds(commits)
    ensures exists i :: 0 <= i < |commits| && commits[i].mutationId == id
  {
    if commits != [] && id in ExactlyOnce.PayIds(commits[..|commits| - 1]) {
      PayIdIsCommitted(commits[..|commits| - 1], id);
      var i :| 0 <= i < |commits| - 1 && commits[..|commits| - 1][i].mutationId == id;
      assert commits[i].mutationId == id;
    }
  }

  // Nothing stops a request that is neither hopeless nor late.
  lemma WillCommit(db: Db, history: seq<Version>, input: MutationInput)
    requires HistoryOk(db, history, input.orderId) && TablesAgree(db)
    requires !Hopeless(db.products, Now(history), input) && React(Now(history).shape, input.command).Moves?
    requires input.baseVersion == |history|
    requires input.mutationId !in db.processed && !PaymentTaken(db.payments, input.mutationId)
    ensures Decided(db, input).Writing?
    ensures var d := Decided(db, input); WriteStep(db, input, d.snapshot, d.nextStatus).Committed?
  {
    LastIsLoaded(db, history, input.orderId);
    ReactIsDecide(Load(db, input.orderId), input.command);
    hide React, Now, HistoryOk, Decide;
  }

  lemma WillSettle(db: Db, history: seq<Version>, input: MutationInput)
    requires HistoryOk(db, history, input.orderId)
    requires !Hopeless(db.products, Now(history), input) && React(Now(history).shape, input.command).Satisfied?
    requires input.mutationId !in db.processed
    ensures Decided(db, input).Settling? && SettleStep(db, input).Settled?
  {
    LastIsLoaded(db, history, input.orderId);
    ReactIsDecide(Load(db, input.orderId), input.command);
    hide React, Now, HistoryOk, Decide;
  }

  lemma {:induction false} OneOwner(history: seq<Version>, i: nat)
    requires GoodVersions(history) && i < |history|
    ensures history[i].order.restaurantId == history[|history| - 1].order.restaurantId
    decreases |history| - i
  {
    if i < |history| - 1 {
      OneOwner(history, i + 1);
      assert MadeAt(history, i + 1);
    }
  }

  lemma WillRepeat(db: Db, history: seq<Version>, input: MutationInput)
    requires HistoryOk(db, history, input.orderId) && StoredOk(db, history, input) && input.mutationId in db.processed
    ensures Decided(db, input) == Transactions.Answered(input, AlreadyAppliedReply(db.processed[input.mutationId].order))
  {
    LastIsLoaded(db, history, input.orderId);
    OneOwner(history, db.processed[input.mutationId].order.version - 1);
    hide HistoryOk, Decide;
  }

  // The request has been answered, and what it came to is known.
  ghost predicate AnsweredBy(s: Shop, after: Shop, t: Id, input: MutationInput) {
    && Ok(after)
    && after.tills == s.tills && after.posted == s.posted && after.minted == s.minted
    && after.server.db.products == s.server.db.products
    && after.server.txs.Keys == s.server.txs.Keys + {t}
    && IsSuccess(after, t, input.mutationId)
    && input.mutationId in after.server.db.processed
    && after.server.db.processed.Keys == s.server.db.processed.Keys + {input.mutationId}
    && (forall o: Id :: o != input.orderId ==> HistoryOf(after, o) == HistoryOf(s, o))
  }

  lemma {:induction false} DecidedIsOk(s: Shop, t: Id, input: MutationInput)
    requires Ok(s) && t !in s.server.txs && ValidInput(input)
    requires input.mutationId in s.posted && s.posted[input.mutationId] == input
    ensures Ok(WithTx(s, t, Decided(s.server.db, input)))
    ensures Ok(RunFrom(s, Serving(t, input))) && SoundRunFrom(s, Serving(t, input))
  {
    hide Ok, Step, Decided;
    Reads(s, t, input);
    OkRun(s, Reading(t, input));
    OkRun(s, Serving(t, input));
  }

  // The last of the request's statements answers it with a success.
  lemma Ends(s: Shop, t: Id, tx: Transactions.Tx)
    requires var effect := Transactions.Progress(s.server.db, tx);
      effect.tx.Answered? && effect.tx.input == tx.input && (effect.tx.reply.AppliedReply? || effect.tx.reply.AlreadyAppliedReply?)
    ensures var after, effect := Step(WithTx(s, t, tx), Serve(Transactions.Advance(t))), Transactions.Progress(s.server.db, tx);
      && SameTills(s, after) && after.server.db == effect.db
      && after.server.txs.Keys == s.server.txs.Keys + {t} && IsSuccess(after, t, tx.input.mutationId)
      && (effect.commits == [] ==> after.history == s.history) && after.server.commits == s.server.commits + effect.commits
  {
    hide Transactions.Progress, Recorded;
    AdvanceShape(WithTx(s, t, tx), t);
  }

  lemma {:induction false} Commits(s: Shop, t: Id, input: MutationInput)
    requires Ok(s) && t !in s.server.txs
    requires input.mutationId in s.posted && s.posted[input.mutationId] == input
    requires var history := HistoryOf(s, input.orderId);
      && !Hopeless(s.server.db.products, Now(history), input) && React(Now(history).shape, input.command).Moves?
      && input.baseVersion == |history|
    requires input.mutationId !in s.server.db.processed
    ensures var after := RunFrom(s, Serving(t, input)); var history := HistoryOf(s, input.orderId);
      && AnsweredBy(s, after, t, input) && after.server.commits == s.server.commits + [input]
      && |HistoryOf(after, input.orderId)| == |history| + 1 && HistoryOf(after, input.orderId)[..|history|] == history
      && Now(HistoryOf(after, input.orderId)) == Next(Now(history), input)
  {
    hide React, Now, HistoryOk, GoodVersions, WriteStep, ServeStep, Check, Load, Makes, ExactlyOnce.IdsOk,
      Serving, OthersStay, TablesAgree, Step, SendsNothing, Decided, WithTx, Transactions.Progress, Advanced;
    var db, history := s.server.db, HistoryOf(s, input.orderId);
    var tx := Decided(db, input);
    CanCommit(s, input);
    DecidedIsOk(s, t, input);
    ServingEnds(s, t, input);
    CommitEffect(db, input);
    var after := RunFrom(s, Serving(t, input));
    Ends(s, t, tx);
    var order := AdvancesTo(s, t, tx);
    hide Hopeless, Grown;
    GrownIds(s, after, input, order);
    GrownNow(s, after, input, order);
  }

  lemma CommitEffect(db: Db, input: MutationInput)
    requires Decided(db, input).Writing?
    requires var d := Decided(db, input); WriteStep(db, input, d.snapshot, d.nextStatus).Committed?
    ensures var d := Decided(db, input); var w := WriteStep(db, input, d.snapshot, d.nextStatus);
      && d.input == input
      && Transactions.Progress(db, d) == Transactions.Effect(w.db, Transactions.Answered(input, AppliedReply(w.order)), [input])
  {
    hide WriteStep, Check, Load;
  }

  lemma {:induction false} CanCommit(s: Shop, input: MutationInput)
    requires Ok(s)
    requires input.mutationId in s.posted && s.posted[input.mutationId] == input
    requires var history := HistoryOf(s, input.orderId);
      && !Hopeless(s.server.db.products, Now(history), input) && React(Now(history).shape, input.command).Moves?
      && input.baseVersion == |history|
    requires input.mutationId !in s.server.db.processed
    ensures ValidInput(input) && Decided(s.server.db, input).Writing?
    ensures var d := Decided(s.server.db, input); WriteStep(s.server.db, input, d.snapshot, d.nextStatus).Committed?
  {
    var db, history := s.server.db, HistoryOf(s, input.orderId);
    assert HistoryOk(db, history, input.orderId) && TablesAgree(db);
    if PaymentTaken(db.payments, input.mutationId) { PaidIsProcessed(db, s.server.commits, input.mutationId); }
    hide HistoryOk, TablesAgree, Now, React, WriteStep, Decided, ShopOk, ExactlyOnce.IdsOk;
    WillCommit(db, history, input);
  }

  // A transaction about to write, and the version it makes.
  lemma {:induction false} AdvancesTo(s: Shop, t: Id, tx: Transactions.Tx) returns (order: Snapshot)
    requires Ok(WithTx(s, t, tx)) && Transactions.Progress(s.server.db, tx).commits != []
    ensures Grown(s, Step(WithTx(s, t, tx), Serve(Transactions.Advance(t))), tx.input, order)
  {
    hide ShopOk, Transactions.Progress, ExactlyOnce.IdsOk, ServeStep;
    order := AdvanceIsServed(WithTx(s, t, tx), t);
    hide Makes, OthersStay;
  }

  lemma GrownIds(s: Shop, after: Shop, input: MutationInput, order: Snapshot)
    requires Grown(s, after, input, order)
    ensures after.server.db.products == s.server.db.products && input.mutationId in after.server.db.processed
    ensures after.server.db.processed.Keys == s.server.db.processed.Keys + {input.mutationId}
  {
    hide Hopeless, React, Now, Load, OthersStay;
  }

  lemma GrownNow(s: Shop, after: Shop, input: MutationInput, order: Snapshot)
    requires Grown(s, after, input, order)
    ensures var history := HistoryOf(s, input.orderId);
      && |HistoryOf(after, input.orderId)| == |history| + 1 && HistoryOf(after, input.orderId)[..|history|] == history
      && Now(HistoryOf(after, input.orderId)) == Next(Now(history), input)
    ensures forall o: Id :: o != input.orderId ==> HistoryOf(after, o) == HistoryOf(s, o)
  {
    MadeIsNext(s.server.db, after.server.db, HistoryOf(s, input.orderId), input, order);
    hide Makes, Now, OthersStay;
  }

  // A success that commits nothing.
  predicate Acknowledgement(db: Db, input: MutationInput, effect: Transactions.Effect) {
    && effect.tx.Answered? && effect.tx.input == input && effect.tx.reply.AlreadyAppliedReply? && effect.commits == []
    && effect.db.products == db.products && effect.db.processed.Keys == db.processed.Keys + {input.mutationId}
  }

  lemma {:induction false} Acknowledged(s: Shop, t: Id, input: MutationInput)
    requires Ok(s) && t !in s.server.txs && ValidInput(input)
    requires input.mutationId in s.posted && s.posted[input.mutationId] == input
    requires Decided(s.server.db, input).input == input
    requires Acknowledgement(s.server.db, input, Transactions.Progress(s.server.db, Decided(s.server.db, input)))
    ensures var after := RunFrom(s, Serving(t, input));
      AnsweredBy(s, after, t, input) && HistoryOf(after, input.orderId) == HistoryOf(s, input.orderId)
  {
    hide Ok, Serving, Step, Decided, WithTx, Transactions.Progress, RunFrom, SoundRunFrom, ValidInput, IsSuccess;
    DecidedIsOk(s, t, input);
    ServingEnds(s, t, input);
    Ends(s, t, Decided(s.server.db, input));
  }

  lemma {:induction false} Settles(s: Shop, t: Id, input: MutationInput)
    requires Ok(s) && t !in s.server.txs
    requires input.mutationId in s.posted && s.posted[input.mutationId] == input
    requires var history := HistoryOf(s, input.orderId);
      !Hopeless(s.server.db.products, Now(history), input) && React(Now(history).shape, input.command).Satisfied?
    requires input.mutationId !in s.server.db.processed
    ensures var after := RunFrom(s, Serving(t, input));
      AnsweredBy(s, after, t, input) && HistoryOf(after, input.orderId) == HistoryOf(s, input.orderId)
  {
    hide *;
    CanSettle(s, input);
    SettleEffect(s.server.db, input);
    Acknowledged(s, t, input);
  }

  lemma {:induction false} CanSettle(s: Shop, input: MutationInput)
    requires Ok(s) && input.mutationId !in s.server.db.processed
    requires var history := HistoryOf(s, input.orderId);
      !Hopeless(s.server.db.products, Now(history), input) && React(Now(history).shape, input.command).Satisfied?
    ensures ValidInput(input) && Decided(s.server.db, input).Settling? && SettleStep(s.server.db, input).Settled?
  {
    hide ExactlyOnce.IdsOk, Decided, SettleStep, Now, React, HistoryOk;
    assert HistoryOk(s.server.db, HistoryOf(s, input.orderId), input.orderId);
    WillSettle(s.server.db, HistoryOf(s, input.orderId), input);
  }

  lemma SettleEffect(db: Db, input: MutationInput)
    requires Decided(db, input).Settling? && SettleStep(db, input).Settled? && input.mutationId !in db.processed
    ensures Decided(db, input).input == input
    ensures Acknowledgement(db, input, Transactions.Progress(db, Decided(db, input)))
  {
    hide Check, Load;
  }

  lemma {:induction false} Repeats(s: Shop, t: Id, input: MutationInput)
    requires Ok(s) && t !in s.server.txs && ValidInput(input)
    requires input.mutationId in s.posted && s.posted[input.mutationId] == input
    requires input.mutationId in s.server.db.processed
    ensures var after := RunFrom(s, Serving(t, input));
      AnsweredBy(s, after, t, input) && HistoryOf(after, input.orderId) == HistoryOf(s, input.orderId)
  {
    CanRepeat(s, input);
    hide *;
    RepeatEffect(s.server.db, input);
    Acknowledged(s, t, input);
  }

  lemma {:induction false} CanRepeat(s: Shop, input: MutationInput)
    requires Ok(s) && input.mutationId in s.posted && s.posted[input.mutationId] == input
    requires input.mutationId in s.server.db.processed
    ensures Decided(s.server.db, input) ==
      Transactions.Answered(input, AlreadyAppliedReply(s.server.db.processed[input.mutationId].order))
  {
    hide ExactlyOnce.IdsOk, Decided, HistoryOk, ServedOk;
    var history := HistoryOf(s, input.orderId);
    assert PostedOk(s, input.mutationId) && HistoryOk(s.server.db, history, input.orderId);
    WillRepeat(s.server.db, history, input);
  }

  lemma RepeatEffect(db: Db, input: MutationInput)
    requires input.mutationId in db.processed
    requires Decided(db, input) == Transactions.Answered(input, AlreadyAppliedReply(db.processed[input.mutationId].order))
    ensures Decided(db, input).input == input
    ensures Acknowledgement(db, input, Transactions.Progress(db, Decided(db, input)))
  {
    hide Decided;
    assert db.processed.Keys + {input.mutationId} == db.processed.Keys;
  }

  /* ---- one row of a queue, from the post to the answer that deletes it ---- */

  lemma {:induction false} Posts(s: Shop, k: Key)
    requires Ok(s) && TillOf(s, k).queue != [] && IsSendable(TillOf(s, k).queue)
    requires TillOf(s, k).queue[0].baseVersion <= |HistoryOf(s, k.orderId)|
    ensures Step(s, Post(k)) == PostHead(s, k) && Ok(PostHead(s, k))
    ensures SoundRunFrom(s, [Post(k)]) && RunFrom(s, [Post(k)]) == PostHead(s, k)
  {
    hide ShopOk, ExactlyOnce.IdsOk;
    OkStep(s, Post(k));
    RunOne(s, Post(k));
  }

  function Saving(k: Key, version: nat, t: Id): seq<Move> {
    [Save(k, version, version), Drop(k, t)]
  }

  // What a till has left once its head has been answered and the order as it stands has been saved.
  function WithoutHead(s: Shop, k: Key): Shop
    requires TillOf(s, k).queue != [] && HistoryOf(s, k.orderId) != []
  {
    var till, history := TillOf(s, k), HistoryOf(s, k.orderId);
    WithTill(s, k, till.(saved := Some(Seen(history, |history|, |history|)), queue := till.queue[1..]))
  }

  lemma {:induction false} Finishes(s: Shop, k: Key, t: Id)
    requires Ok(s) && TillOf(s, k).queue != [] && IsSuccess(s, t, TillOf(s, k).queue[0].mutationId)
    ensures HistoryOf(s, k.orderId) != [] && RunFrom(s, Saving(k, |HistoryOf(s, k.orderId)|, t)) == WithoutHead(s, k)
    ensures Ok(WithoutHead(s, k)) && SoundRunFrom(s, Saving(k, |HistoryOf(s, k.orderId)|, t))
  {
    hide Ok, SendsNothing, Step, Seen, SoundRunFrom, StampsSoundly;
    var history := HistoryOf(s, k.orderId);
    AnswerIsVersion(s, k, t);
    var save, drop := Save(k, |history|, |history|), Drop(k, t);
    SaveThenDrop(s, k, t);
    OkRun(s, Saving(k, |history|, t)) by { NothingSent(k, |history|, t); }
    RunOne(s, save);
    RunNext(s, [save], drop);
    assert Saving(k, |history|, t) == [save] + [drop];
  }

  lemma NothingSent(k: Key, version: nat, t: Id)
    ensures SendsNothing(Saving(k, version, t))
  {
  }

  lemma {:induction false} AnswerIsVersion(s: Shop, k: Key, t: Id)
    requires Ok(s) && TillOf(s, k).queue != [] && IsSuccess(s, t, TillOf(s, k).queue[0].mutationId)
    ensures var history := HistoryOf(s, k.orderId);
      && GoodVersions(history) && 1 <= s.server.txs[t].reply.order.version <= |history|
      && Held(TillOf(s, k).saved) <= |history|
  {
    hide ExactlyOnce.IdsOk, GoodVersions;
    assert TxPosted(s, t) && TillOk(s, k);
    HeadInput(s, k, s.server.txs[t].input);
    PartsOf(s, k);
    ViewIsHeld(HistoryOf(s, k.orderId), TillOf(s, k).saved);
  }

  lemma SaveThenDrop(s: Shop, k: Key, t: Id)
    requires TillOf(s, k).queue != [] && IsSuccess(s, t, TillOf(s, k).queue[0].mutationId)
    requires var history := HistoryOf(s, k.orderId);
      && GoodVersions(history) && 1 <= s.server.txs[t].reply.order.version <= |history|
      && Held(TillOf(s, k).saved) <= |history|
    ensures var n := |HistoryOf(s, k.orderId)|; Step(Step(s, Save(k, n, n)), Drop(k, t)) == WithoutHead(s, k)
  {
    var history := HistoryOf(s, k.orderId);
    SeenIsView(history, |history|, |history|);
    hide Seen, GoodVersions;
    var saved := Step(s, Save(k, |history|, |history|));
    assert s.tills[k := TillOf(saved, k)][k := TillOf(WithoutHead(s, k), k)] == s.tills[k := TillOf(WithoutHead(s, k), k)];
  }

  function Round(k: Key, t: Id, input: MutationInput, version: nat): seq<Move> {
    [Post(k)] + Serving(t, input) + Saving(k, version, t)
  }

  // The head has left the queue of till `k`; the order has had its command, or has it still.
  ghost predicate HeadGone(s: Shop, after: Shop, k: Key, t: Id)
    requires TillOf(s, k).queue != []
  {
    var till, left := TillOf(s, k), TillOf(after, k);
    && Ok(after)
    && left.queue == till.queue[1..] && left.shown == till.shown && left.rebase == till.rebase
    && HistoryOf(after, k.orderId) != []
    && left.saved == Some(Seen(HistoryOf(after, k.orderId), |HistoryOf(after, k.orderId)|, |HistoryOf(after, k.orderId)|))
    && (forall j: Key :: j != k ==> TillOf(after, j) == TillOf(s, j))
    && after.minted == s.minted && after.server.db.products == s.server.db.products
    && after.server.txs.Keys == s.server.txs.Keys + {t}
    && (forall o: Id :: o != k.orderId ==> HistoryOf(after, o) == HistoryOf(s, o))
    && after.posted.Keys == s.posted.Keys + {till.queue[0].mutationId}
  }

  lemma {:induction false} RoundEnds(s: Shop, k: Key, t: Id, served: Shop)
    requires Ok(s) && TillOf(s, k).queue != [] && IsSendable(TillOf(s, k).queue)
    requires TillOf(s, k).queue[0].baseVersion <= |HistoryOf(s, k.orderId)|
    requires var input := RequestOf(TillOf(s, k).queue[0]);
      && served == RunFrom(PostHead(s, k), Serving(t, input)) && SoundRunFrom(PostHead(s, k), Serving(t, input))
      && input.orderId == k.orderId && AnsweredBy(PostHead(s, k), served, t, input)
    ensures var round := Round(k, t, RequestOf(TillOf(s, k).queue[0]), |HistoryOf(served, k.orderId)|);
      && HeadGone(s, RunFrom(s, round), k, t) && SoundRunFrom(s, round)
      && HistoryOf(RunFrom(s, round), k.orderId) == HistoryOf(served, k.orderId)
      && RunFrom(s, round).server == served.server
  {
    hide Ok, Step, Serving, Saving, RunFrom, SoundRunFrom, Seen, IsSuccess;
    var input := RequestOf(TillOf(s, k).queue[0]);
    var posted, version := PostHead(s, k), |HistoryOf(served, k.orderId)|;
    Posts(s, k);
    RunConcat(s, [Post(k)], Serving(t, input));
    assert TillOf(served, k) == TillOf(s, k);
    Finishes(served, k, t);
    RunConcat(s, [Post(k)] + Serving(t, input), Saving(k, version, t));
    GoneFrom(s, k, t, served);
  }

  lemma GoneFrom(s: Shop, k: Key, t: Id, served: Shop)
    requires TillOf(s, k).queue != [] && HistoryOf(served, k.orderId) != []
    requires RequestOf(TillOf(s, k).queue[0]).orderId == k.orderId
    requires AnsweredBy(PostHead(s, k), served, t, RequestOf(TillOf(s, k).queue[0]))
    requires TillOf(served, k) == TillOf(s, k) && Ok(WithoutHead(served, k))
    ensures HeadGone(s, WithoutHead(served, k), k, t)
    ensures HistoryOf(WithoutHead(served, k), k.orderId) == HistoryOf(served, k.orderId)
  {
    hide Ok, Seen, IsSuccess;
    var input, posted := RequestOf(TillOf(s, k).queue[0]), PostHead(s, k);
    assert posted.posted.Keys == s.posted.Keys + {input.mutationId};
    forall o: Id | o != k.orderId ensures HistoryOf(served, o) == HistoryOf(s, o) {
      assert HistoryOf(served, o) == HistoryOf(posted, o);
    }
  }

  lemma HeadIsRow(s: Shop, k: Key)
    requires Ok(s) && TillOf(s, k).queue != []
    ensures var head := TillOf(s, k).queue[0];
      RowOk(s.posted, s.minted, k, head, true) && RequestOf(head).orderId == k.orderId
  {
    hide ExactlyOnce.IdsOk;
    assert TillOk(s, k);
  }

  // To post is not to be served.
  lemma PostedOnly(s: Shop, k: Key)
    requires TillOf(s, k).queue != []
    ensures var input, posted := RequestOf(TillOf(s, k).queue[0]), PostHead(s, k);
      && posted.server == s.server && input.mutationId in posted.posted && posted.posted[input.mutationId] == input
      && input.mutationId == TillOf(s, k).queue[0].mutationId && input.baseVersion == TillOf(s, k).queue[0].baseVersion
      && forall o: Id :: HistoryOf(posted, o) == HistoryOf(s, o)
  {
  }

  /** A row stamped with the version its order stands at, and not hopeless, goes through. */
  lemma {:induction false} RoundCommits(s: Shop, k: Key, t: Id)
    requires Ok(s) && TillOf(s, k).queue != [] && IsSendable(TillOf(s, k).queue) && t !in s.server.txs
    requires var input, history := RequestOf(TillOf(s, k).queue[0]), HistoryOf(s, k.orderId);
      && !Hopeless(s.server.db.products, Now(history), input) && React(Now(history).shape, input.command).Moves?
      && input.baseVersion == |history| && input.mutationId !in s.server.db.processed
    ensures var history := HistoryOf(s, k.orderId); var round := Round(k, t, RequestOf(TillOf(s, k).queue[0]), |history| + 1);
      var after := RunFrom(s, round);
      && HeadGone(s, after, k, t) && SoundRunFrom(s, round)
      && |HistoryOf(after, k.orderId)| == |history| + 1 && HistoryOf(after, k.orderId)[..|history|] == history
      && Now(HistoryOf(after, k.orderId)) == Next(Now(history), RequestOf(TillOf(s, k).queue[0]))
      && after.server.db.processed.Keys == s.server.db.processed.Keys + {TillOf(s, k).queue[0].mutationId}
  {
    hide Ok, Step, Serving, SoundRunFrom, RunFrom, Hopeless, React, Now, HeadGone, Round, SendsNothing;
    hide Next, IsSendable, HistoryOf, TillOf, PostHead, RequestOf;
    var input, posted := RequestOf(TillOf(s, k).queue[0]), PostHead(s, k);
    HeadIsRow(s, k);
    PostedOnly(s, k);
    Posts(s, k);
    Commits(posted, t, input);
    OkRun(posted, Serving(t, input)) by { NothingSentServing(t, input); }
    RoundEnds(s, k, t, RunFrom(posted, Serving(t, input)));
  }

  lemma NothingSentServing(t: Id, input: MutationInput)
    ensures SendsNothing(Serving(t, input))
  {
  }

  /** A row the order satisfies already is acknowledged. */
  lemma {:induction false} RoundSettles(s: Shop, k: Key, t: Id)
    requires Ok(s) && TillOf(s, k).queue != [] && IsSendable(TillOf(s, k).queue) && t !in s.server.txs
    requires var input, history := RequestOf(TillOf(s, k).queue[0]), HistoryOf(s, k.orderId);
      && !Hopeless(s.server.db.products, Now(history), input) && React(Now(history).shape, input.command).Satisfied?
      && input.baseVersion <= |history| && input.mutationId !in s.server.db.processed
    ensures var history := HistoryOf(s, k.orderId); var round := Round(k, t, RequestOf(TillOf(s, k).queue[0]), |history|);
      var after := RunFrom(s, round);
      && HeadGone(s, after, k, t) && SoundRunFrom(s, round) && HistoryOf(after, k.orderId) == history
      && after.server.db.processed.Keys == s.server.db.processed.Keys + {TillOf(s, k).queue[0].mutationId}
  {
    hide Ok, Step, Serving, SoundRunFrom, RunFrom, Hopeless, React, Now, HeadGone, Round, SendsNothing;
    hide Next, IsSendable, HistoryOf, TillOf, PostHead, RequestOf;
    var input, posted := RequestOf(TillOf(s, k).queue[0]), PostHead(s, k);
    HeadIsRow(s, k);
    PostedOnly(s, k);
    Posts(s, k);
    Settles(posted, t, input);
    OkRun(posted, Serving(t, input)) by { NothingSentServing(t, input); }
    RoundEnds(s, k, t, RunFrom(posted, Serving(t, input)));
  }

  /** A row that has been served already is answered from its stored result. */
  lemma {:induction false} RoundRepeats(s: Shop, k: Key, t: Id)
    requires Ok(s) && TillOf(s, k).queue != [] && IsSendable(TillOf(s, k).queue) && t !in s.server.txs
    requires TillOf(s, k).queue[0].mutationId in s.server.db.processed
    requires ValidInput(RequestOf(TillOf(s, k).queue[0]))
    ensures var history := HistoryOf(s, k.orderId); var round := Round(k, t, RequestOf(TillOf(s, k).queue[0]), |history|);
      var after := RunFrom(s, round);
      && HeadGone(s, after, k, t) && SoundRunFrom(s, round) && HistoryOf(after, k.orderId) == history
      && after.server.db.processed.Keys == s.server.db.processed.Keys
  {
    hide Step, Serving, SoundRunFrom, RunFrom, HeadGone, Round, SendsNothing, ShopOk, ExactlyOnce.IdsOk;
    var input, posted := RequestOf(TillOf(s, k).queue[0]), PostHead(s, k);
    HeadIsRow(s, k);
    HeadIsPosted(s, k);
    hide Ok;
    Posts(s, k);
    Repeats(posted, t, input);
    OkRun(posted, Serving(t, input)) by { NothingSentServing(t, input); }
    RoundEnds(s, k, t, RunFrom(posted, Serving(t, input)));
    assert s.server.db.processed.Keys + {input.mutationId} == s.server.db.processed.Keys;
  }

  /* ---- somebody else's command in between ---- */

  // Another till reads the order as it stands and stages a command on it.
  function Joining(k: Key, id: Id, restaurantId: Id, command: Command, version: nat): seq<Move> {
    [Show(k, version, version), Save(k, version, version)] + [Stage(k, id, restaurantId, command, 0, map[])]
  }

  function JoinedRow(k: Key, id: Id, restaurantId: Id, command: Command, version: nat): Row {
    Row(id, restaurantId, k.terminalId, k.orderId, version, command, 0, Pending)
  }

  // A till that holds the order as it stands.
  function Current(s: Shop, k: Key, queue: seq<Row>): Till
    requires HistoryOf(s, k.orderId) != []
  {
    var history := HistoryOf(s, k.orderId);
    var view := Some(Seen(history, |history|, |history|));
    Till(view, view, queue, None)
  }

  lemma {:induction false} Joins(s: Shop, k: Key, id: Id, restaurantId: Id, command: Command)
    requires Ok(s) && TillOf(s, k) == EMPTY_TILL && IsFresh(s, id) && HistoryOf(s, k.orderId) != []
    ensures var n := |HistoryOf(s, k.orderId)|; var moves := Joining(k, id, restaurantId, command, n);
      var after := RunFrom(s, moves);
      && Ok(after) && SoundRunFrom(s, moves)
      && after.server == s.server && after.history == s.history && after.posted == s.posted
      && after.tills == s.tills[k := Current(s, k, [JoinedRow(k, id, restaurantId, command, n)])]
      && after.minted.Keys == s.minted.Keys + {id}
  {
    hide Step, Ok, Seen, SoundRunFrom, RunFrom, SendsNothing, Staged, TillSound, StampsSoundly, Current;
    var n := |HistoryOf(s, k.orderId)|;
    var looks, stage := [Show(k, n, n), Save(k, n, n)], Stage(k, id, restaurantId, command, 0, map[]);
    var row := JoinedRow(k, id, restaurantId, command, n);
    var read := RunFrom(s, looks);
    ReadsAll(s, k);
    OkRun(s, looks) by { LooksSendNothing(k, n); }
    StagesOne(s, k, id, restaurantId, command);
    RunOne(read, stage);
    OkStep(read, stage) by { StageSendsNothing(read, stage); }
    RunConcat(s, looks, [stage]);
  }

  lemma LooksSendNothing(k: Key, n: nat)
    ensures SendsNothing([Show(k, n, n), Save(k, n, n)])
  {
  }

  lemma StageSendsNothing(s: Shop, move: Move)
    requires move.Stage?
    ensures SendsInTime(s, move)
  {
  }

  lemma {:induction false} ReadsAll(s: Shop, k: Key)
    requires Ok(s) && TillOf(s, k) == EMPTY_TILL && HistoryOf(s, k.orderId) != []
    ensures var n := |HistoryOf(s, k.orderId)|;
      RunFrom(s, [Show(k, n, n), Save(k, n, n)]) == WithTill(s, k, Current(s, k, []))
    ensures Held(Current(s, k, []).shown) == |HistoryOf(s, k.orderId)|
  {
    hide ShopOk, Seen, GoodVersions, RunFrom, ExactlyOnce.IdsOk;
    var history := HistoryOf(s, k.orderId);
    var n := |history|;
    PartsOf(s, k);
    SeenIsView(history, n, n);
    var show, save := Show(k, n, n), Save(k, n, n);
    var view := Some(Seen(history, n, n));
    var shown := WithTill(s, k, Till(view, None, [], None));
    assert Step(s, show) == shown;
    assert Step(shown, save) == WithTill(shown, k, Till(view, view, [], None));
    assert s.tills[k := Till(view, None, [], None)][k := Till(view, view, [], None)] == s.tills[k := Till(view, view, [], None)];
    hide Step;
    RunOne(s, show);
    RunNext(s, [show], save);
    assert [show] + [save] == [show, save];
  }

  lemma StagesOne(s: Shop, k: Key, id: Id, restaurantId: Id, command: Command)
    requires HistoryOf(s, k.orderId) != [] && IsFresh(s, id)
    requires Held(Current(s, k, []).shown) == |HistoryOf(s, k.orderId)|
    ensures var n := |HistoryOf(s, k.orderId)|; var read, row := WithTill(s, k, Current(s, k, [])), JoinedRow(k, id, restaurantId, command, n);
      var stage := Stage(k, id, restaurantId, command, 0, map[]);
      var after := Step(read, stage);
      && after.server == s.server && after.history == s.history && after.posted == s.posted
      && after.tills == s.tills[k := Current(s, k, [row])] && after.minted.Keys == s.minted.Keys + {id}
      && StampsSoundly(read, stage)
  {
    hide Seen, Sound;
    var row := JoinedRow(k, id, restaurantId, command, |HistoryOf(s, k.orderId)|);
    var read := WithTill(s, k, Current(s, k, []));
    assert [] + [row] == [row];
    assert s.tills[k := Current(s, k, [])][k := Current(s, k, [row])] == s.tills[k := Current(s, k, [row])];
    SingleIsSound(Step(read, Stage(k, id, restaurantId, command, 0, map[])), k, row);
  }

  lemma SingleIsSound(s: Shop, k: Key, row: Row)
    requires TillOf(s, k).queue == [row] && row.baseVersion <= |HistoryOf(s, k.orderId)|
    ensures TillSound(s, k)
  {
    hide Hopeless, Next;
    assert [row][1..] == [];
    NothingIsSound(s.server.db.products, Next(Now(HistoryOf(s, k.orderId)), RequestOf(row)));
    NothingIsSound(s.server.db.products, Now(HistoryOf(s, k.orderId)));
  }

  /* ---- getting ahead ---- */

  lemma {:induction false} PostsAhead(s: Shop, k: Key)
    requires Ok(s) && TillOf(s, k).queue != [] && IsSendable(TillOf(s, k).queue)
    requires TillOf(s, k).queue[0].baseVersion > |HistoryOf(s, k.orderId)|
    ensures SoundRunFrom(s, [Post(k)]) && !NoneAhead(RunFrom(s, [Post(k)]))
  {
    hide ExactlyOnce.IdsOk;
    HeadIsRow(s, k);
    assert HistoryOk(s.server.db, HistoryOf(s, k.orderId), k.orderId);
    LastIsLoaded(s.server.db, HistoryOf(s, k.orderId), k.orderId);
    hide ShopOk, Ok, HistoryOk;
    RunOne(s, Post(k));
    var id := TillOf(s, k).queue[0].mutationId;
    assert id in PostHead(s, k).posted && IsAhead(PostHead(s, k), id);
  }

  lemma {:induction false} StillUnsound(s: Shop, after: Shop, k: Key, t: Id)
    requires Ok(s) && TillOf(s, k).queue != [] && IsSendable(TillOf(s, k).queue) && HeadGone(s, after, k, t)
    requires after.server.db.processed.Keys <= s.server.db.processed.Keys + {TillOf(s, k).queue[0].mutationId}
    requires !Sound(s.server.db.products, Now(HistoryOf(after, k.orderId)), TillOf(s, k).queue[1..])
    ensures Ok(after) && !TillSound(after, k)
  {
    hide ShopOk, ExactlyOnce.IdsOk, Sound, Now;
    NextIsUnserved(s, k);
    if |TillOf(s, k).queue| > 1 { RestIsAnother(s, k); }
  }

  lemma RestIsAnother(s: Shop, k: Key)
    requires ShopOk(s) && |TillOf(s, k).queue| > 1
    ensures TillOf(s, k).queue[1].mutationId != TillOf(s, k).queue[0].mutationId
  {
    assert TillOk(s, k);
  }

  // A command the server could acknowledge unapplied is satisfied once somebody's has been applied.
  lemma SatisfiedAfterwards(products: map<Id, Product>, at: Standing, input: MutationInput)
    requires !Hopeless(products, at, input) && Satisfiable(input.command) && React(at.shape, input.command).Moves?
    ensures !Hopeless(products, Next(at, input), input) && React(Next(at, input).shape, input.command).Satisfied?
    ensures Next(Next(at, input), input) == Next(at, input)
  {
  }

  lemma JoinedMoves(products: map<Id, Product>, at: Standing, input: MutationInput, row: Row)
    requires !Hopeless(products, at, input) && Satisfiable(input.command) && React(at.shape, input.command).Moves?
    requires at.version > 0 && at.shape.Present?
    requires row.command == input.command && row.baseVersion == at.version && row.restaurantId == at.owner
    ensures !Hopeless(products, at, RequestOf(row)) && React(at.shape, row.command).Moves?
    ensures Next(at, RequestOf(row)) == Next(at, input)
  {
  }

  // Somebody else's till has the head's command applied before the head gets there.
  lemma {:induction false} Preempts(s: Shop, k: Key) returns (more: seq<Move>)
    requires Ok(s) && TillOf(s, k).queue != []
    requires var input, at := RequestOf(TillOf(s, k).queue[0]), Now(HistoryOf(s, k.orderId));
      && !Hopeless(s.server.db.products, at, input) && Satisfiable(input.command) && React(at.shape, input.command).Moves?
      && input.baseVersion < at.version && input.mutationId !in s.server.db.processed
    ensures var after := RunFrom(s, more); var input, at := RequestOf(TillOf(s, k).queue[0]), Now(HistoryOf(s, k.orderId));
      && Ok(after) && SoundRunFrom(s, more) && TillOf(after, k) == TillOf(s, k)
      && Now(HistoryOf(after, k.orderId)) == Next(at, input)
      && input.mutationId !in after.server.db.processed
      && (forall row <- TillOf(s, k).queue :: row.mutationId in after.server.db.processed ==> row.mutationId in s.server.db.processed)
      && after.server.db.products == s.server.db.products
  {
    hide Ok, SoundRunFrom, RunFrom, Hopeless, React, HeadGone, Joining, Round, Current, Next;
    var head, history, at := TillOf(s, k).queue[0], HistoryOf(s, k.orderId), Now(HistoryOf(s, k.orderId));
    var n := |history|;
    var terminal := VersionGuard.FreshId(set key <- s.tills :: key.terminalId);
    var other := Key(terminal, k.orderId);
    assert other !in s.tills;
    var id := VersionGuard.FreshId(s.minted.Keys);
    Joins(s, other, id, at.owner, head.command);
    var row := JoinedRow(other, id, at.owner, head.command, n);
    var joined := RunFrom(s, Joining(other, id, at.owner, head.command, n));
    PresentAbove(history);
    JoinedMoves(s.server.db.products, at, RequestOf(head), row);
    var t := VersionGuard.FreshId(s.server.txs.Keys);
    JoinedIsCurrent(s, joined, other, row);
    FreshIsUnserved(s, id);
    RoundCommits(joined, other, t);
    more := Joining(other, id, at.owner, head.command, n) + Round(other, t, RequestOf(row), n + 1);
    RunConcat(s, Joining(other, id, at.owner, head.command, n), Round(other, t, RequestOf(row), n + 1));
    var after := RunFrom(joined, Round(other, t, RequestOf(row), n + 1));
    GoneKeepsOthers(joined, after, other, t, k);
    assert TillOf(joined, k) == TillOf(s, k);
    forall r | r in TillOf(s, k).queue ensures r.mutationId != id {
      RowsAreMinted(s, k, r);
    }
  }

  lemma PresentAbove(history: seq<Version>)
    ensures Now(history).version > 0 ==> Now(history).shape.Present?
  {
  }

  lemma JoinedIsCurrent(s: Shop, joined: Shop, k: Key, row: Row)
    requires HistoryOf(s, k.orderId) != [] && joined.tills == s.tills[k := Current(s, k, [row])] && row.status == Pending
    ensures TillOf(joined, k).queue == [row] && IsSendable([row])
  {
  }

  lemma FreshIsUnserved(s: Shop, id: Id)
    requires Ok(s) && IsFresh(s, id)
    ensures id !in s.server.db.processed
  {
    hide ExactlyOnce.IdsOk, ShopOk;
    FreshIsUnposted(s, id);
  }

  lemma GoneKeepsOthers(s: Shop, after: Shop, k: Key, t: Id, j: Key)
    requires TillOf(s, k).queue != [] && HeadGone(s, after, k, t) && j != k
    ensures TillOf(after, j) == TillOf(s, j) && Ok(after) && after.server.db.products == s.server.db.products
  {
    hide Ok, Seen;
  }

  lemma RowsAreMinted(s: Shop, k: Key, row: Row)
    requires Ok(s) && row in TillOf(s, k).queue
    ensures row.mutationId in s.minted
  {
    hide ExactlyOnce.IdsOk;
    assert TillOk(s, k);
    var i :| 0 <= i < |TillOf(s, k).queue| && TillOf(s, k).queue[i] == row;
    assert RowOk(s.posted, s.minted, k, row, i == 0);
  }

  // What an unsound queue is, one row deep.
  lemma UnsoundHead(s: Shop, k: Key)
    requires Ok(s) && !TillSound(s, k)
    ensures var queue := TillOf(s, k).queue;
      && queue != [] && IsSendable(queue)
      && (var input, at, products := RequestOf(queue[0]), Now(HistoryOf(s, k.orderId)), s.server.db.products;
          if queue[0].mutationId in s.server.db.processed then !Sound(products, at, queue[1..]) && ValidInput(input)
          else input.baseVersion <= at.version ==> !Hopeless(products, at, input) && !Sound(products, Next(at, input), queue[1..]))
  {
    hide ExactlyOnce.IdsOk, Hopeless, Next, Now;
    var queue := TillOf(s, k).queue;
    HeadIsServedOk(s, k);
  }

  lemma HeadIsServedOk(s: Shop, k: Key)
    requires Ok(s)
    ensures var queue := TillOf(s, k).queue;
      queue != [] && queue[0].mutationId in s.server.db.processed ==> ValidInput(RequestOf(queue[0]))
  {
    hide ExactlyOnce.IdsOk, ServedOk;
    var queue := TillOf(s, k).queue;
    if queue != [] && queue[0].mutationId in s.server.db.processed {
      HeadIsRow(s, k);
      assert PostedOk(s, queue[0].mutationId);
    }
  }

  /** An unsound queue does get ahead: here is how, with everybody else stamping soundly. */
  lemma {:induction false} Overtakes(s: Shop, k: Key) returns (more: seq<Move>)
    requires Ok(s) && !TillSound(s, k)
    ensures SoundRunFrom(s, more) && !NoneAhead(RunFrom(s, more))
    decreases |TillOf(s, k).queue|, 1
  {
    hide Ok, SoundRunFrom, RunFrom, Hopeless, Next, HeadGone, Round, Sound, Now, NoneAhead, Serving, TillSound, Satisfiable;
    UnsoundHead(s, k);
    var head, at := TillOf(s, k).queue[0], Now(HistoryOf(s, k.orderId));
    var input, products := RequestOf(head), s.server.db.products;
    var t := VersionGuard.FreshId(s.server.txs.Keys);
    NowVersion(s, k);
    if head.mutationId in s.server.db.processed {
      RoundRepeats(s, k, t);
      more := OvertakesNext(s, k, t, Round(k, t, input, at.version));
    } else if input.baseVersion > at.version {
      more := [Post(k)];
      PostsAhead(s, k);
    } else if React(at.shape, input.command).Satisfied? {
      NextIfSatisfied(at, input);
      RoundSettles(s, k, t);
      more := OvertakesNext(s, k, t, Round(k, t, input, at.version));
    } else if input.baseVersion == at.version {
      AbsentAtZero(HistoryOf(s, k.orderId));
      MovesUnlessHopeless(products, at, input);
      RoundCommits(s, k, t);
      more := OvertakesNext(s, k, t, Round(k, t, input, at.version + 1));
    } else {
      AbsentAtZero(HistoryOf(s, k.orderId));
      MovesUnlessHopeless(products, at, input);
      var before := Preempts(s, k);
      var then' := RunFrom(s, before);
      SatisfiedAfterwards(products, at, input);
      NowVersion(then', k);
      NextIsLater(at, input);
      var u := VersionGuard.FreshId(then'.server.txs.Keys);
      RoundSettles(then', k, u);
      var rest := OvertakesNext(then', k, u, Round(k, u, input, Next(at, input).version));
      more := before + rest;
      RunConcat(s, before, rest);
    }
  }

  // The rest of the queue, once the head is gone.
  lemma {:induction false} OvertakesNext(s: Shop, k: Key, t: Id, round: seq<Move>) returns (more: seq<Move>)
    requires Ok(s) && TillOf(s, k).queue != [] && IsSendable(TillOf(s, k).queue)
    requires HeadGone(s, RunFrom(s, round), k, t) && SoundRunFrom(s, round)
    requires RunFrom(s, round).server.db.processed.Keys <= s.server.db.processed.Keys + {TillOf(s, k).queue[0].mutationId}
    requires !Sound(s.server.db.products, Now(HistoryOf(RunFrom(s, round), k.orderId)), TillOf(s, k).queue[1..])
    ensures SoundRunFrom(s, more) && !NoneAhead(RunFrom(s, more))
    decreases |TillOf(s, k).queue|, 0
  {
    hide Ok, SoundRunFrom, RunFrom, Sound, Now, NoneAhead, TillSound;
    var after := RunFrom(s, round);
    StillUnsound(s, after, k, t);
    assert |TillOf(after, k).queue| < |TillOf(s, k).queue| by { GoneIsShorter(s, after, k, t); }
    var rest := Overtakes(after, k);
    more := round + rest;
    RunConcat(s, round, rest);
  }

  lemma GoneIsShorter(s: Shop, after: Shop, k: Key, t: Id)
    requires TillOf(s, k).queue != [] && HeadGone(s, after, k, t)
    ensures |TillOf(after, k).queue| == |TillOf(s, k).queue| - 1
  {
    hide Ok, Seen;
  }

  lemma NowVersion(s: Shop, k: Key)
    ensures Now(HistoryOf(s, k.orderId)).version == |HistoryOf(s, k.orderId)|
  {
  }

  lemma NextIfSatisfied(at: Standing, input: MutationInput)
    requires React(at.shape, input.command).Satisfied?
    ensures Next(at, input) == at
  {
  }

  lemma NextIsLater(at: Standing, input: MutationInput)
    ensures at.version <= Next(at, input).version
  {
  }

  lemma MovesUnlessHopeless(products: map<Id, Product>, at: Standing, input: MutationInput)
    requires !Hopeless(products, at, input) && !React(at.shape, input.command).Satisfied? && input.baseVersion <= at.version
    requires at.shape.Absent? ==> at.version == 0
    ensures React(at.shape, input.command).Moves?
    ensures input.baseVersion < at.version ==> Satisfiable(input.command)
  {
  }

  /* ---- exactly when ---- */

  lemma {:induction false} RunIsBooked(products: map<Id, Product>, moves: seq<Move>)
    ensures ExactlyOnce.IdsOk(Run(products, moves).server)
  {
    hide ExactlyOnce.IdsOk, Step;
    if moves == [] {
      OpeningIsBooked(products);
    } else {
      RunIsBooked(products, moves[..|moves| - 1]);
      StepKeepsIds(Run(products, moves[..|moves| - 1]), moves[|moves| - 1]);
    }
  }

  lemma OpeningIsBooked(products: map<Id, Product>)
    ensures ExactlyOnce.IdsOk(Opening(products).server)
  {
  }

  // Whatever happens from here, with every row soundly stamped, nothing gets ahead.
  ghost predicate StaysBehind(s: Shop) {
    forall more: seq<Move> :: SoundRunFrom(s, more) ==> NoneAhead(RunFrom(s, more))
  }

  lemma {:induction false} SoundStaysBehind(s: Shop)
    requires ShopOk(s) && AllSound(s)
    ensures StaysBehind(s)
  {
    hide ShopOk, AllSound, NoneAhead, RunFrom, SoundRunFrom;
    forall more: seq<Move> | SoundRunFrom(s, more) ensures NoneAhead(RunFrom(s, more)) {
      SoundRunIsOk(s, more);
      NoneIsAhead(RunFrom(s, more));
    }
  }

  /**
   In a run that has been sound so far, a till may stage or re-issue a row without anything ever getting
   ahead of its order, whatever everybody soundly does from then on, if and only if it leaves its queue sound.
   */
  lemma {:induction false} SafeIffSound(products: map<Id, Product>, moves: seq<Move>, stamp: Move)
    requires SoundRunFrom(Opening(products), moves) && (stamp.Stage? || stamp.Reissue?)
    ensures StaysBehind(Step(Run(products, moves), stamp)) <==> TillSound(Step(Run(products, moves), stamp), stamp.k)
  {
    hide ShopOk, AllSound, TillSound, ExactlyOnce.IdsOk, StaysBehind, Step, RunFrom, SoundRunFrom;
    var s := Run(products, moves);
    OpeningIsOk(products);
    SoundRunIsOk(Opening(products), moves);
    RunIsBooked(products, moves);
    if TillSound(Step(s, stamp), stamp.k) {
      StepKeeps(s, stamp);
      SoundStaysBehind(Step(s, stamp));
    } else {
      OkStep(s, stamp) by { StampSendsNothing(s, stamp); }
      var more := Overtakes(Step(s, stamp), stamp.k);
      NotBehind(Step(s, stamp), more);
    }
  }

  lemma StampSendsNothing(s: Shop, move: Move)
    requires move.Stage? || move.Reissue?
    ensures SendsInTime(s, move)
  {
  }

  lemma NotBehind(s: Shop, more: seq<Move>)
    requires SoundRunFrom(s, more) && !NoneAhead(RunFrom(s, more))
    ensures !StaysBehind(s)
  {
  }

  // The version the queue of a till reaches from the order as committed; nothing if it never gets that far.
  function QueueReaches(s: Shop, k: Key): Option<nat> {
    var queue := TillOf(s, k).queue;
    Reached(s.server.db.products, Now(HistoryOf(s, k.orderId)), Waiting(queue, ResultOf(s.server.db.processed, queue)))
  }

  lemma {:induction false} StagedIsSoundIff(s: Shop, k: Key, row: Row)
    requires ShopOk(s) && TillSound(s, k) && IsSendable(TillOf(s, k).queue) && IsFresh(s, row.mutationId)
    requires row.status == Pending
    ensures TillSound(Staged(s, k, row), k) <==>
      (QueueReaches(s, k).Some? ==> row.baseVersion <= QueueReaches(s, k).value)
  {
    hide ShopOk, Sound, Reached, Now, Waiting, ResultOf;
    FreshIsUnposted(s, row.mutationId);
    var queue, at := TillOf(s, k).queue, Now(HistoryOf(s, k.orderId));
    var waiting := Waiting(queue, ResultOf(s.server.db.processed, queue));
    SoundAppend(s.server.db.products, at, waiting, row);
    StagedWaits(s.server.db.processed, queue, row);
  }

  lemma StagedWaits(processed: map<Id, Processed>, queue: seq<Row>, row: Row)
    requires row.mutationId !in processed
    ensures Waiting(queue + [row], ResultOf(processed, queue + [row])) == Waiting(queue, ResultOf(processed, queue)) + [row]
  {
    assert queue != [] ==> (queue + [row])[0] == queue[0] && (queue + [row])[1..] == queue[1..] + [row];
    assert queue == [] ==> queue + [row] == [row];
  }

  /**
   The same in terms of the version stamped: staging is safe if and only if the version that what is shown
   projects to is one the queue reaches from the order as it is committed, or the queue never gets there.
   */
  lemma {:induction false} SafeIffWithinReach(products: map<Id, Product>, moves: seq<Move>, k: Key, id: Id,
      restaurantId: Id, command: Command, stamp: nat, menu: Menu)
    requires SoundRunFrom(Opening(products), moves)
    requires IsFresh(Run(products, moves), id) && IsSendable(TillOf(Run(products, moves), k).queue)
    ensures var s := Run(products, moves);
      StaysBehind(Step(s, Stage(k, id, restaurantId, command, stamp, menu))) <==>
      (QueueReaches(s, k).Some? ==>
         NextBaseVersion(Project(TillOf(s, k).shown, TillOf(s, k).queue, menu)) <= QueueReaches(s, k).value)
  {
    hide ShopOk, AllSound, TillSound, StaysBehind, RunFrom, SoundRunFrom, IsSendable, Staged, StageStep, Project;
    var s := Run(products, moves);
    OpeningIsOk(products);
    SoundRunIsOk(Opening(products), moves);
    assert TillSound(s, k) by { AllIsSound(s, k); }
    SafeIffSound(products, moves, Stage(k, id, restaurantId, command, stamp, menu));
    var row := StageIsStaged(s, k, id, restaurantId, command, stamp, menu);
    StagedIsSoundIff(s, k, row);
  }

  lemma AllIsSound(s: Shop, k: Key)
    requires AllSound(s)
    ensures TillSound(s, k)
  {
  }

  /**
   So a till that has just reloaded may stage a row if and only if its rows, walked from the snapshot that
   was saved, show a version that they reach from the order as it is committed.
   */
  lemma {:induction false} SafeAfterReload(products: map<Id, Product>, moves: seq<Move>, k: Key, id: Id,
      restaurantId: Id, command: Command, stamp: nat, menu: Menu)
    requires SoundRunFrom(Opening(products), moves)
    requires IsFresh(Run(products, moves), id) && IsSendable(TillOf(Run(products, moves), k).queue)
    ensures var s := Run(products, moves); var till := TillOf(s, k);
      StaysBehind(Step(Step(s, Reload(k)), Stage(k, id, restaurantId, command, stamp, menu))) <==>
      (QueueReaches(s, k).Some? ==> Label(Held(till.saved), ShapeOf(till.saved), till.queue) <= QueueReaches(s, k).value)
  {
    hide StaysBehind, IsSendable, StageStep, Project, QueueReaches, Label, StampsSoundly;
    var s, reload := Run(products, moves), Reload(k);
    assert (moves + [reload])[..|moves|] == moves;
    assert Run(products, moves + [reload]) == Step(s, reload);
    assert StampsSoundly(s, reload) by { ReloadStampsNothing(s, k); }
    ReloadShowsSaved(s, k);
    ProjectionLabel(TillOf(s, k).saved, TillOf(s, k).queue, menu);
    hide RunFrom, SoundRunFrom, Step;
    SafeIffWithinReach(products, moves + [reload], k, id, restaurantId, command, stamp, menu);
  }

  lemma ReloadStampsNothing(s: Shop, k: Key)
    ensures StampsSoundly(s, Reload(k))
  {
  }

  lemma ReloadShowsSaved(s: Shop, k: Key)
    ensures var after := Step(s, Reload(k));
      && TillOf(after, k).shown == TillOf(s, k).saved && TillOf(after, k).queue == TillOf(s, k).queue
      && after.minted == s.minted && QueueReaches(after, k) == QueueReaches(s, k)
  {
    hide Reached;
  }
}
