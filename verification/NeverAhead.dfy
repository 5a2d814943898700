/**
 The invariant of `Shops` under every move, and what keeps it going: as long as every row that is stamped
 leaves its queue sound, no request is ever above the committed version of its order, so the server's
 transactions behave like `Server.Serial`.
 */
module NeverAhead {
  import opened Domain
  import opened ProjectQueue
  import opened Server
  import opened ServerInvariants
  import opened Chains
  import opened Reach
  import opened QueueChain
  import opened Shops
  import opened TillRules
  import opened TillMoves
  import opened ServedRequests
  import Kitchen
  import Transactions

  /* ---- the whole invariant under the server's moves ---- */

  predicate Recalls(processed: map<Id, Processed>, after: map<Id, Processed>) {
    forall id <- processed :: id in after && after[id] == processed[id]
  }

  // The part of the state the server's moves do not touch.
  predicate SameTills(s: Shop, after: Shop) {
    && after.posted == s.posted && after.postedAt == s.postedAt && after.minted == s.minted && after.tills == s.tills
    && after.intents == s.intents && after.discarded == s.discarded
  }

  ghost predicate Grown(s: Shop, after: Shop, input: MutationInput, order: Snapshot) {
    && SameTills(s, after)
    && input.mutationId in s.posted && s.posted[input.mutationId] == input
    && HistoryOf(after, input.orderId) == HistoryOf(s, input.orderId) + [Version(order, input.command)]
    && (forall o: Id :: o != input.orderId ==> HistoryOf(after, o) == HistoryOf(s, o))
    && Makes(s.server.db, after.server.db, HistoryOf(s, input.orderId), input, order)
    && OthersStay(s.server.db, after.server.db, input.orderId)
  }

  ghost predicate Noted(s: Shop, after: Shop, input: MutationInput) {
    && SameTills(s, after) && after.history == s.history
    && input.mutationId in s.posted && s.posted[input.mutationId] == input
    && Acknowledges(s.server.db, after.server.db, HistoryOf(s, input.orderId), input)
    && OthersStay(s.server.db, after.server.db, input.orderId)
  }

  lemma GrownHistory(s: Shop, after: Shop, input: MutationInput, order: Snapshot, o: Id)
    requires Grown(s, after, input, order) && HistoryOk(s.server.db, HistoryOf(s, o), o)
    ensures HistoryOk(after.server.db, HistoryOf(after, o), o)
  {
    if o == input.orderId {
      MadeIsNext(s.server.db, after.server.db, HistoryOf(s, o), input, order);
      hide GoodVersions, Now, React, Hopeless;
      MadeKeepsHistory(HistoryOf(s, o), Version(order, input.command));
    } else {
      hide GoodVersions, Now, React, Hopeless, Makes;
      assert Load(after.server.db, o) == Load(s.server.db, o);
    }
  }

  lemma GrownPosted(s: Shop, after: Shop, input: MutationInput, order: Snapshot, id: Id)
    requires Grown(s, after, input, order) && id in s.posted && PostedOk(s, id)
    ensures PostedOk(after, id)
  {
    assert ValidInput(input);
    hide At, React, Hopeless;
    var other := s.posted[id];
    if id != input.mutationId && id in s.server.db.processed && other.orderId == input.orderId {
      MadeKeepsServed(HistoryOf(s, other.orderId), Version(order, input.command), other, s.server.db.processed[id].order);
    }
  }

  lemma GrownTill(s: Shop, after: Shop, input: MutationInput, order: Snapshot, k: Key)
    requires Grown(s, after, input, order) && TillOk(s, k)
    ensures TillOk(after, k)
  {
    hide Makes, RowsOk, IsView, OthersStay;
    if k.orderId == input.orderId {
      MadeKeepsView(HistoryOf(s, k.orderId), Version(order, input.command), TillOf(s, k).shown);
      MadeKeepsView(HistoryOf(s, k.orderId), Version(order, input.command), TillOf(s, k).saved);
    }
  }

  lemma NotedHistory(s: Shop, after: Shop, input: MutationInput, o: Id)
    requires Noted(s, after, input) && HistoryOk(s.server.db, HistoryOf(s, o), o)
    ensures HistoryOk(after.server.db, HistoryOf(after, o), o)
  {
    hide GoodVersions, At, React, Hopeless;
    if o != input.orderId {
      assert Load(after.server.db, o) == Load(s.server.db, o);
    }
  }

  lemma NotedPosted(s: Shop, after: Shop, input: MutationInput, id: Id)
    requires Noted(s, after, input) && id in s.posted && PostedOk(s, id)
    requires GoodVersions(HistoryOf(s, input.orderId))
    ensures PostedOk(after, id)
  {
    var history := HistoryOf(s, input.orderId);
    assert MadeAt(history, |history| - 1);
    hide React, GoodVersions, Hopeless;
  }

  lemma QuietTill(s: Shop, after: Shop, k: Key)
    requires SameTills(s, after) && after.history == s.history && TillOk(s, k)
    ensures TillOk(after, k)
  {
    hide RowsOk, IsView, HaltOk;
  }

  // The three things a statement group can come to.
  ghost predicate Served(s: Shop, after: Shop, input: MutationInput, order: Snapshot) {
    && SameTills(s, after)
    && input.mutationId in s.posted && s.posted[input.mutationId] == input
    && (Grown(s, after, input, order) || Noted(s, after, input)
        || (after.history == s.history && after.server.db == s.server.db))
  }

  lemma ServedHistory(s: Shop, after: Shop, input: MutationInput, order: Snapshot, o: Id)
    requires Served(s, after, input, order) && HistoryOk(s.server.db, HistoryOf(s, o), o)
    ensures HistoryOk(after.server.db, HistoryOf(after, o), o)
  {
    hide Grown, Noted, HistoryOk;
    if Grown(s, after, input, order) {
      GrownHistory(s, after, input, order, o);
    } else if Noted(s, after, input) {
      NotedHistory(s, after, input, o);
    }
  }

  lemma ServedPosted(s: Shop, after: Shop, input: MutationInput, order: Snapshot, id: Id)
    requires Served(s, after, input, order) && id in s.posted && PostedOk(s, id)
    requires GoodVersions(HistoryOf(s, input.orderId))
    ensures PostedOk(after, id)
  {
    hide Grown, Noted, StoredOk, GoodVersions;
    if Grown(s, after, input, order) {
      GrownPosted(s, after, input, order, id);
    } else if Noted(s, after, input) {
      NotedPosted(s, after, input, id);
    }
  }

  lemma {:induction false} ServedTill(s: Shop, after: Shop, input: MutationInput, order: Snapshot, k: Key)
    requires Served(s, after, input, order) && TillOk(s, k)
    ensures TillOk(after, k)
  {
    assert Noted(s, after, input) ==> after.history == s.history;
    hide Grown, Noted, TillOk;
    if Grown(s, after, input, order) {
      GrownTill(s, after, input, order, k);
    } else {
      QuietTill(s, after, k);
    }
  }

  lemma ServedIds(s: Shop, after: Shop, input: MutationInput, order: Snapshot)
    requires Served(s, after, input, order) && s.server.db.processed.Keys <= s.posted.Keys
    ensures after.server.db.processed.Keys <= after.posted.Keys
    ensures Recalls(s.server.db.processed, after.server.db.processed)
  {
    hide At, React, OthersStay, Hopeless, Now;
  }

  // What answers carry is still a version of their order, or torn between two of them.
  lemma ServedCarries(s: Shop, after: Shop, input: MutationInput, order: Snapshot, tx: Transactions.Tx)
    requires Served(s, after, input, order) && CarriesOk(HistoryOf(s, tx.input.orderId), tx)
    ensures CarriesOk(HistoryOf(after, tx.input.orderId), tx)
  {
    hide CarriesOk, Makes, OthersStay, Acknowledges;
    if Grown(s, after, input, order) && tx.input.orderId == input.orderId {
      MadeKeepsCarried(HistoryOf(s, input.orderId), Version(order, input.command), tx);
    }
  }

  lemma {:induction false} ServedKeepsParts(s: Shop, after: Shop, input: MutationInput, order: Snapshot)
    requires ShopOk(s) && Served(s, after, input, order)
    requires Transactions.SysOk(after.server) && forall t <- after.server.txs :: TxPosted(after, t)
    ensures ShopOk(after)
  {
    InputHistory(s, input);
    ServedIds(s, after, input, order);
    hide Served, HistoryOk, TillOk, PostedOk, TxPosted, Transactions.SysOk, Recalls, GoodVersions;
    assert SameTills(s, after) && PostedOk(s, input.mutationId) by { ServedInput(s, after, input, order); }
    forall o: Id ensures HistoryOk(after.server.db, HistoryOf(after, o), o) {
      assert HistoryOk(s.server.db, HistoryOf(s, o), o);
      ServedHistory(s, after, input, order, o);
    }
    forall id | id in after.posted ensures PostedOk(after, id) {
      ServedPosted(s, after, input, order, id);
    }
    forall k: Key ensures TillOk(after, k) {
      ServedTill(s, after, input, order, k);
    }
  }

  lemma ServedInput(s: Shop, after: Shop, input: MutationInput, order: Snapshot)
    requires ShopOk(s) && Served(s, after, input, order)
    ensures SameTills(s, after) && input.mutationId in s.posted && PostedOk(s, input.mutationId)
  {
  }

  lemma InputHistory(s: Shop, input: MutationInput)
    requires ShopOk(s)
    ensures GoodVersions(HistoryOf(s, input.orderId)) && HistoryOk(s.server.db, HistoryOf(s, input.orderId), input.orderId)
  {
    hide GoodVersions;
    assert HistoryOk(s.server.db, HistoryOf(s, input.orderId), input.orderId);
  }

  // The step of the machine is the step of the transaction.
  lemma AdvanceShape(s: Shop, t: Id)
    requires t in s.server.txs
    ensures var after, effect := ServeStep(s, Transactions.Advance(t)), Transactions.Progress(s.server.db, s.server.txs[t]);
      && SameTills(s, after) && after.server.db == effect.db && after.server.txs == s.server.txs[t := effect.tx]
      && after.server.commits == s.server.commits + effect.commits
      && (effect.commits == [] ==> after.history == s.history)
      && (|effect.commits| == 1 ==> after.history == Recorded(s, effect.db, effect.commits[0]))
  {
    hide Transactions.Progress, Recorded;
  }

  lemma EffectIsServed(s: Shop, after: Shop, tx: Transactions.Tx, effect: Transactions.Effect) returns (order: Snapshot)
    requires Serves(s.server.db, tx, HistoryOf(s, tx.input.orderId), effect)
    requires tx.input.mutationId in s.posted && s.posted[tx.input.mutationId] == tx.input
    requires SameTills(s, after) && after.server.db == effect.db
    requires effect.commits == [] ==> after.history == s.history
    requires |effect.commits| == 1 ==> after.history == Recorded(s, effect.db, effect.commits[0])
    ensures Served(s, after, tx.input, order)
    ensures HistoryOf(after, tx.input.orderId) == HistoryAfter(HistoryOf(s, tx.input.orderId), tx.input, effect)
    ensures effect.commits != [] ==> effect.commits == [tx.input] && Grown(s, after, tx.input, order)
    ensures effect.commits == [] ==> after.history == s.history
  {
    order := if effect.commits != [] then Load(effect.db, tx.input.orderId).value else Snapshot(0, 0, "", Open, 0, 0, []);
    hide Makes, Acknowledges, OthersStay, AnswerOk, CarriesOk, Load;
    if effect.commits != [] {
      assert Grown(s, after, tx.input, order);
    } else if effect.db != s.server.db {
      assert Noted(s, after, tx.input);
    }
  }

  // What an advancing transaction leaves of the rest of the server.
  ghost predicate Advanced(s: Shop, after: Shop, t: Id, order: Snapshot)
    requires t in s.server.txs
  {
    var input, effect := s.server.txs[t].input, Transactions.Progress(s.server.db, s.server.txs[t]);
    && Served(s, after, input, order)
    && after.server.txs.Keys == s.server.txs.Keys
    && (forall u <- s.server.txs :: u != t ==> after.server.txs[u] == s.server.txs[u])
    && after.server.txs[t] == effect.tx && effect.tx.input == input
    && AnswerOk(after.server.db, effect.tx) && CarriesOk(HistoryOf(after, input.orderId), effect.tx)
    && after.server.commits == s.server.commits + effect.commits
    && (if effect.commits == [] then after.history == s.history else effect.commits == [input] && Grown(s, after, input, order))
  }

  lemma {:induction false} AdvanceIsServed(s: Shop, t: Id) returns (order: Snapshot)
    requires ShopOk(s) && t in s.server.txs
    ensures Advanced(s, ServeStep(s, Transactions.Advance(t)), t, order)
  {
    hide ShopOk, AnswerOk, CarriesOk, Makes, Acknowledges, OthersStay, HistoryOk, GoodVersions, Transactions.Progress, StoredOk,
      PostedOk, Transactions.SysOk, Transactions.TxOk, GoodDb, ServeStep, Served, Recorded, HistoryAfter, Grown;
    var tx := s.server.txs[t];
    TxParts(s, t);
    ProgressServes(s.server.db, tx, HistoryOf(s, tx.input.orderId));
    AdvanceShape(s, t);
    order := EffectIsServed(s, ServeStep(s, Transactions.Advance(t)), tx, Transactions.Progress(s.server.db, tx));
  }

  // What the invariant says of one transaction.
  lemma TxParts(s: Shop, t: Id)
    requires ShopOk(s) && t in s.server.txs
    ensures var tx := s.server.txs[t]; var history := HistoryOf(s, tx.input.orderId);
      && GoodDb(s.server.db) && Transactions.TxOk(s.server.db, tx) && AnswerOk(s.server.db, tx) && CarriesOk(history, tx)
      && HistoryOk(s.server.db, history, tx.input.orderId) && StoredOk(s.server.db, history, tx.input)
      && TxPosted(s, t) && tx.input.mutationId in s.posted && s.posted[tx.input.mutationId] == tx.input
  {
    hide AnswerOk, CarriesOk, HistoryOk, StoredOk, Transactions.TxOk, GoodDb, TillOk;
    assert TxPosted(s, t) && PostedOk(s, s.server.txs[t].input.mutationId);
    InputHistory(s, s.server.txs[t].input);
  }

  lemma AnswersStand(s: Shop, after: Shop, t: Id, input: MutationInput, order: Snapshot)
    requires t in s.server.txs && TxPosted(s, t) && Served(s, after, input, order)
    requires t in after.server.txs && after.server.txs[t] == s.server.txs[t]
    requires Recalls(s.server.db.processed, after.server.db.processed)
    ensures TxPosted(after, t)
  {
    ServedCarries(s, after, input, order, s.server.txs[t]);
    hide CarriesOk, Grown, Noted;
  }

  lemma {:induction false} AdvanceKeeps(s: Shop, t: Id)
    requires ShopOk(s)
    ensures ShopOk(ServeStep(s, Transactions.Advance(t)))
  {
    var after := ServeStep(s, Transactions.Advance(t));
    Transactions.StepKeepsOk(s.server, Transactions.Advance(t));
    if t in s.server.txs {
      var order := AdvanceIsServed(s, t);
      var input := s.server.txs[t].input;
      ServedIds(s, after, input, order);
      hide HistoryOk, TillOk, PostedOk, Transactions.SysOk, Served, AnswerOk, CarriesOk, Recalls, ServeStep, Transactions.Progress;
      assert TxPosted(s, t);
      assert SameTills(s, after) by { ServedInput(s, after, input, order); }
      forall u | u in after.server.txs ensures TxPosted(after, u) {
        if u != t { AnswersStand(s, after, u, input, order); }
      }
      hide ShopOk, TxPosted;
      ServedKeepsParts(s, after, input, order);
    }
  }

  lemma {:induction false} ArriveKeeps(s: Shop, t: Id, input: MutationInput)
    requires ShopOk(s)
    ensures ShopOk(ServeStep(s, Transactions.Arrive(t, input)))
  {
    var step := Transactions.Arrive(t, input);
    var after := ServeStep(s, step);
    hide HistoryOk, TillOk, PostedOk, Grown, Noted, Transactions.TxOk, GoodDb;
    if input.mutationId in s.posted && s.posted[input.mutationId] == input {
      PostedIsNotAhead(s, input.mutationId);
      Transactions.StepKeepsOk(s.server, step);
      hide Transactions.SysOk;
      forall u | u in after.server.txs ensures TxPosted(after, u) {
        assert u != t || u in s.server.txs ==> TxPosted(s, u);
      }
      ServedKeepsParts(s, after, input, Snapshot(0, 0, "", Open, 0, 0, []));
    }
  }

  lemma {:induction false} PostedIsNotAhead(s: Shop, id: Id)
    requires ShopOk(s) && id in s.posted
    ensures !IsAhead(s, id)
  {
    var input := s.posted[id];
    assert PostedOk(s, id);
    InputHistory(s, input);
    LastIsLoaded(s.server.db, HistoryOf(s, input.orderId), input.orderId);
  }

  lemma {:induction false} VanishKeeps(s: Shop, t: Id)
    requires ShopOk(s)
    ensures ShopOk(ServeStep(s, Transactions.Vanish(t)))
  {
    var after := ServeStep(s, Transactions.Vanish(t));
    Transactions.StepKeepsOk(s.server, Transactions.Vanish(t));
    hide HistoryOk, StoredOk, AnswerOk, CarriesOk, Transactions.SysOk, TillOk;
    forall u | u in after.server.txs ensures TxPosted(after, u) {
      assert TxPosted(s, u);
    }
    forall id | id in after.posted ensures PostedOk(after, id) {
      assert PostedOk(s, id);
    }
    forall k: Key ensures TillOk(after, k) {
      QuietTill(s, after, k);
    }
    forall o: Id ensures HistoryOk(after.server.db, HistoryOf(after, o), o) {
      assert HistoryOk(s.server.db, HistoryOf(s, o), o);
    }
  }

  lemma {:induction false} ServeKeeps(s: Shop, step: Transactions.Move)
    requires ShopOk(s)
    ensures ShopOk(ServeStep(s, step))
  {
    match step
    case Arrive(t, input) => ArriveKeeps(s, t, input);
    case Advance(t) => AdvanceKeeps(s, t);
    case Vanish(t) => VanishKeeps(s, t);
  }

  /* ---- every move ---- */

  // What a till sends is not ahead at that moment.
  predicate SendsInTime(s: Shop, move: Move) {
    (move.Post? || move.PostReissued?) && Step(s, move) != s ==>
      TillOf(s, move.k).queue != [] && TillOf(s, move.k).queue[0].baseVersion <= |HistoryOf(s, move.k.orderId)|
  }

  /** Every move keeps the invariant, if what it sends is not ahead when it is sent. */
  lemma {:induction false} StepKeepsShop(s: Shop, move: Move)
    requires ShopOk(s) && SendsInTime(s, move)
    ensures ShopOk(Step(s, move))
  {
    hide ShopOk;
    match move
    case Serve(step) => ServeKeeps(s, step);
    case Show(k, version, lines) => LearnKeeps(s, k, version, lines);
    case Save(k, version, lines) => LearnKeeps(s, k, version, lines);
    case Reload(k) => ViewMovesKeep(s, k);
    case Leave(k) => ViewMovesKeep(s, k);
    case Forget(k) => ViewMovesKeep(s, k);
    case Stage(k, id, restaurantId, command, stamp, menu) => StageKeeps(s, k, id, restaurantId, command, stamp, menu);
    case Post(k) => if PostStep(s, k) != s { PostKeeps(s, k); }
    case Drop(k, t) => DropKeeps(s, k, t);
    case Halt(k) => HaltKeeps(s, k);
    case Discard(k) => DiscardKeeps(s, k);
    case StartRebase(k) => RebaseKeeps(s, k, 0);
    case Reissue(k, id) => ReissueKeeps(s, k, id);
    case PostReissued(k) => if PostReissuedStep(s, k) != s { PostKeeps(s, k); }
    case Carry(k, t) => RebaseKeeps(s, k, t);
    case StopRebase(k) => ViewMovesKeep(s, k);
    case PostFromKitchen(id, k, log, command) => KitchenKeeps(s, id, k, log, command);
  }

  /* ---- soundness under every move ---- */

  lemma HeadInput(s: Shop, k: Key, input: MutationInput)
    requires TillOk(s, k) && TillOf(s, k).queue != []
    requires input.mutationId in s.posted && s.posted[input.mutationId] == input
    ensures TillOf(s, k).queue[0].mutationId == input.mutationId ==>
      RequestOf(TillOf(s, k).queue[0]) == input && input.orderId == k.orderId
  {
    assert RowOk(s.posted, s.minted, k, TillOf(s, k).queue[0], true);
  }

  // The queue of a till as the server's next answer leaves it.
  lemma WaitingAfter(s: Shop, after: Shop, k: Key, input: MutationInput, order: Snapshot)
    requires SameTills(s, after) && TillOk(s, k)
    requires input.mutationId in s.posted && s.posted[input.mutationId] == input && input.mutationId !in s.server.db.processed
    requires after.server.db.processed == s.server.db.processed[input.mutationId := Processed(HashOf(input), input.terminalId, order)]
    ensures var queue := TillOf(s, k).queue;
      var before, then' := Waiting(queue, ResultOf(s.server.db.processed, queue)), Waiting(queue, ResultOf(after.server.db.processed, queue));
      if queue != [] && queue[0].mutationId == input.mutationId
      then before == queue && then' == queue[1..] && RequestOf(queue[0]) == input && input.orderId == k.orderId
      else then' == before
  {
    if TillOf(s, k).queue != [] { HeadInput(s, k, input); }
  }

  lemma GrownSound(s: Shop, after: Shop, input: MutationInput, order: Snapshot, k: Key)
    requires Grown(s, after, input, order) && TillOk(s, k) && TillSound(s, k)
    ensures TillSound(after, k)
  {
    var history := HistoryOf(s, k.orderId);
    WaitingAfter(s, after, k, input, order);
    hide TillOk, OthersStay, Hopeless, Now, ResultOf, Waiting;
    if k.orderId == input.orderId {
      MadeIsNext(s.server.db, after.server.db, history, input, order);
      AbsentAtZero(history);
      if !(TillOf(s, k).queue != [] && TillOf(s, k).queue[0].mutationId == input.mutationId) && IsSendable(TillOf(s, k).queue) {
        TransferSound(s.server.db.products, Now(history), Next(Now(history), input),
          Waiting(TillOf(s, k).queue, ResultOf(s.server.db.processed, TillOf(s, k).queue)));
      }
    }
  }

  lemma AbsentAtZero(history: seq<Version>)
    ensures Now(history).shape.Absent? ==> Now(history).version == 0
  {
  }

  lemma NotedSound(s: Shop, after: Shop, input: MutationInput, k: Key)
    requires Noted(s, after, input) && TillOk(s, k) && TillSound(s, k)
    ensures TillSound(after, k)
  {
    var history := HistoryOf(s, input.orderId);
    WaitingAfter(s, after, k, input, history[|history| - 1].order);
    hide TillOk, OthersStay, Hopeless, Now, ResultOf, Waiting, React;
    assert Next(Now(history), input) == Now(history);
  }

  lemma {:induction false} ServedSound(s: Shop, after: Shop, input: MutationInput, order: Snapshot, k: Key)
    requires Served(s, after, input, order) && TillOk(s, k) && TillSound(s, k)
    ensures TillSound(after, k)
  {
    hide Grown, Noted, TillOk;
    if Grown(s, after, input, order) {
      GrownSound(s, after, input, order, k);
    } else if Noted(s, after, input) {
      NotedSound(s, after, input, k);
    } else {
      hide Sound;
    }
  }

  lemma {:induction false} ServeKeepsSound(s: Shop, step: Transactions.Move)
    requires ShopOk(s) && AllSound(s)
    ensures AllSound(ServeStep(s, step))
  {
    var after := ServeStep(s, step);
    if step.Advance? && step.t in s.server.txs {
      var order := AdvanceIsServed(s, step.t);
      var input := s.server.txs[step.t].input;
      hide TillSound, TillOk, Served, ServeStep, HistoryOk, PostedOk, Transactions.SysOk, TxPosted, Transactions.Progress;
      forall k: Key ensures TillSound(after, k) {
        ServedSound(s, after, input, order, k);
      }
    } else {
      hide Sound, ShopOk;
      forall k: Key ensures TillSound(after, k) {
        assert TillSound(s, k);
      }
    }
  }

  // The row behind a head that has been served has not been posted yet.
  lemma {:induction false} NextIsUnserved(s: Shop, k: Key)
    requires ShopOk(s) && TillOf(s, k).queue != []
    ensures ResultOf(s.server.db.processed, TillOf(s, k).queue[1..]).None?
    ensures !IsSendable(TillOf(s, k).queue) && IsSendable(TillOf(s, k).queue[1..]) ==> TillOf(s, k).queue[1..] == []
  {
    hide Transactions.SysOk, HistoryOk, PostedOk, TxPosted;
    var rows := TillOf(s, k).queue;
    assert TillOk(s, k);
    if |rows| > 1 {
      assert RowOk(s.posted, s.minted, k, rows[1], false);
      assert rows[1..][0] == rows[1] && rows[1] in rows[1..];
    }
  }

  lemma SuccessIsStored(s: Shop, t: Id, id: Id)
    requires ShopOk(s) && IsSuccess(s, t, id)
    ensures id in s.server.db.processed
    ensures s.server.db.processed[id].order.version <= s.server.txs[t].reply.order.version
  {
    assert TxPosted(s, t);
  }

  lemma {:induction false} DropKeepsSound(s: Shop, k: Key, t: Id)
    requires ShopOk(s) && TillSound(s, k)
    ensures TillSound(DropStep(s, k, t), k)
  {
    hide ShopOk, Sound;
    var queue := TillOf(s, k).queue;
    if queue != [] && IsSuccess(s, t, queue[0].mutationId) && s.server.txs[t].reply.order.version <= Held(TillOf(s, k).saved) {
      SuccessIsStored(s, t, queue[0].mutationId);
      NextIsUnserved(s, k);
      if queue[1..] == [] {
        NothingIsSound(s.server.db.products, Now(HistoryOf(s, k.orderId)));
      }
    }
  }

  lemma NothingIsSound(products: map<Id, Product>, at: Standing)
    ensures Sound(products, at, [])
  {
  }

  lemma HaltIsSound(s: Shop, k: Key)
    requires TillOf(s, k).queue != []
    ensures TillSound(HaltStep(s, k), k)
  {
    hide Sound;
    var halted := Halted(TillOf(s, k).queue);
    assert halted[0].status == ConflictRow && halted[0] in halted;
  }

  // A move of one till says nothing about the queue of another, nor about its own if it leaves it as it was.
  lemma SameQueueSound(s: Shop, after: Shop, k: Key)
    requires TillOf(after, k).queue == TillOf(s, k).queue && HistoryOf(after, k.orderId) == HistoryOf(s, k.orderId)
    requires after.server == s.server
    ensures TillSound(after, k) == TillSound(s, k)
  {
    hide Sound;
  }

  // What a move does not touch.
  predicate LeavesOthers(s: Shop, after: Shop, k: Key) {
    && after.server == s.server && after.history == s.history
    && (forall j <- s.tills.Keys + after.tills.Keys :: j != k ==> TillOf(after, j) == TillOf(s, j))
  }

  lemma TillMovesLeaveOthers(s: Shop, move: Move)
    requires !move.Serve?
    ensures LeavesOthers(s, Step(s, move), move.k)
    ensures TillOf(Step(s, move), move.k).queue == TillOf(s, move.k).queue
      || move.Stage? || move.Reissue? || move.Drop? || move.Halt? || move.Discard?
  {
    hide NextBaseVersion, Project, IsSendable, Halted, IsSuccess, Kitchen.ConsumeAll, Seen;
  }

  lemma {:induction false} TillMoveKeepsSound(s: Shop, move: Move)
    requires ShopOk(s) && AllSound(s) && !move.Serve? && StampsSoundly(s, move)
    ensures AllSound(Step(s, move))
  {
    hide ShopOk, Sound, Step, TillSound;
    var after := Step(s, move);
    TillMovesLeaveOthers(s, move);
    forall k: Key ensures TillSound(after, k) {
      assert TillSound(s, k);
      if k != move.k {
        OthersLeft(s, after, move.k, k);
        SameQueueSound(s, after, k);
      } else {
        OwnQueueSound(s, move);
      }
    }
  }

  lemma OthersLeft(s: Shop, after: Shop, k: Key, j: Key)
    requires LeavesOthers(s, after, k) && j != k
    ensures TillOf(after, j) == TillOf(s, j) && HistoryOf(after, j.orderId) == HistoryOf(s, j.orderId)
  {
    if j !in s.tills.Keys + after.tills.Keys {
      assert TillOf(after, j) == TillOf(s, j);
    }
  }

  lemma {:induction false} OwnQueueSound(s: Shop, move: Move)
    requires ShopOk(s) && !move.Serve? && TillSound(s, move.k) && StampsSoundly(s, move)
    ensures TillSound(Step(s, move), move.k)
  {
    hide ShopOk, Sound, TillSound;
    TillMovesLeaveOthers(s, move);
    if move.Drop? {
      DropKeepsSound(s, move.k, move.t);
    } else if move.Halt? {
      if TillOf(s, move.k).queue != [] { HaltIsSound(s, move.k); }
    } else if move.Discard? {
      EmptyIsSound(DiscardStep(s, move.k), move.k);
    } else if !move.Stage? && !move.Reissue? {
      SameQueueSound(s, Step(s, move), move.k);
    }
  }

  lemma EmptyIsSound(s: Shop, k: Key)
    requires TillOf(s, k).queue == []
    ensures TillSound(s, k)
  {
    NothingIsSound(s.server.db.products, Now(HistoryOf(s, k.orderId)));
    hide Sound;
  }

  // A sound queue sends nothing ahead; nor does a halted one whose head has been re-issued.
  lemma {:induction false} SoundSendsInTime(s: Shop, move: Move)
    requires ShopOk(s) && AllSound(s)
    ensures SendsInTime(s, move)
  {
    if (move.Post? || move.PostReissued?) && Step(s, move) != s {
      var k := move.k;
      assert TillOk(s, k) && TillSound(s, k);
      HeadIsPosted(s, k);
    }
  }

  lemma HeadIsPosted(s: Shop, k: Key)
    requires ShopOk(s) && TillOf(s, k).queue != []
    ensures TillOf(s, k).queue[0].mutationId in s.server.db.processed ==>
      TillOf(s, k).queue[0].baseVersion <= |HistoryOf(s, k.orderId)|
  {
    var head := TillOf(s, k).queue[0];
    assert TillOk(s, k) && RowOk(s.posted, s.minted, k, head, true);
    if head.mutationId in s.server.db.processed {
      assert PostedOk(s, head.mutationId);
    }
  }

  lemma {:induction false} StepKeeps(s: Shop, move: Move)
    requires ShopOk(s) && AllSound(s) && StampsSoundly(s, move)
    ensures ShopOk(Step(s, move)) && AllSound(Step(s, move))
  {
    hide ShopOk, AllSound, StampsSoundly;
    SoundSendsInTime(s, move);
    StepKeepsShop(s, move);
    if move.Serve? {
      ServeKeepsSound(s, move.step);
    } else {
      TillMoveKeepsSound(s, move);
    }
  }

  /* ---- every run ---- */

  lemma OpeningIsOk(products: map<Id, Product>)
    ensures ShopOk(Opening(products)) && AllSound(Opening(products))
  {
    var s := Opening(products);
    forall k: Key ensures TillOk(s, k) && TillSound(s, k) {
      assert TillOf(s, k) == EMPTY_TILL;
    }
  }

  lemma {:induction false} SoundRunIsOk(s: Shop, moves: seq<Move>)
    requires ShopOk(s) && AllSound(s) && SoundRunFrom(s, moves)
    ensures ShopOk(RunFrom(s, moves)) && AllSound(RunFrom(s, moves))
  {
    hide ShopOk, AllSound, StampsSoundly;
    if moves != [] {
      SoundRunIsOk(s, moves[..|moves| - 1]);
      StepKeeps(RunFrom(s, moves[..|moves| - 1]), moves[|moves| - 1]);
    }
  }

  lemma NoneIsAhead(s: Shop)
    requires ShopOk(s)
    ensures NoneAhead(s)
  {
    hide ShopOk, IsAhead;
    forall id | id in s.posted ensures !IsAhead(s, id) {
      PostedIsNotAhead(s, id);
    }
  }

  // What the server itself was given to do in a run.
  function ServerMoves(s: Shop, moves: seq<Move>): seq<Transactions.Move> {
    if moves == [] then []
    else
      var before, move := moves[..|moves| - 1], moves[|moves| - 1];
      ServerMoves(s, before) + (if move.Serve? && Reaches(RunFrom(s, before), move.step) then [move.step] else [])
  }

  lemma ServerStep(s: Shop, move: Move)
    ensures Step(s, move).server ==
      if move.Serve? && Reaches(s, move.step) then Transactions.Step(s.server, move.step) else s.server
  {
    hide Transactions.Step, NextBaseVersion, Project, IsSendable, Halted, IsSuccess, Kitchen.ConsumeAll, Seen;
  }

  lemma {:induction false} ReachingIsPunctual(s: Shop, step: Transactions.Move)
    requires ShopOk(s) && Reaches(s, step)
    ensures Transactions.Punctual(s.server, step)
  {
    hide ShopOk;
    if step.Arrive? { PostedIsNotAhead(s, step.input.mutationId); }
  }

  ghost predicate AlwaysOk(s: Shop, moves: seq<Move>) {
    ShopOk(RunFrom(s, moves)) && (moves == [] || AlwaysOk(s, moves[..|moves| - 1]))
  }

  lemma {:induction false} SoundIsAlwaysOk(s: Shop, moves: seq<Move>)
    requires ShopOk(s) && AllSound(s) && SoundRunFrom(s, moves)
    ensures AlwaysOk(s, moves)
  {
    hide ShopOk, AllSound, StampsSoundly;
    SoundRunIsOk(s, moves);
    if moves != [] { SoundIsAlwaysOk(s, moves[..|moves| - 1]); }
  }

  /** What the tills and displays make the server do is a run of transactions with no request ahead. */
  lemma {:induction false} ServerRun(products: map<Id, Product>, moves: seq<Move>)
    requires AlwaysOk(Opening(products), moves)
    ensures var start, steps := Opening(products).server.db, ServerMoves(Opening(products), moves);
      Run(products, moves).server == Transactions.Run(start, steps) && Transactions.PunctualRun(start, steps)
  {
    hide ShopOk, Step, RunFrom, Transactions.Run, Transactions.PunctualRun, ServerMoves, Reaches;
    if moves == [] {
      OpeningServed(products);
    } else {
      ServerRun(products, moves[..|moves| - 1]);
      AlwaysOkNow(Opening(products), moves[..|moves| - 1]);
      OneMoreServed(products, moves);
    }
  }

  lemma OpeningServed(products: map<Id, Product>)
    ensures var start, steps := Opening(products).server.db, ServerMoves(Opening(products), []);
      Run(products, []).server == Transactions.Run(start, steps) && Transactions.PunctualRun(start, steps)
  {
  }

  lemma {:induction false} OneMoreServed(products: map<Id, Product>, moves: seq<Move>)
    requires moves != [] && ShopOk(Run(products, moves[..|moves| - 1]))
    requires var start, steps := Opening(products).server.db, ServerMoves(Opening(products), moves[..|moves| - 1]);
      Run(products, moves[..|moves| - 1]).server == Transactions.Run(start, steps) && Transactions.PunctualRun(start, steps)
    ensures var start, steps := Opening(products).server.db, ServerMoves(Opening(products), moves);
      Run(products, moves).server == Transactions.Run(start, steps) && Transactions.PunctualRun(start, steps)
  {
    hide ShopOk, Step, Transactions.Step, Transactions.Punctual, Reaches;
    var before, move := moves[..|moves| - 1], moves[|moves| - 1];
    var s, steps := Run(products, before), ServerMoves(Opening(products), before);
    ServerStep(s, move);
    if move.Serve? && Reaches(s, move.step) {
      ReachingIsPunctual(s, move.step);
      assert (steps + [move.step])[..|steps|] == steps;
      assert ServerMoves(Opening(products), moves) == steps + [move.step];
    } else {
      assert ServerMoves(Opening(products), moves) == steps;
    }
  }

  lemma AlwaysOkNow(s: Shop, moves: seq<Move>)
    requires AlwaysOk(s, moves)
    ensures ShopOk(RunFrom(s, moves))
  {
  }

  // The server has behaved like the one that takes requests one at a time.
  ghost predicate Serialised(products: map<Id, Product>, moves: seq<Move>) {
    var s, start := Run(products, moves), Opening(products).server.db;
    && GoodDb(s.server.db)
    && s.server.db == Transactions.SerialRun(start, Transactions.Linear(start, ServerMoves(Opening(products), moves)))
  }

  lemma {:induction false} AlwaysOkIsSerial(products: map<Id, Product>, moves: seq<Move>)
    requires AlwaysOk(Opening(products), moves)
    ensures NoneAhead(Run(products, moves)) && Serialised(products, moves)
  {
    var s := Run(products, moves);
    hide ShopOk, Transactions.Run, Transactions.SerialRun, Transactions.Linear, RunFrom, GoodDb, NoneAhead, ServerMoves;
    ServerRun(products, moves);
    AlwaysOkNow(Opening(products), moves);
    NoneIsAhead(s);
    Transactions.SerialRefinement(Opening(products).server.db, ServerMoves(Opening(products), moves));
  }

  /**
   Any tills and displays, lost answers, refusals, torn snapshots, discards, rebases and reloads: as long as
   each row that was stamped left its queue sound, no request on its way carries a version its order has
   not reached, and the server has behaved like the one that takes requests one at a time.
   */
  lemma {:induction false} SoundStampsAreNeverAhead(products: map<Id, Product>, moves: seq<Move>)
    requires SoundRunFrom(Opening(products), moves)
    ensures NoneAhead(Run(products, moves)) && Serialised(products, moves)
  {
    hide ShopOk, AllSound, NoneAhead, Serialised;
    OpeningIsOk(products);
    SoundIsAlwaysOk(Opening(products), moves);
    AlwaysOkIsSerial(products, moves);
  }
}
