/**
 A refusal is final: once a request has been refused, neither the attempt that was refused nor any other
 attempt of the same request has been or will be committed, whoever moves the order on and however.
 */
module Refusals {
  import opened Domain
  import opened Server
  import opened ServerInvariants
  import opened Transactions

  // The answers a till halts its queue for; an internal error is one it tries again after.
  predicate IsRefusal(reply: Reply) {
    !reply.AppliedReply? && !reply.AlreadyAppliedReply? && !reply.InternalError?
  }

  // No commit can come of the request as the order stands, and its version is not one still to be reached.
  predicate IsBlocked(db: Db, input: MutationInput) {
    && input.baseVersion <= CommittedVersion(db, input.orderId)
    && (|| !ValidInput(input)
        || input.baseVersion < CommittedVersion(db, input.orderId)
        || (input.orderId !in db.orders && !input.command.CreateOrder?)
        || !Decide(Load(db, input.orderId), input.command).Apply?
        || (input.command.AddItem? && input.command.productId !in db.products)
        || (input.orderId in db.orders && db.orders[input.orderId].restaurantId != input.restaurantId))
  }

  // It has not been committed, and cannot be any more.
  predicate IsOver(s: Sys, input: MutationInput) {
    input !in s.commits && (IsBlocked(s.db, input) || input.mutationId in s.db.processed)
  }

  // Whatever was committed was the owner's and named a product of the catalogue.
  predicate CommitFine(db: Db, input: MutationInput) {
    && SameOwner(db, input.orderId, input.restaurantId)
    && (input.command.AddItem? ==> input.command.productId in db.products)
    && input.mutationId in db.processed && db.processed[input.mutationId].hash == HashOf(input)
  }

  predicate TxOver(s: Sys, tx: Tx) {
    match tx
    case Settling(input) => IsBlocked(s.db, input)
    case Rejecting(input, verdict) => verdict.Refuse? ==> IsBlocked(s.db, input)
    case Refusing(input, _) => IsOver(s, input)
    case RowShown(input, _, _) => IsOver(s, input)
    case Answered(input, reply) => IsRefusal(reply) ==> IsOver(s, input)
    case _ => true
  }

  predicate AllOver(s: Sys) {
    && (forall input <- s.commits :: CommitFine(s.db, input))
    && (forall t <- s.txs :: TxOver(s, s.txs[t]))
  }

  /* ---- what others do leaves it so ---- */

  lemma LaterStaysBlocked(db: Db, after: Db, input: MutationInput)
    requires Later(db, after) && Versioned(after) && after.products == db.products && IsBlocked(db, input)
    ensures IsBlocked(after, input)
  {
    LaterLoads(db, after, input.orderId);
    if input.orderId in db.orders { assert OrderLater(db, after, input.orderId); }
    hide Decide;
  }

  lemma CommitIsNotBlocked(db: Db, input: MutationInput, after: Db)
    requires ValidInput(input) && CommitsTo(db, input, after)
    ensures !IsBlocked(db, input) && input.mutationId !in db.processed
    ensures CommitFine(after, input) && after.products == db.products
  {
    hide Decide;
  }

  lemma LaterStaysFine(db: Db, after: Db, input: MutationInput)
    requires Later(db, after) && after.products == db.products && CommitFine(db, input)
    ensures CommitFine(after, input)
  {
    LaterKeepsOwner(db, after, input.orderId, input.restaurantId);
  }

  // One effect of one transaction, seen by a request that is over or blocked.
  predicate Moved(s: Sys, after: Sys, input: MutationInput) {
    && Later(s.db, after.db) && Versioned(after.db) && after.db.products == s.db.products
    && (after.commits == s.commits
        || (after.commits == s.commits + [input] && !IsBlocked(s.db, input) && input.mutationId !in s.db.processed))
  }

  lemma MovedStaysOver(s: Sys, after: Sys, input: MutationInput, other: MutationInput)
    requires Moved(s, after, input) && IsOver(s, other)
    ensures IsOver(after, other)
  {
    if IsBlocked(s.db, other) { LaterStaysBlocked(s.db, after.db, other); }
    hide IsBlocked;
  }

  lemma MovedStaysTxOver(s: Sys, after: Sys, input: MutationInput, tx: Tx)
    requires Moved(s, after, input) && TxOver(s, tx)
    ensures TxOver(after, tx)
  {
    if IsBlocked(s.db, tx.input) { LaterStaysBlocked(s.db, after.db, tx.input); }
    if IsOver(s, tx.input) { MovedStaysOver(s, after, input, tx.input); }
    hide IsBlocked, IsOver, Moved;
  }

  /* ---- a transaction's own way to a refusal ---- */

  lemma UncommittedUnlessStored(s: Sys, input: MutationInput)
    requires AllOver(s)
    ensures input.mutationId !in s.db.processed ==> input !in s.commits
    ensures input.mutationId in s.db.processed && s.db.processed[input.mutationId].hash != HashOf(input) ==> IsOver(s, input)
    ensures input.orderId in s.db.orders && s.db.orders[input.orderId].restaurantId != input.restaurantId ==> input !in s.commits
    ensures input.command.AddItem? && input.command.productId !in s.db.products ==> input !in s.commits
  {
    if input in s.commits { assert CommitFine(s.db, input); }
  }

  lemma CheckedIsOver(s: Sys, input: MutationInput, snapshot: Option<Snapshot>)
    requires AllOver(s) && TxOk(s.db, Loaded(input, snapshot))
    ensures TxOver(s, Progress(s.db, Loaded(input, snapshot)).tx)
  {
    UncommittedUnlessStored(s, input);
    hide Decide, AllOver;
  }

  lemma RolledBackIsOver(s: Sys, input: MutationInput, snapshot: Option<Snapshot>, nextStatus: Status)
    requires AllOver(s) && Versioned(s.db) && TxOk(s.db, Writing(input, snapshot, nextStatus))
    requires WriteStep(s.db, input, snapshot, nextStatus).RolledBack?
    ensures TxOver(s, Progress(s.db, Writing(input, snapshot, nextStatus)).tx)
  {
    UncommittedUnlessStored(s, input);
    hide Decide, AllOver, ChangedRow, ChangedPayments;
  }

  lemma UnsettledIsOver(s: Sys, input: MutationInput)
    requires TxOk(s.db, Settling(input)) && IsBlocked(s.db, input)
    ensures Progress(s.db, Settling(input)).tx.Answered? ==> !IsRefusal(Progress(s.db, Settling(input)).tx.reply)
    ensures Progress(s.db, Settling(input)).tx.Rejecting? || Progress(s.db, Settling(input)).tx.Answered?
  {
    hide Decide, IsBlocked;
  }

  lemma AnswerIsOver(s: Sys, tx: Tx)
    requires AllOver(s) && TxOver(s, tx) && TxOk(s.db, tx)
    requires tx.Rejecting? || tx.Refusing? || tx.RowShown? || tx.Answered?
    ensures TxOver(s, Progress(s.db, tx).tx)
  {
    UncommittedUnlessStored(s, tx.input);
    hide IsBlocked, AllOver;
  }

  /* ---- steps ---- */

  lemma ProgressMoves(s: Sys, tx: Tx)
    requires SysOk(s) && TxOk(s.db, tx)
    ensures var effect := Progress(s.db, tx);
      && Moved(s, Sys(effect.db, s.txs, s.commits + effect.commits), tx.input)
      && (effect.commits != [] ==>
            && effect.commits == [tx.input] && CommitFine(effect.db, tx.input)
            && effect.tx.Answered? && !IsRefusal(effect.tx.reply))
  {
    hide IsBlocked, GoodDb, CommitFine, Progress, TxOk, IsRefusal;
    ProgressIsOk(s.db, tx);
    GoodIsVersioned(Progress(s.db, tx).db);
    if tx.Writing? {
      WritingMoves(s, tx.input, tx.snapshot, tx.nextStatus);
    } else {
      QuietMoves(s.db, tx);
      assert s.commits + [] == s.commits;
    }
  }

  lemma QuietMoves(db: Db, tx: Tx)
    requires !tx.Writing?
    ensures Progress(db, tx).commits == [] && Progress(db, tx).db.products == db.products
  {
  }

  lemma WritingMoves(s: Sys, input: MutationInput, snapshot: Option<Snapshot>, nextStatus: Status)
    requires TxOk(s.db, Writing(input, snapshot, nextStatus))
    ensures var effect := Progress(s.db, Writing(input, snapshot, nextStatus));
      && effect.db.products == s.db.products
      && (effect.commits == [] || effect.commits == [input])
      && (effect.commits != [] ==>
            && !IsBlocked(s.db, input) && input.mutationId !in s.db.processed && CommitFine(effect.db, input)
            && effect.tx.Answered? && !IsRefusal(effect.tx.reply))
  {
    assert ValidInput(input);
    if WriteStep(s.db, input, snapshot, nextStatus).Committed? {
      WritingIsSerial(s.db, input, snapshot, nextStatus);
      CommitIsNotBlocked(s.db, input, WriteStep(s.db, input, snapshot, nextStatus).db);
    }
    hide IsBlocked, WriteStep, CommitsTo, CommitFine, Serial, ValidInput, TxOk;
  }

  // The transaction that moves is itself not on its way to a refusal that could be wrong.
  lemma {:induction false} OwnIsOver(s: Sys, tx: Tx)
    requires SysOk(s) && AllOver(s) && TxOk(s.db, tx) && TxOver(s, tx)
    requires Progress(s.db, tx).commits == []
    ensures TxOver(Sys(Progress(s.db, tx).db, s.txs, s.commits), Progress(s.db, tx).tx)
  {
    GoodIsVersioned(s.db);
    hide AllOver, TxOk, GoodDb, IsBlocked, SysOk;
    match tx {
      case Loaded(input, snapshot) => CheckedIsOver(s, input, snapshot);
      case Writing(input, snapshot, nextStatus) =>
        if WriteStep(s.db, input, snapshot, nextStatus).RolledBack? { RolledBackIsOver(s, input, snapshot, nextStatus); }
      case Settling(input) => SettledIsOver(s, input);
      case Arrived(_) =>
      case RowRead(_, _) =>
      case _ => AnswerIsOver(s, tx);
    }
    OnlyWritesWrite(s.db, tx);
    hide Progress, TxOver, WriteStep;
  }

  lemma OnlyWritesWrite(db: Db, tx: Tx)
    requires Progress(db, tx).commits == []
    ensures Progress(db, tx).db == db || (tx.Settling? && Progress(db, tx).tx.Answered?)
  {
    hide WriteStep;
  }

  lemma SettledIsOver(s: Sys, input: MutationInput)
    requires TxOk(s.db, Settling(input)) && IsBlocked(s.db, input)
    ensures var effect := Progress(s.db, Settling(input));
      TxOver(Sys(effect.db, s.txs, s.commits), effect.tx) && TxOver(s, effect.tx)
  {
    UnsettledIsOver(s, input);
    hide Decide, IsOver;
  }

  lemma {:induction false} AdvanceKeepsOver(s: Sys, t: Id)
    requires SysOk(s) && AllOver(s) && t in s.txs
    ensures AllOver(Step(s, Advance(t)))
  {
    var tx, after := s.txs[t], Step(s, Advance(t));
    hide TxOk, TxOver, GoodDb, Progress, CommitFine;
    ProgressMoves(s, tx);
    var effect := Progress(s.db, tx);
    var moved := Sys(effect.db, s.txs, s.commits + effect.commits);
    forall u | u in after.txs ensures TxOver(after, after.txs[u]) {
      if u != t {
        MovedStaysTxOver(s, moved, tx.input, s.txs[u]);
        SameOver(moved, after, s.txs[u]);
      } else if effect.commits == [] {
        assert s.commits + [] == s.commits;
        OwnIsOver(s, tx);
        SameOver(moved, after, effect.tx);
      } else {
        AnsweredIsOver(after, effect.tx);
      }
    }
    forall input | input in after.commits ensures CommitFine(after.db, input) {
      if input in s.commits { LaterStaysFine(s.db, after.db, input); }
    }
  }

  lemma SameOver(s: Sys, after: Sys, tx: Tx)
    requires after.db == s.db && after.commits == s.commits && TxOver(s, tx)
    ensures TxOver(after, tx)
  {
    hide IsBlocked;
  }

  lemma AnsweredIsOver(s: Sys, tx: Tx)
    requires tx.Answered? && !IsRefusal(tx.reply)
    ensures TxOver(s, tx)
  {
  }

  lemma {:induction false} StepKeepsOver(s: Sys, move: Move)
    requires SysOk(s) && AllOver(s)
    ensures AllOver(Step(s, move))
  {
    hide GoodDb, TxOk, Progress, CommitFine;
    if move.Advance? && move.t in s.txs {
      hide SysOk, AllOver, Step;
      AdvanceKeepsOver(s, move.t);
    } else {
      var after := Step(s, move);
      forall u | u in after.txs ensures TxOver(after, after.txs[u]) {
        if u in s.txs && after.txs[u] == s.txs[u] { SameOver(s, after, s.txs[u]); }
      }
    }
  }

  /** What is over stays over, whatever the server does next. */
  lemma {:induction false} StepStaysOver(s: Sys, move: Move, input: MutationInput)
    requires SysOk(s) && IsOver(s, input)
    ensures IsOver(Step(s, move), input)
  {
    hide GoodDb, TxOk, Progress, IsBlocked;
    if move.Advance? && move.t in s.txs {
      ProgressMoves(s, s.txs[move.t]);
      var effect := Progress(s.db, s.txs[move.t]);
      hide SysOk;
      MovedStaysOver(s, Sys(effect.db, s.txs, s.commits + effect.commits), s.txs[move.t].input, input);
      hide Moved;
    }
  }

  lemma {:induction false} RunIsOver(start: Db, moves: seq<Move>)
    requires GoodDb(start) && PunctualRun(start, moves)
    ensures SysOk(Run(start, moves)) && AllOver(Run(start, moves))
  {
    hide SysOk, AllOver, Punctual, Step;
    if moves == [] {
      OpeningIsOver(start);
    } else {
      RunIsOver(start, moves[..|moves| - 1]);
      StepKeepsOver(Run(start, moves[..|moves| - 1]), moves[|moves| - 1]);
      StepKeepsOk(Run(start, moves[..|moves| - 1]), moves[|moves| - 1]);
    }
  }

  lemma OpeningIsOver(start: Db)
    requires GoodDb(start)
    ensures SysOk(Sys(start, map[], [])) && AllOver(Sys(start, map[], []))
  {
  }

  /**
   A request that was refused has not been committed by any of its attempts, and never will be: neither
   one that is still in flight nor one that is sent again.
   */
  lemma {:induction false} RefusalIsFinal(start: Db, moves: seq<Move>, t: Id, more: seq<Move>)
    requires GoodDb(start) && PunctualRun(start, moves + more)
    requires var s := Run(start, moves); t in s.txs && s.txs[t].Answered? && IsRefusal(s.txs[t].reply)
    ensures var input := Run(start, moves).txs[t].input;
      input !in Run(start, moves).commits && IsOver(Run(start, moves + more), input)
    decreases |more|
  {
    hide GoodDb, Step, IsBlocked, Punctual;
    var all := moves + more;
    if more == [] {
      assert all == moves;
      RunIsOver(start, moves);
      assert TxOver(Run(start, moves), Run(start, moves).txs[t]);
    } else {
      var before := moves + more[..|more| - 1];
      assert all[..|all| - 1] == before;
      RefusalIsFinal(start, moves, t, more[..|more| - 1]);
      RunIsOver(start, before);
      StepStaysOver(Run(start, before), all[|all| - 1], Run(start, moves).txs[t].input);
    }
  }
}
