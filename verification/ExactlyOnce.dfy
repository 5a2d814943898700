/**
 Idempotency over every run, whatever versions the clients stamp: one mutation id commits at most once,
 with one event and at most one payment, and stored results only go to the request they answer.
 */
module ExactlyOnce {
  import opened Domain
  import opened Server
  import opened ServerInvariants
  import opened Transactions

  function PaymentIds(payments: seq<Payment>): seq<Id> {
    if payments == [] then []
    else PaymentIds(payments[..|payments| - 1]) + [payments[|payments| - 1].mutationId]
  }

  function PayIds(commits: seq<MutationInput>): seq<Id> {
    if commits == [] then []
    else
      var last := commits[|commits| - 1];
      PayIds(commits[..|commits| - 1]) + if last.command.Pay? then [last.mutationId] else []
  }

  predicate DistinctIds(commits: seq<MutationInput>) {
    forall i, j :: 0 <= i < j < |commits| ==> commits[i].mutationId != commits[j].mutationId
  }

  predicate EventsMatch(outbox: seq<Event>, commits: seq<MutationInput>) {
    && |outbox| == |commits|
    && (forall i :: 0 <= i < |outbox| ==>
          outbox[i].orderId == commits[i].orderId && outbox[i].eventType == EventTypeOf(commits[i].command))
  }

  // The books of a run: one event per commit, one payment per committed PAY, no id twice.
  ghost predicate BooksOk(db: Db, commits: seq<MutationInput>) {
    && DistinctIds(commits)
    && (forall i :: 0 <= i < |commits| ==>
          commits[i].mutationId in db.processed && db.processed[commits[i].mutationId].hash == HashOf(commits[i]))
    && EventsMatch(db.outbox, commits)
    && PaymentIds(db.payments) == PayIds(commits)
    && BumpsMatch(db)
  }

  // Every version an order has reached was reached by one event of its own.
  ghost predicate BumpsMatch(db: Db) {
    forall o: Id :: CommittedVersion(db, o) == |EventsOf(db.outbox, o)|
  }

  // A stored result is handed to the request it was stored for; any other ALREADY_APPLIED is true of
  // the order it carries.
  predicate AnswerOk(db: Db, tx: Tx) {
    && (tx.Answered? && tx.reply.AppliedReply? ==>
          && tx.input.mutationId in db.processed
          && db.processed[tx.input.mutationId].hash == HashOf(tx.input)
          && db.processed[tx.input.mutationId].order == tx.reply.order)
    && (tx.Answered? && tx.reply.AlreadyAppliedReply? ==>
          || StoredFor(db, tx.input, tx.reply.order)
          || Decide(Some(tx.reply.order), tx.input.command) == AlreadyApplied)
  }

  predicate StoredFor(db: Db, input: MutationInput, order: Snapshot) {
    && input.mutationId in db.processed
    && db.processed[input.mutationId].hash == HashOf(input)
    && db.processed[input.mutationId].order == order
  }

  predicate AppliedBy(s: Sys, t: Id) {
    t in s.txs && s.txs[t].Answered? && s.txs[t].reply.AppliedReply?
  }

  ghost predicate IdsOk(s: Sys) {
    && BooksOk(s.db, s.commits)
    && (forall t <- s.txs :: AnswerOk(s.db, s.txs[t]))
    && (forall t, u :: AppliedBy(s, t) && AppliedBy(s, u) && s.txs[t].input.mutationId == s.txs[u].input.mutationId ==> t == u)
  }

  lemma CommitKeepsBumps(db: Db, input: MutationInput, row: OrderRow, lines: seq<Line>, payments: seq<Payment>)
    requires BumpsMatch(db) && row.version == CommittedVersion(db, input.orderId) + 1
    ensures BumpsMatch(CommitAll(db, input, row, lines, payments))
  {
    var event := EventOf(|db.outbox|, input, SnapshotFrom(input.orderId, row, lines));
    forall o: Id ensures CommittedVersion(CommitAll(db, input, row, lines, payments), o) == |EventsOf(db.outbox + [event], o)| {
      EventsOfAppend(db.outbox, event, o);
    }
  }

  lemma CommitKeepsBooks(db: Db, commits: seq<MutationInput>, input: MutationInput, row: OrderRow, lines: seq<Line>,
      payments: seq<Payment>)
    requires BooksOk(db, commits) && input.mutationId !in db.processed
    requires row.version == CommittedVersion(db, input.orderId) + 1
    requires PaymentIds(payments) == PaymentIds(db.payments) + if input.command.Pay? then [input.mutationId] else []
    ensures BooksOk(CommitAll(db, input, row, lines, payments), commits + [input])
  {
    assert (commits + [input])[..|commits|] == commits;
    CommitKeepsBumps(db, input, row, lines, payments);
  }

  // What a committed write is, as far as the books can tell.
  predicate IsCommit(db: Db, input: MutationInput, row: OrderRow, lines: seq<Line>, payments: seq<Payment>, after: Db) {
    && after == CommitAll(db, input, row, lines, payments) && input.mutationId !in db.processed
    && row.version == CommittedVersion(db, input.orderId) + 1
    && PaymentIds(payments) == PaymentIds(db.payments) + if input.command.Pay? then [input.mutationId] else []
  }

  lemma WriteIsCommit(db: Db, input: MutationInput, snapshot: Option<Snapshot>, nextStatus: Status)
    returns (row: OrderRow, lines: seq<Line>, payments: seq<Payment>)
    requires WriteStep(db, input, snapshot, nextStatus).Committed?
    ensures IsCommit(db, input, row, lines, payments, WriteStep(db, input, snapshot, nextStatus).db)
  {
    if input.command.CreateOrder? {
      row, lines, payments := OrderRow(input.restaurantId, input.command.tableNumber, Open, 1, 0), [], db.payments;
    } else {
      lines := ChangedLines(db.products, ItemsOf(db, input.orderId), input.command).value;
      row := ChangedRow(db.orders[input.orderId], input.command, nextStatus, lines);
      payments := ChangedPayments(db.payments, input, snapshot.value);
      assert input.command.Pay? ==> payments[..|db.payments|] == db.payments;
    }
  }

  lemma {:induction false} WriteKeepsBooks(db: Db, commits: seq<MutationInput>, input: MutationInput,
      snapshot: Option<Snapshot>, nextStatus: Status)
    requires BooksOk(db, commits) && WriteStep(db, input, snapshot, nextStatus).Committed?
    ensures BooksOk(WriteStep(db, input, snapshot, nextStatus).db, commits + [input])
  {
    hide BooksOk, WriteStep, PaymentIds, CommitAll;
    var row, lines, payments := WriteIsCommit(db, input, snapshot, nextStatus);
    CommitKeepsBooks(db, commits, input, row, lines, payments);
  }

  // What one transaction's step does to the ids: nothing recorded is ever rewritten.
  ghost predicate ProgressKeepsIds(db: Db, commits: seq<MutationInput>, tx: Tx, effect: Effect) {
    && BooksOk(effect.db, commits + effect.commits)
    && (forall m <- db.processed :: m in effect.db.processed && effect.db.processed[m] == db.processed[m])
    && AnswerOk(effect.db, effect.tx)
    && effect.tx.input == tx.input
    && (effect.tx.Answered? && effect.tx.reply.AppliedReply? && effect.tx != tx ==> tx.input.mutationId !in db.processed)
  }

  lemma CommitRecords(db: Db, input: MutationInput, snapshot: Option<Snapshot>, nextStatus: Status)
    ensures var w := WriteStep(db, input, snapshot, nextStatus);
      w.Committed? ==> w.db.processed == db.processed[input.mutationId := Processed(HashOf(input), input.terminalId, w.order)]
    ensures var w := WriteStep(db, input, snapshot, nextStatus);
      w.RolledBack? && w.verdict.Answer? ==> !w.verdict.reply.AppliedReply? && !w.verdict.reply.AlreadyAppliedReply?
  {
  }

  lemma {:induction false} WriteIds(db: Db, commits: seq<MutationInput>, input: MutationInput,
      snapshot: Option<Snapshot>, nextStatus: Status)
    requires BooksOk(db, commits)
    ensures ProgressKeepsIds(db, commits, Writing(input, snapshot, nextStatus), Progress(db, Writing(input, snapshot, nextStatus)))
  {
    hide WriteStep, BooksOk, HashOf;
    CommitRecords(db, input, snapshot, nextStatus);
    if WriteStep(db, input, snapshot, nextStatus).Committed? {
      WriteKeepsBooks(db, commits, input, snapshot, nextStatus);
    } else {
      assert commits + [] == commits;
    }
  }

  lemma SettleKeepsBooks(db: Db, commits: seq<MutationInput>, input: MutationInput)
    requires BooksOk(db, commits) && SettleStep(db, input).Settled?
    ensures BooksOk(SettleStep(db, input).db, commits)
  {
    var after := SettleStep(db, input).db;
    forall o: Id ensures CommittedVersion(after, o) == |EventsOf(after.outbox, o)| {
      assert CommittedVersion(after, o) == CommittedVersion(db, o);
    }
  }

  lemma SettleIds(db: Db, commits: seq<MutationInput>, input: MutationInput)
    requires BooksOk(db, commits)
    ensures ProgressKeepsIds(db, commits, Settling(input), Progress(db, Settling(input)))
  {
    assert commits + [] == commits;
    if SettleStep(db, input).Settled? {
      SettleKeepsBooks(db, commits, input);
    }
  }

  lemma ProgressIds(db: Db, commits: seq<MutationInput>, tx: Tx)
    requires BooksOk(db, commits) && AnswerOk(db, tx)
    ensures ProgressKeepsIds(db, commits, tx, Progress(db, tx))
  {
    hide BooksOk;
    match tx
    case Writing(input, snapshot, nextStatus) => WriteIds(db, commits, input, snapshot, nextStatus);
    case Settling(input) => SettleIds(db, commits, input);
    case _ => assert commits + [] == commits;
  }

  lemma {:induction false} StepKeepsIds(s: Sys, move: Move)
    requires IdsOk(s)
    ensures IdsOk(Step(s, move))
  {
    hide Progress, BooksOk;
    if move.Advance? && move.t in s.txs {
      ProgressIds(s.db, s.commits, s.txs[move.t]);
    }
  }

  /**
   Across retries, twins in flight at once and dead processes: each mutation id commits at most once, with
   exactly one event and, for a payment, exactly one payment; at most one caller hears APPLIED for it; and
   every ALREADY_APPLIED is either the result stored for that very request or true of the order it returns.
   */
  lemma {:induction false} EachIdOnce(start: Db, moves: seq<Move>)
    requires BooksOk(start, [])
    ensures IdsOk(Run(start, moves))
  {
    if moves != [] {
      EachIdOnce(start, moves[..|moves| - 1]);
      StepKeepsIds(Run(start, moves[..|moves| - 1]), moves[|moves| - 1]);
    }
  }
}
