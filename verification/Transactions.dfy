/**
 Concurrent transactions over the write path. Each request reads the order row, then its lines, then
 checks, then writes under the version guard, with any other request in between; a process may die
 at any point. The theorems say that this refines `Server.Serial`.
 */
module Transactions {
  import opened Domain
  import opened Server
  import opened ServerInvariants

  datatype Tx =
    | Arrived(input: MutationInput)
    | RowRead(input: MutationInput, row: Option<OrderRow>)
    | Loaded(input: MutationInput, snapshot: Option<Snapshot>)
    | Writing(input: MutationInput, snapshot: Option<Snapshot>, nextStatus: Status)
    | Settling(input: MutationInput)
    | Rejecting(input: MutationInput, verdict: Verdict)
    | Refusing(input: MutationInput, reason: ConflictReason)
    | RowShown(input: MutationInput, reason: ConflictReason, shown: OrderRow)
    | Answered(input: MutationInput, reply: Reply)

  // `commits` is the history of committed mutations, one entry for each outbox event.
  datatype Sys = Sys(db: Db, txs: map<Id, Tx>, commits: seq<MutationInput>)

  datatype Move = Arrive(t: Id, input: MutationInput) | Advance(t: Id) | Vanish(t: Id)

  function Follow(input: MutationInput, snapshot: Option<Snapshot>, verdict: Verdict): Tx {
    match verdict
    case Answer(reply) => Answered(input, reply)
    case Write(nextStatus) => Writing(input, snapshot, nextStatus)
    case Settle => Settling(input)
    case other => Rejecting(input, other)
  }

  datatype Effect = Effect(db: Db, tx: Tx, commits: seq<MutationInput>)

  // After a rollback: a stored result answers for the request; otherwise the refusal goes on to read what
  // is committed, row and lines in two statements with no transaction around them.
  function Lookup(db: Db, input: MutationInput, verdict: Verdict): Tx {
    if verdict.Refuse? && input.mutationId !in db.processed then Refusing(input, verdict.reason)
    else Answered(input, RacedReply(db, input))
  }

  // One statement group of one transaction.
  function Progress(db: Db, tx: Tx): Effect {
    var input := tx.input;
    match tx
    case Arrived(_) =>
      Effect(db, RowRead(input, if input.orderId in db.orders then Some(db.orders[input.orderId]) else None), [])
    case RowRead(_, row) =>
      var snapshot := if row.None? then None
        else Some(SnapshotFrom(input.orderId, row.value, ItemsOf(db, input.orderId)));
      Effect(db, Loaded(input, snapshot), [])
    case Loaded(_, snapshot) => Effect(db, Follow(input, snapshot, Check(db, input, snapshot)), [])
    case Writing(_, snapshot, nextStatus) =>
      (match WriteStep(db, input, snapshot, nextStatus)
       case Committed(after, order) => Effect(after, Answered(input, AppliedReply(order)), [input])
       case RolledBack(verdict) => Effect(db, Follow(input, snapshot, verdict), []))
    case Settling(_) =>
      (match SettleStep(db, input)
       case Settled(after, reply) => Effect(after, Answered(input, reply), [])
       case Unsettled(verdict) => Effect(db, Follow(input, None, verdict), []))
    case Rejecting(_, verdict) => Effect(db, Lookup(db, input, verdict), [])
    case Refusing(_, reason) =>
      var tx' := if input.orderId in db.orders then RowShown(input, reason, db.orders[input.orderId])
        else Answered(input, OrderNotFound);
      Effect(db, tx', [])
    case RowShown(_, reason, row) =>
      var canonical := SnapshotFrom(input.orderId, row, ItemsOf(db, input.orderId));
      Effect(db, Answered(input, ConflictReply(reason, input.baseVersion, canonical)), [])
    case Answered(_, _) => Effect(db, tx, [])
  }

  // A move that is not possible leaves everything as it was.
  function Step(s: Sys, move: Move): Sys {
    match move
    case Arrive(t, input) =>
      if t in s.txs || !ValidInput(input) then s else s.(txs := s.txs[t := Arrived(input)])
    case Advance(t) =>
      if t !in s.txs then s else
      var effect := Progress(s.db, s.txs[t]);
      Sys(effect.db, s.txs[t := effect.tx], s.commits + effect.commits)
    case Vanish(t) => s.(txs := s.txs - {t})
  }

  // The tills' half of the bargain: no request carries a version its order has not reached.
  predicate NotAhead(db: Db, input: MutationInput) {
    input.baseVersion <= CommittedVersion(db, input.orderId)
  }

  predicate Punctual(s: Sys, move: Move) {
    move.Arrive? ==> NotAhead(s.db, move.input)
  }

  function Run(start: Db, moves: seq<Move>): Sys {
    if moves == [] then Sys(start, map[], [])
    else Step(Run(start, moves[..|moves| - 1]), moves[|moves| - 1])
  }

  predicate PunctualRun(start: Db, moves: seq<Move>) {
    moves == [] ||
    (PunctualRun(start, moves[..|moves| - 1])
     && Punctual(Run(start, moves[..|moves| - 1]), moves[|moves| - 1]))
  }

  /* ---- what each transaction may rely on ---- */

  function VersionOf(snapshot: Option<Snapshot>): nat {
    if snapshot.None? then 0 else snapshot.value.version
  }

  // The order was at `version` or later when read, and is still exactly as read if it stands there.
  predicate ReadOk(db: Db, input: MutationInput, snapshot: Option<Snapshot>) {
    && input.baseVersion <= VersionOf(snapshot) <= CommittedVersion(db, input.orderId)
    && (VersionOf(snapshot) == CommittedVersion(db, input.orderId) ==> Load(db, input.orderId) == snapshot)
    && (snapshot.Some? ==> SameOwner(db, input.orderId, snapshot.value.restaurantId))
  }

  predicate SameOwner(db: Db, orderId: Id, restaurantId: Id) {
    orderId in db.orders && db.orders[orderId].restaurantId == restaurantId
  }

  predicate RowOk(db: Db, input: MutationInput, row: Option<OrderRow>) {
    var version := if row.None? then 0 else row.value.version;
    && input.baseVersion <= version <= CommittedVersion(db, input.orderId)
    && (row.None? && CommittedVersion(db, input.orderId) == 0 ==> input.orderId !in db.orders)
    && (row.Some? && version == CommittedVersion(db, input.orderId) ==>
          input.orderId in db.orders && db.orders[input.orderId] == row.value)
    && (row.Some? ==> SameOwner(db, input.orderId, row.value.restaurantId))
  }

  predicate TxOk(db: Db, tx: Tx) {
    && ValidInput(tx.input)
    && (match tx
       case Arrived(input) => NotAhead(db, input)
       case RowRead(input, row) => RowOk(db, input, row)
       case Loaded(input, snapshot) => ReadOk(db, input, snapshot)
       case Writing(input, snapshot, nextStatus) =>
         && ReadOk(db, input, snapshot)
         && (snapshot.Some? ==> snapshot.value.restaurantId == input.restaurantId)
         && (input.command.CreateOrder? || snapshot.Some?)
         && Decide(snapshot, input.command) == Apply(nextStatus)
       case Settling(input) => SameOwner(db, input.orderId, input.restaurantId)
       case Rejecting(input, verdict) => verdict.Refuse? || verdict.Raced?
       case _ => true)
  }

  /* ---- what one committed write leaves true for everybody else ---- */

  // Versions only grow, and an order that keeps its version keeps everything else.
  predicate Later(db: Db, after: Db) {
    && db.items.Keys == db.orders.Keys && after.items.Keys == after.orders.Keys
    && (forall o <- db.orders :: o in after.orders && OrderLater(db, after, o))
    && (forall m <- db.processed :: m in after.processed && after.processed[m] == db.processed[m])
  }

  predicate OrderLater(db: Db, after: Db, o: Id)
    requires o in db.orders && o in after.orders
    requires db.items.Keys == db.orders.Keys && after.items.Keys == after.orders.Keys
  {
    && db.orders[o].version <= after.orders[o].version
    && db.orders[o].restaurantId == after.orders[o].restaurantId
    && (db.orders[o].version == after.orders[o].version ==>
          after.orders[o] == db.orders[o] && after.items[o] == db.items[o])
  }

  lemma CommitAllIsLater(db: Db, input: MutationInput, row: OrderRow, lines: seq<Line>, payments: seq<Payment>)
    requires db.items.Keys == db.orders.Keys && input.mutationId !in db.processed
    requires input.orderId in db.orders ==>
      row.version == db.orders[input.orderId].version + 1 && row.restaurantId == db.orders[input.orderId].restaurantId
    ensures Later(db, CommitAll(db, input, row, lines, payments))
  {
  }

  lemma CommitIsLater(db: Db, input: MutationInput, after: Db)
    requires db.items.Keys == db.orders.Keys && CommitsTo(db, input, after)
    ensures Later(db, after)
  {
    var o := input.orderId;
    var snapshot := Load(db, o);
    var nextStatus := Check(db, input, snapshot).nextStatus;
    if input.command.CreateOrder? {
      CommitAllIsLater(db, input, OrderRow(input.restaurantId, input.command.tableNumber, Open, 1, 0), [], db.payments);
    } else {
      var lines := ChangedLines(db.products, db.items[o], input.command).value;
      CommitAllIsLater(db, input, ChangedRow(db.orders[o], input.command, nextStatus, lines), lines,
        ChangedPayments(db.payments, input, snapshot.value));
    }
  }

  predicate Versioned(db: Db) {
    forall o <- db.orders :: db.orders[o].version > 0
  }

  lemma LaterLoads(db: Db, after: Db, o: Id)
    requires Later(db, after) && Versioned(after)
    ensures CommittedVersion(db, o) <= CommittedVersion(after, o)
    ensures CommittedVersion(db, o) == CommittedVersion(after, o) ==> Load(after, o) == Load(db, o)
  {
    if o in db.orders {
      assert OrderLater(db, after, o);
    }
  }

  lemma LaterKeepsOwner(db: Db, after: Db, o: Id, restaurantId: Id)
    requires Later(db, after) && SameOwner(db, o, restaurantId)
    ensures SameOwner(after, o, restaurantId)
  {
    assert OrderLater(db, after, o);
  }

  lemma LaterKeepsRow(db: Db, after: Db, input: MutationInput, row: Option<OrderRow>)
    requires Later(db, after) && Versioned(after) && RowOk(db, input, row)
    ensures RowOk(after, input, row)
  {
    if input.orderId in db.orders {
      assert OrderLater(db, after, input.orderId);
    }
  }

  lemma LaterKeepsTx(db: Db, after: Db, tx: Tx)
    requires Later(db, after) && Versioned(after) && TxOk(db, tx)
    ensures TxOk(after, tx)
  {
    LaterLoads(db, after, tx.input.orderId);
    match tx
    case RowRead(input, row) => LaterKeepsRow(db, after, input, row);
    case Loaded(input, snapshot) =>
      if snapshot.Some? { LaterKeepsOwner(db, after, input.orderId, snapshot.value.restaurantId); }
    case Writing(input, snapshot, _) =>
      if snapshot.Some? { LaterKeepsOwner(db, after, input.orderId, snapshot.value.restaurantId); }
    case Settling(input) => LaterKeepsOwner(db, after, input.orderId, input.restaurantId);
    case _ =>
  }

  /* ---- each write is the serial one ---- */

  /** A write that gets past the guard is the one `Serial` would make on the database as it now is. */
  lemma WritingIsSerial(db: Db, input: MutationInput, snapshot: Option<Snapshot>, nextStatus: Status)
    requires TxOk(db, Writing(input, snapshot, nextStatus))
    requires WriteStep(db, input, snapshot, nextStatus).Committed?
    ensures var w := WriteStep(db, input, snapshot, nextStatus);
      Serial(db, input) == Result(w.db, AppliedReply(w.order))
    ensures CommitsTo(db, input, WriteStep(db, input, snapshot, nextStatus).db)
  {
    assert Load(db, input.orderId) == snapshot;
    assert Check(db, input, snapshot) == Write(nextStatus);
  }

  lemma SettlingIsSerial(db: Db, input: MutationInput)
    requires TxOk(db, Settling(input)) && SettleStep(db, input).Settled?
    ensures SettleStep(db, input).db == Serial(db, input).db
    ensures input.mutationId !in db.processed ==> SettleStep(db, input).reply == Serial(db, input).reply
    ensures SameTables(db, SettleStep(db, input).db)
    ensures TablesAgree(db) ==> Later(db, SettleStep(db, input).db)
  {
  }

  lemma GoodIsVersioned(db: Db)
    requires GoodDb(db)
    ensures Versioned(db)
  {
    forall o | o in db.orders ensures db.orders[o].version > 0 {
      assert GoodOrderIn(db, o);
    }
  }

  lemma ArrivedIsOk(db: Db, input: MutationInput)
    requires Versioned(db) && TxOk(db, Arrived(input))
    ensures TxOk(db, Progress(db, Arrived(input)).tx)
  {
  }

  // The lines are a second statement: they belong to the row only if its version still stands.
  lemma RowReadIsOk(db: Db, input: MutationInput, row: Option<OrderRow>)
    requires Versioned(db) && TxOk(db, RowRead(input, row))
    ensures TxOk(db, Progress(db, RowRead(input, row)).tx)
  {
  }

  lemma LoadedIsOk(db: Db, input: MutationInput, snapshot: Option<Snapshot>)
    requires TxOk(db, Loaded(input, snapshot))
    ensures TxOk(db, Progress(db, Loaded(input, snapshot)).tx)
  {
  }

  // A write that is rolled back leaves its transaction with an answer still to give.
  lemma RollbackIsOk(db: Db, input: MutationInput, snapshot: Option<Snapshot>, nextStatus: Status)
    requires ValidInput(input) && WriteStep(db, input, snapshot, nextStatus).RolledBack?
    ensures TxOk(db, Follow(input, snapshot, WriteStep(db, input, snapshot, nextStatus).verdict))
  {
  }

  lemma UnsettledIsOk(db: Db, input: MutationInput)
    requires ValidInput(input) && SettleStep(db, input).Unsettled?
    ensures TxOk(db, Follow(input, None, SettleStep(db, input).verdict))
  {
  }

  // What one statement group did is what `Serial` does, and breaks nothing.
  predicate EffectOk(db: Db, input: MutationInput, effect: Effect) {
    && GoodDb(effect.db) && Later(db, effect.db) && TxOk(effect.db, effect.tx)
    && (effect.db != db ==>
          effect.db == Serial(db, input).db && effect.tx == Answered(input, Serial(db, input).reply))
  }

  lemma StillOk(db: Db, input: MutationInput, tx: Tx)
    requires GoodDb(db) && TxOk(db, tx)
    ensures EffectOk(db, input, Effect(db, tx, []))
  {
  }

  lemma {:induction false} CommittedIsOk(db: Db, input: MutationInput, snapshot: Option<Snapshot>, nextStatus: Status)
    requires GoodDb(db) && TxOk(db, Writing(input, snapshot, nextStatus))
    requires WriteStep(db, input, snapshot, nextStatus).Committed?
    ensures var w := WriteStep(db, input, snapshot, nextStatus);
      EffectOk(db, input, Effect(w.db, Answered(input, AppliedReply(w.order)), [input]))
  {
    var after := WriteStep(db, input, snapshot, nextStatus).db;
    WritingIsSerial(db, input, snapshot, nextStatus);
    CommitKeepsGoodDb(db, input, after);
    CommitIsLater(db, input, after);
  }

  lemma {:induction false} SettledIsOk(db: Db, input: MutationInput)
    requires GoodDb(db) && TxOk(db, Settling(input)) && SettleStep(db, input).Settled?
    ensures var after, reply := SettleStep(db, input).db, SettleStep(db, input).reply;
      EffectOk(db, input, Effect(after, Answered(input, reply), []))
  {
    SettlingIsSerial(db, input);
    SameTablesKeepGood(db, SettleStep(db, input).db);
  }

  predicate ProgressOk(db: Db, tx: Tx) {
    EffectOk(db, tx.input, Progress(db, tx))
  }

  lemma {:induction false} WritingIsOk(db: Db, input: MutationInput, snapshot: Option<Snapshot>, nextStatus: Status)
    requires GoodDb(db) && TxOk(db, Writing(input, snapshot, nextStatus))
    ensures ProgressOk(db, Writing(input, snapshot, nextStatus))
  {
    match WriteStep(db, input, snapshot, nextStatus)
    case Committed(_, _) => CommittedIsOk(db, input, snapshot, nextStatus);
    case RolledBack(verdict) =>
      RollbackIsOk(db, input, snapshot, nextStatus);
      StillOk(db, input, Follow(input, snapshot, verdict));
  }

  lemma {:induction false} SettlingIsOk(db: Db, input: MutationInput)
    requires GoodDb(db) && TxOk(db, Settling(input))
    ensures ProgressOk(db, Settling(input))
  {
    match SettleStep(db, input)
    case Settled(_, _) => SettledIsOk(db, input);
    case Unsettled(verdict) =>
      UnsettledIsOk(db, input);
      StillOk(db, input, Follow(input, None, verdict));
  }

  // The answers given after a rollback only read.
  lemma AnsweringIsOk(db: Db, tx: Tx)
    requires tx.Rejecting? || tx.Refusing? || tx.RowShown? || tx.Answered?
    requires TxOk(db, tx)
    ensures Progress(db, tx).db == db && TxOk(db, Progress(db, tx).tx)
  {
    hide SnapshotFrom;
  }

  lemma {:induction false} ProgressIsOk(db: Db, tx: Tx)
    requires GoodDb(db) && TxOk(db, tx)
    ensures ProgressOk(db, tx)
  {
    GoodIsVersioned(db);
    match tx
    case Writing(input, snapshot, nextStatus) => WritingIsOk(db, input, snapshot, nextStatus);
    case Settling(input) => SettlingIsOk(db, input);
    case _ => ReadingIsOk(db, tx);
  }

  lemma {:induction false} ReadingIsOk(db: Db, tx: Tx)
    requires GoodDb(db) && TxOk(db, tx) && Versioned(db) && !tx.Writing? && !tx.Settling?
    ensures ProgressOk(db, tx)
  {
    hide TxOk, GoodDb, Progress, Versioned, EffectOk;
    match tx {
      case Arrived(input) => ArrivedIsOk(db, input);
      case RowRead(input, row) => RowReadIsOk(db, input, row);
      case Loaded(input, snapshot) => LoadedIsOk(db, input, snapshot);
      case _ => AnsweringIsOk(db, tx);
    }
    ReadingWritesNothing(db, tx);
    StillOk(db, tx.input, Progress(db, tx).tx);
  }

  lemma ReadingWritesNothing(db: Db, tx: Tx)
    requires !tx.Writing? && !tx.Settling?
    ensures Progress(db, tx) == Effect(db, Progress(db, tx).tx, []) && Progress(db, tx).tx.input == tx.input
  {
  }

  predicate SysOk(s: Sys) {
    && GoodDb(s.db)
    && (forall t <- s.txs :: TxOk(s.db, s.txs[t]))
  }

  lemma {:induction false} StepKeepsOk(s: Sys, move: Move)
    requires SysOk(s) && Punctual(s, move)
    ensures SysOk(Step(s, move))
  {
    if move.Advance? && move.t in s.txs {
      var effect := Progress(s.db, s.txs[move.t]);
      ProgressIsOk(s.db, s.txs[move.t]);
      GoodIsVersioned(effect.db);
      forall t | t in s.txs && t != move.t ensures TxOk(effect.db, s.txs[t]) {
        LaterKeepsTx(s.db, effect.db, s.txs[t]);
      }
    }
  }

  /* ---- serial refinement over whole runs ---- */

  function SerialRun(start: Db, inputs: seq<MutationInput>): Db {
    if inputs == [] then start
    else Serial(SerialRun(start, inputs[..|inputs| - 1]), inputs[|inputs| - 1]).db
  }

  // The requests of a run in the order in which they changed the database.
  function Linear(start: Db, moves: seq<Move>): seq<MutationInput> {
    if moves == [] then []
    else Linear(start, moves[..|moves| - 1]) + Effective(Run(start, moves[..|moves| - 1]), moves[|moves| - 1])
  }

  function Effective(s: Sys, move: Move): seq<MutationInput> {
    if move.Advance? && move.t in s.txs && Progress(s.db, s.txs[move.t]).db != s.db
    then [s.txs[move.t].input] else []
  }

  lemma {:induction false} StepIsSerial(s: Sys, move: Move)
    requires SysOk(s) && Punctual(s, move)
    ensures SysOk(Step(s, move))
    ensures Step(s, move).db == SerialRun(s.db, Effective(s, move))
  {
    StepKeepsOk(s, move);
    if Effective(s, move) != [] {
      ProgressIsOk(s.db, s.txs[move.t]);
      assert Effective(s, move)[..0] == [];
    }
  }

  lemma {:induction false} SerialRunAppend(start: Db, inputs: seq<MutationInput>, more: seq<MutationInput>)
    requires |more| <= 1
    ensures SerialRun(start, inputs + more) == SerialRun(SerialRun(start, inputs), more)
  {
    if more == [] {
      assert inputs + more == inputs;
    } else {
      assert (inputs + more)[..|inputs|] == inputs && more[..0] == [];
    }
  }

  /**
   Interleaved transactions do what the same requests do one at a time: at every point of every run the
   database is the one that running `Serial` over the effective requests produces, and money and
   history are in order in it.
   */
  lemma {:induction false} SerialRefinement(start: Db, moves: seq<Move>)
    requires GoodDb(start) && PunctualRun(start, moves)
    ensures SysOk(Run(start, moves))
    ensures Run(start, moves).db == SerialRun(start, Linear(start, moves))
  {
    if moves != [] {
      var before, move := moves[..|moves| - 1], moves[|moves| - 1];
      SerialRefinement(start, before);
      StepIsSerial(Run(start, before), move);
      SerialRunAppend(start, Linear(start, before), Effective(Run(start, before), move));
    }
  }
}
