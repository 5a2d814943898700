/**
 Any number of tills and kitchen displays against the concurrent server: snapshots shown and saved, rows
 staged, posted and answered, lost answers, refusals, discards, rebases, reloads, in any order; and the
 part of the invariant that needs no care from anybody.
 */
module Shops {
  import opened Domain
  import opened ProjectQueue
  import opened Server
  import opened ServerInvariants
  import opened Chains
  import opened Reach
  import opened QueueChain
  import opened TillRules
  import Kitchen
  import Transactions

  // One terminal's work on one order.
  datatype Key = Key(terminalId: Id, orderId: Id)

  // What it shows of the order, what it has saved of it, its rows on disk in queue order, and the version
  // its rebase would send next while one is running.
  datatype Till = Till(shown: Option<Snapshot>, saved: Option<Snapshot>, queue: seq<Row>, rebase: Option<nat>)

  // Who made a mutation id: a kitchen display, or a till for one of its operator's intents.
  datatype Origin = Display | Intent(k: Key, n: nat)

  // `history`, `postedAt`, `minted`, `intents` and `discarded` record what happened: the versions each order
  // has had, how many of them when a request was first posted, whose each id is, and the intents given up.
  datatype Shop = Shop(
    server: Transactions.Sys, history: map<Id, seq<Version>>, posted: map<Id, MutationInput>,
    postedAt: map<Id, nat>, minted: map<Id, Origin>, intents: nat, discarded: set<nat>, tills: map<Key, Till>)

  datatype Move =
    | Serve(step: Transactions.Move)
    | Show(k: Key, version: nat, lines: nat)
    | Save(k: Key, version: nat, lines: nat)
    | Reload(k: Key)
    | Leave(k: Key)
    | Forget(k: Key)
    | Stage(k: Key, id: Id, restaurantId: Id, command: Command, stamp: nat, menu: Menu)
    | Post(k: Key)
    | Drop(k: Key, t: Id)
    | Halt(k: Key)
    | Discard(k: Key)
    | StartRebase(k: Key)
    | Reissue(k: Key, id: Id)
    | PostReissued(k: Key)
    | Carry(k: Key, t: Id)
    | StopRebase(k: Key)
    | PostFromKitchen(id: Id, k: Key, log: seq<nat>, command: Command)

  function HistoryOf(s: Shop, orderId: Id): seq<Version> {
    if orderId in s.history then s.history[orderId] else []
  }

  const EMPTY_TILL := Till(None, None, [], None)

  function TillOf(s: Shop, k: Key): Till {
    if k in s.tills then s.tills[k] else EMPTY_TILL
  }

  // The version of what is shown or saved.
  function Held(view: Option<Snapshot>): nat {
    NextBaseVersion(view)
  }

  predicate IsFresh(s: Shop, id: Id) {
    id !in s.minted
  }

  function OriginOf(s: Shop, id: Id): Origin {
    if id in s.minted then s.minted[id] else Display
  }

  function WithTill(s: Shop, k: Key, till: Till): Shop {
    s.(tills := s.tills[k := till])
  }

  function PostHead(s: Shop, k: Key): Shop
    requires TillOf(s, k).queue != []
  {
    var head := TillOf(s, k).queue[0];
    s.(posted := s.posted[head.mutationId := RequestOf(head)],
       postedAt := if head.mutationId in s.posted then s.postedAt
         else s.postedAt[head.mutationId := |HistoryOf(s, head.orderId)|])
  }

  predicate IsSuccess(s: Shop, t: Id, id: Id) {
    && t in s.server.txs && s.server.txs[t].Answered? && s.server.txs[t].input.mutationId == id
    && (s.server.txs[t].reply.AppliedReply? || s.server.txs[t].reply.AlreadyAppliedReply?)
  }

  // `haltQueue`: the head is in conflict, everything behind it is blocked.
  function Halted(queue: seq<Row>): seq<Row>
    requires queue != []
  {
    [queue[0].(status := ConflictRow)] + seq(|queue| - 1, i requires 0 <= i < |queue| - 1 => queue[i + 1].(status := Blocked))
  }

  predicate Reaches(s: Shop, step: Transactions.Move) {
    step.Arrive? ==> step.input.mutationId in s.posted && s.posted[step.input.mutationId] == step.input
  }

  function ServeStep(s: Shop, step: Transactions.Move): Shop {
    if !Reaches(s, step) then s
    else
      var server := Transactions.Step(s.server, step);
      var history :=
        if |server.commits| == |s.server.commits| then s.history
        else Recorded(s, server.db, server.commits[|server.commits| - 1]);
      s.(server := server, history := history)
  }

  function Recorded(s: Shop, db: Db, input: MutationInput): map<Id, seq<Version>> {
    var order := Load(db, input.orderId);
    if order.None? then s.history
    else s.history[input.orderId := HistoryOf(s, input.orderId) + [Version(order.value, input.command)]]
  }

  // A snapshot of the order as it once was, torn or whole, comes in however late; an older one is refused.
  predicate Arrives(s: Shop, k: Key, view: Option<Snapshot>, version: nat, lines: nat) {
    1 <= version <= lines <= |HistoryOf(s, k.orderId)| && Held(view) <= version
  }

  function ShowStep(s: Shop, k: Key, version: nat, lines: nat): Shop {
    var till := TillOf(s, k);
    if Arrives(s, k, till.shown, version, lines)
    then WithTill(s, k, till.(shown := Some(Seen(HistoryOf(s, k.orderId), version, lines)))) else s
  }

  function SaveStep(s: Shop, k: Key, version: nat, lines: nat): Shop {
    var till := TillOf(s, k);
    if Arrives(s, k, till.saved, version, lines)
    then WithTill(s, k, till.(saved := Some(Seen(HistoryOf(s, k.orderId), version, lines)))) else s
  }

  // The cache is pruned only of orders with nothing queued.
  function ForgetStep(s: Shop, k: Key): Shop {
    var till := TillOf(s, k);
    if till.queue == [] then WithTill(s, k, till.(saved := None)) else s
  }

  // The operator's command is stamped at the projected version of what is shown. Nothing is staged during a halt.
  function StageStep(s: Shop, k: Key, id: Id, restaurantId: Id, command: Command, stamp: nat, menu: Menu): Shop {
    var till := TillOf(s, k);
    if !IsFresh(s, id) || !IsSendable(till.queue) then s
    else
      var version := NextBaseVersion(Project(till.shown, till.queue, menu));
      var row := Row(id, restaurantId, k.terminalId, k.orderId, version, command, stamp, Pending);
      WithTill(s, k, till.(queue := till.queue + [row])).(minted := s.minted[id := Intent(k, s.intents)], intents := s.intents + 1)
  }

  function PostStep(s: Shop, k: Key): Shop {
    if TillOf(s, k).queue != [] && IsSendable(TillOf(s, k).queue) then PostHead(s, k) else s
  }

  // The answer is back and what it carries has been saved.
  function DropStep(s: Shop, k: Key, t: Id): Shop {
    var till := TillOf(s, k);
    if till.queue != [] && IsSuccess(s, t, till.queue[0].mutationId) && s.server.txs[t].reply.order.version <= Held(till.saved)
    then WithTill(s, k, till.(queue := till.queue[1..])) else s
  }

  function HaltStep(s: Shop, k: Key): Shop {
    var till := TillOf(s, k);
    if till.queue != [] then WithTill(s, k, till.(queue := Halted(till.queue))) else s
  }

  function IntentsIn(s: Shop, rows: seq<Row>): set<nat> {
    set row <- rows | OriginOf(s, row.mutationId).Intent? :: OriginOf(s, row.mutationId).n
  }

  function DiscardStep(s: Shop, k: Key): Shop {
    var till := TillOf(s, k);
    WithTill(s, k, till.(queue := [])).(discarded := s.discarded + IntentsIn(s, till.queue))
  }

  // A rebase starts from the version shown.
  function StartRebaseStep(s: Shop, k: Key): Shop {
    var till := TillOf(s, k);
    if IsSendable(till.queue) then s else WithTill(s, k, till.(rebase := Some(Held(till.shown))))
  }

  // The head, for the same intent, with a new id and at the version the rebase is at; 0 for a creation.
  function ReissueStep(s: Shop, k: Key, id: Id): Shop {
    var till := TillOf(s, k);
    if !IsFresh(s, id) || till.rebase.None? || till.queue == [] then s
    else
      var head := till.queue[0];
      var reissued := head.(mutationId := id, status := Pending,
                            baseVersion := if head.command.CreateOrder? then 0 else till.rebase.value);
      WithTill(s, k, till.(queue := [reissued] + till.queue[1..])).(minted := s.minted[id := OriginOf(s, head.mutationId)])
  }

  function PostReissuedStep(s: Shop, k: Key): Shop {
    var till := TillOf(s, k);
    if till.rebase.Some? && till.queue != [] && till.queue[0].status == Pending then PostHead(s, k) else s
  }

  // The rebase goes on at the version an answer to one of this till's requests carried, saved before that.
  function CarryStep(s: Shop, k: Key, t: Id): Shop {
    var till := TillOf(s, k);
    if till.rebase.Some? && t in s.server.txs && s.server.txs[t].input.orderId == k.orderId
       && IsSuccess(s, t, s.server.txs[t].input.mutationId) && s.server.txs[t].reply.order.version <= Held(till.saved)
    then WithTill(s, k, till.(rebase := Some(s.server.txs[t].reply.order.version))) else s
  }

  // A display sends for a ticket it was shown at some moment, built from whatever events had come by then,
  // at the version of the last of them.
  function PostFromKitchenStep(s: Shop, id: Id, k: Key, log: seq<nat>, command: Command): Shop {
    if !IsFresh(s, id) || !(command.StartPreparing? || command.MarkReady?) || !Kitchen.InOutbox(s.server.db.outbox, log) then s
    else
      var ticket := Kitchen.TicketIn(Kitchen.ConsumeAll(s.server.db.outbox, log), k.orderId);
      if ticket.None? then s
      else
        var input := MutationInput(k.orderId, id, k.terminalId, ticket.value.restaurantId, ticket.value.sourceEventVersion, command);
        s.(minted := s.minted[id := Display], posted := s.posted[id := input],
           postedAt := s.postedAt[id := |HistoryOf(s, k.orderId)|])
  }

  function Step(s: Shop, move: Move): Shop {
    match move
    case Serve(step) => ServeStep(s, step)
    case Show(k, version, lines) => ShowStep(s, k, version, lines)
    case Save(k, version, lines) => SaveStep(s, k, version, lines)
    case Reload(k) => WithTill(s, k, TillOf(s, k).(shown := TillOf(s, k).saved))
    case Leave(k) => WithTill(s, k, TillOf(s, k).(shown := None))
    case Forget(k) => ForgetStep(s, k)
    case Stage(k, id, restaurantId, command, stamp, menu) => StageStep(s, k, id, restaurantId, command, stamp, menu)
    case Post(k) => PostStep(s, k)
    case Drop(k, t) => DropStep(s, k, t)
    case Halt(k) => HaltStep(s, k)
    case Discard(k) => DiscardStep(s, k)
    case StartRebase(k) => StartRebaseStep(s, k)
    case Reissue(k, id) => ReissueStep(s, k, id)
    case PostReissued(k) => PostReissuedStep(s, k)
    case Carry(k, t) => CarryStep(s, k, t)
    case StopRebase(k) => WithTill(s, k, TillOf(s, k).(rebase := None))
    case PostFromKitchen(id, k, log, command) => PostFromKitchenStep(s, id, k, log, command)
  }

  function Opening(products: map<Id, Product>): Shop {
    Shop(Transactions.Sys(Db(map[], map[], [], map[], [], products), map[], []), map[], map[], map[], map[], 0, {}, map[])
  }

  function RunFrom(s: Shop, moves: seq<Move>): Shop {
    if moves == [] then s else Step(RunFrom(s, moves[..|moves| - 1]), moves[|moves| - 1])
  }

  function Run(products: map<Id, Product>, moves: seq<Move>): Shop {
    RunFrom(Opening(products), moves)
  }

  /* ---- the invariant ---- */

  // The recorded history of an order ends in what the database holds.
  predicate HistoryOk(db: Db, history: seq<Version>, orderId: Id) {
    && GoodVersions(history)
    && (forall i :: 0 <= i < |history| ==> history[i].order.id == orderId)
    && Load(db, orderId) == (if history == [] then None else Some(history[|history| - 1].order))
  }

  predicate IsVersion(history: seq<Version>, order: Snapshot) {
    1 <= order.version <= |history| && history[order.version - 1].order == order
  }

  // A request that has been served was answered with a version the order really had.
  predicate ServedOk(history: seq<Version>, input: MutationInput, order: Snapshot) {
    && IsVersion(history, order)
    && order.restaurantId == input.restaurantId
    && input.baseVersion <= order.version
    && (|| (order.version == input.baseVersion + 1 && history[order.version - 1].command == input.command)
        || React(At(history, order.version), input.command).Satisfied?)
  }

  predicate StoredOk(db: Db, history: seq<Version>, input: MutationInput) {
    input.mutationId in db.processed ==>
      && ValidInput(input) && db.processed[input.mutationId].hash == HashOf(input)
      && ServedOk(history, input, db.processed[input.mutationId].order)
  }

  predicate PostedOk(s: Shop, id: Id)
    requires id in s.posted
  {
    var input := s.posted[id];
    && input.mutationId == id && id in s.minted && id in s.postedAt
    && input.baseVersion <= s.postedAt[id] <= |HistoryOf(s, input.orderId)|
    && StoredOk(s.server.db, HistoryOf(s, input.orderId), input)
  }

  // A success is only reported for a request whose result is stored, at the version reported or before.
  predicate AnswerOk(db: Db, tx: Transactions.Tx) {
    tx.Answered? && (tx.reply.AppliedReply? || tx.reply.AlreadyAppliedReply?) ==>
      tx.input.mutationId in db.processed && db.processed[tx.input.mutationId].order.version <= tx.reply.order.version
  }

  // What an answer carries is a version of the order; what a refusal carries may be torn between two.
  predicate CarriesOk(history: seq<Version>, tx: Transactions.Tx) {
    match tx
    case RowShown(input, _, row) =>
      && 1 <= row.version <= |history|
      && SnapshotFrom(input.orderId, row, history[row.version - 1].order.items) == history[row.version - 1].order
    case Answered(_, reply) =>
      && (reply.AppliedReply? || reply.AlreadyAppliedReply? ==> IsVersion(history, reply.order))
      && (reply.ConflictReply? ==> IsView(history, Some(reply.canonical)))
    case _ => true
  }

  predicate TxPosted(s: Shop, t: Id)
    requires t in s.server.txs
  {
    var tx := s.server.txs[t];
    && tx.input.mutationId in s.posted && s.posted[tx.input.mutationId] == tx.input
    && AnswerOk(s.server.db, tx)
    && CarriesOk(HistoryOf(s, tx.input.orderId), tx)
  }

  // Rows carry their own till's ids, once each, and only the head has ever been posted.
  predicate RowsOk(posted: map<Id, MutationInput>, minted: map<Id, Origin>, k: Key, rows: seq<Row>) {
    && (forall i :: 0 <= i < |rows| ==> RowOk(posted, minted, k, rows[i], i == 0))
    && (forall i, j :: 0 <= i < j < |rows| ==> rows[i].mutationId != rows[j].mutationId)
  }

  predicate RowOk(posted: map<Id, MutationInput>, minted: map<Id, Origin>, k: Key, row: Row, first: bool) {
    && row.orderId == k.orderId
    && row.mutationId in minted && minted[row.mutationId].Intent? && minted[row.mutationId].k == k
    && (row.mutationId in posted ==> first && posted[row.mutationId] == RequestOf(row))
  }

  function ResultOf(processed: map<Id, Processed>, rows: seq<Row>): Option<nat> {
    if rows != [] && rows[0].mutationId in processed then Some(processed[rows[0].mutationId].order.version) else None
  }

  // While halted, everything behind the head is blocked and a re-issued head is not ahead of `version`.
  predicate HaltOk(rows: seq<Row>, version: nat) {
    && (forall i :: 0 < i < |rows| ==> rows[i].status == Blocked)
    && (rows != [] && rows[0].status == Pending ==> rows[0].baseVersion <= version)
  }

  predicate TillOk(s: Shop, k: Key) {
    var till, history := TillOf(s, k), HistoryOf(s, k.orderId);
    && RowsOk(s.posted, s.minted, k, till.queue)
    && IsView(history, till.shown) && IsView(history, till.saved)
    && (till.rebase.Some? ==> till.rebase.value <= |history|)
    && (!IsSendable(till.queue) ==> HaltOk(till.queue, |history|))
  }

  ghost predicate ShopOk(s: Shop) {
    && Transactions.SysOk(s.server)
    && (forall o: Id :: HistoryOk(s.server.db, HistoryOf(s, o), o))
    && (forall id <- s.posted :: PostedOk(s, id))
    && s.server.db.processed.Keys <= s.posted.Keys
    && (forall t <- s.server.txs :: TxPosted(s, t))
    && (forall k: Key :: TillOk(s, k))
  }

  /* ---- what it takes to stay behind the order ---- */

  // The rows a till will still send can never come to be ahead of their order.
  predicate TillSound(s: Shop, k: Key) {
    var queue := TillOf(s, k).queue;
    IsSendable(queue) ==>
      Sound(s.server.db.products, Now(HistoryOf(s, k.orderId)), Waiting(queue, ResultOf(s.server.db.processed, queue)))
  }

  ghost predicate AllSound(s: Shop) {
    forall k: Key :: TillSound(s, k)
  }

  // The two moves that stamp a row leave its queue sound.
  predicate StampsSoundly(s: Shop, move: Move) {
    move.Stage? || move.Reissue? ==> TillSound(Step(s, move), move.k)
  }

  predicate SoundRunFrom(s: Shop, moves: seq<Move>) {
    moves == [] ||
    (SoundRunFrom(s, moves[..|moves| - 1]) && StampsSoundly(RunFrom(s, moves[..|moves| - 1]), moves[|moves| - 1]))
  }

  predicate IsAhead(s: Shop, id: Id)
    requires id in s.posted
  {
    !Transactions.NotAhead(s.server.db, s.posted[id])
  }

  predicate NoneAhead(s: Shop) {
    forall id <- s.posted :: !IsAhead(s, id)
  }
}
