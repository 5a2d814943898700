/**
 One device's steps, write by write, seen as moves of the machine with everybody in it: what the disk and
 the engine do to a terminal's queue for an order and to the snapshot cached of it is what `Shops` lets a
 till do, and nothing else.
 */
module DeviceMoves {
  import opened Domain
  import opened ProjectQueue
  import opened TillRules
  import opened SyncSteps
  import opened QueueRuns
  import S = Shops
  import Q = QueueChain
  import E = SyncEngine
  import N = NeverAhead
  import C = Convergence
  import Server
  import Transactions

  // The machine does not tell a row in the air from one that waits.
  function Settled(row: Row): Row {
    if row.status == Syncing then row.(status := Pending) else row
  }

  function QueueOf(rows: seq<Row>, k: S.Key): seq<Row> {
    MapRows(Group(rows, k.terminalId, k.orderId), (row: Row) => Settled(row))
  }

  function SavedOf(orders: map<Id, Snapshot>, k: S.Key): Option<Snapshot> {
    if k.orderId in orders then Some(orders[k.orderId]) else None
  }

  // The disk of the device holds what the till has.
  predicate Agrees(c: Client, s: S.Shop, k: S.Key) {
    S.TillOf(s, k).queue == QueueOf(c.rows, k) && S.TillOf(s, k).saved == SavedOf(c.orders, k)
  }

  function KeyOf(row: Row): S.Key {
    S.Key(row.terminalId, row.orderId)
  }

  /* ---- labels ---- */

  lemma SameGateSettled(rows: seq<Row>, k: S.Key)
    ensures IsSendable(QueueOf(rows, k)) <==> IsSendable(Group(rows, k.terminalId, k.orderId))
  {
    var group, queue := Group(rows, k.terminalId, k.orderId), QueueOf(rows, k);
    if IsSendable(group) {
      forall row | row in queue ensures row.status == Pending || row.status == Syncing {
        var i :| 0 <= i < |queue| && queue[i] == row;
        assert group[i] in group;
      }
    }
    if IsSendable(queue) {
      forall row | row in group ensures row.status == Pending || row.status == Syncing {
        var i :| 0 <= i < |group| && group[i] == row;
        assert queue[i] in queue;
      }
    }
  }

  // Labels do not matter to the projection.
  lemma {:induction false} ProjectionIgnoresLabels(order: Option<Snapshot>, rows: seq<Row>, settled: seq<Row>, menu: Menu)
    requires |settled| == |rows| && forall i :: 0 <= i < |rows| ==> settled[i] == Settled(rows[i])
    ensures Project(order, settled, menu) == Project(order, rows, menu)
    decreases |rows|
  {
    if rows != [] {
      SameApplied(order, rows[0], menu);
      ProjectionIgnoresLabels(ApplyOne(order, rows[0], menu), rows[1..], settled[1..], menu);
    }
  }

  lemma SameApplied(order: Option<Snapshot>, row: Row, menu: Menu)
    ensures ApplyOne(order, Settled(row), menu) == ApplyOne(order, row, menu)
  {
  }

  // Tables whose rows differ in nothing but whether they are in the air.
  lemma {:induction false} SameQueue(rows: seq<Row>, after: seq<Row>, k: S.Key)
    requires |after| == |rows| && forall i :: 0 <= i < |rows| ==> Settled(after[i]) == Settled(rows[i])
    ensures QueueOf(after, k) == QueueOf(rows, k)
  {
    if rows != [] {
      SameQueue(rows[..|rows| - 1], after[..|rows| - 1], k);
      QueueOfLast(rows, k);
      QueueOfLast(after, k);
      assert SameGroup(Settled(rows[|rows| - 1]), k.terminalId, k.orderId) == SameGroup(rows[|rows| - 1], k.terminalId, k.orderId);
      assert SameGroup(Settled(after[|rows| - 1]), k.terminalId, k.orderId) == SameGroup(after[|rows| - 1], k.terminalId, k.orderId);
    }
  }

  lemma QueueOfLast(rows: seq<Row>, k: S.Key)
    requires rows != []
    ensures var last := rows[|rows| - 1];
      QueueOf(rows, k) == QueueOf(rows[..|rows| - 1], k) + if SameGroup(last, k.terminalId, k.orderId) then [Settled(last)] else []
  {
  }

  /* ---- what each answer asks for ---- */

  // The answer the engine has in hand is the server's.
  predicate ComesFrom(s: S.Shop, t: Id, id: Id, answer: Answer) {
    match answer
    case Accepted(order) => S.IsSuccess(s, t, id) && s.server.txs[t].reply.order == order
    case DiedBeforeDelete(order) => S.IsSuccess(s, t, id) && s.server.txs[t].reply.order == order
    case ConflictWith(canonical) => IsConflict(s, t, id) && s.server.txs[t].reply.canonical == canonical
    case DiedBeforeHalt(canonical) => IsConflict(s, t, id) && s.server.txs[t].reply.canonical == canonical
    case _ => true
  }

  predicate IsConflict(s: S.Shop, t: Id, id: Id) {
    t in s.server.txs && s.server.txs[t].Answered? && s.server.txs[t].input.mutationId == id && s.server.txs[t].reply.ConflictReply?
  }

  // What is cached before anything is done to the queue.
  function Carried(answer: Answer): Option<Snapshot> {
    match answer
    case Accepted(order) => Some(order)
    case DiedBeforeDelete(order) => Some(order)
    case ConflictWith(canonical) => Some(canonical)
    case DiedBeforeHalt(canonical) => Some(canonical)
    case _ => None
  }

  // The moves of the machine an answer comes to for the till it was for.
  function Moves(k: S.Key, t: Id, answer: Answer, lines: nat): seq<S.Move> {
    var saves := if Carried(answer).Some? then [S.Save(k, Carried(answer).value.version, lines)] else [];
    match answer
    case Accepted(_) => saves + [S.Drop(k, t)]
    case ConflictWith(_) => saves + [S.Halt(k)]
    case RefusedOutright => [S.Halt(k)]
    case _ => saves
  }

  // What the server's answers carry is a view of the order they are about.
  lemma {:induction false} CarriedIsSeen(s: S.Shop, t: Id, k: S.Key, id: Id, answer: Answer) returns (lines: nat)
    requires S.ShopOk(s) && ComesFrom(s, t, id, answer) && Carried(answer).Some?
    requires s.server.txs[t].input.orderId == k.orderId
    ensures Q.SeenAt(S.HistoryOf(s, k.orderId), Carried(answer).value, lines) && Carried(answer).value.id == k.orderId
  {
    hide Transactions.SysOk, S.AnswerOk, S.TillOk, Q.GoodVersions;
    var history, order := S.HistoryOf(s, k.orderId), Carried(answer).value;
    assert S.TxPosted(s, t) && S.HistoryOk(s.server.db, history, k.orderId);
    if S.IsSuccess(s, t, id) {
      lines := order.version;
    } else {
      lines :| 0 <= lines <= |history| && Q.SeenAt(history, order, lines);
    }
  }

  // Saving it is what caching it is.
  lemma SavingIsCaching(s: S.Shop, c: Client, k: S.Key, order: Snapshot, lines: nat)
    requires Agrees(c, s, k) && Q.SeenAt(S.HistoryOf(s, k.orderId), order, lines) && order.id == k.orderId
    requires forall o <- c.orders :: c.orders[o].id == o
    ensures Agrees(c.(orders := Cached(c.orders, order)), S.Step(s, S.Save(k, order.version, lines)), k)
    ensures S.Held(S.TillOf(S.Step(s, S.Save(k, order.version, lines)), k).saved) >= order.version
    ensures S.Step(s, S.Save(k, order.version, lines)).server == s.server
  {
    hide QueueOf, Q.Seen;
  }

  /* ---- the queue after an answer ---- */

  lemma {:induction false} GroupOfMapped(rows: seq<Row>, f: Row -> Row, k: S.Key)
    requires forall row: Row :: SameGroup(f(row), k.terminalId, k.orderId) == SameGroup(row, k.terminalId, k.orderId)
    ensures Group(MapRows(rows, f), k.terminalId, k.orderId) == MapRows(Group(rows, k.terminalId, k.orderId), f)
  {
    if rows != [] {
      var init := rows[..|rows| - 1];
      GroupOfMapped(init, f, k);
      assert MapRows(rows, f)[..|rows| - 1] == MapRows(init, f);
    }
  }

  lemma LabelledQueue(c: Client, row: Row, status: RowStatus, k: S.Key)
    requires DiskOk(c) && row in c.rows && row.status == Pending && (status == Pending || status == Syncing)
    ensures QueueOf(WithStatus(WithStatus(c.rows, row.mutationId, Syncing), row.mutationId, status), k) == QueueOf(c.rows, k)
    ensures QueueOf(WithStatus(c.rows, row.mutationId, Syncing), k) == QueueOf(c.rows, k)
  {
    var labelled := WithStatus(c.rows, row.mutationId, Syncing);
    forall i | 0 <= i < |c.rows| ensures Settled(labelled[i]) == Settled(c.rows[i])
      && Settled(WithStatus(labelled, row.mutationId, status)[i]) == Settled(c.rows[i]) {
      if c.rows[i].mutationId == row.mutationId { IdsAreDistinct(c.rows, c.intentOf, c.rows[i], row); }
    }
    SameQueue(c.rows, labelled, k);
    SameQueue(c.rows, WithStatus(labelled, row.mutationId, status), k);
  }

  // The rows behind the head are told from it by their ids and come after it.
  predicate Behind(group: seq<Row>, head: Row) {
    && group != [] && group[0] == head
    && forall i :: 0 < i < |group| ==>
      group[i].mutationId != head.mutationId && SameGroup(group[i], head.terminalId, head.orderId) && IsLaterInQueue(group[i], head)
  }

  lemma GroupIsBehind(c: Client, row: Row)
    requires DiskOk(c) && IsHead(c.rows, row)
    ensures Behind(GroupOf(c.rows, row), row)
  {
    var group := GroupOf(c.rows, row);
    GroupIsOrdered(c.rows, c.intentOf, row.terminalId, row.orderId);
    hide DiskOk;
    forall i | 0 < i < |group|
      ensures group[i].mutationId != row.mutationId && SameGroup(group[i], row.terminalId, row.orderId) && IsLaterInQueue(group[i], row) {
      assert Before(group[0], group[i], c.intentOf) && group[i] in group;
    }
  }

  function HaltLabel(r: Row, head: Row): Row {
    if r.mutationId == head.mutationId then r.(status := ConflictRow)
    else if SameGroup(r, head.terminalId, head.orderId) && IsLaterInQueue(r, head) then r.(status := Blocked)
    else r
  }

  lemma HaltedGroup(rows: seq<Row>, head: Row)
    ensures GroupOf(HaltRows(rows, head), head) == MapRows(GroupOf(rows, head), (r: Row) => HaltLabel(r, head))
  {
    GroupOfMapped(rows, (r: Row) => HaltLabel(r, head), KeyOf(head));
    assert HaltRows(rows, head) == MapRows(rows, (r: Row) => HaltLabel(r, head));
    hide Group, HaltRows;
  }

  lemma LabelledGroup(rows: seq<Row>, head: Row)
    ensures GroupOf(WithStatus(rows, head.mutationId, Syncing), head) == WithStatus(GroupOf(rows, head), head.mutationId, Syncing)
  {
    var inTheAir := (r: Row) => if r.mutationId == head.mutationId then r.(status := Syncing) else r;
    GroupOfMapped(rows, inTheAir, KeyOf(head));
    assert WithStatus(rows, head.mutationId, Syncing) == MapRows(rows, inTheAir);
    assert WithStatus(GroupOf(rows, head), head.mutationId, Syncing) == MapRows(GroupOf(rows, head), inTheAir);
    hide Group, WithStatus;
  }

  lemma {:induction false} HaltedQueue(c: Client, row: Row)
    requires DiskOk(c) && IsHead(c.rows, row)
    ensures QueueOf(c.rows, KeyOf(row)) != []
    ensures QueueOf(HaltRows(WithStatus(c.rows, row.mutationId, Syncing), row), KeyOf(row)) ==
      S.Halted(QueueOf(c.rows, KeyOf(row)))
  {
    hide DiskOk, Group, HaltRows, IsHead;
    assert GroupOf(c.rows, row) != [] by { GroupIsBehind(c, row); }
    GroupIsBehind(c, row);
    LabelledGroup(c.rows, row);
    HaltedGroup(WithStatus(c.rows, row.mutationId, Syncing), row);
    hide WithStatus;
    HaltsInPlace(GroupOf(c.rows, row), row);
  }

  lemma HaltsInPlace(group: seq<Row>, head: Row)
    requires Behind(group, head)
    ensures var labelled := WithStatus(group, head.mutationId, Syncing);
      MapRows(MapRows(labelled, (r: Row) => HaltLabel(r, head)), (r: Row) => Settled(r)) == S.Halted(MapRows(group, (r: Row) => Settled(r)))
  {
    var labelled, settled := WithStatus(group, head.mutationId, Syncing), MapRows(group, (r: Row) => Settled(r));
    var halted := MapRows(MapRows(labelled, (r: Row) => HaltLabel(r, head)), (r: Row) => Settled(r));
    forall i | 0 <= i < |group| ensures halted[i] == S.Halted(settled)[i] {
      assert halted[i] == Settled(HaltLabel(labelled[i], head));
    }
  }

  lemma {:induction false} AcceptedQueue(c: Client, row: Row, order: Snapshot)
    requires DiskOk(c) && IsHead(c.rows, row)
    ensures QueueOf(c.rows, KeyOf(row)) != []
    ensures QueueOf(AttemptRow(c, row, Accepted(order)).rows, KeyOf(row)) == QueueOf(c.rows, KeyOf(row))[1..]
  {
    E.AcceptedShrinks(c, row, order);
    hide AttemptRow;
  }

  // What the till has queued once the answer has been dealt with.
  lemma {:induction false} QueueAfter(c: Client, row: Row, answer: Answer)
    requires DiskOk(c) && IsHead(c.rows, row) && row.status == Pending
    ensures var k := KeyOf(row); var before, after := QueueOf(c.rows, k), QueueOf(AttemptRow(c, row, answer).rows, k);
      && before != []
      && after == (match answer
           case Accepted(_) => before[1..]
           case ConflictWith(_) => S.Halted(before)
           case RefusedOutright => S.Halted(before)
           case _ => before)
  {
    hide Group;
    HaltedQueue(c, row);
    LabelledQueue(c, row, Pending, KeyOf(row));
    if answer.Accepted? { AcceptedQueue(c, row, answer.order); }
    hide QueueOf, HaltRows, WithStatus, Without;
  }

  lemma CacheAfter(c: Client, row: Row, answer: Answer)
    ensures AttemptRow(c, row, answer).orders ==
      if Carried(answer).Some? then Cached(c.orders, Carried(answer).value) else c.orders
  {
  }

  // Only orders under their own ids are cached.
  predicate OwnIds(orders: map<Id, Snapshot>) {
    forall o <- orders :: orders[o].id == o
  }

  /* ---- attempts ---- */

  lemma HeadOfQueue(c: Client, s: S.Shop, row: Row)
    requires IsHead(c.rows, row) && Agrees(c, s, KeyOf(row))
    ensures S.TillOf(s, KeyOf(row)).queue != [] && S.TillOf(s, KeyOf(row)).queue[0] == Settled(row)
    ensures RequestOf(S.TillOf(s, KeyOf(row)).queue[0]) == RequestOf(row)
  {
  }

  /** The request an attempt sends is the one the till posts. */
  lemma AttemptIsPost(c: Client, s: S.Shop, row: Row)
    requires IsHead(c.rows, row) && Agrees(c, s, KeyOf(row))
    requires IsSendable(GroupOf(c.rows, row)) || (S.TillOf(s, KeyOf(row)).rebase.Some? && row.status == Pending)
    ensures var k := KeyOf(row); var post := if IsSendable(GroupOf(c.rows, row)) then S.Post(k) else S.PostReissued(k);
      var after := S.Step(s, post);
      && after == S.PostHead(s, k) && row.mutationId in after.posted && after.posted[row.mutationId] == RequestOf(row)
      && Agrees(c, after, k)
  {
    HeadOfQueue(c, s, row);
    SameGateSettled(c.rows, KeyOf(row));
    hide QueueOf, IsSendable, Group;
  }

  /**
   Once the answer is back, whatever everybody else has done in the meantime, what the engine does with it is
   what the machine lets the till do: save what it carries, and then let the head go, halt the queue or
   leave it; and a tab that dies in between has done the first of the two.
   */
  lemma {:induction false} AttemptIsMoves(c: Client, s: S.Shop, row: Row, answer: Answer, t: Id)
    returns (lines: nat)
    requires DiskOk(c) && OwnIds(c.orders) && IsHead(c.rows, row) && row.status == Pending
    requires S.ShopOk(s) && Agrees(c, s, KeyOf(row)) && ComesFrom(s, t, row.mutationId, answer)
    ensures Agrees(AttemptRow(c, row, answer), S.RunFrom(s, Moves(KeyOf(row), t, answer, lines)), KeyOf(row))
    ensures Carried(answer).Some? ==>
      s.server.txs[t].input.orderId == row.orderId && Q.SeenAt(S.HistoryOf(s, row.orderId), Carried(answer).value, lines)
  {
    hide S.ShopOk, AttemptRow, QueueOf, IsHead, DiskOk, Cached, S.RunFrom;
    var k := KeyOf(row);
    QueueAfter(c, row, answer);
    CacheAfter(c, row, answer);
    HeadOfQueue(c, s, row);
    lines := 0;
    if Carried(answer).Some? {
      AnswerIsAbout(s, t, row, answer);
      lines := CarriedIsSeen(s, t, k, row.mutationId, answer);
      SavingIsCaching(s, c, k, Carried(answer).value, lines);
    }
    RunsMoves(s, k, t, answer, lines);
    hide Agrees;
    MovesEnd(c, s, row, answer, t, lines);
  }

  lemma AnswerIsAbout(s: S.Shop, t: Id, row: Row, answer: Answer)
    requires S.ShopOk(s) && ComesFrom(s, t, row.mutationId, answer) && Carried(answer).Some?
    requires S.TillOf(s, KeyOf(row)).queue != [] && S.TillOf(s, KeyOf(row)).queue[0].mutationId == row.mutationId
    ensures s.server.txs[t].input.orderId == row.orderId
  {
    hide S.HistoryOk, S.AnswerOk, S.CarriesOk, Transactions.SysOk;
    assert S.TxPosted(s, t) && S.TillOk(s, KeyOf(row));
    assert S.RowOk(s.posted, s.minted, KeyOf(row), S.TillOf(s, KeyOf(row)).queue[0], true);
  }

  lemma RunsMoves(s: S.Shop, k: S.Key, t: Id, answer: Answer, lines: nat)
    ensures var saved := if Carried(answer).Some? then S.Step(s, S.Save(k, Carried(answer).value.version, lines)) else s;
      S.RunFrom(s, Moves(k, t, answer, lines)) == (match answer
        case Accepted(_) => S.Step(saved, S.Drop(k, t))
        case ConflictWith(_) => S.Step(saved, S.Halt(k))
        case RefusedOutright => S.Step(saved, S.Halt(k))
        case _ => saved)
  {
    hide S.Step;
    var save := S.Save(k, if Carried(answer).Some? then Carried(answer).value.version else 0, lines);
    RunsTwo(s, save, if answer.Accepted? then S.Drop(k, t) else S.Halt(k));
    RunsOne(s, if Carried(answer).Some? then save else S.Halt(k));
    match answer
    case Accepted(_) => assert Moves(k, t, answer, lines) == [save, S.Drop(k, t)];
    case ConflictWith(_) => assert Moves(k, t, answer, lines) == [save, S.Halt(k)];
    case _ =>
  }

  lemma RunsOne(s: S.Shop, a: S.Move)
    ensures S.RunFrom(s, [a]) == S.Step(s, a)
  {
    assert [a][..0] == [];
  }

  lemma RunsTwo(s: S.Shop, a: S.Move, b: S.Move)
    ensures S.RunFrom(s, [a, b]) == S.Step(S.Step(s, a), b)
  {
    RunsOne(s, a);
    assert [a, b][..1] == [a];
  }

  lemma MovesEnd(c: Client, s: S.Shop, row: Row, answer: Answer, t: Id, lines: nat)
    requires Agrees(c, s, KeyOf(row)) && ComesFrom(s, t, row.mutationId, answer)
    requires var k := KeyOf(row); var before, after := QueueOf(c.rows, k), QueueOf(AttemptRow(c, row, answer).rows, k);
      && before != [] && before[0].mutationId == row.mutationId
      && after == (match answer
           case Accepted(_) => before[1..]
           case ConflictWith(_) => S.Halted(before)
           case RefusedOutright => S.Halted(before)
           case _ => before)
      && AttemptRow(c, row, answer).orders == if Carried(answer).Some? then Cached(c.orders, Carried(answer).value) else c.orders
    requires Carried(answer).Some? ==>
      var saved := S.Step(s, S.Save(KeyOf(row), Carried(answer).value.version, lines));
      && Agrees(c.(orders := Cached(c.orders, Carried(answer).value)), saved, KeyOf(row))
      && S.Held(S.TillOf(saved, KeyOf(row)).saved) >= Carried(answer).value.version && saved.server == s.server
    ensures var saved := if Carried(answer).Some? then S.Step(s, S.Save(KeyOf(row), Carried(answer).value.version, lines)) else s;
      Agrees(AttemptRow(c, row, answer), match answer
        case Accepted(_) => S.Step(saved, S.Drop(KeyOf(row), t))
        case ConflictWith(_) => S.Step(saved, S.Halt(KeyOf(row)))
        case RefusedOutright => S.Step(saved, S.Halt(KeyOf(row)))
        case _ => saved, KeyOf(row))
  {
    hide AttemptRow, QueueOf, Cached, S.SaveStep;
  }

  /* ---- everybody else on the device ---- */

  predicate AllFor(moves: seq<S.Move>, k: S.Key) {
    forall move <- moves :: !move.Serve? && move.k == k
  }

  lemma {:induction false} OthersStay(s: S.Shop, moves: seq<S.Move>, k: S.Key, j: S.Key)
    requires AllFor(moves, k) && j != k
    ensures S.TillOf(S.RunFrom(s, moves), j) == S.TillOf(s, j) && S.RunFrom(s, moves).history == s.history
  {
    hide S.Step;
    if moves != [] {
      var before, move := S.RunFrom(s, moves[..|moves| - 1]), moves[|moves| - 1];
      OthersStay(s, moves[..|moves| - 1], k, j);
      assert move in moves;
      N.TillMovesLeaveOthers(before, move);
    }
  }

  // The rest of the device's tills see an answer only in the snapshot they share.
  function MovesElsewhere(row: Row, answer: Answer, j: S.Key, lines: nat): seq<S.Move> {
    if j.orderId == row.orderId && Carried(answer).Some? then [S.Save(j, Carried(answer).value.version, lines)] else []
  }

  /** The device's other tills keep their rows; those on the same order save what the answer carried too. */
  lemma {:induction false} AttemptElsewhere(c: Client, s: S.Shop, row: Row, answer: Answer, t: Id, lines: nat, j: S.Key)
    returns (theirs: nat)
    requires DiskOk(c) && OwnIds(c.orders) && IsHead(c.rows, row) && j != KeyOf(row)
    requires S.ShopOk(s) && Agrees(c, s, KeyOf(row)) && Agrees(c, s, j) && ComesFrom(s, t, row.mutationId, answer)
    ensures var done := S.RunFrom(s, Moves(KeyOf(row), t, answer, lines));
      Agrees(AttemptRow(c, row, answer), S.RunFrom(done, MovesElsewhere(row, answer, j, theirs)), j)
  {
    hide S.ShopOk, AttemptRow, DiskOk, Cached, S.RunFrom, ComesFrom;
    var done, after := S.RunFrom(s, Moves(KeyOf(row), t, answer, lines)), AttemptRow(c, row, answer);
    AttemptLeavesOthers(c, row, answer, j.terminalId, j.orderId);
    CacheAfter(c, row, answer);
    OthersStay(s, Moves(KeyOf(row), t, answer, lines), KeyOf(row), j);
    theirs := 0;
    if Carried(answer).Some? {
      HeadOfQueue(c, s, row);
      AnswerIsAbout(s, t, row, answer);
      theirs := CarriedIsSeen(s, t, KeyOf(row), row.mutationId, answer);
      var order := Carried(answer).value;
      if j.orderId == row.orderId {
        SavingIsCaching(done, c.(rows := after.rows), j, order, theirs);
        RunsOne(done, S.Save(j, order.version, theirs));
      } else {
        CachedElsewhere(c.orders, order, j);
        RunsNothing(done);
      }
    } else {
      RunsNothing(done);
    }
  }

  lemma CachedElsewhere(orders: map<Id, Snapshot>, order: Snapshot, j: S.Key)
    requires order.id != j.orderId
    ensures SavedOf(Cached(orders, order), j) == SavedOf(orders, j)
  {
  }

  lemma RunsNothing(s: S.Shop)
    ensures S.RunFrom(s, []) == s
  {
  }

  /* ---- the operator's own writes ---- */

  /** Staging at the version projected from what is on disk is `Stage`. */
  lemma {:induction false} StageIsMove(c: Client, s: S.Shop, row: Row, now: nat, menu: Menu)
    requires Agrees(c, s, KeyOf(row)) && row.mutationId !in c.intentOf && S.IsFresh(s, row.mutationId)
    requires row.baseVersion == NextBaseVersion(Project(S.TillOf(s, KeyOf(row)).shown, GroupOf(c.rows, row), menu))
    ensures var k := KeyOf(row);
      Agrees(StageStep(c, row, now),
             S.Step(s, S.Stage(k, row.mutationId, row.restaurantId, row.command, QueueStamp(c.rows, now), menu)), k)
  {
    hide QueueOf, Group, IsSendable, Project, QueueStamp, Agrees, StageStep, S.Step, S.TillOf, Settled;
    var k, group := KeyOf(row), GroupOf(c.rows, row);
    SameGateSettled(c.rows, k);
    QueueIsSettled(c.rows, k);
    AgreesOnQueue(c, s, k);
    ProjectionIgnoresLabels(S.TillOf(s, k).shown, group, QueueOf(c.rows, k), menu);
    StagedQueue(c.rows, row.(createdAt := QueueStamp(c.rows, now), status := Pending));
    StagesBoth(c, s, row, now, menu);
  }

  lemma QueueIsSettled(rows: seq<Row>, k: S.Key)
    ensures var group, queue := Group(rows, k.terminalId, k.orderId), QueueOf(rows, k);
      |queue| == |group| && forall i :: 0 <= i < |group| ==> queue[i] == Settled(group[i])
  {
    hide Group;
  }

  lemma AgreesOnQueue(c: Client, s: S.Shop, k: S.Key)
    requires Agrees(c, s, k)
    ensures S.TillOf(s, k).queue == QueueOf(c.rows, k)
  {
    hide QueueOf;
  }

  lemma StagedQueue(rows: seq<Row>, row: Row)
    requires row.status == Pending
    ensures QueueOf(rows + [row], KeyOf(row)) == QueueOf(rows, KeyOf(row)) + [row]
  {
    QueueOfLast(rows + [row], KeyOf(row));
    assert (rows + [row])[..|rows|] == rows;
    hide QueueOf;
  }

  lemma StagesBoth(c: Client, s: S.Shop, row: Row, now: nat, menu: Menu)
    requires Agrees(c, s, KeyOf(row)) && row.mutationId !in c.intentOf && S.IsFresh(s, row.mutationId)
    requires IsSendable(QueueOf(c.rows, KeyOf(row))) <==> IsSendable(GroupOf(c.rows, row))
    requires row.baseVersion == NextBaseVersion(Project(S.TillOf(s, KeyOf(row)).shown, QueueOf(c.rows, KeyOf(row)), menu))
    requires var staged := row.(createdAt := QueueStamp(c.rows, now), status := Pending);
      QueueOf(c.rows + [staged], KeyOf(staged)) == QueueOf(c.rows, KeyOf(staged)) + [staged]
    ensures var k := KeyOf(row);
      Agrees(StageStep(c, row, now),
             S.Step(s, S.Stage(k, row.mutationId, row.restaurantId, row.command, QueueStamp(c.rows, now), menu)), k)
  {
    hide QueueOf, Group, IsSendable, Project, QueueStamp;
  }

  lemma {:induction false} DiscardedGroup(rows: seq<Row>, terminalId: Id, orderId: Id)
    ensures Group(DiscardRows(rows, terminalId, orderId), terminalId, orderId) == []
  {
    if rows != [] {
      var init, last := rows[..|rows| - 1], rows[|rows| - 1];
      DiscardedGroup(init, terminalId, orderId);
      var kept := DiscardRows(init, terminalId, orderId);
      assert (kept + [last])[..|kept|] == kept;
    }
  }

  lemma DiscardIsMove(c: Client, s: S.Shop, k: S.Key)
    requires Agrees(c, s, k)
    ensures Agrees(Step(c, Discard(k.terminalId, k.orderId)), S.Step(s, S.Discard(k)), k)
  {
    DiscardedGroup(c.rows, k.terminalId, k.orderId);
    hide S.IntentsIn, DiscardRows, IntentsIn;
  }

  // A restart only puts labels back.
  lemma NormalizeIsNothing(c: Client, s: S.Shop, terminalId: Id, k: S.Key)
    requires Agrees(c, s, k)
    ensures Agrees(Step(c, Normalize(terminalId)), s, k)
  {
    SameQueue(c.rows, NormalizeRows(c.rows, terminalId), k);
    hide QueueOf, NormalizeRows;
  }

  /** Re-issuing the head at the version the rebase is at is `Reissue`. */
  lemma {:induction false} ReissueIsMove(c: Client, s: S.Shop, head: Row, newId: Id, version: nat)
    requires DiskOk(c) && IsHead(c.rows, head) && newId !in c.intentOf && S.IsFresh(s, newId)
    requires Agrees(c, s, KeyOf(head)) && S.TillOf(s, KeyOf(head)).rebase == Some(version)
    ensures var k := KeyOf(head);
      Agrees(Step(c, Op.Reissue(head.mutationId, newId, version)), S.Step(s, S.Reissue(k, newId)), k)
  {
    var k, reissued := KeyOf(head), ReissuedRow(head, newId, version);
    HeadOfQueue(c, s, head);
    E.ReissueIsStep(c, head, newId, version, k.terminalId, k.orderId);
    ReissuedQueue(GroupOf(c.rows, head), reissued);
    hide *;
    ReissuedTill(c, Step(c, Op.Reissue(head.mutationId, newId, version)), s, head, newId, version);
  }

  lemma ReissuedTill(c: Client, after: Client, s: S.Shop, head: Row, newId: Id, version: nat)
    requires Agrees(c, s, KeyOf(head)) && S.TillOf(s, KeyOf(head)).rebase == Some(version) && S.IsFresh(s, newId)
    requires S.TillOf(s, KeyOf(head)).queue != [] && S.TillOf(s, KeyOf(head)).queue[0] == Settled(head)
    requires QueueOf(after.rows, KeyOf(head)) == [ReissuedRow(head, newId, version)] + QueueOf(c.rows, KeyOf(head))[1..]
    requires after.orders == c.orders
    ensures Agrees(after, S.Step(s, S.Reissue(KeyOf(head), newId)), KeyOf(head))
  {
    hide QueueOf, SavedOf;
  }

  lemma ReissuedQueue(group: seq<Row>, reissued: Row)
    requires group != [] && reissued.status == Pending
    ensures MapRows([reissued] + group[1..], (row: Row) => Settled(row)) == [reissued] + MapRows(group, (row: Row) => Settled(row))[1..]
  {
  }

  /** When its answer has been saved, the rebase goes on at the version the answer carried. */
  lemma CarryIsNext(s: S.Shop, k: S.Key, t: Id, order: Snapshot)
    requires S.TillOf(s, k).rebase.Some? && t in s.server.txs && s.server.txs[t].input.orderId == k.orderId
    requires S.IsSuccess(s, t, s.server.txs[t].input.mutationId) && s.server.txs[t].reply.order == order
    requires order.version <= S.Held(S.TillOf(s, k).saved)
    ensures S.TillOf(S.Step(s, S.Carry(k, t)), k) == S.TillOf(s, k).(rebase := Some(order.version))
  {
  }

  // Saving and letting go change nothing else about the till.
  lemma AcceptedTill(s: S.Shop, k: S.Key, t: Id, order: Snapshot, lines: nat)
    requires Q.SeenAt(S.HistoryOf(s, k.orderId), order, lines)
    ensures var after := S.RunFrom(s, Moves(k, t, Accepted(order), lines));
      && after.server == s.server && S.TillOf(after, k).rebase == S.TillOf(s, k).rebase
      && order.version <= S.Held(S.TillOf(after, k).saved)
  {
    hide *;
    var save, drop := S.Save(k, order.version, lines), S.Drop(k, t);
    RunsTwo(s, save, drop);
    assert Moves(k, t, Accepted(order), lines) == [save, drop] by { AcceptedMoves(k, t, order, lines); }
    SavedTill(s, k, order, lines);
    DroppedTill(S.Step(s, save), k, t);
  }

  lemma AcceptedMoves(k: S.Key, t: Id, order: Snapshot, lines: nat)
    ensures Moves(k, t, Accepted(order), lines) == [S.Save(k, order.version, lines), S.Drop(k, t)]
  {
  }

  lemma SavedTill(s: S.Shop, k: S.Key, order: Snapshot, lines: nat)
    requires Q.SeenAt(S.HistoryOf(s, k.orderId), order, lines)
    ensures var after := S.Step(s, S.Save(k, order.version, lines));
      && after.server == s.server && S.TillOf(after, k).rebase == S.TillOf(s, k).rebase
      && order.version <= S.Held(S.TillOf(after, k).saved)
  {
    hide Q.Seen;
  }

  lemma DroppedTill(s: S.Shop, k: S.Key, t: Id)
    ensures var after := S.Step(s, S.Drop(k, t));
      && after.server == s.server && S.TillOf(after, k).rebase == S.TillOf(s, k).rebase
      && S.TillOf(after, k).saved == S.TillOf(s, k).saved
  {
  }

  lemma NextVersion(s: S.Shop, k: S.Key, t: Id, answer: Answer, id: Id, lines: nat)
    requires answer.Accepted? && ComesFrom(s, t, id, answer) && s.server.txs[t].input.orderId == k.orderId
    requires Q.SeenAt(S.HistoryOf(s, k.orderId), answer.order, lines) && S.TillOf(s, k).rebase.Some?
    ensures var end := S.RunFrom(s, Moves(k, t, answer, lines));
      S.TillOf(S.Step(end, S.Carry(k, t)), k) == S.TillOf(end, k).(rebase := Some(answer.order.version))
  {
    AcceptedTill(s, k, t, answer.order, lines);
    var end := S.RunFrom(s, Moves(k, t, answer, lines));
    hide S.RunFrom, S.Step, Q.SeenAt;
    CarryIsNext(end, k, t, answer.order);
  }

  lemma ReissuedIsPosted(s: S.Shop, k: S.Key)
    requires S.TillOf(s, k).rebase.Some? && S.TillOf(s, k).queue != [] && S.TillOf(s, k).queue[0].status == Pending
    ensures S.Step(s, S.PostReissued(k)) == S.PostHead(s, k)
  {
    hide S.PostHead;
  }

  lemma ReissuedTillRebases(s: S.Shop, k: S.Key, id: Id)
    ensures S.TillOf(S.Step(s, S.Reissue(k, id)), k).rebase == S.TillOf(s, k).rebase
  {
  }

  // Whatever may be shown meanwhile.
  predicate SameOnDisk(a: S.Till, b: S.Till) {
    a.queue == b.queue && a.saved == b.saved && a.rebase == b.rebase
  }

  lemma SameTill(c: Client, s: S.Shop, later: S.Shop, k: S.Key)
    requires Agrees(c, s, k) && SameOnDisk(S.TillOf(s, k), S.TillOf(later, k)) && S.TillOf(s, k).rebase.Some?
    ensures Agrees(c, later, k) && S.TillOf(later, k).rebase.Some?
  {
    hide QueueOf;
  }

  lemma {:induction false} TurnPosts(c: Client, s: S.Shop, head: Row, newId: Id, version: nat)
    requires DiskOk(c) && OwnIds(c.orders) && IsHead(c.rows, head) && newId !in c.intentOf && S.IsFresh(s, newId)
    requires Agrees(c, s, KeyOf(head)) && S.TillOf(s, KeyOf(head)).rebase == Some(version)
    ensures var row := ReissuedRow(head, newId, version); var k := KeyOf(head);
      var after, reissued := Step(c, Op.Reissue(head.mutationId, newId, version)), S.Step(s, S.Reissue(k, newId));
      && DiskOk(after) && OwnIds(after.orders) && IsHead(after.rows, row) && row.status == Pending && KeyOf(row) == k
      && row.mutationId == newId && MayAttemptReissued(after.rows, newId) && RowAt(after.rows, newId) == row
      && Agrees(after, reissued, k) && S.TillOf(reissued, k).rebase.Some?
      && S.TillOf(reissued, k).queue != [] && S.Step(reissued, S.PostReissued(k)) == S.PostHead(reissued, k)
      && RequestOf(S.TillOf(reissued, k).queue[0]) == RequestOf(row)
  {
    var k, row := KeyOf(head), ReissuedRow(head, newId, version);
    var after, reissued := Step(c, Op.Reissue(head.mutationId, newId, version)), S.Step(s, S.Reissue(k, newId));
    ReissueIsMove(c, s, head, newId, version);
    E.ReissueIsStep(c, head, newId, version, k.terminalId, k.orderId);
    ReissuedTillRebases(s, k, newId);
    hide DiskOk, IsHead, S.Step, QueueOf, Step, MayAttemptReissued;
    HeadOfQueue(after, reissued, row);
    ReissuedIsPosted(reissued, k);
  }

  lemma {:induction false} TurnIsAnswered(c: Client, s: S.Shop, row: Row, answer: Answer, t: Id) returns (lines: nat)
    requires DiskOk(c) && OwnIds(c.orders) && IsHead(c.rows, row) && row.status == Pending
    requires MayAttemptReissued(c.rows, row.mutationId) && RowAt(c.rows, row.mutationId) == row
    requires Agrees(c, s, KeyOf(row)) && S.TillOf(s, KeyOf(row)).rebase.Some?
    requires S.ShopOk(s) && ComesFrom(s, t, row.mutationId, answer)
    ensures var k := KeyOf(row); var end := S.RunFrom(s, Moves(k, t, answer, lines));
      && Agrees(Step(c, Op.AttemptReissued(row.mutationId, answer)), end, k)
      && (answer.Accepted? ==> S.TillOf(S.Step(end, S.Carry(k, t)), k) == S.TillOf(end, k).(rebase := Some(answer.order.version)))
  {
    hide DiskOk, IsHead, S.ShopOk, S.Step, AttemptRow, Agrees, S.RunFrom, ComesFrom, MayAttemptReissued, Moves;
    lines := AttemptIsMoves(c, s, row, answer, t);
    if answer.Accepted? { NextVersion(s, KeyOf(row), t, answer, row.mutationId, lines); }
  }

  /**
   One turn of a rebase, with anybody doing anything else between the request and its answer: the row is
   re-issued at the version the rebase is at, posted as it is on disk, its answer saved before the row goes,
   and the next version is the one the answer carried.
   */
  lemma {:induction false} TurnIsMoves(c: Client, s: S.Shop, head: Row, newId: Id, version: nat, answer: Answer,
      later: S.Shop, t: Id) returns (lines: nat)
    requires DiskOk(c) && OwnIds(c.orders) && IsHead(c.rows, head) && newId !in c.intentOf && S.IsFresh(s, newId)
    requires Agrees(c, s, KeyOf(head)) && S.TillOf(s, KeyOf(head)).rebase == Some(version)
    requires var k := KeyOf(head); SameOnDisk(S.TillOf(S.Step(s, S.Reissue(k, newId)), k), S.TillOf(later, k))
    requires S.ShopOk(later) && ComesFrom(later, t, newId, answer)
    ensures var k := KeyOf(head); var reissued := S.Step(s, S.Reissue(k, newId));
      && S.TillOf(reissued, k).queue != [] && S.Step(reissued, S.PostReissued(k)) == S.PostHead(reissued, k)
      && RequestOf(S.TillOf(reissued, k).queue[0]) == RequestOf(ReissuedRow(head, newId, version))
    ensures var k := KeyOf(head); var end := S.RunFrom(later, Moves(k, t, answer, lines));
      var after := Step(Step(c, Op.Reissue(head.mutationId, newId, version)), Op.AttemptReissued(newId, answer));
      && Agrees(after, end, k)
      && (answer.Accepted? ==> S.TillOf(S.Step(end, S.Carry(k, t)), k) == S.TillOf(end, k).(rebase := Some(answer.order.version)))
  {
    hide *;
    var k := KeyOf(head);
    var c1, s1 := Step(c, Op.Reissue(head.mutationId, newId, version)), S.Step(s, S.Reissue(k, newId));
    TurnPosts(c, s, head, newId, version);
    SameTill(c1, s1, later, k);
    lines := TurnIsAnswered(c1, later, ReissuedRow(head, newId, version), answer, t);
  }

  /* ---- an undisturbed replay ---- */

  // What the engine has in hand after an attempt with that fate.
  function AnswerTo(reply: Server.Reply, fate: C.Fate): Answer {
    match fate
    case Unsent => DiedUnsent
    case AnswerLost => DiedUnanswered
    case _ =>
      match reply
      case AppliedReply(order) => if fate.Completed? then Accepted(order) else DiedBeforeDelete(order)
      case AlreadyAppliedReply(order) => if fate.Completed? then Accepted(order) else DiedBeforeDelete(order)
      case ConflictReply(_, _, canonical) => ConflictWith(canonical)
      case _ => RefusedOutright
  }

  predicate DrainAgrees(c: Client, d: C.Drain, k: S.Key) {
    (d.halted <==> !IsSendable(QueueOf(c.rows, k))) && (!d.halted ==> d.queue == QueueOf(c.rows, k) && d.cached == SavedOf(c.orders, k))
  }

  /** An attempt of the replay in `Convergence` is the engine's, with the server's own answer. */
  lemma {:induction false} AttemptIsReplay(c: Client, d: C.Drain, row: Row, fate: C.Fate)
    requires DiskOk(c) && OwnIds(c.orders) && IsHead(c.rows, row) && row.status == Pending
    requires !d.halted && DrainAgrees(c, d, KeyOf(row))
    requires var reply := Server.Serial(d.db, RequestOf(row)).reply;
      reply.AppliedReply? || reply.AlreadyAppliedReply? ==> reply.order.id == row.orderId
    ensures var answer := AnswerTo(Server.Serial(d.db, RequestOf(row)).reply, fate);
      DrainAgrees(AttemptRow(c, row, answer), C.Attempt(d, fate), KeyOf(row))
  {
    var k, reply := KeyOf(row), Server.Serial(d.db, RequestOf(row)).reply;
    var answer := AnswerTo(reply, fate);
    hide AttemptRow, QueueOf, Server.Serial, DiskOk, IsHead;
    HeadIsFirst(c, row);
    QueueAfter(c, row, answer);
    CacheAfter(c, row, answer);
  }

  lemma HeadIsFirst(c: Client, row: Row)
    requires IsHead(c.rows, row) && row.status == Pending
    ensures QueueOf(c.rows, KeyOf(row)) != [] && QueueOf(c.rows, KeyOf(row))[0] == row
  {
  }
}
