/**
 The moves that stay inside one till, or one display: each keeps the invariant of `Shops`.
 */
module TillMoves {
  import opened Domain
  import opened ProjectQueue
  import opened Server
  import opened ServerInvariants
  import opened Chains
  import opened Reach
  import opened QueueChain
  import opened Shops
  import opened TillRules
  import Kitchen
  import Transactions

  // A move of till `k`, or of a display, leaves the server and every other till's rows alone.
  ghost predicate LocalTo(s: Shop, after: Shop, k: Key) {
    && after.server == s.server && after.history == s.history
    && (forall j: Key :: j != k ==> TillOf(after, j) == TillOf(s, j))
    && (forall id <- s.minted :: id in after.minted && after.minted[id] == s.minted[id])
    && (forall id <- s.posted :: id in after.posted && after.posted[id] == s.posted[id])
    && (forall id <- s.posted :: id in s.postedAt ==> id in after.postedAt && after.postedAt[id] == s.postedAt[id])
    && (forall id <- after.posted :: id !in s.posted ==> NewlyPosted(after, k, id))
  }

  predicate NewlyPosted(after: Shop, k: Key, id: Id)
    requires id in after.posted
  {
    && id in after.minted && (after.minted[id].Intent? ==> after.minted[id].k == k)
    && after.posted[id].mutationId == id && id in after.postedAt
    && after.posted[id].baseVersion <= after.postedAt[id] <= |HistoryOf(after, after.posted[id].orderId)|
  }

  lemma LocalKeepsOther(s: Shop, after: Shop, k: Key, j: Key)
    requires LocalTo(s, after, k) && TillOk(s, j) && j != k
    ensures TillOk(after, j)
  {
    hide IsView, HaltOk;
    var rows := TillOf(s, j).queue;
    forall i | 0 <= i < |rows| ensures RowOk(after.posted, after.minted, j, rows[i], i == 0) {
      assert RowOk(s.posted, s.minted, j, rows[i], i == 0);
    }
  }

  lemma {:induction false} LocalKeepsShop(s: Shop, after: Shop, k: Key)
    requires ShopOk(s) && LocalTo(s, after, k) && TillOk(after, k)
    ensures ShopOk(after)
  {
    hide TillOk, ServedOk, HistoryOk, AnswerOk, CarriesOk, Transactions.SysOk;
    forall o: Id ensures HistoryOk(after.server.db, HistoryOf(after, o), o) {
      assert HistoryOk(s.server.db, HistoryOf(s, o), o);
    }
    forall id | id in after.posted ensures PostedOk(after, id) {
      if id in s.posted {
        assert PostedOk(s, id);
      } else {
        assert NewlyPosted(after, k, id);
      }
    }
    forall t | t in after.server.txs ensures TxPosted(after, t) {
      assert TxPosted(s, t);
    }
    forall j: Key ensures TillOk(after, j) {
      if j != k {
        assert TillOk(s, j);
        LocalKeepsOther(s, after, k, j);
      }
    }
  }

  // The queue's part of the invariant and the rest of a till can change one at a time.
  predicate QueuePart(s: Shop, k: Key, queue: seq<Row>) {
    && RowsOk(s.posted, s.minted, k, queue)
    && (!IsSendable(queue) ==> HaltOk(queue, |HistoryOf(s, k.orderId)|))
  }

  predicate ViewPart(history: seq<Version>, till: Till) {
    && IsView(history, till.shown) && IsView(history, till.saved)
    && (till.rebase.Some? ==> till.rebase.value <= |history|)
  }

  lemma TillParts(s: Shop, k: Key)
    ensures TillOk(s, k) <==> QueuePart(s, k, TillOf(s, k).queue) && ViewPart(HistoryOf(s, k.orderId), TillOf(s, k))
  {
    hide IsView, HaltOk, RowsOk, IsSendable;
  }

  lemma {:induction false} SetTill(s: Shop, k: Key, till: Till)
    requires ShopOk(s)
    requires QueuePart(s, k, till.queue) && ViewPart(HistoryOf(s, k.orderId), till)
    ensures ShopOk(WithTill(s, k, till))
  {
    hide ShopOk, QueuePart, ViewPart, TillOk;
    var after := WithTill(s, k, till);
    TillParts(after, k);
    SamePart(s, after, k, till.queue);
    LocalKeepsShop(s, after, k);
  }

  lemma SamePart(s: Shop, after: Shop, k: Key, queue: seq<Row>)
    requires after.posted == s.posted && after.minted == s.minted && after.history == s.history
    ensures QueuePart(after, k, queue) == QueuePart(s, k, queue)
  {
    hide RowsOk, HaltOk, IsSendable;
  }

  lemma PartsOf(s: Shop, k: Key)
    requires ShopOk(s)
    ensures TillOk(s, k) && GoodVersions(HistoryOf(s, k.orderId))
    ensures QueuePart(s, k, TillOf(s, k).queue) && ViewPart(HistoryOf(s, k.orderId), TillOf(s, k))
  {
    TillParts(s, k);
    hide GoodVersions, TillOk, QueuePart, ViewPart;
    assert TillOk(s, k) && HistoryOk(s.server.db, HistoryOf(s, k.orderId), k.orderId);
  }

  lemma SeenIsView(history: seq<Version>, version: nat, lines: nat)
    requires GoodVersions(history) && 1 <= version <= lines <= |history|
    ensures IsView(history, Some(Seen(history, version, lines))) && Held(Some(Seen(history, version, lines))) == version
  {
    assert MadeAt(history, version - 1);
    assert SeenAt(history, Seen(history, version, lines), lines);
  }

  lemma ViewIsHeld(history: seq<Version>, view: Option<Snapshot>)
    requires IsView(history, view)
    ensures Held(view) <= |history|
  {
  }

  lemma {:induction false} LearnKeeps(s: Shop, k: Key, version: nat, lines: nat)
    requires ShopOk(s)
    ensures ShopOk(ShowStep(s, k, version, lines)) && ShopOk(SaveStep(s, k, version, lines))
  {
    hide ShopOk, QueuePart, GoodVersions, TillOk;
    PartsOf(s, k);
    var till, history := TillOf(s, k), HistoryOf(s, k.orderId);
    if 1 <= version <= lines <= |history| {
      SeenIsView(history, version, lines);
      hide ShopOk, QueuePart, IsView, Seen, GoodVersions;
      SetTill(s, k, till.(shown := Some(Seen(history, version, lines))));
      SetTill(s, k, till.(saved := Some(Seen(history, version, lines))));
    }
  }

  lemma {:induction false} ViewMovesKeep(s: Shop, k: Key)
    requires ShopOk(s)
    ensures ShopOk(ForgetStep(s, k))
    ensures ShopOk(WithTill(s, k, TillOf(s, k).(shown := TillOf(s, k).saved)))
    ensures ShopOk(WithTill(s, k, TillOf(s, k).(shown := None)))
    ensures ShopOk(WithTill(s, k, TillOf(s, k).(rebase := None)))
  {
    PartsOf(s, k);
    var till, history := TillOf(s, k), HistoryOf(s, k.orderId);
    NothingIsView(history);
    hide ShopOk, QueuePart, IsView, GoodVersions;
    SetTill(s, k, till.(saved := None));
    SetTill(s, k, till.(shown := till.saved));
    SetTill(s, k, till.(shown := None));
    SetTill(s, k, till.(rebase := None));
  }

  lemma NothingIsView(history: seq<Version>)
    ensures IsView(history, None)
  {
  }

  lemma StageKeepsRows(s: Shop, k: Key, row: Row, origin: Origin)
    requires RowsOk(s.posted, s.minted, k, TillOf(s, k).queue)
    requires IsFresh(s, row.mutationId) && row.mutationId !in s.posted && row.orderId == k.orderId
    requires origin.Intent? && origin.k == k
    ensures RowsOk(s.posted, s.minted[row.mutationId := origin], k, TillOf(s, k).queue + [row])
  {
    var rows, minted := TillOf(s, k).queue, s.minted[row.mutationId := origin];
    forall i | 0 <= i < |rows| ensures RowOk(s.posted, minted, k, rows[i], i == 0) && rows[i].mutationId != row.mutationId {
      assert RowOk(s.posted, s.minted, k, rows[i], i == 0);
    }
  }

  lemma FreshIsUnposted(s: Shop, id: Id)
    requires ShopOk(s)
    ensures id in s.posted ==> id in s.minted
    ensures id in s.server.db.processed ==> id in s.posted
  {
    if id in s.posted { assert PostedOk(s, id); }
  }

  // A new id for this till, its rows with it.
  lemma {:induction false} MintingKeeps(s: Shop, k: Key, id: Id, origin: Origin, queue: seq<Row>, intents: nat)
    requires ShopOk(s) && IsFresh(s, id)
    requires var after := WithTill(s, k, TillOf(s, k).(queue := queue)).(minted := s.minted[id := origin], intents := intents);
      QueuePart(after, k, queue)
    ensures ShopOk(WithTill(s, k, TillOf(s, k).(queue := queue)).(minted := s.minted[id := origin], intents := intents))
  {
    hide ShopOk, TillOk, QueuePart, IsView;
    var after := WithTill(s, k, TillOf(s, k).(queue := queue)).(minted := s.minted[id := origin], intents := intents);
    PartsOf(s, k);
    TillParts(after, k);
    LocalKeepsShop(s, after, k);
  }

  lemma StageKeepsPart(s: Shop, after: Shop, k: Key, row: Row, origin: Origin)
    requires QueuePart(s, k, TillOf(s, k).queue) && IsSendable(TillOf(s, k).queue) && row.status == Pending
    requires IsFresh(s, row.mutationId) && row.mutationId !in s.posted && row.orderId == k.orderId
    requires origin.Intent? && origin.k == k
    requires after.posted == s.posted && after.minted == s.minted[row.mutationId := origin]
    ensures QueuePart(after, k, TillOf(s, k).queue + [row])
  {
    StageKeepsRows(s, k, row, origin);
    hide RowsOk;
  }

  // What a till has once it has staged a row for an intent of its own.
  function Staged(s: Shop, k: Key, row: Row): Shop {
    WithTill(s, k, TillOf(s, k).(queue := TillOf(s, k).queue + [row]))
      .(minted := s.minted[row.mutationId := Intent(k, s.intents)], intents := s.intents + 1)
  }

  lemma StageIsStaged(s: Shop, k: Key, id: Id, restaurantId: Id, command: Command, stamp: nat, menu: Menu)
    returns (row: Row)
    ensures row == Row(id, restaurantId, k.terminalId, k.orderId,
      NextBaseVersion(Project(TillOf(s, k).shown, TillOf(s, k).queue, menu)), command, stamp, Pending)
    ensures StageStep(s, k, id, restaurantId, command, stamp, menu) ==
      if IsFresh(s, id) && IsSendable(TillOf(s, k).queue) then Staged(s, k, row) else s
  {
    hide Project, IsSendable;
    row := Row(id, restaurantId, k.terminalId, k.orderId,
      NextBaseVersion(Project(TillOf(s, k).shown, TillOf(s, k).queue, menu)), command, stamp, Pending);
  }

  lemma {:induction false} StagedKeeps(s: Shop, k: Key, row: Row)
    requires ShopOk(s) && IsSendable(TillOf(s, k).queue) && IsFresh(s, row.mutationId)
    requires row.orderId == k.orderId && row.status == Pending
    ensures ShopOk(Staged(s, k, row))
  {
    hide ShopOk, ViewPart, QueuePart, GoodVersions, TillOk, IsSendable, PostedOk;
    PartsOf(s, k);
    FreshIsUnposted(s, row.mutationId);
    StageKeepsPart(s, Staged(s, k, row), k, row, Intent(k, s.intents));
    MintingKeeps(s, k, row.mutationId, Intent(k, s.intents), TillOf(s, k).queue + [row], s.intents + 1);
  }

  lemma {:induction false} StageKeeps(s: Shop, k: Key, id: Id, restaurantId: Id, command: Command, stamp: nat, menu: Menu)
    requires ShopOk(s)
    ensures ShopOk(StageStep(s, k, id, restaurantId, command, stamp, menu))
  {
    hide ShopOk, IsSendable, Staged, StageStep;
    var row := StageIsStaged(s, k, id, restaurantId, command, stamp, menu);
    if IsFresh(s, id) && IsSendable(TillOf(s, k).queue) {
      StagedKeeps(s, k, row);
    }
  }

  lemma {:induction false} PostKeeps(s: Shop, k: Key)
    requires ShopOk(s) && TillOf(s, k).queue != []
    requires TillOf(s, k).queue[0].baseVersion <= |HistoryOf(s, k.orderId)|
    ensures ShopOk(PostHead(s, k))
  {
    var rows, after := TillOf(s, k).queue, PostHead(s, k);
    PartsOf(s, k);
    assert RowOk(s.posted, s.minted, k, rows[0], true);
    assert rows[0].mutationId in s.posted ==> PostedOk(s, rows[0].mutationId);
    forall i | 0 <= i < |rows| ensures RowOk(after.posted, after.minted, k, rows[i], i == 0) {
      assert RowOk(s.posted, s.minted, k, rows[i], i == 0);
    }
    TillParts(after, k);
    PostIsLocal(s, k);
    hide ShopOk, ViewPart, TillOk, LocalTo;
    LocalKeepsShop(s, after, k);
  }

  lemma PostIsLocal(s: Shop, k: Key)
    requires TillOf(s, k).queue != [] && RowOk(s.posted, s.minted, k, TillOf(s, k).queue[0], true)
    requires TillOf(s, k).queue[0].baseVersion <= |HistoryOf(s, k.orderId)|
    ensures LocalTo(s, PostHead(s, k), k)
  {
  }

  // The head leaves the queue behind it in order.
  lemma DropKeepsPart(s: Shop, k: Key, queue: seq<Row>)
    requires QueuePart(s, k, queue) && queue != []
    ensures QueuePart(s, k, queue[1..])
  {
    var rest := queue[1..];
    forall i | 0 <= i < |rest| ensures RowOk(s.posted, s.minted, k, rest[i], i == 0) {
      assert RowOk(s.posted, s.minted, k, queue[i + 1], false);
    }
    if IsSendable(queue) {
      assert forall row <- rest :: row in queue;
    }
  }

  lemma {:induction false} DropKeeps(s: Shop, k: Key, t: Id)
    requires ShopOk(s)
    ensures ShopOk(DropStep(s, k, t))
  {
    var till := TillOf(s, k);
    PartsOf(s, k);
    hide ShopOk, QueuePart, ViewPart, GoodVersions;
    if till.queue != [] {
      DropKeepsPart(s, k, till.queue);
      assert ViewPart(HistoryOf(s, k.orderId), till.(queue := till.queue[1..])) by { QueueIsNoView(HistoryOf(s, k.orderId), till, till.queue[1..]); }
      SetTill(s, k, till.(queue := till.queue[1..]));
    }
  }

  lemma QueueIsNoView(history: seq<Version>, till: Till, queue: seq<Row>)
    ensures ViewPart(history, till.(queue := queue)) == ViewPart(history, till)
  {
    hide IsView;
  }

  lemma HaltKeepsPart(s: Shop, k: Key, queue: seq<Row>)
    requires QueuePart(s, k, queue) && queue != []
    ensures QueuePart(s, k, Halted(queue))
  {
    var halted := Halted(queue);
    forall i | 0 <= i < |halted| ensures RowOk(s.posted, s.minted, k, halted[i], i == 0) {
      assert RowOk(s.posted, s.minted, k, queue[i], i == 0);
    }
  }

  lemma {:induction false} HaltKeeps(s: Shop, k: Key)
    requires ShopOk(s)
    ensures ShopOk(HaltStep(s, k))
  {
    var till := TillOf(s, k);
    PartsOf(s, k);
    hide ShopOk, QueuePart, ViewPart, GoodVersions;
    if till.queue != [] {
      HaltKeepsPart(s, k, till.queue);
      QueueIsNoView(HistoryOf(s, k.orderId), till, Halted(till.queue));
      SetTill(s, k, till.(queue := Halted(till.queue)));
    }
  }

  lemma {:induction false} DiscardKeeps(s: Shop, k: Key)
    requires ShopOk(s)
    ensures ShopOk(DiscardStep(s, k))
  {
    var till, after := TillOf(s, k), DiscardStep(s, k);
    PartsOf(s, k);
    QueueIsNoView(HistoryOf(s, k.orderId), till, []);
    TillParts(after, k);
    hide ShopOk, ViewPart, GoodVersions;
    assert QueuePart(after, k, []);
    LocalKeepsShop(s, after, k);
  }

  lemma {:induction false} RebaseKeeps(s: Shop, k: Key, t: Id)
    requires ShopOk(s)
    ensures ShopOk(StartRebaseStep(s, k)) && ShopOk(CarryStep(s, k, t))
  {
    var till, history := TillOf(s, k), HistoryOf(s, k.orderId);
    PartsOf(s, k);
    ViewIsHeld(history, till.shown);
    ViewIsHeld(history, till.saved);
    hide ShopOk, QueuePart, GoodVersions, IsView;
    SetTill(s, k, till.(rebase := Some(Held(till.shown))));
    if t in s.server.txs && IsSuccess(s, t, s.server.txs[t].input.mutationId) && s.server.txs[t].reply.order.version <= Held(till.saved) {
      SetTill(s, k, till.(rebase := Some(s.server.txs[t].reply.order.version)));
    }
  }

  lemma ReissueKeepsRows(posted: map<Id, MutationInput>, minted: map<Id, Origin>, k: Key, rows: seq<Row>,
      reissued: Row, origin: Origin)
    requires RowsOk(posted, minted, k, rows) && rows != [] && origin.Intent? && origin.k == k
    requires reissued.mutationId !in minted && reissued.mutationId !in posted && reissued.orderId == k.orderId
    ensures RowsOk(posted, minted[reissued.mutationId := origin], k, [reissued] + rows[1..])
  {
    var next, widened := [reissued] + rows[1..], minted[reissued.mutationId := origin];
    forall i | 0 <= i < |next|
      ensures RowOk(posted, widened, k, next[i], i == 0)
      ensures i > 0 ==> next[i] == rows[i] && next[i].mutationId != reissued.mutationId {
      assert RowOk(posted, minted, k, rows[i], i == 0);
    }
  }

  lemma ReissueKeepsHalt(queue: seq<Row>, reissued: Row, version: nat)
    requires queue != [] && reissued.status == Pending && reissued.baseVersion <= version
    requires !IsSendable(queue) ==> HaltOk(queue, version)
    ensures !IsSendable([reissued] + queue[1..]) ==> HaltOk([reissued] + queue[1..], version)
  {
    var next := [reissued] + queue[1..];
    if !IsSendable(next) {
      assert exists row <- queue[1..] :: row.status != Pending && row.status != Syncing;
      assert !IsSendable(queue);
    }
  }

  lemma {:induction false} ReissueKeeps(s: Shop, k: Key, id: Id)
    requires ShopOk(s)
    ensures ShopOk(ReissueStep(s, k, id))
  {
    var till := TillOf(s, k);
    PartsOf(s, k);
    FreshIsUnposted(s, id);
    hide ShopOk, GoodVersions;
    if IsFresh(s, id) && till.rebase.Some? && till.queue != [] {
      var head := till.queue[0];
      assert RowOk(s.posted, s.minted, k, head, true);
      var reissued := head.(mutationId := id, status := Pending,
                            baseVersion := if head.command.CreateOrder? then 0 else till.rebase.value);
      ReissueKeepsRows(s.posted, s.minted, k, till.queue, reissued, OriginOf(s, head.mutationId));
      ReissueKeepsHalt(till.queue, reissued, |HistoryOf(s, k.orderId)|);
      hide RowsOk, HaltOk, ViewPart, IsSendable;
      MintingKeeps(s, k, id, OriginOf(s, head.mutationId), [reissued] + till.queue[1..], s.intents);
    }
  }

  /* ---- displays ---- */

  // A ticket carries the version of an event of its own order.
  predicate TicketFromEvents(outbox: seq<Event>, p: Kitchen.Projection, o: Id) {
    o in p.tickets ==>
      exists i :: 0 <= i < |outbox| && outbox[i].orderId == o && outbox[i].version == p.tickets[o].sourceEventVersion
  }

  lemma {:induction false} TicketHasEvent(outbox: seq<Event>, log: seq<nat>, o: Id)
    requires Kitchen.InOutbox(outbox, log)
    ensures TicketFromEvents(outbox, Kitchen.ConsumeAll(outbox, log), o)
  {
    if log != [] {
      var before, last := log[..|log| - 1], log[|log| - 1];
      TicketHasEvent(outbox, before, o);
      var p, event := Kitchen.ConsumeAll(outbox, before), outbox[last];
      var after := Kitchen.Consume(p, event);
      if o in after.tickets && (o !in p.tickets || after.tickets[o].sourceEventVersion != p.tickets[o].sourceEventVersion) {
        assert outbox[last].orderId == o && outbox[last].version == after.tickets[o].sourceEventVersion;
      }
    }
  }

  /** Whatever events a ticket was built from, repeated or with some missing, its version is one the order has had. */
  lemma {:induction false} TicketIsNotAhead(db: Db, log: seq<nat>, o: Id)
    requires GoodDb(db) && Kitchen.InOutbox(db.outbox, log)
    ensures var ticket := Kitchen.TicketIn(Kitchen.ConsumeAll(db.outbox, log), o);
      ticket.Some? ==> ticket.value.sourceEventVersion <= CommittedVersion(db, o)
  {
    TicketHasEvent(db.outbox, log, o);
    var p := Kitchen.ConsumeAll(db.outbox, log);
    if o in p.tickets {
      var i :| 0 <= i < |db.outbox| && db.outbox[i].orderId == o && db.outbox[i].version == p.tickets[o].sourceEventVersion;
      assert GoodOrderIn(db, o);
      hide GoodMoney;
      Kitchen.EventAtVersion(db.outbox, i);
    }
  }

  lemma VersionsAreCommitted(db: Db, history: seq<Version>, o: Id)
    requires HistoryOk(db, history, o)
    ensures CommittedVersion(db, o) == |history|
  {
    if history != [] { assert MadeAt(history, |history| - 1); }
  }

  lemma KitchenKeepsRows(posted: map<Id, MutationInput>, minted: map<Id, Origin>, k: Key, rows: seq<Row>,
      id: Id, input: MutationInput)
    requires RowsOk(posted, minted, k, rows) && id !in minted && id !in posted
    ensures RowsOk(posted[id := input], minted[id := Display], k, rows)
  {
    forall i | 0 <= i < |rows| ensures RowOk(posted[id := input], minted[id := Display], k, rows[i], i == 0) {
      assert RowOk(posted, minted, k, rows[i], i == 0);
    }
  }

  lemma {:induction false} DisplayPosts(s: Shop, id: Id, k: Key, input: MutationInput)
    requires ShopOk(s) && IsFresh(s, id)
    requires input.mutationId == id && input.orderId == k.orderId && input.baseVersion <= |HistoryOf(s, k.orderId)|
    ensures ShopOk(s.(minted := s.minted[id := Display], posted := s.posted[id := input],
                      postedAt := s.postedAt[id := |HistoryOf(s, k.orderId)|]))
  {
    var after := s.(minted := s.minted[id := Display], posted := s.posted[id := input],
                    postedAt := s.postedAt[id := |HistoryOf(s, k.orderId)|]);
    PartsOf(s, k);
    FreshIsUnposted(s, id);
    KitchenKeepsRows(s.posted, s.minted, k, TillOf(s, k).queue, id, input);
    TillParts(after, k);
    hide ShopOk, ViewPart, TillOk, RowsOk, GoodVersions;
    DisplayIsLocal(s, after, k, id);
    hide LocalTo;
    LocalKeepsShop(s, after, k);
  }

  lemma DisplayIsLocal(s: Shop, after: Shop, k: Key, id: Id)
    requires id !in s.posted && id !in s.minted && id in after.posted
    requires after == s.(minted := s.minted[id := Display], posted := s.posted[id := after.posted[id]],
                         postedAt := s.postedAt[id := |HistoryOf(s, k.orderId)|])
    requires after.posted[id].mutationId == id && after.posted[id].orderId == k.orderId
    requires after.posted[id].baseVersion <= |HistoryOf(s, k.orderId)|
    ensures LocalTo(s, after, k)
  {
  }

  lemma {:induction false} KitchenKeeps(s: Shop, id: Id, k: Key, log: seq<nat>, command: Command)
    requires ShopOk(s)
    ensures ShopOk(PostFromKitchenStep(s, id, k, log, command))
  {
    if Kitchen.InOutbox(s.server.db.outbox, log) {
      TicketIsNotAhead(s.server.db, log, k.orderId);
      assert HistoryOk(s.server.db, HistoryOf(s, k.orderId), k.orderId);
      VersionsAreCommitted(s.server.db, HistoryOf(s, k.orderId), k.orderId);
      hide ShopOk, HistoryOk, Kitchen.ConsumeAll, GoodDb;
      var after := PostFromKitchenStep(s, id, k, log, command);
      if after != s {
        DisplayPosts(s, id, k, after.posted[id]);
      }
    }
  }
}
