/**
 An intent is applied at most once, across its re-issues: as long as a rebase re-issues no row that is still
 pending. The code's rebase re-issues whatever is at the head.
 */
module AppliedOnce {
  import opened Domain
  import opened ProjectQueue
  import opened Server
  import opened Chains
  import opened QueueChain
  import opened Shops
  import opened TillRules
  import opened TillMoves
  import opened ServedRequests
  import opened NeverAhead
  import opened Intents
  import Refusals
  import ServerInvariants
  import Kitchen
  import Transactions

  // The server has refused the request of the row at the head.
  predicate IsRefused(s: Shop, t: Id, id: Id) {
    t in s.server.txs && s.server.txs[t].Answered? && s.server.txs[t].input.mutationId == id
    && Refusals.IsRefusal(s.server.txs[t].reply)
  }

  // A queue is halted for a refusal, and only a row that was halted is re-issued.
  ghost predicate IsGuarded(s: Shop, move: Move) {
    && (move.Halt? && TillOf(s, move.k).queue != [] ==> exists t: Id :: IsRefused(s, t, TillOf(s, move.k).queue[0].mutationId))
    && (move.Reissue? && TillOf(s, move.k).queue != [] ==> IsOnHold(TillOf(s, move.k).queue[0]))
  }

  ghost predicate GuardedRunFrom(s: Shop, moves: seq<Move>) {
    moves == [] ||
    (GuardedRunFrom(s, moves[..|moves| - 1]) && IsGuarded(RunFrom(s, moves[..|moves| - 1]), moves[|moves| - 1]))
  }

  predicate IsOnHold(row: Row) {
    row.status == ConflictRow || row.status == Blocked
  }

  // Nothing can come of the id any more: it is on no disk, and its request, if it ever went out, is over.
  predicate IsSpent(s: Shop, id: Id) {
    && (OriginOf(s, id).Intent? ==> !Queued(s, OriginOf(s, id).k, id))
    && IsDone(s, id)
  }

  predicate IsDone(s: Shop, id: Id) {
    id in s.posted ==> Refusals.IsOver(s.server, s.posted[id])
  }

  // Of two ids for one intent, one is spent.
  predicate OneIsSpent(s: Shop, a: Id, b: Id) {
    a != b && OriginOf(s, a).Intent? && OriginOf(s, a) == OriginOf(s, b) ==> IsSpent(s, a) || IsSpent(s, b)
  }

  predicate HoldsAreDone(s: Shop, k: Key) {
    forall row <- TillOf(s, k).queue :: IsOnHold(row) ==> IsDone(s, row.mutationId)
  }

  ghost predicate OnceOk(s: Shop) {
    && (forall a: Id, b: Id :: OneIsSpent(s, a, b))
    && (forall k: Key :: HoldsAreDone(s, k))
  }

  /* ---- moves that make no id ---- */

  // No id is made, nothing that is over comes back, and nothing is put on a disk that was not there.
  ghost predicate MakesNoId(s: Shop, after: Shop) {
    && after.minted == s.minted
    && (forall id: Id :: IsDone(s, id) ==> IsDone(after, id) || QueuedSomewhere(s, id))
    && (forall k: Key, id: Id :: Queued(after, k, id) ==> Queued(s, k, id))
  }

  predicate QueuedSomewhere(s: Shop, id: Id) {
    OriginOf(s, id).Intent? && Queued(s, OriginOf(s, id).k, id)
  }

  lemma StaysSpent(s: Shop, after: Shop, id: Id)
    requires MakesNoId(s, after) && IsSpent(s, id)
    ensures IsSpent(after, id)
  {
    hide IsDone, Queued;
  }

  lemma KeepsOneSpent(s: Shop, after: Shop)
    requires OnceOk(s) && MakesNoId(s, after)
    ensures forall a: Id, b: Id :: OneIsSpent(after, a, b)
  {
    hide IsSpent, MakesNoId;
    forall a: Id, b: Id ensures OneIsSpent(after, a, b) {
      assert OneIsSpent(s, a, b);
      assert OriginOf(after, a) == OriginOf(s, a) && OriginOf(after, b) == OriginOf(s, b) by { SameOrigin(s, after, a); SameOrigin(s, after, b); }
      if IsSpent(s, a) { StaysSpent(s, after, a); }
      if IsSpent(s, b) { StaysSpent(s, after, b); }
    }
  }

  lemma SameOrigin(s: Shop, after: Shop, id: Id)
    requires MakesNoId(s, after)
    ensures OriginOf(after, id) == OriginOf(s, id)
  {
  }

  /* ---- the server ---- */

  lemma {:induction false} ServeStaysDone(s: Shop, step: Transactions.Move, id: Id)
    requires Transactions.SysOk(s.server) && IsDone(s, id)
    ensures IsDone(ServeStep(s, step), id)
  {
    hide Transactions.SysOk, Refusals.IsOver;
    if id in s.posted && Reaches(s, step) {
      Refusals.StepStaysOver(s.server, step, s.posted[id]);
    }
    hide Transactions.Step;
  }

  lemma {:induction false} ServeKeepsOnce(s: Shop, step: Transactions.Move)
    requires Transactions.SysOk(s.server) && OnceOk(s)
    ensures OnceOk(ServeStep(s, step))
  {
    var after := ServeStep(s, step);
    hide IsDone, Transactions.SysOk;
    forall id: Id | IsDone(s, id) ensures IsDone(after, id) {
      ServeStaysDone(s, step, id);
    }
    assert after.tills == s.tills && after.minted == s.minted;
    forall k: Key, id: Id | Queued(after, k, id) ensures Queued(s, k, id) {
      assert TillOf(after, k) == TillOf(s, k);
    }
    assert MakesNoId(s, after);
    KeepsOneSpent(s, after);
    forall k: Key ensures HoldsAreDone(after, k) {
      assert HoldsAreDone(s, k);
    }
  }

  /* ---- the tills ---- */

  // A move of one till that makes no id and posts nothing.
  ghost predicate IsLocal(s: Shop, after: Shop, k: Key) {
    && LeavesOthers(s, after, k) && after.minted == s.minted && after.posted == s.posted
    && (forall row <- TillOf(after, k).queue :: Queued(s, k, row.mutationId))
  }

  lemma SameQueued(s: Shop, after: Shop, k: Key, id: Id)
    requires TillOf(after, k) == TillOf(s, k)
    ensures Queued(after, k, id) == Queued(s, k, id)
    ensures after.server == s.server && after.posted == s.posted && HoldsAreDone(s, k) ==> HoldsAreDone(after, k)
  {
    hide Refusals.IsOver;
  }

  lemma LocalMakesNoId(s: Shop, after: Shop, k: Key)
    requires IsLocal(s, after, k)
    ensures MakesNoId(s, after)
  {
    hide Refusals.IsOver;
    forall j: Key, id: Id | Queued(after, j, id) ensures Queued(s, j, id) {
      if j == k {
        var i :| 0 <= i < |TillOf(after, k).queue| && TillOf(after, k).queue[i].mutationId == id;
        assert TillOf(after, k).queue[i] in TillOf(after, k).queue;
      } else {
        OthersLeft(s, after, k, j);
        SameQueued(s, after, j, id);
      }
    }
  }

  lemma {:induction false} LocalKeepsOnce(s: Shop, after: Shop, k: Key)
    requires OnceOk(s) && IsLocal(s, after, k) && HoldsAreDone(after, k)
    ensures OnceOk(after)
  {
    LocalMakesNoId(s, after, k);
    KeepsOneSpent(s, after);
    hide HoldsAreDone, OneIsSpent, MakesNoId;
    forall j: Key ensures HoldsAreDone(after, j) {
      assert HoldsAreDone(s, j);
      if j != k {
        OthersLeft(s, after, k, j);
        SameQueued(s, after, j, 0);
      }
    }
  }

  // Rows that were there, or rows with the ids of rows that were there, on hold only if those are done.
  lemma {:induction false} HaltKeepsOnce(s: Shop, k: Key)
    requires ShopOk(s) && OnceOk(s) && TillOf(s, k).queue != [] && IsDone(s, TillOf(s, k).queue[0].mutationId)
    ensures OnceOk(HaltStep(s, k))
  {
    hide *;
    TillMovesLeaveOthers(s, Halt(k));
    HaltedRows(s, k);
    LocalKeepsOnce(s, HaltStep(s, k), k);
  }

  lemma HaltedRows(s: Shop, k: Key)
    requires ShopOk(s) && TillOf(s, k).queue != [] && IsDone(s, TillOf(s, k).queue[0].mutationId)
    requires LeavesOthers(s, Step(s, Halt(k)), k)
    ensures IsLocal(s, HaltStep(s, k), k) && HoldsAreDone(HaltStep(s, k), k)
  {
    hide ShopOk, Refusals.IsOver;
    var rows, after := TillOf(s, k).queue, HaltStep(s, k);
    assert TillOf(after, k).queue == Halted(rows);
    forall row | row in Halted(rows) ensures Queued(s, k, row.mutationId) && IsDone(after, row.mutationId) {
      var i :| 0 <= i < |rows| && Halted(rows)[i] == row;
      assert rows[i].mutationId == row.mutationId;
      if i > 0 { FollowerIsUnposted(s, k, i); }
    }
  }

  lemma FollowerIsUnposted(s: Shop, k: Key, i: nat)
    requires ShopOk(s) && 0 < i < |TillOf(s, k).queue|
    ensures TillOf(s, k).queue[i].mutationId !in s.posted
  {
    hide HistoryOk, PostedOk, TxPosted, Transactions.SysOk, HaltOk;
    assert TillOk(s, k) && RowOk(s.posted, s.minted, k, TillOf(s, k).queue[i], i == 0);
  }

  // Moves that leave some of the rows as they were and bring none.
  lemma {:induction false} FewerKeepOnce(s: Shop, after: Shop, k: Key)
    requires OnceOk(s) && LeavesOthers(s, after, k) && after.minted == s.minted && after.posted == s.posted
    requires forall row <- TillOf(after, k).queue :: row in TillOf(s, k).queue
    ensures OnceOk(after)
  {
    hide Refusals.IsOver, OneIsSpent, LeavesOthers;
    assert after.server == s.server by { OthersLeftServer(s, after, k); }
    forall row | row in TillOf(after, k).queue ensures Queued(s, k, row.mutationId) {
      var i :| 0 <= i < |TillOf(s, k).queue| && TillOf(s, k).queue[i] == row;
    }
    assert HoldsAreDone(s, k);
    hide OnceOk;
    LocalKeepsOnce(s, after, k);
  }

  lemma OthersLeftServer(s: Shop, after: Shop, k: Key)
    requires LeavesOthers(s, after, k)
    ensures after.server == s.server
  {
  }

  // The head goes out; it is on disk, so it was not spent.
  lemma {:induction false} PostKeepsOnce(s: Shop, k: Key)
    requires ShopOk(s) && OnceOk(s) && TillOf(s, k).queue != [] && !IsOnHold(TillOf(s, k).queue[0])
    ensures OnceOk(PostHead(s, k))
  {
    var after, head := PostHead(s, k), TillOf(s, k).queue[0];
    hide Refusals.IsOver;
    ShopIsMinted(s);
    assert RowsMinted(s, k) && head in TillOf(s, k).queue;
    assert Queued(s, k, head.mutationId) && OriginOf(s, head.mutationId).k == k;
    assert after.tills == s.tills && after.server == s.server;
    forall j: Key, id: Id ensures Queued(after, j, id) == Queued(s, j, id) && TillOf(after, j) == TillOf(s, j) {
      assert TillOf(after, j) == TillOf(s, j);
    }
    assert MakesNoId(s, after);
    hide OnceOk, MakesNoId, ShopOk;
    KeepsOneSpent(s, after) by { hide *; }
    forall j: Key ensures HoldsAreDone(after, j) {
      PostedHoldsAreDone(s, k, j);
    }
  }

  lemma PostedHoldsAreDone(s: Shop, k: Key, j: Key)
    requires ShopOk(s) && OnceOk(s) && TillOf(s, k).queue != [] && !IsOnHold(TillOf(s, k).queue[0])
    ensures HoldsAreDone(PostHead(s, k), j)
  {
    hide Refusals.IsOver, OneIsSpent;
    var head := TillOf(s, k).queue[0];
    assert HoldsAreDone(s, j) && TillOk(s, k) && TillOk(s, j);
    hide OnceOk, ShopOk, IsView, HaltOk;
    forall row | row in TillOf(s, j).queue && IsOnHold(row) ensures row.mutationId != head.mutationId {
      var i :| 0 <= i < |TillOf(s, j).queue| && TillOf(s, j).queue[i] == row;
      assert RowOk(s.posted, s.minted, j, row, i == 0) && RowOk(s.posted, s.minted, k, head, true);
    }
  }

  /* ---- new ids ---- */

  // One id is made, and everything else about the ids is as it was.
  ghost predicate AddsId(s: Shop, after: Shop, made: Id) {
    && after.server == s.server && made !in s.minted
    && (forall id: Id :: id != made ==> OriginOf(after, id) == OriginOf(s, id))
    && (forall id: Id :: id != made && id in after.posted ==> id in s.posted && after.posted[id] == s.posted[id])
    && (forall k: Key, id: Id :: id != made && Queued(after, k, id) ==> Queued(s, k, id))
  }

  lemma AddedStaysSpent(s: Shop, after: Shop, made: Id, id: Id)
    requires AddsId(s, after, made) && id != made
    ensures IsSpent(s, id) ==> IsSpent(after, id)
    ensures IsDone(s, id) ==> IsDone(after, id)
  {
    hide Queued, Refusals.IsOver;
  }

  ghost predicate OthersAreSpent(after: Shop, made: Id) {
    forall id: Id :: id != made && OriginOf(after, id) == OriginOf(after, made) && OriginOf(after, made).Intent? ==> IsSpent(after, id)
  }

  lemma {:induction false} AddedKeepsOnce(s: Shop, after: Shop, made: Id)
    requires OnceOk(s) && AddsId(s, after, made) && OthersAreSpent(after, made)
    ensures forall a: Id, b: Id :: OneIsSpent(after, a, b)
  {
    hide IsSpent, HoldsAreDone;
    forall a: Id, b: Id ensures OneIsSpent(after, a, b) {
      assert OneIsSpent(s, a, b);
      if a != made { AddedStaysSpent(s, after, made, a); }
      if b != made { AddedStaysSpent(s, after, made, b); }
      assert a != made ==> OriginOf(after, a) == OriginOf(s, a);
      assert b != made ==> OriginOf(after, b) == OriginOf(s, b);
    }
  }

  // No row on hold is new.
  predicate BringsNoHold(s: Shop, after: Shop, k: Key) {
    forall row <- TillOf(after, k).queue :: row in TillOf(s, k).queue || !IsOnHold(row)
  }

  lemma AddedHolds(s: Shop, after: Shop, made: Id, k: Key)
    requires AddsId(s, after, made) && HoldsAreDone(s, k) && BringsNoHold(s, after, k) && RowsMinted(s, k)
    ensures HoldsAreDone(after, k)
  {
    hide IsDone;
    forall row | row in TillOf(after, k).queue && IsOnHold(row) ensures IsDone(after, row.mutationId) {
      AddedStaysSpent(s, after, made, row.mutationId);
    }
  }

  lemma {:induction false} AddedIsOnce(s: Shop, after: Shop, made: Id)
    requires OnceOk(s) && AllMinted(s) && AddsId(s, after, made) && OthersAreSpent(after, made)
    requires forall k: Key :: BringsNoHold(s, after, k)
    ensures OnceOk(after)
  {
    hide OneIsSpent, AddsId, OthersAreSpent, BringsNoHold, HoldsAreDone, RowsMinted;
    AddedKeepsOnce(s, after, made);
    forall k: Key ensures HoldsAreDone(after, k) {
      assert HoldsAreDone(s, k) && RowsMinted(s, k) && BringsNoHold(s, after, k);
      AddedHolds(s, after, made, k);
    }
  }

  lemma StagedQueues(s: Shop, k: Key, row: Row, j: Key, id: Id)
    ensures var after := Staged(s, k, row);
      && (BringsNoHold(s, after, j) || (j == k && IsOnHold(row)))
      && (id != row.mutationId && Queued(after, j, id) ==> Queued(s, j, id))
  {
    var after, rows := Staged(s, k, row), TillOf(s, k).queue;
    if j == k {
      assert TillOf(after, j).queue == rows + [row];
      if id != row.mutationId && Queued(after, j, id) {
        var i :| 0 <= i < |rows + [row]| && (rows + [row])[i].mutationId == id;
        assert rows[i].mutationId == id;
      }
    } else {
      assert TillOf(after, j) == TillOf(s, j);
    }
  }

  lemma StagedAdds(s: Shop, k: Key, row: Row)
    requires IntentsOk(s) && AllMinted(s) && IsFresh(s, row.mutationId) && row.status == Pending
    ensures var after := Staged(s, k, row);
      AddsId(s, after, row.mutationId) && OthersAreSpent(after, row.mutationId) && forall j: Key :: BringsNoHold(s, after, j)
  {
    var after := Staged(s, k, row);
    hide Queued, IsSpent, BringsNoHold, AllMinted, Accounted, PostedInOrder, InOrder, CommitOk, CommitsRise;
    forall j: Key, id: Id ensures id != row.mutationId && Queued(after, j, id) ==> Queued(s, j, id) {
      StagedQueues(s, k, row, j, id);
    }
    forall j: Key ensures BringsNoHold(s, after, j) {
      StagedQueues(s, k, row, j, 0);
    }
  }

  lemma {:induction false} StagedOnce(s: Shop, k: Key, row: Row)
    requires ShopOk(s) && OnceOk(s) && IntentsOk(s) && IsFresh(s, row.mutationId) && row.status == Pending
    ensures OnceOk(Staged(s, k, row))
  {
    hide *;
    ShopIsMinted(s);
    StagedAdds(s, k, row);
    AddedIsOnce(s, Staged(s, k, row), row.mutationId);
  }

  lemma DisplayAdds(s: Shop, after: Shop, made: Id)
    requires Displays(s, after, made)
    ensures AddsId(s, after, made) && OthersAreSpent(after, made)
    ensures forall k: Key :: BringsNoHold(s, after, k)
  {
    hide IsSpent;
    forall k: Key, id: Id ensures TillOf(after, k) == TillOf(s, k) && Queued(after, k, id) == Queued(s, k, id) {
    }
  }

  lemma {:induction false} DisplayOnce(s: Shop, id: Id, k: Key, log: seq<nat>, command: Command)
    requires ShopOk(s) && OnceOk(s)
    ensures OnceOk(PostFromKitchenStep(s, id, k, log, command))
  {
    hide *;
    var after := PostFromKitchenStep(s, id, k, log, command);
    DisplayMakes(s, id, k, log, command);
    ShopIsMinted(s);
    if after != s {
      DisplayAdds(s, after, id);
      AddedIsOnce(s, after, id);
    }
  }

  // The replacement is queued, so every other id of the intent but the one replaced was spent already.
  lemma {:induction false} ReissuedOnce(s: Shop, k: Key, id: Id)
    requires ShopOk(s) && OnceOk(s) && (TillOf(s, k).queue != [] ==> IsOnHold(TillOf(s, k).queue[0]))
    ensures OnceOk(ReissueStep(s, k, id))
  {
    hide *;
    var after := ReissueStep(s, k, id);
    if after != s {
      ShopIsMinted(s);
      var reissued := ReissueMakes(s, k, id);
      HeadOnHold(s, k, after, id, reissued);
      ReplacedIds(s, after, k, id, reissued);
      ReplacedIsSpent(s, after, k, id);
      ReissuedHolds(s, after, k, id, reissued);
      AddedIsOnce(s, after, id);
    }
  }

  lemma HeadOnHold(s: Shop, k: Key, after: Shop, made: Id, reissued: Row)
    requires ShopOk(s) && OnceOk(s) && AllMinted(s) && Replaces(s, after, k, made, reissued)
    requires TillOf(s, k).queue != [] ==> IsOnHold(TillOf(s, k).queue[0])
    ensures RowsOk(s.posted, s.minted, k, TillOf(s, k).queue) && RowsMinted(s, k)
    ensures TillOf(s, k).queue != []
    ensures OriginOf(after, made) == OriginOf(s, TillOf(s, k).queue[0].mutationId) && IsDone(s, TillOf(s, k).queue[0].mutationId)
  {
    hide IsDone, OneIsSpent, HistoryOk, PostedOk, TxPosted, Transactions.SysOk, RowsOk, HaltOk, IsView;
    assert TillOk(s, k) && HoldsAreDone(s, k) && RowsMinted(s, k);
    assert TillOf(s, k).queue[0] in TillOf(s, k).queue;
  }

  // What re-issuing does to the queue and to the ids.
  predicate Replaces(s: Shop, after: Shop, k: Key, made: Id, reissued: Row) {
    var rows := TillOf(s, k).queue;
    && rows != [] && made !in s.minted && after.server == s.server && after.posted == s.posted && after.history == s.history
    && after.minted == s.minted[made := OriginOf(s, rows[0].mutationId)]
    && reissued.mutationId == made && reissued.status == Pending
    && after.tills == s.tills[k := TillOf(after, k)] && TillOf(after, k).queue == [reissued] + rows[1..]
  }

  lemma ReissueMakes(s: Shop, k: Key, id: Id) returns (reissued: Row)
    requires ReissueStep(s, k, id) != s
    ensures Replaces(s, ReissueStep(s, k, id), k, id, reissued)
  {
    reissued := TillOf(ReissueStep(s, k, id), k).queue[0];
  }

  lemma ReplacedIds(s: Shop, after: Shop, k: Key, made: Id, reissued: Row)
    requires Replaces(s, after, k, made, reissued) && RowsOk(s.posted, s.minted, k, TillOf(s, k).queue)
    requires RowsMinted(s, k)
    ensures AddsId(s, after, made) && Queued(s, k, TillOf(s, k).queue[0].mutationId)
    ensures TillOf(s, k).queue[0].mutationId != made
    ensures !Queued(after, k, TillOf(s, k).queue[0].mutationId) && TillOf(s, k).queue[0].mutationId in s.minted
  {
    var rows, rows' := TillOf(s, k).queue, TillOf(after, k).queue;
    hide RowOk;
    assert rows[0] in rows;
    forall j: Key, other: Id | other != made && Queued(after, j, other)
      ensures Queued(s, j, other) && (j == k ==> other != rows[0].mutationId) {
      if j == k {
        var i :| 0 <= i < |rows'| && rows'[i].mutationId == other;
        assert i > 0 && rows[i].mutationId == other;
      } else {
        assert TillOf(after, j) == TillOf(s, j);
      }
    }
  }

  lemma ReissuedHolds(s: Shop, after: Shop, k: Key, made: Id, reissued: Row)
    requires Replaces(s, after, k, made, reissued)
    ensures forall j: Key :: BringsNoHold(s, after, j)
  {
    forall j: Key ensures BringsNoHold(s, after, j) {
      assert j != k ==> TillOf(after, j) == TillOf(s, j);
    }
  }

  lemma ReplacedIsSpent(s: Shop, after: Shop, k: Key, made: Id)
    requires OnceOk(s) && AddsId(s, after, made) && TillOf(s, k).queue != [] && RowsMinted(s, k)
    requires TillOf(s, k).queue[0].mutationId in s.minted
    requires var head := TillOf(s, k).queue[0];
      && OriginOf(after, made) == OriginOf(s, head.mutationId) && IsDone(s, head.mutationId)
      && !Queued(after, k, head.mutationId) && Queued(s, k, head.mutationId) && head.mutationId != made
    ensures OthersAreSpent(after, made)
  {
    hide IsDone, HoldsAreDone, Queued;
    var head := TillOf(s, k).queue[0];
    assert head in TillOf(s, k).queue;
    forall id: Id | id != made && OriginOf(after, id) == OriginOf(after, made) && OriginOf(after, made).Intent?
      ensures IsSpent(after, id) {
      AddedStaysSpent(s, after, made, id);
      assert OneIsSpent(s, id, head.mutationId);
    }
  }

  /* ---- every run ---- */

  lemma RefusedIsDone(s: Shop, t: Id, id: Id)
    requires ShopOk(s) && Refusals.AllOver(s.server) && IsRefused(s, t, id)
    ensures IsDone(s, id)
  {
    hide HistoryOk, TillOk, Refusals.IsOver, Transactions.SysOk, PostedOk;
    assert TxPosted(s, t) && Refusals.TxOver(s.server, s.server.txs[t]);
  }

  lemma {:induction false} HaltsOnce(s: Shop, k: Key)
    requires ShopOk(s) && OnceOk(s) && Refusals.AllOver(s.server) && IsGuarded(s, Halt(k))
    ensures OnceOk(HaltStep(s, k))
  {
    hide ShopOk, OnceOk, Refusals.AllOver, Halted;
    if TillOf(s, k).queue != [] {
      var t: Id :| IsRefused(s, t, TillOf(s, k).queue[0].mutationId);
      RefusedIsDone(s, t, TillOf(s, k).queue[0].mutationId);
      HaltKeepsOnce(s, k);
    }
  }

  lemma {:induction false} PostsOnce(s: Shop, k: Key)
    requires ShopOk(s) && OnceOk(s)
    ensures OnceOk(PostStep(s, k)) && OnceOk(PostReissuedStep(s, k))
  {
    hide ShopOk, OnceOk, PostHead;
    var rows := TillOf(s, k).queue;
    if rows != [] && (IsSendable(rows) || rows[0].status == Pending) {
      assert rows[0] in rows;
      PostKeepsOnce(s, k);
    }
  }

  lemma {:induction false} FewerMovesKeepOnce(s: Shop, move: Move)
    requires ShopOk(s) && OnceOk(s) && (TakesNoRow(move) || TakesRows(move))
    ensures OnceOk(Step(s, move))
  {
    hide *;
    KnownMove(move);
    TillMovesLeaveOthers(s, move);
    if TakesRows(move) {
      FewerRows(s, move);
    } else {
      SameRows(s, move);
      SameIsFewer(s, Step(s, move), move.k);
    }
    FewerKeepOnce(s, Step(s, move), move.k);
  }

  lemma SameIsFewer(s: Shop, after: Shop, k: Key)
    requires SameRowsIn(s, after, k)
    ensures after.minted == s.minted && after.posted == s.posted && TillOf(after, k).queue == TillOf(s, k).queue
  {
  }

  predicate TakesNoRow(move: Move) {
    move.Show? || move.Save? || move.Reload? || move.Leave? || move.Forget? || move.StartRebase? || move.Carry? || move.StopRebase?
  }

  predicate TakesRows(move: Move) {
    move.Drop? || move.Discard?
  }

  lemma KnownMove(move: Move)
    ensures TakesNoRow(move) || TakesRows(move) ==> !move.Serve?
  {
  }

  lemma FewerRows(s: Shop, move: Move)
    requires TakesRows(move)
    ensures Step(s, move).minted == s.minted && Step(s, move).posted == s.posted
    ensures forall row <- TillOf(Step(s, move), move.k).queue :: row in TillOf(s, move.k).queue
  {
    hide IsSuccess, IntentsIn;
  }

  predicate SameRowsIn(s: Shop, after: Shop, k: Key) {
    after.minted == s.minted && after.posted == s.posted && TillOf(after, k).queue == TillOf(s, k).queue
  }

  lemma SameRows(s: Shop, move: Move)
    requires TakesNoRow(move)
    ensures SameRowsIn(s, Step(s, move), move.k)
  {
    hide ShowStep, SaveStep, ForgetStep, StartRebaseStep, CarryStep, WithTill, TillOf, SameRowsIn;
    SameRowsSeen(s, move.k);
    match move
    case Show(k, version, lines) => SameRowsShown(s, k, version, lines);
    case Save(k, version, lines) => SameRowsShown(s, k, version, lines);
    case Carry(k, t) => SameRowsCarried(s, k, t);
    case _ =>
  }

  lemma SameRowsSeen(s: Shop, k: Key)
    ensures forall till: Till :: till.queue == TillOf(s, k).queue ==> SameRowsIn(s, WithTill(s, k, till), k)
    ensures SameRowsIn(s, ForgetStep(s, k), k) && SameRowsIn(s, StartRebaseStep(s, k), k)
  {
    hide IsSendable;
  }

  lemma SameRowsShown(s: Shop, k: Key, version: nat, lines: nat)
    ensures SameRowsIn(s, ShowStep(s, k, version, lines), k) && SameRowsIn(s, SaveStep(s, k, version, lines), k)
  {
    hide Seen;
  }

  lemma SameRowsCarried(s: Shop, k: Key, t: Id)
    ensures SameRowsIn(s, CarryStep(s, k, t), k)
  {
    hide IsSuccess;
  }

  lemma {:induction false} StepKeepsOnce(s: Shop, move: Move)
    requires ShopOk(s) && IntentsOk(s) && Refusals.AllOver(s.server) && OnceOk(s) && IsGuarded(s, move)
    ensures OnceOk(Step(s, move))
  {
    hide ShopOk, IntentsOk, Refusals.AllOver, OnceOk, ServeStep, StageStep, HaltStep, PostStep, PostReissuedStep,
      ReissueStep, PostFromKitchenStep, Staged;
    match move
    case Serve(step) =>
      assert Transactions.SysOk(s.server) by { ServerIsOk(s); }
      ServeKeepsOnce(s, step);
    case Stage(k, id, restaurantId, command, stamp, menu) =>
      var row := StageIsStaged(s, k, id, restaurantId, command, stamp, menu);
      if IsFresh(s, id) { StagedOnce(s, k, row); }
    case Post(k) => PostsOnce(s, k);
    case PostReissued(k) => PostsOnce(s, k);
    case Halt(k) => HaltsOnce(s, k);
    case Reissue(k, id) => ReissuedOnce(s, k, id);
    case PostFromKitchen(id, k, log, command) => DisplayOnce(s, id, k, log, command);
    case _ => FewerMovesKeepOnce(s, move);
  }

  lemma ServerIsOk(s: Shop)
    requires ShopOk(s)
    ensures Transactions.SysOk(s.server)
  {
  }

  lemma OpeningIsOnce(products: map<Id, Product>)
    ensures OnceOk(Opening(products)) && ServerInvariants.GoodDb(Opening(products).server.db)
  {
    var s := Opening(products);
    assert forall k: Key :: TillOf(s, k) == EMPTY_TILL;
  }

  lemma {:induction false} RunKeepsOnce(products: map<Id, Product>, moves: seq<Move>)
    requires AlwaysOk(Opening(products), moves) && GuardedRunFrom(Opening(products), moves)
    ensures OnceOk(Run(products, moves))
  {
    hide ShopOk, IntentsOk, Step, OnceOk, Refusals.AllOver, IsGuarded, Transactions.SysOk, ServerInvariants.GoodDb;
    OpeningIsOnce(products);
    if moves != [] {
      var before := moves[..|moves| - 1];
      RunKeepsOnce(products, before);
      RunKeepsIntents(products, before);
      ServerRun(products, before);
      Refusals.RunIsOver(Opening(products).server.db, ServerMoves(Opening(products), before));
      StepKeepsOnce(Run(products, before), moves[|moves| - 1]);
    }
  }

  // Two commits for intents of one till are for two intents, the earlier one first.
  ghost predicate CommittedOnce(s: Shop, i: nat, j: nat)
    requires i < |s.server.commits| && j < |s.server.commits|
  {
    forall k: Key, m: nat, n: nat ::
      For(s, s.server.commits[i].mutationId, k, m) && For(s, s.server.commits[j].mutationId, k, n) ==> m < n
  }

  lemma NoIntentTwice(s: Shop, i: nat, j: nat, k: Key, n: nat)
    requires IntentsOk(s) && OnceOk(s) && i < j < |s.server.commits|
    requires For(s, s.server.commits[i].mutationId, k, n)
    ensures !For(s, s.server.commits[j].mutationId, k, n)
  {
    hide HoldsAreDone, Queued, Refusals.IsBlocked, Accounted, PostedInOrder, InOrder;
    var a, b := s.server.commits[i], s.server.commits[j];
    assert CommitOk(s, i) && CommitOk(s, j) && CommitsRise(s.server.commits);
    assert OneIsSpent(s, a.mutationId, b.mutationId);
    assert a in s.server.commits && b in s.server.commits;
  }

  /**
   With the server in the machine, every stamp sound and every rebase guarded: however often an intent is
   sent and re-issued, it is applied at most once, and the intents of one till for one order are applied in
   the order in which they were staged.
   */
  lemma {:induction false} EachIntentOnce(products: map<Id, Product>, moves: seq<Move>)
    requires SoundRunFrom(Opening(products), moves) && GuardedRunFrom(Opening(products), moves)
    ensures var s := Run(products, moves); forall i: nat, j: nat :: i < j < |s.server.commits| ==> CommittedOnce(s, i, j)
  {
    hide ShopOk, AllSound, RunFrom, SoundRunFrom, AlwaysOk, GuardedRunFrom, IntentsOk, OnceOk;
    var s := Run(products, moves);
    OpeningIsOk(products);
    SoundIsAlwaysOk(Opening(products), moves);
    RunKeepsIntents(products, moves);
    RunKeepsOnce(products, moves);
    forall i: nat, j: nat | i < j < |s.server.commits| ensures CommittedOnce(s, i, j) {
      forall k: Key, m: nat, n: nat |
        For(s, s.server.commits[i].mutationId, k, m) && For(s, s.server.commits[j].mutationId, k, n) ensures m < n {
        CommitsAreInOrder(s, i, j, k, m, n);
        NoIntentTwice(s, i, j, k, m);
      }
    }
  }
}
