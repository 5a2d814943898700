/**
 What becomes of an operator's intents: each one is on disk in one row, was given up, or has been served;
 and the commits of one till's intents come in the order in which they were staged.
 */
module Intents {
  import opened Domain
  import opened ProjectQueue
  import opened Server
  import opened Chains
  import opened Reach
  import opened QueueChain
  import opened Shops
  import opened TillRules
  import opened TillMoves
  import opened ServedRequests
  import opened NeverAhead
  import opened CarefulTills
  import Kitchen
  import Transactions

  // The id was minted for intent `n` of till `k`.
  predicate For(s: Shop, id: Id, k: Key, n: nat) {
    id in s.minted && s.minted[id] == Intent(k, n)
  }

  predicate Queued(s: Shop, k: Key, id: Id) {
    exists i :: 0 <= i < |TillOf(s, k).queue| && TillOf(s, k).queue[i].mutationId == id
  }

  // Given up, still on disk, or served.
  predicate Accounted(s: Shop, n: nat) {
    || n in s.discarded
    || exists id <- s.minted :: s.minted[id].Intent? && s.minted[id].n == n &&
         (id in s.server.db.processed || Queued(s, s.minted[id].k, id))
  }

  function IntentOf(minted: map<Id, Origin>, row: Row): nat {
    if row.mutationId in minted && minted[row.mutationId].Intent? then minted[row.mutationId].n else 0
  }

  // The disk keeps a till's intents in the order in which they were staged, one row each.
  predicate InOrder(minted: map<Id, Origin>, rows: seq<Row>) {
    forall i, j :: 0 <= i < j < |rows| ==> IntentOf(minted, rows[i]) < IntentOf(minted, rows[j])
  }

  // What has been posted for a till comes before what it still has queued, and was posted in order.
  predicate PostedInOrder(s: Shop, id: Id)
    requires id in s.posted
  {
    id in s.minted && s.minted[id].Intent? ==>
      var k, n := s.minted[id].k, s.minted[id].n;
      && s.posted[id].orderId == k.orderId
      && (forall row <- TillOf(s, k).queue :: n <= IntentOf(s.minted, row))
      && (forall other <- s.posted :: IsEarlier(s, other, k, n) ==> PostedBy(s, other) <= PostedBy(s, id))
  }

  predicate IsEarlier(s: Shop, id: Id, k: Key, n: nat) {
    id in s.minted && s.minted[id].Intent? && s.minted[id].k == k && s.minted[id].n < n
  }

  function PostedBy(s: Shop, id: Id): nat {
    if id in s.postedAt then s.postedAt[id] else 0
  }

  // A commit was posted when its order stood at the version it was stamped with.
  predicate CommitOk(s: Shop, i: nat)
    requires i < |s.server.commits|
  {
    var input := s.server.commits[i];
    && input.mutationId in s.posted && s.posted[input.mutationId] == input
    && input.mutationId in s.postedAt && s.postedAt[input.mutationId] == input.baseVersion
    && input.baseVersion < |HistoryOf(s, input.orderId)|
  }

  predicate CommitsRise(commits: seq<MutationInput>) {
    forall i, j :: 0 <= i < j < |commits| && commits[i].orderId == commits[j].orderId ==>
      commits[i].baseVersion < commits[j].baseVersion
  }

  ghost predicate IntentsOk(s: Shop) {
    && (forall id <- s.minted :: s.minted[id].Intent? ==> s.minted[id].n < s.intents)
    && (forall k: Key :: InOrder(s.minted, TillOf(s, k).queue))
    && (forall id <- s.posted :: PostedInOrder(s, id))
    && (forall i :: 0 <= i < |s.server.commits| ==> CommitOk(s, i))
    && CommitsRise(s.server.commits)
    && (forall n: nat :: n < s.intents ==> Accounted(s, n))
  }

  /* ---- the server's moves ---- */

  lemma GrownIntents(s: Shop, after: Shop, input: MutationInput, order: Snapshot)
    requires IntentsOk(s) && PostedInTime(s, input) && Grown(s, after, input, order)
    requires after.server.commits == s.server.commits + [input]
    requires Recalls(s.server.db.processed, after.server.db.processed)
    ensures IntentsOk(after)
  {
    hide Makes, OthersStay;
    MakesAtBase(s, after, input, order);
    forall i | 0 <= i < |after.server.commits| ensures CommitOk(after, i) {
      if i < |s.server.commits| { assert CommitOk(s, i); }
    }
    forall i, j | 0 <= i < j < |after.server.commits| && after.server.commits[i].orderId == after.server.commits[j].orderId
      ensures after.server.commits[i].baseVersion < after.server.commits[j].baseVersion
    {
      assert CommitOk(s, i);
    }
    SameTillsSameIntents(s, after);
  }

  predicate PostedInTime(s: Shop, input: MutationInput) {
    && input.mutationId in s.posted && s.posted[input.mutationId] == input && input.mutationId in s.postedAt
    && input.baseVersion <= s.postedAt[input.mutationId] <= |HistoryOf(s, input.orderId)|
  }

  lemma MakesAtBase(s: Shop, after: Shop, input: MutationInput, order: Snapshot)
    requires Grown(s, after, input, order)
    ensures input.baseVersion == |HistoryOf(s, input.orderId)|
    ensures forall o: Id :: |HistoryOf(s, o)| <= |HistoryOf(after, o)|
    ensures |HistoryOf(after, input.orderId)| == |HistoryOf(s, input.orderId)| + 1
  {
    hide OthersStay, Now, Hopeless, React;
  }

  lemma SameTillsSameIntents(s: Shop, after: Shop)
    requires IntentsOk(s) && SameTills(s, after) && Recalls(s.server.db.processed, after.server.db.processed)
    ensures forall id <- after.minted :: after.minted[id].Intent? ==> after.minted[id].n < after.intents
    ensures forall k: Key :: InOrder(after.minted, TillOf(after, k).queue)
    ensures forall id <- after.posted :: PostedInOrder(after, id)
    ensures forall n: nat :: n < after.intents ==> Accounted(after, n)
  {
    hide CommitOk, CommitsRise;
    forall k: Key ensures InOrder(after.minted, TillOf(after, k).queue) {
      assert InOrder(s.minted, TillOf(s, k).queue);
    }
    forall id | id in after.posted ensures PostedInOrder(after, id) {
      assert PostedInOrder(s, id);
    }
    forall n: nat | n < after.intents ensures Accounted(after, n) {
      assert Accounted(s, n);
      if n !in s.discarded {
        var id :| id in s.minted && s.minted[id].Intent? && s.minted[id].n == n &&
          (id in s.server.db.processed || Queued(s, s.minted[id].k, id));
        assert TillOf(after, s.minted[id].k) == TillOf(s, s.minted[id].k);
        assert Queued(s, s.minted[id].k, id) ==> Queued(after, s.minted[id].k, id);
      }
    }
  }

  lemma {:induction false} ServeKeepsIntents(s: Shop, step: Transactions.Move)
    requires ShopOk(s) && IntentsOk(s)
    ensures IntentsOk(ServeStep(s, step))
  {
    hide IntentsOk, Served, Grown, Noted, Transactions.Progress, HistoryOk, TillOk, SameTills, Recalls;
    var after := ServeStep(s, step);
    if step.Advance? && step.t in s.server.txs {
      hide ShopOk, ServeStep;
      var order := AdvanceIsServed(s, step.t);
      var input := s.server.txs[step.t].input;
      ServedIds(s, after, input, order);
      InputIsPosted(s, step.t);
      if Transactions.Progress(s.server.db, s.server.txs[step.t]).commits != [] {
        GrownIntents(s, after, input, order);
      } else {
        assert SameTills(s, after) by { ServedInput(s, after, input, order); }
        QuietIntents(s, after);
      }
    } else {
      NothingServed(s, step);
      QuietIntents(s, after);
    }
  }

  lemma NothingServed(s: Shop, step: Transactions.Move)
    requires !step.Advance? || step.t !in s.server.txs
    ensures var after := ServeStep(s, step);
      && SameTills(s, after) && Recalls(s.server.db.processed, after.server.db.processed)
      && after.server.commits == s.server.commits && after.history == s.history
  {
  }

  lemma InputIsPosted(s: Shop, t: Id)
    requires ShopOk(s) && t in s.server.txs
    ensures PostedInTime(s, s.server.txs[t].input)
  {
    hide HistoryOk, TillOk;
    assert TxPosted(s, t) && PostedOk(s, s.server.txs[t].input.mutationId);
  }

  lemma QuietIntents(s: Shop, after: Shop)
    requires IntentsOk(s) && SameTills(s, after) && Recalls(s.server.db.processed, after.server.db.processed)
    requires after.server.commits == s.server.commits && after.history == s.history
    ensures IntentsOk(after)
  {
    SameTillsSameIntents(s, after);
    forall i | 0 <= i < |after.server.commits| ensures CommitOk(after, i) {
      assert CommitOk(s, i);
    }
  }

  /* ---- the tills' moves ---- */

  // What a move of a till or a display leaves as it was.
  predicate SameServer(s: Shop, after: Shop) {
    after.server == s.server && after.history == s.history
  }

  // Every row carries an id of its own till, and every request one that was minted.
  ghost predicate AllMinted(s: Shop) {
    && (forall k: Key :: RowsMinted(s, k))
    && (forall id <- s.posted :: id in s.minted)
  }

  predicate RowsMinted(s: Shop, k: Key) {
    forall row <- TillOf(s, k).queue ::
      row.mutationId in s.minted && s.minted[row.mutationId].Intent? && s.minted[row.mutationId].k == k
  }

  lemma ShopIsMinted(s: Shop)
    requires ShopOk(s)
    ensures AllMinted(s)
  {
    hide HistoryOk, Transactions.SysOk;
    forall k: Key ensures RowsMinted(s, k) {
      assert TillOk(s, k);
      forall row | row in TillOf(s, k).queue
        ensures row.mutationId in s.minted && s.minted[row.mutationId].Intent? && s.minted[row.mutationId].k == k {
        var i :| 0 <= i < |TillOf(s, k).queue| && TillOf(s, k).queue[i] == row;
        assert RowOk(s.posted, s.minted, k, row, i == 0);
      }
    }
    forall id | id in s.posted ensures id in s.minted {
      assert PostedOk(s, id);
    }
  }

  // A move of till `k` that posts nothing and forgets no id.
  ghost predicate KeepsIds(s: Shop, after: Shop, k: Key) {
    && SameServer(s, after) && LeavesOthers(s, after, k)
    && after.posted == s.posted && after.postedAt == s.postedAt
    && s.intents <= after.intents && s.discarded <= after.discarded
    && (forall id <- s.minted :: id in after.minted && after.minted[id] == s.minted[id])
    && (forall id <- after.minted :: id !in s.minted && after.minted[id].Intent? ==> after.minted[id].n < after.intents)
  }

  // The intent of a row that was there before, or a new one.
  predicate IsOldOrNew(s: Shop, k: Key, n: nat) {
    n >= s.intents || exists row <- TillOf(s, k).queue :: IntentOf(s.minted, row) == n
  }

  lemma {:induction false} MoveKeepsIntents(s: Shop, after: Shop, k: Key)
    requires IntentsOk(s) && AllMinted(s) && AllMinted(after) && KeepsIds(s, after, k)
    requires InOrder(after.minted, TillOf(after, k).queue)
    requires forall row <- TillOf(after, k).queue :: IsOldOrNew(s, k, IntentOf(after.minted, row))
    requires forall row <- TillOf(s, k).queue :: Accounted(after, IntentOf(s.minted, row))
    requires forall n: nat :: s.intents <= n < after.intents ==> Accounted(after, n)
    ensures IntentsOk(after)
  {
    hide CommitsRise, AllMinted;
    MoveKeepsDisk(s, after, k);
    forall id | id in after.posted ensures PostedInOrder(after, id) {
      MoveKeepsPosted(s, after, k, id);
    }
    forall i | 0 <= i < |after.server.commits| ensures CommitOk(after, i) {
      assert CommitOk(s, i);
    }
    forall n: nat | n < after.intents ensures Accounted(after, n) {
      if n < s.intents { MoveKeepsAccount(s, after, k, n); }
    }
  }

  lemma SameIntent(s: Shop, after: Shop, k: Key, j: Key, row: Row)
    requires RowsMinted(s, j) && KeepsIds(s, after, k) && row in TillOf(s, j).queue
    ensures IntentOf(after.minted, row) == IntentOf(s.minted, row)
  {
  }

  lemma MoveKeepsDisk(s: Shop, after: Shop, k: Key)
    requires IntentsOk(s) && AllMinted(s) && KeepsIds(s, after, k)
    requires InOrder(after.minted, TillOf(after, k).queue)
    ensures forall j: Key :: InOrder(after.minted, TillOf(after, j).queue)
  {
    forall j: Key ensures InOrder(after.minted, TillOf(after, j).queue) {
      if j != k {
        var rows := TillOf(s, j).queue;
        OthersLeft(s, after, k, j);
        assert InOrder(s.minted, rows) && RowsMinted(s, j);
        hide KeepsIds, IntentsOk;
        forall i, l | 0 <= i < l < |rows| ensures IntentOf(after.minted, rows[i]) < IntentOf(after.minted, rows[l]) {
          SameIntent(s, after, k, j, rows[i]);
          SameIntent(s, after, k, j, rows[l]);
        }
      }
    }
  }

  lemma MoveKeepsPosted(s: Shop, after: Shop, k: Key, id: Id)
    requires IntentsOk(s) && AllMinted(s) && KeepsIds(s, after, k) && id in s.posted
    requires forall row <- TillOf(after, k).queue :: IsOldOrNew(s, k, IntentOf(after.minted, row))
    ensures PostedInOrder(after, id)
  {
    assert PostedInOrder(s, id) && id in s.minted;
    if s.minted[id].Intent? {
      var j, n := s.minted[id].k, s.minted[id].n;
      forall row | row in TillOf(after, j).queue ensures n <= IntentOf(after.minted, row) {
        if j == k {
          assert IsOldOrNew(s, k, IntentOf(after.minted, row));
        } else {
          OthersLeft(s, after, k, j);
          assert RowsMinted(s, j);
          SameIntent(s, after, k, j, row);
        }
      }
    }
  }

  lemma MoveKeepsAccount(s: Shop, after: Shop, k: Key, n: nat)
    requires IntentsOk(s) && KeepsIds(s, after, k) && n < s.intents
    requires forall row <- TillOf(s, k).queue :: Accounted(after, IntentOf(s.minted, row))
    ensures Accounted(after, n)
  {
    assert Accounted(s, n);
    if n !in s.discarded {
      var id :| id in s.minted && s.minted[id].Intent? && s.minted[id].n == n &&
        (id in s.server.db.processed || Queued(s, s.minted[id].k, id));
      if id !in s.server.db.processed {
        var j := s.minted[id].k;
        var i :| 0 <= i < |TillOf(s, j).queue| && TillOf(s, j).queue[i].mutationId == id;
        var row := TillOf(s, j).queue[i];
        if j == k {
          assert IntentOf(s.minted, row) == n;
        } else {
          OthersLeft(s, after, k, j);
          assert Queued(after, j, id);
        }
      }
    }
  }

  // A row that is still there accounts for its intent.
  lemma StillQueued(s: Shop, k: Key, i: nat)
    requires RowsMinted(s, k) && i < |TillOf(s, k).queue|
    ensures Accounted(s, IntentOf(s.minted, TillOf(s, k).queue[i]))
  {
    var row := TillOf(s, k).queue[i];
    assert Queued(s, k, row.mutationId);
  }

  // Queues whose rows carry the same intents as before, place by place.
  lemma {:induction false} SameIntentsKept(s: Shop, after: Shop, k: Key)
    requires IntentsOk(s) && AllMinted(s) && AllMinted(after) && KeepsIds(s, after, k) && after.intents == s.intents
    requires var rows, rows' := TillOf(s, k).queue, TillOf(after, k).queue;
      |rows'| == |rows| && forall i :: 0 <= i < |rows| ==> IntentOf(after.minted, rows'[i]) == IntentOf(s.minted, rows[i])
    ensures IntentsOk(after)
  {
    var rows, rows' := TillOf(s, k).queue, TillOf(after, k).queue;
    assert InOrder(s.minted, rows) && RowsMinted(after, k);
    forall row | row in rows' ensures IsOldOrNew(s, k, IntentOf(after.minted, row)) {
      var i :| 0 <= i < |rows'| && rows'[i] == row;
      assert rows[i] in rows;
    }
    forall row | row in rows ensures Accounted(after, IntentOf(s.minted, row)) {
      var i :| 0 <= i < |rows| && rows[i] == row;
      StillQueued(after, k, i);
    }
    hide IntentsOk, AllMinted, KeepsIds;
    MoveKeepsIntents(s, after, k);
  }

  /* ---- move by move ---- */

  lemma {:induction false} StagedIntents(s: Shop, k: Key, row: Row)
    requires IntentsOk(s) && AllMinted(s) && IsFresh(s, row.mutationId)
    requires AllMinted(Staged(s, k, row))
    ensures IntentsOk(Staged(s, k, row))
  {
    var after, rows := Staged(s, k, row), TillOf(s, k).queue;
    assert RowsMinted(s, k) && InOrder(s.minted, rows) && RowsMinted(after, k);
    assert KeepsIds(s, after, k) && TillOf(after, k).queue == rows + [row];
    forall i | 0 <= i < |rows| ensures IntentOf(after.minted, rows[i]) == IntentOf(s.minted, rows[i]) < s.intents {
      assert rows[i] in rows;
    }
    forall r | r in rows + [row] ensures IsOldOrNew(s, k, IntentOf(after.minted, r)) {
      assert r in rows ==> exists i :: 0 <= i < |rows| && rows[i] == r;
    }
    forall r | r in rows ensures Accounted(after, IntentOf(s.minted, r)) {
      var i :| 0 <= i < |rows| && rows[i] == r;
      StillQueued(after, k, i);
    }
    StillQueued(after, k, |rows|);
    hide IntentsOk, AllMinted, KeepsIds, Staged;
    MoveKeepsIntents(s, after, k);
  }

  lemma {:induction false} DroppedIntents(s: Shop, k: Key, till: Till)
    requires IntentsOk(s) && AllMinted(s) && TillOf(s, k).queue != []
    requires till.queue == TillOf(s, k).queue[1..] && TillOf(s, k).queue[0].mutationId in s.server.db.processed
    ensures IntentsOk(WithTill(s, k, till))
  {
    var after, rows := WithTill(s, k, till), TillOf(s, k).queue;
    assert RowsMinted(s, k) && InOrder(s.minted, rows) && KeepsIds(s, after, k);
    assert forall row <- till.queue :: row in rows;
    forall j: Key ensures RowsMinted(after, j) {
      assert RowsMinted(s, j);
    }
    forall row | row in rows ensures Accounted(after, IntentOf(s.minted, row)) {
      var i :| 0 <= i < |rows| && rows[i] == row;
      if i == 0 {
        assert rows[0].mutationId in after.minted && rows[0].mutationId in after.server.db.processed;
      } else {
        StillQueued(after, k, i - 1);
      }
    }
    hide IntentsOk, KeepsIds, WithTill;
    MoveKeepsIntents(s, after, k);
  }

  lemma {:induction false} DiscardedIntents(s: Shop, k: Key)
    requires IntentsOk(s) && AllMinted(s)
    ensures IntentsOk(DiscardStep(s, k))
  {
    var after, rows := DiscardStep(s, k), TillOf(s, k).queue;
    assert RowsMinted(s, k) && KeepsIds(s, after, k) && TillOf(after, k).queue == [];
    forall j: Key ensures RowsMinted(after, j) {
      assert RowsMinted(s, j);
    }
    forall row | row in rows ensures Accounted(after, IntentOf(s.minted, row)) {
      assert OriginOf(s, row.mutationId).n in IntentsIn(s, rows);
    }
    hide IntentsOk, KeepsIds, DiscardStep;
    MoveKeepsIntents(s, after, k);
  }

  lemma {:induction false} ReissuedIntents(s: Shop, k: Key, id: Id)
    requires IntentsOk(s) && AllMinted(s) && AllMinted(ReissueStep(s, k, id))
    ensures IntentsOk(ReissueStep(s, k, id))
  {
    var after, rows := ReissueStep(s, k, id), TillOf(s, k).queue;
    if after != s {
      assert RowsMinted(s, k) && rows[0] in rows;
      assert s.minted[rows[0].mutationId].n < s.intents;
      assert KeepsIds(s, after, k);
      var rows' := TillOf(after, k).queue;
      forall i | 0 <= i < |rows| ensures IntentOf(after.minted, rows'[i]) == IntentOf(s.minted, rows[i]) {
        assert rows[i] in rows;
      }
      hide IntentsOk, AllMinted, KeepsIds, ReissueStep;
      SameIntentsKept(s, after, k);
    }
  }

  lemma {:induction false} RelabelledIntents(s: Shop, k: Key, till: Till)
    requires IntentsOk(s) && AllMinted(s) && SameRows(TillOf(s, k).queue, till.queue)
    ensures IntentsOk(WithTill(s, k, till))
  {
    var after, rows := WithTill(s, k, till), TillOf(s, k).queue;
    assert RowsMinted(s, k) && KeepsIds(s, after, k);
    forall j: Key ensures RowsMinted(after, j) {
      assert RowsMinted(s, j);
      if j == k {
        forall row | row in till.queue
          ensures row.mutationId in s.minted && s.minted[row.mutationId].Intent? && s.minted[row.mutationId].k == k {
          var i :| 0 <= i < |till.queue| && till.queue[i] == row;
          assert rows[i] in rows;
        }
      }
    }
    hide IntentsOk, KeepsIds, WithTill;
    SameIntentsKept(s, after, k);
  }

  // Queues of which nothing but labels has changed.
  predicate SameRows(rows: seq<Row>, after: seq<Row>) {
    |after| == |rows| && forall i :: 0 <= i < |rows| ==> after[i].mutationId == rows[i].mutationId
  }

  // The head goes out: everything of this till that has been posted came before it.
  lemma {:induction false} PostedIntents(s: Shop, k: Key)
    requires IntentsOk(s) && AllMinted(s) && ShopOk(s) && TillOf(s, k).queue != []
    ensures IntentsOk(PostHead(s, k))
  {
    var after, rows := PostHead(s, k), TillOf(s, k).queue;
    var head := rows[0];
    assert TillOk(s, k) && RowOk(s.posted, s.minted, k, head, true);
    assert RowsMinted(s, k) && InOrder(s.minted, rows);
    forall id | id in s.posted ensures PostedBy(s, id) <= |HistoryOf(s, s.posted[id].orderId)| && id in s.postedAt && PostedInOrder(s, id) {
      assert PostedOk(s, id);
    }
    hide ShopOk, CommitsRise;
    forall id | id in after.posted ensures PostedInOrder(after, id) {
      if id == head.mutationId {
        HeadInOrder(s, k);
      } else {
        OlderInOrder(s, k, id);
      }
    }
    PostKeepsRest(s, k);
  }

  lemma PostKeepsRest(s: Shop, k: Key)
    requires IntentsOk(s) && TillOf(s, k).queue != []
    requires RowOk(s.posted, s.minted, k, TillOf(s, k).queue[0], true)
    ensures var after := PostHead(s, k);
      && (forall id <- after.minted :: after.minted[id].Intent? ==> after.minted[id].n < after.intents)
      && (forall j: Key :: InOrder(after.minted, TillOf(after, j).queue))
      && (forall i :: 0 <= i < |after.server.commits| ==> CommitOk(after, i))
      && (forall n: nat :: n < after.intents ==> Accounted(after, n))
  {
    var after := PostHead(s, k);
    hide CommitsRise, PostedInOrder;
    forall j: Key ensures InOrder(after.minted, TillOf(after, j).queue) {
      assert InOrder(s.minted, TillOf(s, j).queue);
    }
    forall i | 0 <= i < |after.server.commits| ensures CommitOk(after, i) {
      assert CommitOk(s, i);
    }
    forall n: nat | n < after.intents ensures Accounted(after, n) {
      assert Accounted(s, n);
      if n !in s.discarded {
        var id :| id in s.minted && s.minted[id].Intent? && s.minted[id].n == n &&
          (id in s.server.db.processed || Queued(s, s.minted[id].k, id));
        if Queued(s, s.minted[id].k, id) { assert Queued(after, s.minted[id].k, id) by { assert TillOf(after, s.minted[id].k) == TillOf(s, s.minted[id].k); } }
      }
    }
  }

  lemma HeadInOrder(s: Shop, k: Key)
    requires TillOf(s, k).queue != [] && RowOk(s.posted, s.minted, k, TillOf(s, k).queue[0], true)
    requires InOrder(s.minted, TillOf(s, k).queue) && RowsMinted(s, k)
    requires forall id <- s.posted :: PostedBy(s, id) <= |HistoryOf(s, s.posted[id].orderId)| && id in s.postedAt && PostedInOrder(s, id)
    ensures PostedInOrder(PostHead(s, k), TillOf(s, k).queue[0].mutationId)
  {
    var after, rows := PostHead(s, k), TillOf(s, k).queue;
    var head := rows[0];
    var n := s.minted[head.mutationId].n;
    forall row | row in rows ensures n <= IntentOf(s.minted, row) {
      var i :| 0 <= i < |rows| && rows[i] == row;
    }
    forall other | other in after.posted && IsEarlier(after, other, k, n)
      ensures PostedBy(after, other) <= PostedBy(after, head.mutationId) {
      assert other in s.posted && PostedInOrder(s, other);
    }
  }

  lemma OlderInOrder(s: Shop, k: Key, id: Id)
    requires TillOf(s, k).queue != [] && RowOk(s.posted, s.minted, k, TillOf(s, k).queue[0], true)
    requires id in s.posted && PostedInOrder(s, id) && id != TillOf(s, k).queue[0].mutationId
    ensures PostedInOrder(PostHead(s, k), id)
  {
    var after, head := PostHead(s, k), TillOf(s, k).queue[0];
    if id in s.minted && s.minted[id].Intent? {
      var j, n := s.minted[id].k, s.minted[id].n;
      forall row | row in TillOf(after, j).queue ensures n <= IntentOf(after.minted, row) {
        assert row in TillOf(s, j).queue;
      }
      assert head in TillOf(s, k).queue;
      assert forall other <- after.posted :: IsEarlier(after, other, j, n) ==> PostedBy(after, other) <= PostedBy(after, id);
    }
  }

  // A display's request touches no till.
  predicate Displays(s: Shop, after: Shop, made: Id) {
    && made !in s.minted && after.tills == s.tills && SameServer(s, after)
    && after.intents == s.intents && after.discarded == s.discarded
    && after.minted == s.minted[made := Display] && after.posted.Keys == s.posted.Keys + {made}
    && (forall other <- s.posted :: other != made ==> after.posted[other] == s.posted[other])
    && (forall other: Id <- s.postedAt :: other != made ==> other in after.postedAt && after.postedAt[other] == s.postedAt[other])
    && (forall other: Id <- after.postedAt :: other != made ==> other in s.postedAt)
  }

  lemma DisplayMakes(s: Shop, id: Id, k: Key, log: seq<nat>, command: Command)
    ensures var after := PostFromKitchenStep(s, id, k, log, command); after == s || Displays(s, after, id)
  {
    hide Kitchen.ConsumeAll, Kitchen.InOutbox;
  }

  lemma {:induction false} DisplayIntents(s: Shop, id: Id, k: Key, log: seq<nat>, command: Command)
    requires IntentsOk(s) && AllMinted(s)
    ensures IntentsOk(PostFromKitchenStep(s, id, k, log, command))
  {
    hide *;
    DisplayMakes(s, id, k, log, command);
    if PostFromKitchenStep(s, id, k, log, command) != s {
      DisplayedIntents(s, PostFromKitchenStep(s, id, k, log, command), id);
    }
  }

  lemma {:induction false} DisplayedIntents(s: Shop, after: Shop, made: Id)
    requires IntentsOk(s) && AllMinted(s) && Displays(s, after, made)
    ensures IntentsOk(after)
  {
    hide CommitsRise, InOrder;
    forall j: Key ensures TillOf(after, j) == TillOf(s, j) && InOrder(after.minted, TillOf(after, j).queue) {
      assert InOrder(s.minted, TillOf(s, j).queue) && RowsMinted(s, j);
      SameOrder(s.minted, after.minted, TillOf(s, j).queue);
    }
    forall other | other in after.posted ensures PostedInOrder(after, other) {
      if other != made { DisplayedOrder(s, after, made, other); }
    }
    forall i | 0 <= i < |after.server.commits| ensures CommitOk(after, i) {
      assert CommitOk(s, i);
    }
    forall n: nat | n < after.intents ensures Accounted(after, n) {
      DisplayedAccount(s, after, made, n);
    }
  }

  lemma SameOrder(minted: map<Id, Origin>, after: map<Id, Origin>, rows: seq<Row>)
    requires InOrder(minted, rows) && forall row <- rows :: row.mutationId in minted && row.mutationId in after
    requires forall row <- rows :: after[row.mutationId] == minted[row.mutationId]
    ensures InOrder(after, rows)
  {
  }

  lemma DisplayedOrder(s: Shop, after: Shop, made: Id, id: Id)
    requires Displays(s, after, made) && AllMinted(s) && id in s.posted && id != made && PostedInOrder(s, id)
    requires forall j: Key :: TillOf(after, j) == TillOf(s, j)
    ensures PostedInOrder(after, id)
  {
    if s.minted[id].Intent? {
      assert RowsMinted(s, s.minted[id].k);
    }
  }

  lemma DisplayedAccount(s: Shop, after: Shop, made: Id, n: nat)
    requires Displays(s, after, made) && Accounted(s, n) && forall j: Key :: TillOf(after, j) == TillOf(s, j)
    ensures Accounted(after, n)
  {
    if n !in s.discarded {
      var id :| id in s.minted && s.minted[id].Intent? && s.minted[id].n == n &&
        (id in s.server.db.processed || Queued(s, s.minted[id].k, id));
      assert id in after.minted && after.minted[id] == s.minted[id];
      assert Queued(s, s.minted[id].k, id) ==> Queued(after, s.minted[id].k, id);
    }
  }

  lemma ViewMoveRows(s: Shop, move: Move)
    requires move.Show? || move.Save? || move.Reload? || move.Leave? || move.Forget? || move.StartRebase? || move.Carry?
      || move.StopRebase? || move.Halt?
    ensures var till := TillOf(Step(s, move), move.k);
      Step(s, move) == s || (Step(s, move) == WithTill(s, move.k, till) && SameRows(TillOf(s, move.k).queue, till.queue))
  {
    hide IsSendable, Seen, IsSuccess;
  }

  lemma {:induction false} StepKeepsIntents(s: Shop, move: Move)
    requires ShopOk(s) && ShopOk(Step(s, move)) && IntentsOk(s)
    ensures IntentsOk(Step(s, move))
  {
    hide ShopOk, IntentsOk, AllMinted, StageStep, ServeStep, SameRows, DropStep, ReissueStep, DiscardStep, PostFromKitchenStep;
    ShopIsMinted(s);
    ShopIsMinted(Step(s, move));
    match move
    case Serve(step) => ServeKeepsIntents(s, step);
    case Stage(k, id, restaurantId, command, stamp, menu) =>
      var row := StageIsStaged(s, k, id, restaurantId, command, stamp, menu);
      if IsFresh(s, id) && IsSendable(TillOf(s, k).queue) { StagedIntents(s, k, row); }
    case Post(k) => if PostStep(s, k) != s { PostedIntents(s, k); }
    case PostReissued(k) => if PostReissuedStep(s, k) != s { PostedIntents(s, k); }
    case Drop(k, t) => DropIsServed(s, k, t);
    case Discard(k) => DiscardedIntents(s, k);
    case Reissue(k, id) => ReissuedIntents(s, k, id);
    case PostFromKitchen(id, k, log, command) => DisplayIntents(s, id, k, log, command);
    case _ =>
      ViewMoveRows(s, move);
      if Step(s, move) != s {
        RelabelledIntents(s, move.k, TillOf(Step(s, move), move.k));
      }
  }

  lemma {:induction false} DropIsServed(s: Shop, k: Key, t: Id)
    requires ShopOk(s) && IntentsOk(s) && AllMinted(s)
    ensures IntentsOk(DropStep(s, k, t))
  {
    hide ShopOk, IntentsOk, AllMinted;
    if DropStep(s, k, t) != s {
      SuccessIsStored(s, t, TillOf(s, k).queue[0].mutationId);
      DroppedIntents(s, k, TillOf(s, k).(queue := TillOf(s, k).queue[1..]));
    }
  }

  lemma OpeningIntents(products: map<Id, Product>)
    ensures IntentsOk(Opening(products))
  {
    var s := Opening(products);
    assert forall k: Key :: TillOf(s, k) == EMPTY_TILL;
  }

  lemma {:induction false} RunKeepsIntents(products: map<Id, Product>, moves: seq<Move>)
    requires AlwaysOk(Opening(products), moves)
    ensures ShopOk(Run(products, moves)) && IntentsOk(Run(products, moves))
  {
    hide ShopOk, IntentsOk, Step;
    if moves == [] {
      OpeningIntents(products);
    } else {
      RunKeepsIntents(products, moves[..|moves| - 1]);
      StepKeepsIntents(Run(products, moves[..|moves| - 1]), moves[|moves| - 1]);
    }
  }

  /* ---- what follows ---- */

  // Of two commits for intents of one till, the later one is not for an earlier intent.
  ghost predicate CommittedInOrder(s: Shop, i: nat, j: nat)
    requires i < |s.server.commits| && j < |s.server.commits|
  {
    forall k: Key, m: nat, n: nat :: For(s, s.server.commits[i].mutationId, k, m) && For(s, s.server.commits[j].mutationId, k, n) ==> m <= n
  }

  lemma CommitsAreInOrder(s: Shop, i: nat, j: nat, k: Key, m: nat, n: nat)
    requires IntentsOk(s) && i < j < |s.server.commits|
    requires For(s, s.server.commits[i].mutationId, k, m) && For(s, s.server.commits[j].mutationId, k, n)
    ensures m <= n
  {
    assert CommitOk(s, i) && CommitOk(s, j);
    var a, b := s.server.commits[i].mutationId, s.server.commits[j].mutationId;
    assert PostedInOrder(s, a) && PostedInOrder(s, b);
    assert n < m ==> IsEarlier(s, b, k, m);
  }

  lemma ProcessedIsServed(s: Shop, id: Id)
    requires ShopOk(s) && id in s.server.db.processed
    ensures id in s.posted && s.server.db.processed[id].hash == HashOf(s.posted[id])
    ensures ServedOk(HistoryOf(s, s.posted[id].orderId), s.posted[id], s.server.db.processed[id].order)
  {
    hide HistoryOk, TillOk, Transactions.SysOk;
    assert PostedOk(s, id);
  }

  /**
   With the server in the machine and every stamp sound: the intents of one till for one order are applied in
   the order in which they were staged, across discards and rebases. Each intent is on disk, was given up, or
   one of its ids has been served; what is served is a version of the order that the request made or that
   satisfied it already; and the disk holds each intent in one row, in staging order.
   */
  lemma {:induction false} IntentsAreServedInOrder(products: map<Id, Product>, moves: seq<Move>)
    requires SoundRunFrom(Opening(products), moves)
    ensures var s := Run(products, moves);
      && (forall i: nat, j: nat :: i < j < |s.server.commits| ==> CommittedInOrder(s, i, j))
      && (forall n: nat :: n < s.intents ==> Accounted(s, n))
      && (forall id <- s.server.db.processed :: id in s.posted &&
            ServedOk(HistoryOf(s, s.posted[id].orderId), s.posted[id], s.server.db.processed[id].order))
      && (forall k: Key :: InOrder(s.minted, TillOf(s, k).queue))
  {
    hide ShopOk, AllSound, ServedOk, RunFrom, SoundRunFrom, AlwaysOk;
    var s := Run(products, moves);
    OpeningIsOk(products);
    SoundIsAlwaysOk(Opening(products), moves);
    RunKeepsIntents(products, moves);
    forall i: nat, j: nat | i < j < |s.server.commits| ensures CommittedInOrder(s, i, j) {
      forall k: Key, m: nat, n: nat |
        For(s, s.server.commits[i].mutationId, k, m) && For(s, s.server.commits[j].mutationId, k, n) ensures m <= n {
        CommitsAreInOrder(s, i, j, k, m, n);
      }
    }
    forall id | id in s.server.db.processed ensures id in s.posted &&
      ServedOk(HistoryOf(s, s.posted[id].orderId), s.posted[id], s.server.db.processed[id].order) {
      ProcessedIsServed(s, id);
    }
  }

  // What can take a row off the disk.
  predicate LeavesRightly(s: Shop, move: Move, k: Key, id: Id) {
    || id in s.server.db.processed
    || move == Discard(k)
    || (move.Reissue? && move.k == k && Queued(Step(s, move), k, move.id)
        && OriginOf(Step(s, move), move.id) == OriginOf(s, id))
  }

  /** A row stays on disk until the server has served its id, but for a discard or its replacement. */
  lemma {:induction false} RowsStayUntilServed(s: Shop, move: Move, k: Key, id: Id)
    requires ShopOk(s) && Queued(s, k, id)
    ensures Queued(Step(s, move), k, id) || LeavesRightly(s, move, k, id)
  {
    hide ShopOk;
    var after := Step(s, move);
    if move.Serve? {
      assert TillOf(after, k) == TillOf(s, k);
    } else if move.k != k {
      TillMovesLeaveOthers(s, move);
      OthersLeft(s, after, move.k, k);
    } else {
      OwnRowsStay(s, move, id);
    }
  }

  lemma {:induction false} OwnRowsStay(s: Shop, move: Move, id: Id)
    requires !move.Serve? && ShopOk(s) && Queued(s, move.k, id)
    ensures Queued(Step(s, move), move.k, id) || LeavesRightly(s, move, move.k, id)
  {
    hide ShopOk, LeavesRightly;
    if move.Drop? {
      DroppedStays(s, move.k, move.t, id);
    } else if move.Reissue? {
      ReplacedStays(s, move.k, move.id, id);
    } else if move.Discard? {
      assert LeavesRightly(s, move, move.k, id) by { DiscardIsRight(s, move.k, id); }
    } else {
      SameIdsStay(s, move, id);
    }
  }

  lemma DiscardIsRight(s: Shop, k: Key, id: Id)
    ensures LeavesRightly(s, Discard(k), k, id)
  {
    hide Queued, DiscardStep;
  }

  lemma {:induction false} DroppedStays(s: Shop, k: Key, t: Id, id: Id)
    requires ShopOk(s) && Queued(s, k, id)
    ensures Queued(Step(s, Drop(k, t)), k, id) || LeavesRightly(s, Drop(k, t), k, id)
  {
    hide ShopOk;
    var after, rows := Step(s, Drop(k, t)), TillOf(s, k).queue;
    if after != s {
      var i :| 0 <= i < |rows| && rows[i].mutationId == id;
      SuccessIsStored(s, t, rows[0].mutationId);
      assert i > 0 ==> TillOf(after, k).queue[i - 1].mutationId == id;
    }
  }

  lemma ReplacedStays(s: Shop, k: Key, made: Id, id: Id)
    requires Queued(s, k, id)
    ensures Queued(Step(s, Reissue(k, made)), k, id) || LeavesRightly(s, Reissue(k, made), k, id)
  {
    var after, rows := Step(s, Reissue(k, made)), TillOf(s, k).queue;
    if after != s {
      var i :| 0 <= i < |rows| && rows[i].mutationId == id;
      assert TillOf(after, k).queue[0].mutationId == made;
      assert i > 0 ==> TillOf(after, k).queue[i].mutationId == id;
    }
  }

  lemma SameIdsStay(s: Shop, move: Move, id: Id)
    requires !move.Serve? && !move.Drop? && !move.Reissue? && !move.Discard? && Queued(s, move.k, id)
    ensures Queued(Step(s, move), move.k, id)
  {
    hide Kitchen.ConsumeAll, Seen, Project, IsSendable, IsSuccess, Kitchen.InOutbox;
    var rows := TillOf(s, move.k).queue;
    var i :| 0 <= i < |rows| && rows[i].mutationId == id;
    assert TillOf(Step(s, move), move.k).queue[i].mutationId == id;
  }
}
