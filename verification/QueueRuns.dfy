/**
 What every run of a device keeps, crashes anywhere included: no intent is lost, requests of one terminal
 for one order go out in the order they were staged, and a halted group stays silent.
 */
module QueueRuns {
  import opened Domain
  import opened ProjectQueue
  import opened TillRules
  import opened SyncSteps

  /* ---- order on disk ---- */

  // Queue order is staging order, and both are strict.
  predicate Ordered(rows: seq<Row>, intentOf: map<Id, nat>) {
    && (forall i :: 0 <= i < |rows| ==> rows[i].mutationId in intentOf)
    && (forall i, j :: 0 <= i < j < |rows| ==> Before(rows[i], rows[j], intentOf))
  }

  predicate Before(a: Row, b: Row, intentOf: map<Id, nat>) {
    && a.createdAt < b.createdAt
    && a.mutationId in intentOf && b.mutationId in intentOf && intentOf[a.mutationId] < intentOf[b.mutationId]
  }

  predicate DiskOk(c: Client) {
    && Ordered(c.rows, c.intentOf)
    && (forall id <- c.intentOf :: c.intentOf[id] < c.intents)
  }

  // Only the labels differ.
  predicate Relabelled(rows: seq<Row>, after: seq<Row>) {
    |after| == |rows| && forall i :: 0 <= i < |rows| ==> after[i] == rows[i].(status := after[i].status)
  }

  lemma RelabelKeepsOrder(rows: seq<Row>, after: seq<Row>, intentOf: map<Id, nat>)
    requires Ordered(rows, intentOf) && Relabelled(rows, after)
    ensures Ordered(after, intentOf)
  {
    forall i, j | 0 <= i < j < |after| ensures Before(after[i], after[j], intentOf) {
      assert Before(rows[i], rows[j], intentOf);
    }
  }

  lemma {:induction false} KeepKeepsOrder(rows: seq<Row>, p: Row -> bool, intentOf: map<Id, nat>)
    requires Ordered(rows, intentOf)
    ensures Ordered(Keep(rows, p), intentOf)
  {
    if rows != [] {
      var init, last := rows[..|rows| - 1], rows[|rows| - 1];
      KeepKeepsOrder(init, p, intentOf);
      var kept := Keep(init, p);
      forall i | 0 <= i < |kept| ensures Before(kept[i], last, intentOf) {
        assert kept[i] in kept && kept[i] in init;
      }
    }
  }

  lemma AttemptKeepsDisk(c: Client, row: Row, answer: Answer)
    requires DiskOk(c)
    ensures DiskOk(AttemptRow(c, row, answer))
  {
    var id := row.mutationId;
    var labelled := WithStatus(c.rows, id, Syncing);
    assert Relabelled(c.rows, labelled);
    RelabelKeepsOrder(c.rows, labelled, c.intentOf);
    assert Relabelled(labelled, WithStatus(labelled, id, Pending)) && Relabelled(labelled, HaltRows(labelled, row));
    RelabelKeepsOrder(labelled, WithStatus(labelled, id, Pending), c.intentOf);
    RelabelKeepsOrder(labelled, HaltRows(labelled, row), c.intentOf);
    KeepKeepsOrder(labelled, (r: Row) => r.mutationId != id, c.intentOf);
  }

  // The stamp is strictly behind every row there is.
  lemma StampIsLast(rows: seq<Row>, intentOf: map<Id, nat>, now: nat)
    requires Ordered(rows, intentOf)
    ensures IsStamp(rows, now, QueueStamp(rows, now))
  {
    forall row | row in rows ensures row.createdAt < QueueStamp(rows, now) {
      var i :| 0 <= i < |rows| && rows[i] == row;
      assert i < |rows| - 1 ==> Before(rows[i], rows[|rows| - 1], intentOf);
    }
  }

  lemma StageKeepsDisk(c: Client, row: Row, now: nat)
    requires DiskOk(c)
    ensures DiskOk(StageStep(c, row, now))
  {
    var after := StageStep(c, row, now);
    if after != c {
      StampIsLast(c.rows, c.intentOf, now);
      var last := after.rows[|c.rows|];
      forall i, j | 0 <= i < j < |after.rows| ensures Before(after.rows[i], after.rows[j], after.intentOf) {
        if j < |c.rows| {
          assert Before(c.rows[i], c.rows[j], c.intentOf);
        } else {
          assert c.rows[i] in c.rows;
        }
      }
    }
  }

  lemma ReissueKeepsDisk(c: Client, id: Id, newId: Id, version: nat)
    requires DiskOk(c)
    ensures DiskOk(Step(c, Reissue(id, newId, version)))
  {
    var after := Step(c, Reissue(id, newId, version));
    if after != c {
      forall i, j | 0 <= i < j < |after.rows| ensures Before(after.rows[i], after.rows[j], after.intentOf) {
        assert Before(c.rows[i], c.rows[j], c.intentOf);
      }
    }
  }

  lemma {:induction false} StepKeepsDisk(c: Client, op: Op)
    requires DiskOk(c)
    ensures DiskOk(Step(c, op))
  {
    hide DiskOk, AttemptRow;
    match op
    case Stage(row, now) => StageKeepsDisk(c, row, now);
    case Attempt(id, answer) => if MayAttempt(c.rows, id) { AttemptKeepsDisk(c, RowAt(c.rows, id), answer); }
    case AttemptReissued(id, answer) => if MayAttemptReissued(c.rows, id) { AttemptKeepsDisk(c, RowAt(c.rows, id), answer); }
    case Reissue(id, newId, version) => ReissueKeepsDisk(c, id, newId, version);
    case _ => LabelsAndDiscardsKeepDisk(c, op);
  }

  lemma LabelsAndDiscardsKeepDisk(c: Client, op: Op)
    requires DiskOk(c) && (op.Normalize? || op.Discard?)
    ensures DiskOk(Step(c, op))
  {
    if op.Normalize? {
      RelabelKeepsOrder(c.rows, NormalizeRows(c.rows, op.terminalId), c.intentOf);
    } else {
      KeepKeepsOrder(c.rows, (row: Row) => !SameGroup(row, op.terminalId, op.orderId), c.intentOf);
    }
  }

  /* ---- order of the requests ---- */

  predicate SameAggregate(a: Row, b: Row) {
    SameGroup(a, b.terminalId, b.orderId)
  }

  predicate NotBehind(a: Row, b: Row, intentOf: map<Id, nat>) {
    SameAggregate(a, b) ==>
      a.mutationId in intentOf && b.mutationId in intentOf && intentOf[a.mutationId] <= intentOf[b.mutationId]
  }

  // Requests of a group have gone out in staging order, and nothing on disk is from before them.
  predicate SentOk(c: Client) {
    && (forall i, j :: 0 <= i < j < |c.sent| ==> NotBehind(c.sent[i], c.sent[j], c.intentOf))
    && (forall i, j :: 0 <= i < |c.sent| && 0 <= j < |c.rows| ==> NotBehind(c.sent[i], c.rows[j], c.intentOf))
  }

  // The head of a group was staged before the rest of it.
  lemma {:induction false} HeadIsFirst(rows: seq<Row>, intentOf: map<Id, nat>, head: Row, j: nat)
    requires Ordered(rows, intentOf) && IsHead(rows, head) && j < |rows|
    ensures NotBehind(head, rows[j], intentOf)
  {
    if SameAggregate(rows[j], head) {
      GroupIsOrdered(rows, intentOf, head.terminalId, head.orderId);
      var group := GroupOf(rows, head);
      assert rows[j] in rows;
      var k :| 0 <= k < |group| && group[k] == rows[j];
      assert k > 0 ==> Before(group[0], group[k], intentOf);
    }
  }

  lemma {:induction false} GroupIsKept(rows: seq<Row>, terminalId: Id, orderId: Id)
    ensures Group(rows, terminalId, orderId) == Keep(rows, (row: Row) => SameGroup(row, terminalId, orderId))
  {
    if rows != [] {
      GroupIsKept(rows[..|rows| - 1], terminalId, orderId);
    }
  }

  lemma GroupIsOrdered(rows: seq<Row>, intentOf: map<Id, nat>, terminalId: Id, orderId: Id)
    requires Ordered(rows, intentOf)
    ensures Ordered(Group(rows, terminalId, orderId), intentOf)
  {
    GroupIsKept(rows, terminalId, orderId);
    KeepKeepsOrder(rows, (row: Row) => SameGroup(row, terminalId, orderId), intentOf);
  }

  // Rows that are left, under new labels at most, are still from after what was sent.
  predicate FromDisk(rows: seq<Row>, after: seq<Row>) {
    forall j :: 0 <= j < |after| ==> WasThere(rows, after[j])
  }

  predicate WasThere(rows: seq<Row>, row: Row) {
    exists i :: 0 <= i < |rows| && rows[i].mutationId == row.mutationId && SameAggregate(rows[i], row)
  }

  lemma RelabelledWasThere(rows: seq<Row>, after: seq<Row>)
    requires Relabelled(rows, after)
    ensures FromDisk(rows, after)
  {
    forall j | 0 <= j < |after| ensures WasThere(rows, after[j]) {
      assert rows[j].mutationId == after[j].mutationId && SameAggregate(rows[j], after[j]);
    }
  }

  lemma KeptWasThere(rows: seq<Row>, p: Row -> bool)
    ensures FromDisk(rows, Keep(rows, p))
  {
    var kept := Keep(rows, p);
    forall j | 0 <= j < |kept| ensures WasThere(rows, kept[j]) {
      assert kept[j] in kept;
      var i :| 0 <= i < |rows| && rows[i] == kept[j];
      assert rows[i].mutationId == kept[j].mutationId;
    }
  }

  lemma FromDiskThrough(rows: seq<Row>, middle: seq<Row>, after: seq<Row>)
    requires FromDisk(rows, middle) && FromDisk(middle, after)
    ensures FromDisk(rows, after)
  {
    forall j | 0 <= j < |after| ensures WasThere(rows, after[j]) {
      assert WasThere(middle, after[j]);
      var k :| 0 <= k < |middle| && middle[k].mutationId == after[j].mutationId && SameAggregate(middle[k], after[j]);
      assert WasThere(rows, middle[k]);
    }
  }

  // An attempt relabels the rows, and takes the attempted one away if it was acknowledged.
  lemma AttemptRows(c: Client, row: Row, answer: Answer)
    ensures var id, after := row.mutationId, AttemptRow(c, row, answer).rows;
      if answer.Accepted? then after == Without(WithStatus(c.rows, id, Syncing), id) else Relabelled(c.rows, after)
  {
  }

  lemma AttemptIsFromDisk(c: Client, row: Row, answer: Answer)
    ensures FromDisk(c.rows, AttemptRow(c, row, answer).rows)
  {
    var id := row.mutationId;
    var labelled := WithStatus(c.rows, id, Syncing);
    var after := AttemptRow(c, row, answer).rows;
    AttemptRows(c, row, answer);
    hide AttemptRow, FromDisk;
    if answer.Accepted? {
      RelabelledWasThere(c.rows, labelled);
      KeptWasThere(labelled, (r: Row) => r.mutationId != id);
      FromDiskThrough(c.rows, labelled, after);
    } else {
      RelabelledWasThere(c.rows, after);
    }
  }

  lemma LeftKeepsSent(c: Client, rows: seq<Row>, i: nat, j: nat)
    requires SentOk(c) && FromDisk(c.rows, rows) && i < |c.sent| && j < |rows|
    ensures NotBehind(c.sent[i], rows[j], c.intentOf)
  {
    assert WasThere(c.rows, rows[j]);
    var k :| 0 <= k < |c.rows| && c.rows[k].mutationId == rows[j].mutationId && SameAggregate(c.rows[k], rows[j]);
    assert NotBehind(c.sent[i], c.rows[k], c.intentOf);
  }

  lemma AttemptKeepsSent(c: Client, row: Row, answer: Answer)
    requires DiskOk(c) && SentOk(c) && IsHead(c.rows, row)
    ensures SentOk(AttemptRow(c, row, answer))
  {
    var after := AttemptRow(c, row, answer);
    assert after.sent == c.sent || after.sent == c.sent + [row];
    var at :| 0 <= at < |c.rows| && c.rows[at] == row;
    AttemptIsFromDisk(c, row, answer);
    hide AttemptRow, IsHead, FromDisk;
    forall i, j | 0 <= i < |after.sent| && 0 <= j < |after.rows| ensures NotBehind(after.sent[i], after.rows[j], c.intentOf) {
      if i < |c.sent| {
        LeftKeepsSent(c, after.rows, i, j);
      } else {
        HeadIsFirstOfLeft(c, row, after.rows, j);
      }
    }
    forall i, j | 0 <= i < j < |after.sent| ensures NotBehind(after.sent[i], after.sent[j], c.intentOf) {
      assert j < |c.sent| ==> NotBehind(c.sent[i], c.sent[j], c.intentOf);
      assert j == |c.sent| ==> NotBehind(c.sent[i], c.rows[at], c.intentOf);
    }
    assert after.intentOf == c.intentOf by { AttemptKeepsIntents(c, row, answer); }
  }

  lemma AttemptKeepsIntents(c: Client, row: Row, answer: Answer)
    ensures var after := AttemptRow(c, row, answer);
      after.intentOf == c.intentOf && after.intents == c.intents && after.discarded == c.discarded
  {
  }

  lemma HeadIsFirstOfLeft(c: Client, row: Row, rows: seq<Row>, j: nat)
    requires DiskOk(c) && IsHead(c.rows, row) && FromDisk(c.rows, rows) && j < |rows|
    ensures NotBehind(row, rows[j], c.intentOf)
  {
    assert WasThere(c.rows, rows[j]);
    var k :| 0 <= k < |c.rows| && c.rows[k].mutationId == rows[j].mutationId && SameAggregate(c.rows[k], rows[j]);
    HeadIsFirst(c.rows, c.intentOf, row, k);
  }

  lemma StageKeepsSent(c: Client, row: Row, now: nat)
    requires DiskOk(c) && SentOk(c) && SentKnown(c)
    ensures SentOk(StageStep(c, row, now))
  {
    var after := StageStep(c, row, now);
    if after != c {
      forall i, j | 0 <= i < |after.sent| && 0 <= j < |after.rows| ensures NotBehind(after.sent[i], after.rows[j], after.intentOf) {
        assert j < |c.rows| ==> NotBehind(c.sent[i], c.rows[j], c.intentOf);
      }
      forall i, j | 0 <= i < j < |after.sent| ensures NotBehind(after.sent[i], after.sent[j], after.intentOf) {
        assert NotBehind(c.sent[i], c.sent[j], c.intentOf);
      }
    }
  }

  predicate SentKnown(c: Client) {
    forall i :: 0 <= i < |c.sent| ==> c.sent[i].mutationId in c.intentOf
  }

  lemma ReissueKeepsSent(c: Client, id: Id, newId: Id, version: nat)
    requires DiskOk(c) && SentOk(c) && SentKnown(c)
    ensures SentOk(Step(c, Reissue(id, newId, version)))
  {
    var after := Step(c, Reissue(id, newId, version));
    if after != c {
      forall i, j | 0 <= i < |after.sent| && 0 <= j < |after.rows| ensures NotBehind(after.sent[i], after.rows[j], after.intentOf) {
        assert NotBehind(c.sent[i], c.rows[j], c.intentOf);
      }
      forall i, j | 0 <= i < j < |after.sent| ensures NotBehind(after.sent[i], after.sent[j], after.intentOf) {
        assert NotBehind(c.sent[i], c.sent[j], c.intentOf);
      }
    }
  }

  lemma QuietKeepsSent(c: Client, op: Op)
    requires SentOk(c) && (op.Normalize? || op.Discard?)
    ensures SentOk(Step(c, op))
  {
    var after := Step(c, op);
    if op.Normalize? {
      assert Relabelled(c.rows, after.rows);
      RelabelledWasThere(c.rows, after.rows);
    } else {
      KeptWasThere(c.rows, (row: Row) => !SameGroup(row, op.terminalId, op.orderId));
    }
    hide FromDisk;
    forall i, j | 0 <= i < |after.sent| && 0 <= j < |after.rows| ensures NotBehind(after.sent[i], after.rows[j], after.intentOf) {
      LeftKeepsSent(c, after.rows, i, j);
    }
  }

  lemma StepKeepsSent(c: Client, op: Op)
    requires DiskOk(c) && SentOk(c) && SentKnown(c)
    ensures SentOk(Step(c, op)) && SentKnown(Step(c, op))
  {
    StepKeepsKnown(c, op);
    hide DiskOk, SentOk, SentKnown, AttemptRow;
    match op
    case Stage(row, now) => StageKeepsSent(c, row, now);
    case Attempt(id, answer) => if MayAttempt(c.rows, id) { AttemptKeepsSent(c, RowAt(c.rows, id), answer); }
    case AttemptReissued(id, answer) => if MayAttemptReissued(c.rows, id) { AttemptKeepsSent(c, RowAt(c.rows, id), answer); }
    case Reissue(id, newId, version) => ReissueKeepsSent(c, id, newId, version);
    case _ => QuietKeepsSent(c, op);
  }

  lemma StepKeepsKnown(c: Client, op: Op)
    requires DiskOk(c) && SentKnown(c)
    ensures SentKnown(Step(c, op))
  {
    hide MapRows, Keep, Group;
  }

  /* ---- nothing lost ---- */

  // Where an intent is: given up, acknowledged under one of its ids, or on disk.
  predicate Acknowledged(c: Client, n: nat) {
    exists id <- c.acknowledged :: id in c.intentOf && c.intentOf[id] == n
  }

  predicate OnDisk(c: Client, n: nat) {
    exists i :: 0 <= i < |c.rows| && c.rows[i].mutationId in c.intentOf && c.intentOf[c.rows[i].mutationId] == n
  }

  predicate Accounted(c: Client, n: nat) {
    n in c.discarded || Acknowledged(c, n) || OnDisk(c, n)
  }

  predicate NothingLost(c: Client) {
    forall n: nat :: n < c.intents ==> Accounted(c, n)
  }

  lemma RelabelKeepsOnDisk(c: Client, after: Client, n: nat)
    requires OnDisk(c, n) && Relabelled(c.rows, after.rows) && after.intentOf == c.intentOf
    ensures OnDisk(after, n)
  {
    var i :| 0 <= i < |c.rows| && c.rows[i].mutationId in c.intentOf && c.intentOf[c.rows[i].mutationId] == n;
    assert after.rows[i].mutationId == c.rows[i].mutationId;
  }

  lemma AttemptKeepsAll(c: Client, row: Row, answer: Answer)
    requires DiskOk(c) && NothingLost(c) && row in c.rows
    ensures NothingLost(AttemptRow(c, row, answer))
  {
    var after, id := AttemptRow(c, row, answer), row.mutationId;
    AttemptRows(c, row, answer);
    AttemptKeepsIntents(c, row, answer);
    AttemptAcknowledges(c, row, answer);
    hide AttemptRow;
    forall n: nat | n < c.intents ensures Accounted(after, n) {
      assert Accounted(c, n);
      if Acknowledged(c, n) {
        AcknowledgedStays(c, after, n);
      } else if n !in c.discarded {
        if !answer.Accepted? {
          RelabelKeepsOnDisk(c, after, n);
        } else {
          DeletedIsAcknowledged(c, after, id, n);
        }
      }
    }
  }

  lemma AttemptAcknowledges(c: Client, row: Row, answer: Answer)
    ensures c.acknowledged <= AttemptRow(c, row, answer).acknowledged
    ensures answer.Accepted? ==> row.mutationId in AttemptRow(c, row, answer).acknowledged
  {
  }

  lemma AcknowledgedStays(c: Client, after: Client, n: nat)
    requires Acknowledged(c, n) && c.acknowledged <= after.acknowledged
    requires forall id <- c.intentOf :: id in after.intentOf && after.intentOf[id] == c.intentOf[id]
    ensures Acknowledged(after, n)
  {
    var id :| id in c.acknowledged && id in c.intentOf && c.intentOf[id] == n;
    assert id in after.acknowledged;
  }

  lemma DeletedIsAcknowledged(c: Client, after: Client, id: Id, n: nat)
    requires OnDisk(c, n) && after.rows == Without(WithStatus(c.rows, id, Syncing), id) && after.intentOf == c.intentOf
    requires id in after.acknowledged
    ensures Acknowledged(after, n) || OnDisk(after, n)
  {
    var i :| 0 <= i < |c.rows| && c.rows[i].mutationId in c.intentOf && c.intentOf[c.rows[i].mutationId] == n;
    var labelled := WithStatus(c.rows, id, Syncing);
    if c.rows[i].mutationId != id {
      assert labelled[i] in labelled && labelled[i] in after.rows;
      var j :| 0 <= j < |after.rows| && after.rows[j] == labelled[i];
      assert after.rows[j].mutationId == c.rows[i].mutationId;
    }
  }

  lemma StageKeepsAll(c: Client, row: Row, now: nat)
    requires DiskOk(c) && NothingLost(c)
    ensures NothingLost(StageStep(c, row, now))
  {
    var after := StageStep(c, row, now);
    if after != c {
      assert after.rows[|c.rows|].mutationId == row.mutationId && after.intentOf[row.mutationId] == c.intents;
      forall n: nat | n < after.intents ensures Accounted(after, n) {
        if n < c.intents {
          assert Accounted(c, n);
          if Acknowledged(c, n) {
            AcknowledgedStays(c, after, n);
          } else if n !in c.discarded {
            var i :| 0 <= i < |c.rows| && c.rows[i].mutationId in c.intentOf && c.intentOf[c.rows[i].mutationId] == n;
            assert after.rows[i] == c.rows[i];
          }
        }
      }
    }
  }

  lemma DiscardKeepsAll(c: Client, terminalId: Id, orderId: Id)
    requires NothingLost(c)
    ensures NothingLost(Step(c, Discard(terminalId, orderId)))
  {
    var after := Step(c, Discard(terminalId, orderId));
    forall n: nat | n < c.intents ensures Accounted(after, n) {
      assert Accounted(c, n);
      if OnDisk(c, n) && !Acknowledged(c, n) {
        var i :| 0 <= i < |c.rows| && c.rows[i].mutationId in c.intentOf && c.intentOf[c.rows[i].mutationId] == n;
        assert c.rows[i] in c.rows;
        if SameGroup(c.rows[i], terminalId, orderId) {
          assert c.rows[i] in Group(c.rows, terminalId, orderId) && n in after.discarded;
        } else {
          assert c.rows[i] in after.rows;
          var j :| 0 <= j < |after.rows| && after.rows[j] == c.rows[i];
          assert after.rows[j].mutationId in c.intentOf;
        }
      }
    }
  }

  lemma ReissueKeepsAll(c: Client, id: Id, newId: Id, version: nat)
    requires DiskOk(c) && NothingLost(c)
    ensures NothingLost(Step(c, Reissue(id, newId, version)))
  {
    var after := Step(c, Reissue(id, newId, version));
    if after != c {
      forall n: nat | n < after.intents ensures Accounted(after, n) {
        assert Accounted(c, n);
        if Acknowledged(c, n) {
          AcknowledgedStays(c, after, n);
        } else if n !in c.discarded {
          var i :| 0 <= i < |c.rows| && c.rows[i].mutationId in c.intentOf && c.intentOf[c.rows[i].mutationId] == n;
          assert after.rows[i].mutationId in after.intentOf && after.intentOf[after.rows[i].mutationId] == n;
        }
      }
    }
  }

  lemma NormalizeKeepsAll(c: Client, terminalId: Id)
    requires NothingLost(c)
    ensures NothingLost(Step(c, Normalize(terminalId)))
  {
    var after := Step(c, Normalize(terminalId));
    assert Relabelled(c.rows, after.rows);
    forall n: nat | n < c.intents ensures Accounted(after, n) {
      assert Accounted(c, n);
      if OnDisk(c, n) { RelabelKeepsOnDisk(c, after, n); }
    }
  }

  lemma StepKeepsAll(c: Client, op: Op)
    requires DiskOk(c) && NothingLost(c)
    ensures NothingLost(Step(c, op))
  {
    hide DiskOk, NothingLost, AttemptRow;
    match op
    case Stage(row, now) => StageKeepsAll(c, row, now);
    case Attempt(id, answer) => if MayAttempt(c.rows, id) { AttemptKeepsAll(c, RowAt(c.rows, id), answer); }
    case AttemptReissued(id, answer) => if MayAttemptReissued(c.rows, id) { AttemptKeepsAll(c, RowAt(c.rows, id), answer); }
    case Reissue(id, newId, version) => ReissueKeepsAll(c, id, newId, version);
    case Discard(terminalId, orderId) => DiscardKeepsAll(c, terminalId, orderId);
    case Normalize(terminalId) => NormalizeKeepsAll(c, terminalId);
  }

  predicate ClientOk(c: Client) {
    DiskOk(c) && SentOk(c) && SentKnown(c) && NothingLost(c)
  }

  lemma StepKeepsClient(c: Client, op: Op)
    requires ClientOk(c)
    ensures ClientOk(Step(c, op))
  {
    hide DiskOk, SentOk, SentKnown, NothingLost, Step;
    StepKeepsDisk(c, op);
    StepKeepsSent(c, op);
    StepKeepsAll(c, op);
  }

  lemma {:induction false} RunKeepsClient(c: Client, ops: seq<Op>)
    requires ClientOk(c)
    ensures ClientOk(Run(c, ops))
  {
    hide ClientOk, Step;
    if ops != [] {
      RunKeepsClient(c, ops[..|ops| - 1]);
      StepKeepsClient(Run(c, ops[..|ops| - 1]), ops[|ops| - 1]);
    }
  }

  /**
   In every run, wherever it was cut short: each intent was given up, or was acknowledged, or is on disk,
   in one row and no more; the disk is in staging order; and the requests of one terminal for one order
   went out in staging order too.
   */
  lemma NoIntentIsLost(ops: seq<Op>)
    ensures var c := Run(BLANK, ops);
      && (forall n: nat :: n < c.intents ==> Accounted(c, n))
      && (forall i, j :: 0 <= i < j < |c.rows| ==> Before(c.rows[i], c.rows[j], c.intentOf))
      && (forall i, j :: 0 <= i < j < |c.sent| ==> NotBehind(c.sent[i], c.sent[j], c.intentOf))
  {
    assert ClientOk(BLANK);
    RunKeepsClient(BLANK, ops);
  }

  /* ---- halts ---- */

  // The group is the same, row by row, when nothing was done to its rows.
  lemma {:induction false} GroupUntouched(rows: seq<Row>, after: seq<Row>, terminalId: Id, orderId: Id)
    requires |after| == |rows|
    requires forall i :: 0 <= i < |rows| ==>
      SameGroup(rows[i], terminalId, orderId) == SameGroup(after[i], terminalId, orderId)
    requires forall i :: 0 <= i < |rows| && SameGroup(rows[i], terminalId, orderId) ==> after[i] == rows[i]
    ensures Group(after, terminalId, orderId) == Group(rows, terminalId, orderId)
  {
    if rows != [] {
      GroupUntouched(rows[..|rows| - 1], after[..|rows| - 1], terminalId, orderId);
    }
  }

  lemma {:induction false} GroupRelabelled(rows: seq<Row>, after: seq<Row>, terminalId: Id, orderId: Id)
    requires Relabelled(rows, after)
    ensures Relabelled(Group(rows, terminalId, orderId), Group(after, terminalId, orderId))
  {
    if rows != [] {
      GroupRelabelled(rows[..|rows| - 1], after[..|rows| - 1], terminalId, orderId);
    }
  }

  lemma {:induction false} GroupKept(rows: seq<Row>, p: Row -> bool, terminalId: Id, orderId: Id)
    requires forall row <- rows :: SameGroup(row, terminalId, orderId) ==> p(row)
    ensures Group(Keep(rows, p), terminalId, orderId) == Group(rows, terminalId, orderId)
  {
    if rows != [] {
      var init, last := rows[..|rows| - 1], rows[|rows| - 1];
      GroupKept(init, p, terminalId, orderId);
      var kept := Keep(init, p);
      assert (kept + [last])[..|kept|] == kept;
      assert last in rows;
    }
  }

  lemma IdsAreDistinct(rows: seq<Row>, intentOf: map<Id, nat>, a: Row, b: Row)
    requires Ordered(rows, intentOf) && a in rows && b in rows && a.mutationId == b.mutationId
    ensures a == b
  {
    var i :| 0 <= i < |rows| && rows[i] == a;
    var j :| 0 <= j < |rows| && rows[j] == b;
    assert i < j ==> Before(rows[i], rows[j], intentOf);
    assert j < i ==> Before(rows[j], rows[i], intentOf);
  }

  /** Whatever an attempt comes to, the rows of other orders and other terminals are not touched. */
  lemma AttemptLeavesOthers(c: Client, row: Row, answer: Answer, terminalId: Id, orderId: Id)
    requires DiskOk(c) && row in c.rows && !SameGroup(row, terminalId, orderId)
    ensures Group(AttemptRow(c, row, answer).rows, terminalId, orderId) == Group(c.rows, terminalId, orderId)
  {
    hide DiskOk, Group, Keep, MapRows;
    var id, labelled := row.mutationId, WithStatus(c.rows, row.mutationId, Syncing);
    OthersHaveOtherIds(c, row, terminalId, orderId);
    RelabelLeaves(c.rows, id, Syncing, terminalId, orderId);
    RelabelLeaves(labelled, id, Pending, terminalId, orderId);
    HaltLeaves(labelled, row, terminalId, orderId);
    assert forall r <- labelled :: SameGroup(r, terminalId, orderId) ==> r.mutationId != id;
    GroupKept(labelled, (r: Row) => r.mutationId != id, terminalId, orderId);
    hide WithStatus, HaltRows, SameGroup;
  }

  lemma OthersHaveOtherIds(c: Client, row: Row, terminalId: Id, orderId: Id)
    requires DiskOk(c) && row in c.rows && !SameGroup(row, terminalId, orderId)
    ensures OtherIds(c.rows, row.mutationId, terminalId, orderId)
  {
    forall r | r in c.rows && SameGroup(r, terminalId, orderId) ensures r.mutationId != row.mutationId {
      if r.mutationId == row.mutationId { IdsAreDistinct(c.rows, c.intentOf, r, row); }
    }
  }

  predicate OtherIds(rows: seq<Row>, id: Id, terminalId: Id, orderId: Id) {
    forall row <- rows :: SameGroup(row, terminalId, orderId) ==> row.mutationId != id
  }

  lemma RelabelLeaves(rows: seq<Row>, id: Id, status: RowStatus, terminalId: Id, orderId: Id)
    requires OtherIds(rows, id, terminalId, orderId)
    ensures Group(WithStatus(rows, id, status), terminalId, orderId) == Group(rows, terminalId, orderId)
    ensures OtherIds(WithStatus(rows, id, status), id, terminalId, orderId)
  {
    hide Group;
    var after := WithStatus(rows, id, status);
    forall i | 0 <= i < |rows| ensures SameGroup(after[i], terminalId, orderId) ==> after[i] == rows[i] && rows[i] in rows {
      assert rows[i] in rows;
    }
    GroupUntouched(rows, after, terminalId, orderId);
  }

  lemma HaltLeaves(rows: seq<Row>, head: Row, terminalId: Id, orderId: Id)
    requires OtherIds(rows, head.mutationId, terminalId, orderId) && !SameGroup(head, terminalId, orderId)
    ensures Group(HaltRows(rows, head), terminalId, orderId) == Group(rows, terminalId, orderId)
  {
    hide Group;
    var after := HaltRows(rows, head);
    forall i | 0 <= i < |rows| ensures SameGroup(after[i], terminalId, orderId) ==> after[i] == rows[i] {
      assert rows[i] in rows;
    }
    GroupUntouched(rows, after, terminalId, orderId);
  }

  // What may happen to a halted group without a human: anything but a discard or a rebase of it.
  predicate LeavesHalt(c: Client, op: Op, terminalId: Id, orderId: Id) {
    match op
    case Discard(t, o) => t != terminalId || o != orderId
    case Reissue(id, _, _) => IndexOf(c.rows, id).Some? ==> !SameGroup(RowAt(c.rows, id), terminalId, orderId)
    case AttemptReissued(id, _) => IndexOf(c.rows, id).Some? ==> !SameGroup(RowAt(c.rows, id), terminalId, orderId)
    case _ => true
  }

  predicate RunLeavesHalt(c: Client, ops: seq<Op>, terminalId: Id, orderId: Id) {
    ops == [] ||
    (&& RunLeavesHalt(c, ops[..|ops| - 1], terminalId, orderId)
     && LeavesHalt(Run(c, ops[..|ops| - 1]), ops[|ops| - 1], terminalId, orderId))
  }

  predicate Silent(c: Client, after: Client, terminalId: Id, orderId: Id) {
    && !IsSendable(Group(after.rows, terminalId, orderId))
    && Relabelled(Group(c.rows, terminalId, orderId), Group(after.rows, terminalId, orderId))
    && |c.sent| <= |after.sent| && after.sent[..|c.sent|] == c.sent
    && (forall i :: |c.sent| <= i < |after.sent| ==> !SameGroup(after.sent[i], terminalId, orderId))
  }

  lemma {:induction false} AttemptIsSilent(c: Client, id: Id, answer: Answer, terminalId: Id, orderId: Id)
    requires DiskOk(c) && !IsSendable(Group(c.rows, terminalId, orderId))
    requires IndexOf(c.rows, id).Some? && !SameGroup(RowAt(c.rows, id), terminalId, orderId)
    ensures Silent(c, AttemptRow(c, RowAt(c.rows, id), answer), terminalId, orderId)
  {
    AttemptLeavesOthers(c, RowAt(c.rows, id), answer, terminalId, orderId);
  }

  lemma DiscardElsewhereIsSilent(c: Client, t: Id, o: Id, terminalId: Id, orderId: Id)
    requires !IsSendable(Group(c.rows, terminalId, orderId)) && (t != terminalId || o != orderId)
    ensures Silent(c, Step(c, Discard(t, o)), terminalId, orderId)
  {
    GroupKept(c.rows, (row: Row) => !SameGroup(row, t, o), terminalId, orderId);
  }

  lemma StageIsSilent(c: Client, row: Row, now: nat, terminalId: Id, orderId: Id)
    requires !IsSendable(Group(c.rows, terminalId, orderId))
    ensures Silent(c, StageStep(c, row, now), terminalId, orderId)
  {
    var after := StageStep(c, row, now);
    if after != c {
      assert after.rows[..|c.rows|] == c.rows;
    }
  }

  lemma {:induction false} ReissueElsewhereIsSilent(c: Client, id: Id, newId: Id, version: nat, terminalId: Id,
      orderId: Id)
    requires DiskOk(c) && !IsSendable(Group(c.rows, terminalId, orderId))
    requires IndexOf(c.rows, id).Some? ==> !SameGroup(RowAt(c.rows, id), terminalId, orderId)
    ensures Silent(c, Step(c, Reissue(id, newId, version)), terminalId, orderId)
  {
    var after := Step(c, Reissue(id, newId, version));
    if after != c {
      forall i | 0 <= i < |c.rows| && SameGroup(c.rows[i], terminalId, orderId) ensures c.rows[i].mutationId != id {
        assert c.rows[i] in c.rows && RowAt(c.rows, id) in c.rows;
        if c.rows[i].mutationId == id { IdsAreDistinct(c.rows, c.intentOf, c.rows[i], RowAt(c.rows, id)); }
      }
      GroupUntouched(c.rows, after.rows, terminalId, orderId);
    }
  }

  // A label that halts is not one a restart puts back.
  lemma StuckStays(rows: seq<Row>, t: Id, stuck: Row, terminalId: Id, orderId: Id)
    requires stuck in Group(rows, terminalId, orderId) && stuck.status != Pending && stuck.status != Syncing
    ensures stuck in Group(NormalizeRows(rows, t), terminalId, orderId)
  {
    var after := NormalizeRows(rows, t);
    var i :| 0 <= i < |rows| && rows[i] == stuck;
    assert after[i] == stuck && stuck in after;
  }

  lemma NormalizedStaysHalted(rows: seq<Row>, t: Id, terminalId: Id, orderId: Id)
    requires !IsSendable(Group(rows, terminalId, orderId))
    ensures !IsSendable(Group(NormalizeRows(rows, t), terminalId, orderId))
  {
    var stuck :| stuck in Group(rows, terminalId, orderId) && stuck.status != Pending && stuck.status != Syncing;
    StuckStays(rows, t, stuck, terminalId, orderId);
  }

  lemma NormalizeIsSilent(c: Client, t: Id, terminalId: Id, orderId: Id)
    requires !IsSendable(Group(c.rows, terminalId, orderId))
    ensures Silent(c, Step(c, Normalize(t)), terminalId, orderId)
  {
    hide IsSendable, Group, NormalizeRows, Relabelled, SameGroup, Silent;
    NormalizedStaysHalted(c.rows, t, terminalId, orderId);
    NormalizeRelabels(c.rows, t);
    GroupRelabelled(c.rows, NormalizeRows(c.rows, t), terminalId, orderId);
    UnsentIsSilent(c, Step(c, Normalize(t)), terminalId, orderId);
  }

  lemma UnsentIsSilent(c: Client, after: Client, terminalId: Id, orderId: Id)
    requires after.sent == c.sent && !IsSendable(Group(after.rows, terminalId, orderId))
    requires Relabelled(Group(c.rows, terminalId, orderId), Group(after.rows, terminalId, orderId))
    ensures Silent(c, after, terminalId, orderId)
  {
  }

  lemma NormalizeRelabels(rows: seq<Row>, t: Id)
    ensures Relabelled(rows, NormalizeRows(rows, t))
  {
  }

  lemma {:induction false} StepIsSilent(c: Client, op: Op, terminalId: Id, orderId: Id)
    requires DiskOk(c) && !IsSendable(Group(c.rows, terminalId, orderId)) && LeavesHalt(c, op, terminalId, orderId)
    ensures Silent(c, Step(c, op), terminalId, orderId)
  {
    match op
    case Attempt(id, answer) =>
      if MayAttempt(c.rows, id) { AttemptIsSilent(c, id, answer, terminalId, orderId); }
    case AttemptReissued(id, answer) =>
      if MayAttemptReissued(c.rows, id) { AttemptIsSilent(c, id, answer, terminalId, orderId); }
    case Stage(row, now) => StageIsSilent(c, row, now, terminalId, orderId);
    case Discard(t, o) => DiscardElsewhereIsSilent(c, t, o, terminalId, orderId);
    case Reissue(id, newId, version) => ReissueElsewhereIsSilent(c, id, newId, version, terminalId, orderId);
    case Normalize(t) => NormalizeIsSilent(c, t, terminalId, orderId);
  }

  lemma {:induction false} SilentTrans(a: Client, b: Client, c: Client, terminalId: Id, orderId: Id)
    requires Silent(a, b, terminalId, orderId) && Silent(b, c, terminalId, orderId)
    ensures Silent(a, c, terminalId, orderId)
  {
    forall i | |a.sent| <= i < |c.sent| ensures !SameGroup(c.sent[i], terminalId, orderId) {
      assert i < |b.sent| ==> c.sent[i] == c.sent[..|b.sent|][i];
    }
    assert c.sent[..|a.sent|] == c.sent[..|b.sent|][..|a.sent|];
  }

  /**
   Once a row of a group is refused, nothing of that terminal for that order goes out, and none of its rows
   leaves the disk, through any passes, restarts and work on other orders, until a human discards or
   rebases that group.
   */
  lemma {:induction false} HaltedGroupIsSilent(c: Client, ops: seq<Op>, terminalId: Id, orderId: Id)
    requires DiskOk(c) && !IsSendable(Group(c.rows, terminalId, orderId)) && RunLeavesHalt(c, ops, terminalId, orderId)
    ensures Silent(c, Run(c, ops), terminalId, orderId) && DiskOk(Run(c, ops))
  {
    hide DiskOk, LeavesHalt, Step;
    if ops == [] {
      assert Relabelled(Group(c.rows, terminalId, orderId), Group(c.rows, terminalId, orderId));
    } else {
      var before, op := ops[..|ops| - 1], ops[|ops| - 1];
      HaltedGroupIsSilent(c, before, terminalId, orderId);
      StepKeepsDisk(Run(c, before), op);
      StepIsSilent(Run(c, before), op, terminalId, orderId);
      SilentTrans(c, Run(c, before), Run(c, ops), terminalId, orderId);
    }
  }

  // A refusal puts the whole group on hold.
  lemma RefusalHalts(c: Client, row: Row, answer: Answer)
    requires row in c.rows && (answer.RefusedOutright? || answer.ConflictWith?)
    ensures !IsSendable(Group(AttemptRow(c, row, answer).rows, row.terminalId, row.orderId))
  {
    var labelled := WithStatus(c.rows, row.mutationId, Syncing);
    var after := HaltRows(labelled, row);
    var i :| 0 <= i < |c.rows| && c.rows[i] == row;
    assert after[i].status == ConflictRow && after[i] in after && SameGroup(after[i], row.terminalId, row.orderId);
    assert after[i] in Group(after, row.terminalId, row.orderId);
  }
}
