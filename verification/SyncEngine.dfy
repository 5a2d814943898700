/**
 The sync engine over the store: one attempt, a pass over a terminal's queue, and a rebase of one group.
 The server and the crashes come from a script of answers, one for each attempt.
 */
module SyncEngine {
  import opened Domain
  import opened ProjectQueue
  import opened TillRules
  import opened SyncSteps
  import opened QueueRuns
  import opened LocalStore

  type Script = nat -> Answer

  datatype AttemptResult = AppliedWith(snapshot: Snapshot) | Halted | Offline | Failed | Died

  datatype PassOutcome = Drained | HaltedPass | OfflinePass | FailedPass | DiedPass

  function ResultOf(answer: Answer): AttemptResult {
    match answer
    case Accepted(order) => AppliedWith(order)
    case ConflictWith(_) => Halted
    case RefusedOutright => Halted
    case OfflineNow => Offline
    case TransportError => Failed
    case _ => Died
  }

  /* ---- groups ---- */

  // The orders of a queue in the order in which they first appear in it.
  function OrdersIn(queue: seq<Row>): (orders: seq<Id>)
    ensures forall row <- queue :: row.orderId in orders
    ensures forall o <- orders :: exists row <- queue :: row.orderId == o
    ensures forall i, j :: 0 <= i < j < |orders| ==> orders[i] != orders[j]
  {
    if queue == [] then []
    else
      var before, last := OrdersIn(queue[..|queue| - 1]), queue[|queue| - 1];
      assert forall o <- before :: exists row <- queue :: row.orderId == o by {
        forall o <- before ensures exists row <- queue :: row.orderId == o {
          var row :| row in queue[..|queue| - 1] && row.orderId == o;
          assert row in queue;
        }
      }
      if last.orderId in before then before else before + [last.orderId]
  }

  // A row of `a` comes before every row of `b`.
  predicate AppearsBefore(queue: seq<Row>, a: Id, b: Id) {
    exists p :: 0 <= p < |queue| && queue[p].orderId == a && forall q :: 0 <= q <= p ==> queue[q].orderId != b
  }

  lemma StillBefore(queue: seq<Row>, last: Row, a: Id, b: Id)
    requires AppearsBefore(queue, a, b)
    ensures AppearsBefore(queue + [last], a, b)
  {
    var p :| 0 <= p < |queue| && queue[p].orderId == a && forall q :: 0 <= q <= p ==> queue[q].orderId != b;
    assert (queue + [last])[p].orderId == a && forall q :: 0 <= q <= p ==> (queue + [last])[q] == queue[q];
  }

  lemma BeforeTheNew(queue: seq<Row>, last: Row, a: Id)
    requires a in OrdersIn(queue) && last.orderId !in OrdersIn(queue)
    ensures AppearsBefore(queue + [last], a, last.orderId)
  {
    var row :| row in queue && row.orderId == a;
    var p :| 0 <= p < |queue| && queue[p] == row;
    assert (queue + [last])[p].orderId == a && forall q :: 0 <= q <= p ==> (queue + [last])[q] == queue[q] && queue[q] in queue;
  }

  /** The orders are listed as they first appear. */
  lemma {:induction false} ListedAsTheyAppear(queue: seq<Row>, i: nat, j: nat)
    requires i < j < |OrdersIn(queue)|
    ensures AppearsBefore(queue, OrdersIn(queue)[i], OrdersIn(queue)[j])
  {
    hide AppearsBefore;
    var init, last := queue[..|queue| - 1], queue[|queue| - 1];
    assert queue == init + [last];
    if j < |OrdersIn(init)| {
      ListedAsTheyAppear(init, i, j);
      StillBefore(init, last, OrdersIn(init)[i], OrdersIn(init)[j]);
    } else {
      BeforeTheNew(init, last, OrdersIn(init)[i]);
    }
  }

  function OfOrder(queue: seq<Row>, orderId: Id): seq<Row> {
    Keep(queue, (row: Row) => row.orderId == orderId)
  }

  lemma {:induction false} OfOrderIsGroup(rows: seq<Row>, terminalId: Id, orderId: Id)
    ensures OfOrder(Keep(rows, (row: Row) => row.terminalId == terminalId), orderId) == Group(rows, terminalId, orderId)
  {
    if rows != [] {
      var init, last := rows[..|rows| - 1], rows[|rows| - 1];
      OfOrderIsGroup(init, terminalId, orderId);
      var kept := Keep(init, (row: Row) => row.terminalId == terminalId);
      assert (kept + [last])[..|kept|] == kept;
    }
  }

  lemma {:induction false} WithoutLabelled(rows: seq<Row>, id: Id, status: RowStatus)
    ensures Without(WithStatus(rows, id, status), id) == Without(rows, id)
  {
    if rows != [] {
      var init := rows[..|rows| - 1];
      WithoutLabelled(init, id, status);
      assert WithStatus(rows, id, status)[..|rows| - 1] == WithStatus(init, id, status);
    }
  }

  lemma {:induction false} WithoutInGroup(rows: seq<Row>, id: Id, terminalId: Id, orderId: Id)
    ensures Group(Without(rows, id), terminalId, orderId) == Without(Group(rows, terminalId, orderId), id)
  {
    if rows != [] {
      var init, last := rows[..|rows| - 1], rows[|rows| - 1];
      WithoutInGroup(init, id, terminalId, orderId);
      var kept, group := Without(init, id), Group(init, terminalId, orderId);
      assert (kept + [last])[..|kept|] == kept;
      assert (group + [last])[..|group|] == group;
    }
  }

  lemma {:induction false} WithoutNone(rows: seq<Row>, id: Id)
    requires forall i :: 0 <= i < |rows| ==> rows[i].mutationId != id
    ensures Without(rows, id) == rows
  {
    if rows != [] { WithoutNone(rows[..|rows| - 1], id); }
  }

  lemma {:induction false} WithoutFirst(rows: seq<Row>, id: Id)
    requires rows != [] && rows[0].mutationId == id
    requires forall i :: 0 < i < |rows| ==> rows[i].mutationId != id
    ensures Without(rows, id) == rows[1..]
  {
    if |rows| == 1 {
      assert Without(rows[..0], id) == [] && rows[|rows| - 1] == rows[0];
      assert Without(rows, id) == Without(rows[..|rows| - 1], id);
    } else {
      WithoutFirst(rows[..|rows| - 1], id);
      assert rows[1..] == rows[..|rows| - 1][1..] + [rows[|rows| - 1]];
    }
  }

  lemma OrderedIdsDiffer(rows: seq<Row>, intentOf: map<Id, nat>)
    requires Ordered(rows, intentOf)
    ensures forall i, j :: 0 <= i < j < |rows| ==> rows[i].mutationId != rows[j].mutationId
  {
    forall i, j | 0 <= i < j < |rows| ensures rows[i].mutationId != rows[j].mutationId {
      assert Before(rows[i], rows[j], intentOf);
    }
  }

  // An acknowledged head leaves its group one shorter.
  lemma AcceptedShrinks(c: Client, row: Row, order: Snapshot)
    requires DiskOk(c) && IsHead(c.rows, row)
    ensures GroupOf(AttemptRow(c, row, Accepted(order)).rows, row) == GroupOf(c.rows, row)[1..]
  {
    var id, group := row.mutationId, GroupOf(c.rows, row);
    WithoutLabelled(c.rows, id, Syncing);
    WithoutInGroup(c.rows, id, row.terminalId, row.orderId);
    GroupIsOrdered(c.rows, c.intentOf, row.terminalId, row.orderId);
    OrderedIdsDiffer(group, c.intentOf);
    WithoutFirst(group, id);
  }

  // The head of a group that may go is a row the steps let go.
  lemma HeadMayBeAttempted(c: Client, row: Row)
    requires DiskOk(c) && IsHead(c.rows, row)
    ensures IndexOf(c.rows, row.mutationId).Some? && RowAt(c.rows, row.mutationId) == row
    ensures IsSendable(GroupOf(c.rows, row)) ==> MayAttempt(c.rows, row.mutationId)
    ensures row.status == Pending ==> MayAttemptReissued(c.rows, row.mutationId)
  {
    var found := RowAt(c.rows, row.mutationId);
    assert found in c.rows;
    IdsAreDistinct(c.rows, c.intentOf, found, row);
  }

  lemma RunOne(c: Client, ops: seq<Op>, op: Op)
    ensures Run(c, ops + [op]) == Step(Run(c, ops), op)
  {
    assert (ops + [op])[..|ops|] == ops;
  }

  // An attempt a pass may make at this moment, at a row of its own terminal, with the answer that is next.
  predicate IsAttempt(c: Client, op: Op, answer: Answer, terminalId: Id) {
    && op.Attempt? && op.answer == answer
    && MayAttempt(c.rows, op.id) && RowAt(c.rows, op.id).terminalId == terminalId
  }

  // Permitted attempts and nothing else, one for each answer of the script from `first` on.
  predicate Attempts(c: Client, trace: seq<Op>, script: Script, first: nat, terminalId: Id) {
    trace == [] ||
    (var before, op := trace[..|trace| - 1], trace[|trace| - 1];
     && Attempts(c, before, script, first, terminalId)
     && IsAttempt(Run(c, before), op, script(first + |before|), terminalId))
  }

  ghost predicate OthersSame(rows: seq<Row>, after: seq<Row>, terminalId: Id, orderId: Id) {
    forall t: Id, o: Id :: t != terminalId || o != orderId ==> Group(after, t, o) == Group(rows, t, o)
  }

  lemma OthersSameTrans(rows: seq<Row>, middle: seq<Row>, after: seq<Row>, terminalId: Id, orderId: Id)
    requires OthersSame(rows, middle, terminalId, orderId) && OthersSame(middle, after, terminalId, orderId)
    ensures OthersSame(rows, after, terminalId, orderId)
  {
    forall t: Id, o: Id | t != terminalId || o != orderId ensures Group(after, t, o) == Group(rows, t, o) {
      assert Group(middle, t, o) == Group(rows, t, o);
    }
  }

  // What an attempt at the head of a group does to the groups.
  lemma AttemptInGroup(c: Client, row: Row, answer: Answer)
    requires DiskOk(c) && IsHead(c.rows, row)
    ensures var after := AttemptRow(c, row, answer).rows;
      && OthersSame(c.rows, after, row.terminalId, row.orderId)
      && (answer.Accepted? ==> GroupOf(after, row) == GroupOf(c.rows, row)[1..])
      && (ResultOf(answer).Halted? ==> !IsSendable(GroupOf(after, row)))
  {
    var after := AttemptRow(c, row, answer).rows;
    forall t: Id, o: Id | t != row.terminalId || o != row.orderId ensures Group(after, t, o) == Group(c.rows, t, o) {
      hide AttemptRow;
      AttemptLeavesOthers(c, row, answer, t, o);
    }
    hide AttemptRow;
    if answer.Accepted? { AcceptedShrinks(c, row, answer.order); }
    if ResultOf(answer).Halted? { RefusalHalts(c, row, answer); }
  }

  lemma HeadOfRest(c: Client, group: seq<Row>, i: nat, terminalId: Id, orderId: Id)
    requires DiskOk(c) && i < |group| && Group(c.rows, terminalId, orderId) == group[i..] && IsSendable(group)
    ensures IsHead(c.rows, group[i]) && MayAttempt(c.rows, group[i].mutationId) && RowAt(c.rows, group[i].mutationId) == group[i]
    ensures group[i].terminalId == terminalId && group[i].orderId == orderId
  {
    assert group[i] == group[i..][0] && group[i] in Group(c.rows, terminalId, orderId);
    assert IsSendable(group[i..]);
    HeadMayBeAttempted(c, group[i]);
  }

  lemma {:induction false} RunMore(c: Client, ops: seq<Op>, more: seq<Op>)
    ensures Run(c, ops + more) == Run(Run(c, ops), more)
    decreases |more|
  {
    if more == [] {
      assert ops + more == ops;
    } else {
      RunMore(c, ops, more[..|more| - 1]);
      assert (ops + more)[..|ops + more| - 1] == ops + more[..|more| - 1];
    }
  }

  // A group a pass is done with is empty, or waits for a human.
  predicate Settled(rows: seq<Row>, terminalId: Id, orderId: Id) {
    Group(rows, terminalId, orderId) == [] || !IsSendable(Group(rows, terminalId, orderId))
  }

  predicate Reached(orders: seq<Id>, k: nat, o: Id) {
    exists m :: 0 <= m < k && m < |orders| && orders[m] == o
  }

  lemma OneMoreReached(orders: seq<Id>, k: nat, o: Id)
    requires k < |orders|
    ensures Reached(orders, k + 1, o) <==> Reached(orders, k, o) || o == orders[k]
  {
    if Reached(orders, k, o) {
      var m :| 0 <= m < k && orders[m] == o;
      assert m < k + 1;
    }
    assert k < k + 1 && orders[k] == orders[k];
  }

  // Where a pass stands after the first `k` orders: halted groups are as they were, the others are empty
  // or have been halted since, and nothing else has been touched.
  ghost predicate Worked(rows: seq<Row>, now: seq<Row>, terminalId: Id, orders: seq<Id>, k: nat, drained: bool) {
    && (drained || exists o: Id :: Reached(orders, k, o) && Group(now, terminalId, o) != [])
    && (forall t: Id, o: Id :: t != terminalId || !Reached(orders, k, o) ==> Group(now, t, o) == Group(rows, t, o))
    && (forall o: Id :: Reached(orders, k, o) ==> WorkedOne(rows, now, terminalId, o, drained))
  }

  predicate WorkedOne(rows: seq<Row>, now: seq<Row>, terminalId: Id, orderId: Id, drained: bool) {
    && Settled(now, terminalId, orderId)
    && (drained ==> Group(now, terminalId, orderId) == [])
    && (!IsSendable(Group(rows, terminalId, orderId)) ==> Group(now, terminalId, orderId) == Group(rows, terminalId, orderId))
  }

  lemma NotReached(orders: seq<Id>, k: nat)
    requires k < |orders| && forall i, j :: 0 <= i < j < |orders| ==> orders[i] != orders[j]
    ensures !Reached(orders, k, orders[k])
  {
  }

  lemma SkipsHalted(rows: seq<Row>, now: seq<Row>, terminalId: Id, orders: seq<Id>, groups: map<Id, seq<Row>>,
      k: nat, drained: bool)
    requires k < |orders| && Worked(rows, now, terminalId, orders, k, drained)
    requires Listed(rows, orders, groups, terminalId)
    requires !IsSendable(Group(rows, terminalId, orders[k]))
    ensures Worked(rows, now, terminalId, orders, k + 1, false)
  {
    NotReached(orders, k);
    assert Group(now, terminalId, orders[k]) == Group(rows, terminalId, orders[k]);
    NotEmpty(rows, terminalId, orders[k]);
    hide Group, IsSendable, Listed, Reached;
    forall o: Id ensures Reached(orders, k + 1, o) <==> Reached(orders, k, o) || o == orders[k] {
      OneMoreReached(orders, k, o);
    }
    forall o: Id | Reached(orders, k + 1, o) ensures WorkedOne(rows, now, terminalId, o, false) {
      assert o != orders[k] ==> WorkedOne(rows, now, terminalId, o, drained);
    }
    forall t: Id, o: Id | t != terminalId || !Reached(orders, k + 1, o) ensures Group(now, t, o) == Group(rows, t, o) {
    }
  }

  lemma SendsGroup(rows: seq<Row>, now: seq<Row>, after: seq<Row>, terminalId: Id, orders: seq<Id>, groups: map<Id,
      seq<Row>>, k: nat, drained: bool)
    requires k < |orders| && Worked(rows, now, terminalId, orders, k, drained)
    requires Listed(rows, orders, groups, terminalId)
    requires IsSendable(Group(rows, terminalId, orders[k])) && Settled(after, terminalId, orders[k])
    requires OthersSame(now, after, terminalId, orders[k])
    ensures Worked(rows, after, terminalId, orders, k + 1, drained && Group(after, terminalId, orders[k]) == [])
  {
    var still := drained && Group(after, terminalId, orders[k]) == [];
    NotReached(orders, k);
    hide Group, IsSendable, Listed, Reached;
    forall o: Id ensures Reached(orders, k + 1, o) <==> Reached(orders, k, o) || o == orders[k] {
      OneMoreReached(orders, k, o);
    }
    forall o: Id | Reached(orders, k + 1, o) ensures WorkedOne(rows, after, terminalId, o, still) {
      if o != orders[k] {
        assert WorkedOne(rows, now, terminalId, o, drained);
        assert Group(after, terminalId, o) == Group(now, terminalId, o);
      }
    }
    forall t: Id, o: Id | t != terminalId || !Reached(orders, k + 1, o) ensures Group(after, t, o) == Group(rows, t, o) {
      assert Group(now, t, o) == Group(rows, t, o);
    }
  }

  // What a pass may claim of the terminal's queue when it is over, or cut short: it says the queue is drained
  // exactly when it is.
  ghost predicate PassDone(rows: seq<Row>, now: seq<Row>, terminalId: Id, outcome: PassOutcome) {
    && (forall t: Id, o: Id :: t != terminalId ==> Group(now, t, o) == Group(rows, t, o))
    && (forall o: Id :: !IsSendable(Group(rows, terminalId, o)) ==> Group(now, terminalId, o) == Group(rows, terminalId, o))
    && (outcome.Drained? <==> forall o: Id :: Group(now, terminalId, o) == [])
    && (outcome.HaltedPass? ==> forall o: Id :: Settled(now, terminalId, o))
  }

  lemma WorkedAll(rows: seq<Row>, now: seq<Row>, terminalId: Id, orders: seq<Id>, groups: map<Id, seq<Row>>,
      drained: bool)
    requires Worked(rows, now, terminalId, orders, |orders|, drained)
    requires Listed(rows, orders, groups, terminalId)
    ensures PassDone(rows, now, terminalId, if drained then Drained else HaltedPass)
  {
    forall o: Id ensures WorkedOne(rows, now, terminalId, o, drained) {
      if !Reached(orders, |orders|, o) {
        assert o !in orders;
        assert Group(now, terminalId, o) == Group(rows, terminalId, o);
      }
    }
    hide Reached, Listed, Group, IsSendable;
    forall o: Id ensures Settled(now, terminalId, o) && (drained ==> Group(now, terminalId, o) == []) {
      assert WorkedOne(rows, now, terminalId, o, drained);
    }
    forall o: Id | !IsSendable(Group(rows, terminalId, o)) ensures Group(now, terminalId, o) == Group(rows, terminalId, o) {
      assert WorkedOne(rows, now, terminalId, o, drained);
    }
  }

  lemma CutShort(rows: seq<Row>, now: seq<Row>, after: seq<Row>, terminalId: Id, orders: seq<Id>, k: nat,
      drained: bool, outcome: PassOutcome)
    requires k < |orders| && Worked(rows, now, terminalId, orders, k, drained)
    requires IsSendable(Group(rows, terminalId, orders[k])) && OthersSame(now, after, terminalId, orders[k])
    requires !outcome.Drained? && !outcome.HaltedPass? && Group(after, terminalId, orders[k]) != []
    ensures PassDone(rows, after, terminalId, outcome)
  {
    hide Group, IsSendable, Reached;
    forall o: Id | !IsSendable(Group(rows, terminalId, o)) ensures Group(after, terminalId, o) == Group(rows, terminalId, o) {
      assert Group(after, terminalId, o) == Group(now, terminalId, o);
      assert Reached(orders, k, o) ==> WorkedOne(rows, now, terminalId, o, drained);
    }
    forall t: Id, o: Id | t != terminalId ensures Group(after, t, o) == Group(rows, t, o) {
      assert Group(after, t, o) == Group(now, t, o);
    }
  }

  lemma AtWork(rows: seq<Row>, now: seq<Row>, terminalId: Id, orders: seq<Id>, groups: map<Id, seq<Row>>, k: nat,
      drained: bool)
    requires k < |orders| && Worked(rows, now, terminalId, orders, k, drained) && Listed(rows, orders, groups, terminalId)
    ensures orders[k] in groups && groups[orders[k]] == Group(rows, terminalId, orders[k])
    ensures Group(now, terminalId, orders[k]) == Group(rows, terminalId, orders[k])
  {
    NotReached(orders, k);
    assert orders[k] in orders;
  }

  // Nothing will get through any more.
  predicate CutsShort(answer: Answer) {
    answer.OfflineNow? || answer.TransportError? || Dies(answer)
  }

  predicate Dies(answer: Answer) {
    answer.DiedUnsent? || answer.DiedUnanswered? || answer.DiedBeforeDelete? || answer.DiedBeforeHalt?
  }

  // After `n` answers: only the last of them may have cut the pass short, and its outcome says which it was.
  ghost predicate EndedBy(script: Script, n: nat, outcome: PassOutcome) {
    && (forall i :: 0 <= i < n - 1 ==> !CutsShort(script(i)))
    && (outcome.OfflinePass? <==> n > 0 && script(n - 1).OfflineNow?)
    && (outcome.FailedPass? <==> n > 0 && script(n - 1).TransportError?)
    && (outcome.DiedPass? <==> n > 0 && Dies(script(n - 1)))
  }

  // The answers one group has had: all its rows were accepted but the one it stopped at.
  ghost predicate GroupAnswers(script: Script, first: nat, used: nat, stop: Option<PassOutcome>) {
    && first <= used
    && (stop.None? ==> forall i :: first <= i < used ==> script(i).Accepted?)
    && (stop.Some? ==> first < used && (forall i :: first <= i < used - 1 ==> script(i).Accepted?)
                       && StopOf(ResultOf(script(used - 1))) == stop)
  }

  ghost predicate NoneCut(script: Script, n: nat) {
    forall i :: 0 <= i < n ==> !CutsShort(script(i))
  }

  lemma AnswersOfGroup(script: Script, first: nat, used: nat, stop: Option<PassOutcome>)
    requires NoneCut(script, first) && GroupAnswers(script, first, used, stop)
    ensures if EndsPass(stop) then EndedBy(script, used, stop.value) else NoneCut(script, used)
  {
  }

  lemma NoAnswerYet(script: Script, first: nat)
    ensures GroupAnswers(script, first, first, None)
  {
  }

  lemma OneMoreAnswer(script: Script, first: nat, used: nat)
    requires GroupAnswers(script, first, used, None)
    ensures GroupAnswers(script, first, used + 1, StopOf(ResultOf(script(used))))
  {
  }

  lemma NothingCut(script: Script, n: nat, outcome: PassOutcome)
    requires NoneCut(script, n) && (outcome.Drained? || outcome.HaltedPass?)
    ensures EndedBy(script, n, outcome)
  {
  }

  lemma FirstAnswers(script: Script)
    ensures NoneCut(script, 0)
  {
  }

  predicate EndsPass(stop: Option<PassOutcome>) {
    stop.Some? && !stop.value.HaltedPass?
  }

  // What the pass knows after a group: that it goes on from the next, or that it was cut short.
  lemma GroupDone(rows: seq<Row>, now: seq<Row>, after: seq<Row>, terminalId: Id, orders: seq<Id>, groups: map<Id,
      seq<Row>>,
                  k: nat, drained: bool, stop: Option<PassOutcome>)
    requires k < |orders| && Worked(rows, now, terminalId, orders, k, drained) && Listed(rows, orders, groups, terminalId)
    requires IsSendable(Group(rows, terminalId, orders[k])) && OthersSame(now, after, terminalId, orders[k])
    requires stop.None? ==> Group(after, terminalId, orders[k]) == []
    requires stop == Some(HaltedPass) ==> !IsSendable(Group(after, terminalId, orders[k]))
    requires stop.Some? ==> !stop.value.Drained? && Group(after, terminalId, orders[k]) != []
    ensures EndsPass(stop) ==> stop.Some? && PassDone(rows, after, terminalId, stop.value)
    ensures !EndsPass(stop) ==> Worked(rows, after, terminalId, orders, k + 1, drained && stop.None?)
  {
    hide Worked, Listed, OthersSame, PassDone, Group;
    if EndsPass(stop) {
      CutShort(rows, now, after, terminalId, orders, k, drained, stop.value);
    } else {
      SendsGroup(rows, now, after, terminalId, orders, groups, k, drained);
    }
  }

  lemma NotEmpty(rows: seq<Row>, terminalId: Id, orderId: Id)
    requires !IsSendable(Group(rows, terminalId, orderId))
    ensures Group(rows, terminalId, orderId) != []
  {
  }

  // The orders of the queue as a pass found it, each with its group.
  ghost predicate Listed(rows: seq<Row>, orders: seq<Id>, groups: map<Id, seq<Row>>, terminalId: Id) {
    && (forall o <- orders :: o in groups && groups[o] == Group(rows, terminalId, o))
    && (forall o: Id :: o !in orders ==> Group(rows, terminalId, o) == [])
    && (forall i, j :: 0 <= i < j < |orders| ==> orders[i] != orders[j])
  }

  lemma NothingWorked(rows: seq<Row>, queue: seq<Row>, orders: seq<Id>, groups: map<Id, seq<Row>>, terminalId: Id)
    requires queue == Keep(rows, (row: Row) => row.terminalId == terminalId) && Grouped(queue, orders, groups)
    ensures Worked(rows, rows, terminalId, orders, 0, true)
    ensures Listed(rows, orders, groups, terminalId)
  {
    GroupsOfQueue(rows, queue, orders, terminalId);
    forall o | o in orders ensures groups[o] == Group(rows, terminalId, o) {
      OfOrderIsGroup(rows, terminalId, o);
    }
  }

  lemma GroupIsListed(rows: seq<Row>, queue: seq<Row>, terminalId: Id, o: Id)
    requires queue == Keep(rows, (row: Row) => row.terminalId == terminalId) && Group(rows, terminalId, o) != []
    ensures o in OrdersIn(queue)
  {
    var first := Group(rows, terminalId, o)[0];
    assert first in rows && first in queue;
  }

  lemma GroupsOfQueue(rows: seq<Row>, queue: seq<Row>, orders: seq<Id>, terminalId: Id)
    requires queue == Keep(rows, (row: Row) => row.terminalId == terminalId) && orders == OrdersIn(queue)
    ensures forall o: Id :: o !in orders ==> Group(rows, terminalId, o) == []
  {
    forall o: Id | o !in orders ensures Group(rows, terminalId, o) == [] {
      if Group(rows, terminalId, o) != [] { GroupIsListed(rows, queue, terminalId, o); }
    }
  }

  predicate Grouped(queue: seq<Row>, orders: seq<Id>, groups: map<Id, seq<Row>>) {
    && orders == OrdersIn(queue)
    && (forall o <- groups :: o in orders)
    && (forall o <- orders :: o in groups && groups[o] == OfOrder(queue, o))
  }

  lemma OneMoreGrouped(queue: seq<Row>, orders: seq<Id>, groups: map<Id, seq<Row>>, row: Row)
    requires Grouped(queue, orders, groups)
    ensures Grouped(queue + [row],
      if row.orderId in groups then orders else orders + [row.orderId],
      groups[row.orderId := if row.orderId in groups then groups[row.orderId] + [row] else [row]])
  {
    hide OfOrder, OrdersIn;
    OfAbsentOrder(queue, row.orderId);
    OrdersInLast(queue, row);
    forall o: Id ensures OfOrder(queue + [row], o) == OfOrder(queue, o) + if row.orderId == o then [row] else [] {
      OfOrderLast(queue, row, o);
    }
  }

  lemma OfOrderLast(queue: seq<Row>, row: Row, o: Id)
    ensures OfOrder(queue + [row], o) == OfOrder(queue, o) + if row.orderId == o then [row] else []
  {
    assert (queue + [row])[..|queue|] == queue;
  }

  lemma OrdersInLast(queue: seq<Row>, row: Row)
    ensures OrdersIn(queue + [row]) == if row.orderId in OrdersIn(queue) then OrdersIn(queue) else OrdersIn(queue) + [row.orderId]
  {
    assert (queue + [row])[..|queue|] == queue;
  }

  lemma NothingGrouped()
    ensures Grouped([], [], map[])
  {
  }

  method GroupByOrder(queue: seq<Row>) returns (orders: seq<Id>, groups: map<Id, seq<Row>>)
    ensures Grouped(queue, orders, groups)
  {
    hide *;
    NothingGrouped();
    orders, groups := [], map[];
    assert queue[..0] == [];
    for i := 0 to |queue|
      invariant Grouped(queue[..i], orders, groups)
    {
      var row := queue[i];
      OneMoreGrouped(queue[..i], orders, groups, row);
      assert queue[..i + 1] == queue[..i] + [row];
      if row.orderId !in groups {
        groups := groups[row.orderId := [row]];
        orders := orders + [row.orderId];
      } else {
        groups := groups[row.orderId := groups[row.orderId] + [row]];
      }
    }
    assert queue[..|queue|] == queue;
  }

  lemma OfAbsentOrder(queue: seq<Row>, orderId: Id)
    ensures orderId !in OrdersIn(queue) ==> OfOrder(queue, orderId) == []
  {
    var found := OfOrder(queue, orderId);
    if found != [] {
      assert found[0] in found && found[0] in queue;
    }
  }

  /* ---- rebasing ---- */

  ghost predicate FreshFrom(newIds: nat -> Id, intentOf: map<Id, nat>, k: nat) {
    (forall i: nat :: i >= k ==> newIds(i) !in intentOf) && (forall i: nat, j: nat :: i < j ==> newIds(i) != newIds(j))
  }

  // The version the `k`-th request of a rebase is stamped with.
  function VersionFor(canonicalVersion: nat, script: Script, k: nat): nat {
    if k == 0 then canonicalVersion
    else match script(k - 1)
      case Accepted(order) => order.version
      case _ => 0
  }

  // What the first `k` rows of the group were sent as.
  function Reissues(group: seq<Row>, k: nat, canonicalVersion: nat, newIds: nat -> Id, script: Script): (sent: seq<Row>)
    requires k <= |group|
    ensures |sent| == k
  {
    if k == 0 then []
    else Reissues(group, k - 1, canonicalVersion, newIds, script) +
         [ReissuedRow(group[k - 1], newIds(k - 1), VersionFor(canonicalVersion, script, k - 1))]
  }

  // What the row an attempt stopped at is labelled, and whether those behind it wait for a human.
  function LabelAfter(answer: Answer): RowStatus {
    if Refuses(answer) then ConflictRow else if Dies(answer) then Syncing else Pending
  }

  predicate Refuses(answer: Answer) {
    answer.ConflictWith? || answer.RefusedOutright?
  }

  predicate StoppedAt(group: seq<Row>, left: seq<Row>, answer: Answer) {
    && |left| == |group| && group != []
    && left[0] == group[0].(status := LabelAfter(answer))
    && (forall i :: 1 <= i < |left| ==> left[i] == if Refuses(answer) then group[i].(status := Blocked) else group[i])
  }

  predicate NamesAnswer(outcome: PassOutcome, answer: Answer) {
    && (outcome.HaltedPass? <==> Refuses(answer))
    && (outcome.OfflinePass? <==> answer.OfflineNow?)
    && (outcome.FailedPass? <==> answer.TransportError?)
    && (outcome.DiedPass? <==> Dies(answer))
  }

  // What is left of the group: nothing, or the row it stopped at, re-issued, and those behind it, with the
  // labels the answer that stopped it leaves; the outcome names that answer.
  ghost predicate Rebased(group: seq<Row>, left: seq<Row>, accepted: nat, canonicalVersion: nat, newIds: nat -> Id,
      script: Script, outcome: PassOutcome) {
    && accepted <= |group| == accepted + |left|
    && (forall i :: 0 <= i < accepted ==> script(i).Accepted?)
    && (outcome.Drained? <==> left == [])
    && (left != [] ==>
        && !script(accepted).Accepted? && NamesAnswer(outcome, script(accepted))
        && StoppedAt([ReissuedRow(group[accepted], newIds(accepted), VersionFor(canonicalVersion, script, accepted))] + group[accepted + 1..],
                     left, script(accepted)))
  }

  // One request a row, in the group's own order; the row it stopped at went out too, unless the tab died first.
  ghost predicate SentInTurn(sent: seq<Row>, now: seq<Row>, group: seq<Row>, accepted: nat, canonicalVersion: nat,
      newIds: nat -> Id, script: Script, outcome: PassOutcome) {
    && accepted <= |group|
    && now == sent + Reissues(group, accepted + if accepted < |group| && !script(accepted).DiedUnsent? then 1 else 0,
                              canonicalVersion, newIds, script)
  }

  lemma GroupHead(c: Client, left: seq<Row>, terminalId: Id, orderId: Id)
    requires DiskOk(c) && left == Group(c.rows, terminalId, orderId) && left != []
    ensures IsHead(c.rows, left[0]) && left[0] in c.rows && SameGroup(left[0], terminalId, orderId)
    ensures IndexOf(c.rows, left[0].mutationId).Some? && RowAt(c.rows, left[0].mutationId) == left[0]
    ensures left[0].mutationId in c.intentOf
    ensures forall row <- c.rows :: row.mutationId == left[0].mutationId ==> row == left[0]
  {
    assert left[0] in left;
    HeadMayBeAttempted(c, left[0]);
    forall row | row in c.rows && row.mutationId == left[0].mutationId ensures row == left[0] {
      IdsAreDistinct(c.rows, c.intentOf, row, left[0]);
    }
  }

  lemma {:induction false} ReissuedInGroup(rows: seq<Row>, id: Id, newId: Id, version: nat, terminalId: Id, orderId: Id)
    ensures Group(ReissueRows(rows, id, newId, version), terminalId, orderId) ==
      ReissueRows(Group(rows, terminalId, orderId), id, newId, version)
  {
    if rows != [] {
      var init := rows[..|rows| - 1];
      ReissuedInGroup(init, id, newId, version, terminalId, orderId);
      assert ReissueRows(rows, id, newId, version)[..|rows| - 1] == ReissueRows(init, id, newId, version);
    }
  }

  // Re-issuing the head keeps its place and touches nothing else.
  lemma {:induction false} ReissueIsStep(c: Client, head: Row, newId: Id, version: nat, terminalId: Id, orderId: Id)
    requires DiskOk(c) && IsHead(c.rows, head) && SameGroup(head, terminalId, orderId) && newId !in c.intentOf
    ensures var d, reissued := Step(c, Reissue(head.mutationId, newId, version)), ReissuedRow(head, newId, version);
      && d.rows == MapRows(c.rows, (row: Row) => if row.mutationId == head.mutationId then reissued else row)
      && d == c.(rows := d.rows, intentOf := d.intentOf) && DiskOk(d)
      && head.mutationId in c.intentOf && d.intentOf == c.intentOf[newId := c.intentOf[head.mutationId]]
      && Group(d.rows, terminalId, orderId) == [reissued] + Group(c.rows, terminalId, orderId)[1..]
      && OthersSame(c.rows, d.rows, terminalId, orderId)
      && IsHead(d.rows, reissued) && MayAttemptReissued(d.rows, newId) && RowAt(d.rows, newId) == reissued
  {
    var id, group := head.mutationId, Group(c.rows, terminalId, orderId);
    GroupHead(c, group, terminalId, orderId);
    ReissueShape(c, head, newId, version);
    StepKeepsDisk(c, Reissue(id, newId, version));
    ReissuedInGroup(c.rows, id, newId, version, terminalId, orderId);
    ReissuedFirst(c, group, id, newId, version, terminalId, orderId);
    ReissueTouchesOne(c, head, newId, version);
    var d, reissued := Step(c, Reissue(id, newId, version)), ReissuedRow(head, newId, version);
    assert Group(d.rows, terminalId, orderId)[0] == reissued;
    hide Step, ReissueRows;
    HeadMayBeAttempted(d, reissued);
  }

  lemma ReissueShape(c: Client, head: Row, newId: Id, version: nat)
    requires head.mutationId in c.intentOf && newId !in c.intentOf && head in c.rows && IsHead(c.rows, head)
    requires IndexOf(c.rows, head.mutationId).Some? && RowAt(c.rows, head.mutationId) == head
    requires forall row <- c.rows :: row.mutationId == head.mutationId ==> row == head
    ensures var d, reissued := Step(c, Reissue(head.mutationId, newId, version)), ReissuedRow(head, newId, version);
      && d.rows == ReissueRows(c.rows, head.mutationId, newId, version)
      && d.rows == MapRows(c.rows, (row: Row) => if row.mutationId == head.mutationId then reissued else row)
      && d == c.(rows := d.rows, intentOf := c.intentOf[newId := c.intentOf[head.mutationId]])
  {
    hide IsHead;
  }

  lemma ReissuedFirst(c: Client, group: seq<Row>, id: Id, newId: Id, version: nat, terminalId: Id, orderId: Id)
    requires DiskOk(c) && group == Group(c.rows, terminalId, orderId) && group != [] && group[0].mutationId == id
    ensures ReissueRows(group, id, newId, version) == [ReissuedRow(group[0], newId, version)] + group[1..]
  {
    GroupIsOrdered(c.rows, c.intentOf, terminalId, orderId);
    OrderedIdsDiffer(group, c.intentOf);
  }

  lemma ReissueTouchesOne(c: Client, head: Row, newId: Id, version: nat)
    requires DiskOk(c) && head in c.rows
    ensures OthersSame(c.rows, ReissueRows(c.rows, head.mutationId, newId, version), head.terminalId, head.orderId)
  {
    var after := ReissueRows(c.rows, head.mutationId, newId, version);
    forall t: Id, o: Id | t != head.terminalId || o != head.orderId ensures Group(after, t, o) == Group(c.rows, t, o) {
      forall i | 0 <= i < |c.rows| && SameGroup(c.rows[i], t, o) ensures c.rows[i].mutationId != head.mutationId {
        assert c.rows[i] in c.rows;
        if c.rows[i].mutationId == head.mutationId { IdsAreDistinct(c.rows, c.intentOf, c.rows[i], head); }
      }
      GroupUntouched(c.rows, after, t, o);
    }
  }

  lemma MapRowsLast(rows: seq<Row>, last: Row, f: Row -> Row)
    ensures MapRows(rows + [last], f) == MapRows(rows, f) + [f(last)]
  {
  }

  lemma GroupLast(rows: seq<Row>, last: Row, terminalId: Id, orderId: Id)
    ensures Group(rows + [last], terminalId, orderId) ==
      Group(rows, terminalId, orderId) + if SameGroup(last, terminalId, orderId) then [last] else []
  {
    assert (rows + [last])[..|rows|] == rows;
  }

  lemma {:induction false} GroupMapped(rows: seq<Row>, f: Row -> Row, terminalId: Id, orderId: Id)
    requires forall row: Row :: SameGroup(f(row), terminalId, orderId) == SameGroup(row, terminalId, orderId)
    ensures Group(MapRows(rows, f), terminalId, orderId) == MapRows(Group(rows, terminalId, orderId), f)
  {
    if rows == [] {
      assert Group(rows, terminalId, orderId) == [] && MapRows(rows, f) == [];
    } else {
      hide Group, MapRows, SameGroup;
      var init, last := rows[..|rows| - 1], rows[|rows| - 1];
      assert rows == init + [last];
      GroupMapped(init, f, terminalId, orderId);
      MapRowsLast(init, last, f);
      GroupLast(init, last, terminalId, orderId);
      GroupLast(MapRows(init, f), f(last), terminalId, orderId);
      MapRowsLast(Group(init, terminalId, orderId), last, f);
    }
  }

  lemma GroupLabelled(rows: seq<Row>, id: Id, status: RowStatus, terminalId: Id, orderId: Id)
    ensures Group(WithStatus(rows, id, status), terminalId, orderId) == WithStatus(Group(rows, terminalId, orderId), id, status)
  {
    GroupMapped(rows, (row: Row) => if row.mutationId == id then row.(status := status) else row, terminalId, orderId);
  }

  lemma GroupHalted(rows: seq<Row>, head: Row, terminalId: Id, orderId: Id)
    ensures Group(HaltRows(rows, head), terminalId, orderId) == HaltRows(Group(rows, terminalId, orderId), head)
  {
    GroupMapped(rows, (row: Row) =>
      if row.mutationId == head.mutationId then row.(status := ConflictRow)
      else if SameGroup(row, head.terminalId, head.orderId) && IsLaterInQueue(row, head) then row.(status := Blocked)
      else row, terminalId, orderId);
  }

  // The labels an answer other than an acknowledgement leaves on a group.
  function Labelled(group: seq<Row>, row: Row, answer: Answer): seq<Row> {
    var labelled := WithStatus(group, row.mutationId, Syncing);
    if Refuses(answer) then HaltRows(labelled, row)
    else if Dies(answer) then labelled
    else WithStatus(labelled, row.mutationId, Pending)
  }

  lemma GroupAfter(c: Client, row: Row, answer: Answer)
    requires !answer.Accepted?
    ensures GroupOf(AttemptRow(c, row, answer).rows, row) == Labelled(GroupOf(c.rows, row), row, answer)
  {
    var labelled := WithStatus(c.rows, row.mutationId, Syncing);
    GroupLabelled(c.rows, row.mutationId, Syncing, row.terminalId, row.orderId);
    GroupLabelled(labelled, row.mutationId, Pending, row.terminalId, row.orderId);
    GroupHalted(labelled, row, row.terminalId, row.orderId);
    hide Group, WithStatus, HaltRows, Cached;
  }

  lemma LabelledStops(group: seq<Row>, row: Row, answer: Answer)
    requires !answer.Accepted? && group != [] && group[0] == row
    requires forall i :: 0 <= i < |group| ==> SameGroup(group[i], row.terminalId, row.orderId)
    requires forall i :: 1 <= i < |group| ==> group[i].mutationId != row.mutationId && group[i].createdAt > row.createdAt
    ensures StoppedAt(group, Labelled(group, row, answer), answer)
  {
  }

  /** What an attempt sends, and the labels it leaves in its group when the row stays. */
  lemma AttemptLabelsExactly(c: Client, row: Row, answer: Answer)
    requires DiskOk(c) && IsHead(c.rows, row)
    ensures var after := AttemptRow(c, row, answer);
      && after.intentOf == c.intentOf
      && after.sent == (if answer.DiedUnsent? then c.sent else c.sent + [row])
      && (!answer.Accepted? ==> StoppedAt(GroupOf(c.rows, row), GroupOf(after.rows, row), answer))
  {
    hide Labelled, StoppedAt, Group, HaltRows, WithStatus, Without, Cached;
    var group := GroupOf(c.rows, row);
    GroupIsOrdered(c.rows, c.intentOf, row.terminalId, row.orderId);
    OrderedIdsDiffer(group, c.intentOf);
    forall i | 1 <= i < |group| ensures group[i].mutationId != row.mutationId && group[i].createdAt > row.createdAt {
      assert Before(group[0], group[i], c.intentOf);
    }
    assert forall i :: 0 <= i < |group| ==> group[i] in group;
    if !answer.Accepted? {
      GroupAfter(c, row, answer);
      LabelledStops(group, row, answer);
    }
  }

  // The version cached for an order, 0 for none.
  function HeldOf(c: Client, orderId: Id): nat {
    if orderId in c.orders then c.orders[orderId].version else 0
  }

  // No row is re-issued at a version above the one the disk holds at that moment.
  predicate ReissuesWithin(c: Client, trace: seq<Op>, orderId: Id) {
    trace == [] ||
    (var before, op := trace[..|trace| - 1], trace[|trace| - 1];
     ReissuesWithin(c, before, orderId) && (op.Reissue? ==> op.version <= HeldOf(Run(c, before), orderId)))
  }

  // The rebase starts from a version that is held, and the server answers about the order asked for.
  ghost predicate StartsWithin(c: Client, orderId: Id, canonicalVersion: nat, script: Script) {
    && canonicalVersion <= HeldOf(c, orderId)
    && (forall o <- c.orders :: c.orders[o].id == o)
    && (forall k: nat :: script(k).Accepted? ==> script(k).order.id == orderId)
  }

  // So far every row was, and the next version is held as well.
  predicate KeepsWithin(before: Client, trace: seq<Op>, orderId: Id, version: nat) {
    && ReissuesWithin(before, trace, orderId)
    && version <= HeldOf(Run(before, trace), orderId)
    && (forall o <- Run(before, trace).orders :: Run(before, trace).orders[o].id == o)
  }

  lemma AcceptedIsHeld(c: Client, row: Row, order: Snapshot)
    requires forall o <- c.orders :: c.orders[o].id == o
    ensures var after := AttemptRow(c, row, Accepted(order));
      order.version <= HeldOf(after, order.id) && forall o <- after.orders :: after.orders[o].id == o
  {
  }

  lemma OneMoreWithin(c: Client, trace: seq<Op>, op: Op, orderId: Id)
    requires ReissuesWithin(c, trace, orderId) && (op.Reissue? ==> op.version <= HeldOf(Run(c, trace), orderId))
    ensures ReissuesWithin(c, trace + [op], orderId)
  {
    assert (trace + [op])[..|trace|] == trace;
  }

  // One turn of a rebase.
  lemma {:induction false} TurnWithin(before: Client, done: seq<Op>, orderId: Id, version: nat, id: Id, newId: Id, answer: Answer)
    requires KeepsWithin(before, done, orderId, version)
    requires var c := Run(before, done);
      MayAttemptReissued(Step(c, Op.Reissue(id, newId, version)).rows, newId)
    requires answer.Accepted? ==> answer.order.id == orderId
    ensures var ops := [Op.Reissue(id, newId, version), Op.AttemptReissued(newId, answer)];
      && ReissuesWithin(before, done + ops, orderId)
      && (answer.Accepted? ==> KeepsWithin(before, done + ops, orderId, answer.order.version))
  {
    var a, b := Op.Reissue(id, newId, version), Op.AttemptReissued(newId, answer);
    var c := Run(before, done);
    hide AttemptRow, Run, IsHead;
    OneMoreWithin(before, done, a, orderId);
    RunOne(before, done, a);
    OneMoreWithin(before, done + [a], b, orderId);
    RunOne(before, done + [a], b);
    assert done + [a, b] == done + [a] + [b];
    assert Step(c, a).orders == c.orders;
    if answer.Accepted? { AcceptedIsHeld(Step(c, a), RowAt(Step(c, a).rows, newId), answer.order); }
  }

  lemma StartsToKeep(c: Client, orderId: Id, canonicalVersion: nat, script: Script)
    requires StartsWithin(c, orderId, canonicalVersion, script)
    ensures KeepsWithin(c, [], orderId, canonicalVersion)
  {
  }

  lemma WithinTurn(before: Client, done: seq<Op>, orderId: Id, canonicalVersion: nat, script: Script, k: nat, version: nat,
                   id: Id, newId: Id, result: AttemptResult)
    requires StartsWithin(before, orderId, canonicalVersion, script) && KeepsWithin(before, done, orderId, version)
    requires MayAttemptReissued(Step(Run(before, done), Op.Reissue(id, newId, version)).rows, newId)
    requires result == ResultOf(script(k))
    ensures var trace := done + [Op.Reissue(id, newId, version), Op.AttemptReissued(newId, script(k))];
      && ReissuesWithin(before, trace, orderId)
      && (result.AppliedWith? ==> KeepsWithin(before, trace, orderId, result.snapshot.version))
  {
    hide KeepsWithin, ReissuesWithin, MayAttemptReissued;
    TurnWithin(before, done, orderId, version, id, newId, script(k));
  }

  lemma KeptWithin(before: Client, trace: seq<Op>, orderId: Id, version: nat)
    requires KeepsWithin(before, trace, orderId, version)
    ensures ReissuesWithin(before, trace, orderId)
  {
  }

  // Where a rebase stands before its turn `k`.
  ghost predicate Underway(before: Client, c: Client, left: seq<Row>, group: seq<Row>, k: nat, version: nat,
                           terminalId: Id, orderId: Id, canonicalVersion: nat, newIds: nat -> Id, script: Script) {
    && k <= |group| && left == group[k..] && left == Group(c.rows, terminalId, orderId)
    && group == Group(before.rows, terminalId, orderId) && OthersSame(before.rows, c.rows, terminalId, orderId)
    && FreshFrom(newIds, c.intentOf, k) && version == VersionFor(canonicalVersion, script, k)
    && (forall i :: 0 <= i < k ==> script(i).Accepted?)
    && c.sent == before.sent + Reissues(group, k, canonicalVersion, newIds, script)
  }

  lemma Starts(c: Client, terminalId: Id, orderId: Id, group: seq<Row>, canonicalVersion: nat, newIds: nat -> Id,
      script: Script)
    requires group == Group(c.rows, terminalId, orderId) && FreshFrom(newIds, c.intentOf, 0)
    ensures Underway(c, c, group, group, 0, canonicalVersion, terminalId, orderId, canonicalVersion, newIds, script)
    ensures Run(c, []) == c
  {
  }

  lemma TurnMayStart(before: Client, c: Client, left: seq<Row>, group: seq<Row>, k: nat, version: nat,
                     terminalId: Id, orderId: Id, canonicalVersion: nat, newIds: nat -> Id, script: Script)
    requires Underway(before, c, left, group, k, version, terminalId, orderId, canonicalVersion, newIds, script)
    requires DiskOk(c) && left != []
    ensures IsHead(c.rows, left[0]) && newIds(k) !in c.intentOf && SameGroup(left[0], terminalId, orderId)
  {
    GroupHead(c, left, terminalId, orderId);
  }

  // What turn `k` has done, whichever way it went.
  ghost predicate Taken(before: Client, c: Client, after: Client, left: seq<Row>, k: nat, version: nat,
                        terminalId: Id, orderId: Id, newIds: nat -> Id, script: Script) {
    && left != [] && TookTurn(left, Group(after.rows, terminalId, orderId), c.sent, after.sent,
                              ReissuedRow(left[0], newIds(k), version), script(k))
    && OthersSame(c.rows, after.rows, terminalId, orderId)
    && after.intentOf.Keys == c.intentOf.Keys + {newIds(k)}
  }

  lemma WasTaken(before: Client, c: Client, after: Client, left: seq<Row>, k: nat, version: nat,
                 terminalId: Id, orderId: Id, newIds: nat -> Id, script: Script)
    requires left != [] && TookTurn(left, Group(after.rows, terminalId, orderId), c.sent, after.sent,
                                    ReissuedRow(left[0], newIds(k), version), script(k))
    requires OthersSame(c.rows, after.rows, terminalId, orderId) && after.intentOf.Keys == c.intentOf.Keys + {newIds(k)}
    ensures Taken(before, c, after, left, k, version, terminalId, orderId, newIds, script)
  {
  }

  lemma TurnTaken(before: Client, c: Client, after: Client, left: seq<Row>, group: seq<Row>, k: nat, version: nat,
                  terminalId: Id, orderId: Id, canonicalVersion: nat, newIds: nat -> Id, script: Script)
    requires Underway(before, c, left, group, k, version, terminalId, orderId, canonicalVersion, newIds, script)
    requires Taken(before, c, after, left, k, version, terminalId, orderId, newIds, script)
    ensures k < |group| && left[0] == group[k] && left[1..] == group[k + 1..]
    ensures OthersSame(before.rows, after.rows, terminalId, orderId) && FreshFrom(newIds, after.intentOf, k + 1)
    ensures c.sent + [ReissuedRow(left[0], newIds(k), version)] == before.sent + Reissues(group, k + 1, canonicalVersion, newIds, script)
  {
    hide Group, TookTurn;
    OthersSameTrans(before.rows, c.rows, after.rows, terminalId, orderId);
  }

  lemma StoppedIsWhole(group: seq<Row>, left: seq<Row>, answer: Answer)
    requires StoppedAt(group, left, answer)
    ensures |left| == |group|
  {
  }

  // Where a rebase stands if it stops at turn `k`.
  lemma StopsHere(before: Client, c: Client, after: Client, left: seq<Row>, group: seq<Row>, k: nat, version: nat,
                  terminalId: Id, orderId: Id, canonicalVersion: nat, newIds: nat -> Id, script: Script, outcome: PassOutcome)
    requires Underway(before, c, left, group, k, version, terminalId, orderId, canonicalVersion, newIds, script)
    requires Taken(before, c, after, left, k, version, terminalId, orderId, newIds, script)
    requires !script(k).Accepted? && !outcome.Drained? && NamesAnswer(outcome, script(k))
    ensures Rebased(group, Group(after.rows, terminalId, orderId), k, canonicalVersion, newIds, script, outcome)
    ensures SentInTurn(before.sent, after.sent, group, k, canonicalVersion, newIds, script, outcome)
    ensures OthersSame(before.rows, after.rows, terminalId, orderId)
  {
    hide Group, OthersSame, FreshFrom, Reissues, StoppedAt, NamesAnswer, GroupOf, Refuses, Dies;
    TurnTaken(before, c, after, left, group, k, version, terminalId, orderId, canonicalVersion, newIds, script);
    StoppedIsWhole([ReissuedRow(left[0], newIds(k), version)] + left[1..], Group(after.rows, terminalId, orderId), script(k));
  }

  lemma GoesOn(before: Client, c: Client, after: Client, left: seq<Row>, group: seq<Row>, k: nat, version: nat,
               terminalId: Id, orderId: Id, canonicalVersion: nat, newIds: nat -> Id, script: Script, result: AttemptResult)
    requires Underway(before, c, left, group, k, version, terminalId, orderId, canonicalVersion, newIds, script)
    requires Taken(before, c, after, left, k, version, terminalId, orderId, newIds, script)
    requires result == ResultOf(script(k)) && StopOf(result).None?
    ensures result.AppliedWith? && |Group(after.rows, terminalId, orderId)| < |left|
    ensures Underway(before, after, Group(after.rows, terminalId, orderId), group, k + 1, result.snapshot.version,
                     terminalId, orderId, canonicalVersion, newIds, script)
  {
    hide Group, OthersSame, FreshFrom, Reissues, StoppedAt;
    TurnTaken(before, c, after, left, group, k, version, terminalId, orderId, canonicalVersion, newIds, script);
  }

  lemma AllRebased(before: Client, c: Client, left: seq<Row>, group: seq<Row>, k: nat, version: nat,
                   terminalId: Id, orderId: Id, canonicalVersion: nat, newIds: nat -> Id, script: Script)
    requires Underway(before, c, left, group, k, version, terminalId, orderId, canonicalVersion, newIds, script) && left == []
    ensures Rebased(group, left, k, canonicalVersion, newIds, script, Drained)
    ensures SentInTurn(before.sent, c.sent, group, k, canonicalVersion, newIds, script, Drained)
    ensures OthersSame(before.rows, c.rows, terminalId, orderId)
  {
    hide Group, OthersSame, FreshFrom, Reissues;
  }

  // What re-issuing a head and attempting it does to its group and to what has been sent.
  predicate TookTurn(group: seq<Row>, left: seq<Row>, sent: seq<Row>, now: seq<Row>, reissued: Row, answer: Answer) {
    && group != []
    && (answer.Accepted? ==> left == group[1..])
    && (!answer.Accepted? ==> StoppedAt([reissued] + group[1..], left, answer))
    && now == (if answer.DiedUnsent? then sent else sent + [reissued])
  }

  lemma HeadsItsGroup(c: Client, head: Row)
    requires DiskOk(c) && IsHead(c.rows, head)
    ensures GroupOf(c.rows, head) != [] && head in c.rows && SameGroup(head, head.terminalId, head.orderId)
    ensures forall row <- c.rows :: row.mutationId == head.mutationId ==> row == head
  {
    GroupHead(c, GroupOf(c.rows, head), head.terminalId, head.orderId);
  }

  lemma TwoSteps(c: Client, a: Op, b: Op)
    ensures Run(c, [a, b]) == Step(Step(c, a), b)
  {
    RunOne(c, [], a);
    RunOne(c, [a], b);
    assert [] + [a] == [a] && [a] + [b] == [a, b];
  }

  function StopOf(result: AttemptResult): Option<PassOutcome> {
    match result
    case AppliedWith(_) => None
    case Halted => Some(HaltedPass)
    case Offline => Some(OfflinePass)
    case Failed => Some(FailedPass)
    case Died => Some(DiedPass)
  }

  lemma StopsWith(answer: Answer, result: AttemptResult)
    requires result == ResultOf(answer) && StopOf(result).Some?
    ensures !answer.Accepted? && !StopOf(result).value.Drained? && NamesAnswer(StopOf(result).value, answer)
  {
  }

  // Where a pass stands in a group before its row `i`.
  ghost predicate Sending(before: Client, c: Client, group: seq<Row>, i: nat, terminalId: Id, orderId: Id) {
    && i <= |group| && IsSendable(group) && Group(c.rows, terminalId, orderId) == group[i..]
    && OthersSame(before.rows, c.rows, terminalId, orderId)
  }

  lemma SendingStarts(c: Client, group: seq<Row>, terminalId: Id, orderId: Id)
    requires IsSendable(group) && group == Group(c.rows, terminalId, orderId)
    ensures Sending(c, c, group, 0, terminalId, orderId)
  {
    assert group[0..] == group;
  }

  lemma NothingLeft(before: Client, c: Client, group: seq<Row>, terminalId: Id, orderId: Id)
    requires Sending(before, c, group, |group|, terminalId, orderId)
    ensures Group(c.rows, terminalId, orderId) == [] && OthersSame(before.rows, c.rows, terminalId, orderId)
  {
  }

  lemma TurnBegins(before: Client, c: Client, group: seq<Row>, i: nat, terminalId: Id, orderId: Id, answer: Answer)
    requires DiskOk(c) && i < |group| && Sending(before, c, group, i, terminalId, orderId)
    ensures Step(c, Op.Attempt(group[i].mutationId, answer)) == AttemptRow(c, group[i], answer)
    ensures IsAttempt(c, Op.Attempt(group[i].mutationId, answer), answer, terminalId)
  {
    HeadOfRest(c, group, i, terminalId, orderId);
    hide AttemptRow, IsSendable, Group, MayAttempt;
  }

  lemma TurnEnds(before: Client, c: Client, after: Client, group: seq<Row>, i: nat, terminalId: Id, orderId: Id,
      answer: Answer)
    requires DiskOk(c) && i < |group| && Sending(before, c, group, i, terminalId, orderId)
    requires after == AttemptRow(c, group[i], answer)
    ensures OthersSame(before.rows, after.rows, terminalId, orderId)
    ensures ResultOf(answer).AppliedWith? ==> Sending(before, after, group, i + 1, terminalId, orderId)
    ensures ResultOf(answer).Halted? ==> !IsSendable(Group(after.rows, terminalId, orderId))
    ensures !answer.Accepted? ==> Group(after.rows, terminalId, orderId) != []
  {
    HeadOfRest(c, group, i, terminalId, orderId);
    hide AttemptRow, IsSendable, Group, MayAttempt, OthersSame, DiskOk;
    AttemptInGroup(c, group[i], answer);
    AttemptLabelsExactly(c, group[i], answer);
    OthersSameTrans(before.rows, c.rows, after.rows, terminalId, orderId);
    assert group[i..][1..] == group[i + 1..];
  }

  lemma NothingRun(c: Client, script: Script, first: nat, terminalId: Id)
    ensures Run(c, []) == c && Attempts(c, [], script, first, terminalId)
  {
  }

  lemma OneMoreAttempt(c: Client, done: seq<Op>, op: Op, script: Script, first: nat, terminalId: Id)
    requires Attempts(c, done, script, first, terminalId)
    requires IsAttempt(Run(c, done), op, script(first + |done|), terminalId)
    ensures Attempts(c, done + [op], script, first, terminalId)
  {
    hide Run, IsAttempt;
    assert (done + [op])[..|done|] == done;
  }

  lemma {:induction false} MoreAttempts(c: Client, done: seq<Op>, more: seq<Op>, script: Script, first: nat, terminalId: Id)
    requires Attempts(c, done, script, first, terminalId)
    requires Attempts(Run(c, done), more, script, first + |done|, terminalId)
    ensures Attempts(c, done + more, script, first, terminalId)
    decreases |more|
  {
    hide Run, IsAttempt;
    if more == [] {
      assert done + more == done;
    } else {
      var init, last := more[..|more| - 1], more[|more| - 1];
      MoreAttempts(c, done, init, script, first, terminalId);
      RunMore(c, done, init);
      OneMoreAttempt(c, done + init, last, script, first, terminalId);
      assert done + more == done + init + [last];
    }
  }

  /* ---- the engine ---- */

  /** Every table an engine may find has a past it can go on from, and only such tables have. */
  lemma EveryTableHasAPast(rows: seq<Row>, orders: map<Id, Snapshot>) returns (past: Client)
    requires IsQueueTable(rows)
    ensures past.rows == rows && past.orders == orders && DiskOk(past)
  {
    var intentOf := map i | 0 <= i < |rows| :: rows[i].mutationId := i;
    past := BLANK.(rows := rows, orders := orders, intentOf := intentOf, intents := |rows|);
    forall i, j | 0 <= i < j < |rows| ensures Before(rows[i], rows[j], intentOf) {
      assert rows[i].mutationId in intentOf && rows[j].mutationId in intentOf;
    }
  }

  lemma DiskIsQueueTable(c: Client)
    requires DiskOk(c)
    ensures IsQueueTable(c.rows)
  {
    forall i, j | 0 <= i < j < |c.rows| ensures c.rows[i].createdAt < c.rows[j].createdAt && c.rows[i].mutationId != c.rows[j].mutationId {
      assert Before(c.rows[i], c.rows[j], c.intentOf);
    }
  }

  class Engine {
    const store: Store
    // What has happened so far, over the disk as it is.
    ghost var client: Client

    ghost predicate Valid()
      reads this, store
    {
      client.rows == store.rows && client.orders == store.orders && DiskOk(client)
    }

    // A tab opens on whatever an earlier one has left on disk, however that one ended.
    constructor (store: Store, ghost past: Client)
      requires past.rows == store.rows && past.orders == store.orders && DiskOk(past)
      ensures this.store == store && Valid() && client == past
    {
      this.store := store;
      client := past;
    }

    // The label, the request, and what its answer asks for, in this order; a crash stops it anywhere.
    method Attempt(row: Row, answer: Answer) returns (result: AttemptResult)
      requires Valid()
      modifies this, store
      ensures Valid() && client == AttemptRow(old(client), row, answer)
      ensures result == ResultOf(answer)
    {
      ghost var before := client;
      store.SetPendingStatus(row.mutationId, Syncing);
      match answer {
        case DiedUnsent =>
        case DiedUnanswered =>
        case OfflineNow => store.SetPendingStatus(row.mutationId, Pending);
        case TransportError => store.SetPendingStatus(row.mutationId, Pending);
        case DiedBeforeDelete(order) => store.CacheOrder(order);
        case DiedBeforeHalt(canonical) => store.CacheOrder(canonical);
        case Accepted(order) =>
          store.CacheOrder(order);
          store.DeletePending(row.mutationId);
        case ConflictWith(canonical) =>
          store.CacheOrder(canonical);
          store.HaltQueue(row);
        case RefusedOutright => store.HaltQueue(row);
      }
      client := AttemptRow(before, row, answer);
      AttemptKeepsDisk(before, row, answer);
      result := ResultOf(answer);
    }

    // One group of a pass, row by row until something stops it.
    method SendGroup(terminalId: Id, orderId: Id, group: seq<Row>, script: Script, first: nat)
      returns (stop: Option<PassOutcome>, used: nat, ghost trace: seq<Op>)
      requires Valid() && group == Group(store.rows, terminalId, orderId) && IsSendable(group)
      modifies this, store
      ensures Valid() && client == Run(old(client), trace) && Attempts(old(client), trace, script, first, terminalId)
      ensures used == first + |trace| && GroupAnswers(script, first, used, stop)
      ensures OthersSame(old(store.rows), store.rows, terminalId, orderId)
      ensures stop.None? <==> Group(store.rows, terminalId, orderId) == []
      ensures stop == Some(HaltedPass) ==> !IsSendable(Group(store.rows, terminalId, orderId))
      ensures stop.Some? ==> !stop.value.Drained?
    {
      hide Group, IsSendable, OthersSame, DiskOk, AttemptRow, Step, Run, Attempts, IsAttempt, GroupAnswers, Sending;
      ghost var before := client;
      stop, used, trace := None, first, [];
      var i := 0;
      SendingStarts(before, group, terminalId, orderId);
      NothingRun(before, script, first, terminalId);
      NoAnswerYet(script, first);
      while i < |group|
        invariant 0 <= i <= |group| && Valid() && before.rows == old(store.rows)
        invariant client == Run(before, trace) && Attempts(before, trace, script, first, terminalId)
        invariant used == first + |trace| && GroupAnswers(script, first, used, None)
        invariant Sending(before, client, group, i, terminalId, orderId) && stop.None?
      {
        ghost var c, done, op := client, trace, Op.Attempt(group[i].mutationId, script(used));
        TurnBegins(before, c, group, i, terminalId, orderId, script(used));
        RunOne(before, done, op);
        OneMoreAttempt(before, done, op, script, first, terminalId);
        var result := Attempt(group[i], script(used));
        trace := done + [op];
        TurnEnds(before, c, client, group, i, terminalId, orderId, script(used));
        OneMoreAnswer(script, first, used);
        used := used + 1;
        stop := StopOf(result);
        if stop.Some? {
          return;
        }
        i := i + 1;
      }
      NothingLeft(before, client, group, terminalId, orderId);
    }

    // Drain one terminal's queue as it is now, group by group; halted groups are skipped. Each answer goes to
    // one permitted attempt, and the pass goes on until the queue is settled or an answer cuts it short.
    method Pass(terminalId: Id, script: Script) returns (outcome: PassOutcome, ghost trace: seq<Op>)
      requires Valid()
      modifies this, store
      ensures Valid() && client == Run(old(client), trace) && Attempts(old(client), trace, script, 0, terminalId)
      ensures EndedBy(script, |trace|, outcome)
      ensures PassDone(old(store.rows), store.rows, terminalId, outcome)
    {
      hide Run, Attempts, GroupAnswers, NoneCut, EndedBy, EndsPass, Worked, Listed, Grouped, PassDone, OthersSame;
      hide Group, IsSendable, DiskOk, Keep;
      ghost var before := client;
      var queue := store.ReadQueue(terminalId);
      var orders, groups := GroupByOrder(queue);
      NothingWorked(store.rows, queue, orders, groups, terminalId);
      outcome, trace := Drained, [];
      NothingRun(before, script, 0, terminalId);
      FirstAnswers(script);
      var k, used := 0, 0;
      while k < |orders|
        invariant 0 <= k <= |orders| && Valid() && before.rows == old(store.rows)
        invariant client == Run(before, trace) && Attempts(before, trace, script, 0, terminalId)
        invariant used == |trace| && NoneCut(script, used)
        invariant outcome.Drained? || outcome.HaltedPass?
        invariant Worked(before.rows, store.rows, terminalId, orders, k, outcome.Drained?)
      {
        var o := orders[k];
        var group := groups[o];
        ghost var c, done, drained := client, trace, outcome.Drained?;
        AtWork(before.rows, c.rows, terminalId, orders, groups, k, drained);
        if !IsSendable(group) {
          SkipsHalted(before.rows, c.rows, terminalId, orders, groups, k, drained);
          outcome := HaltedPass;
        } else {
          var stop, next;
          ghost var more;
          stop, next, more := SendGroup(terminalId, o, group, script, used);
          AnswersOfGroup(script, used, next, stop);
          used := next;
          RunMore(before, done, more);
          MoreAttempts(before, done, more, script, 0, terminalId);
          trace := done + more;
          GroupDone(before.rows, c.rows, store.rows, terminalId, orders, groups, k, drained, stop);
          if EndsPass(stop) {
            outcome := stop.value;
            return;
          }
          outcome := if stop.None? then outcome else HaltedPass;
        }
        k := k + 1;
      }
      NothingCut(script, used, outcome);
      WorkedAll(before.rows, store.rows, terminalId, orders, groups, outcome.Drained?);
    }

    method ReissueAndAttempt(terminalId: Id, orderId: Id, head: Row, newId: Id, version: nat, answer: Answer)
      returns (result: AttemptResult, ghost ops: seq<Op>)
      requires Valid() && IsHead(client.rows, head) && SameGroup(head, terminalId, orderId) && newId !in client.intentOf
      modifies this, store
      ensures Valid() && client == Run(old(client), ops) && result == ResultOf(answer)
      ensures ops == [Op.Reissue(head.mutationId, newId, version), Op.AttemptReissued(newId, answer)]
      ensures MayAttemptReissued(Step(old(client), Op.Reissue(head.mutationId, newId, version)).rows, newId)
      ensures client.intentOf.Keys == old(client.intentOf).Keys + {newId}
      ensures OthersSame(old(store.rows), store.rows, terminalId, orderId)
      ensures TookTurn(Group(old(store.rows), terminalId, orderId), Group(store.rows, terminalId, orderId),
                       old(client.sent), client.sent, ReissuedRow(head, newId, version), answer)
    {
      ghost var c := client;
      var baseVersion := if head.command.CreateOrder? then 0 else version;
      hide Group, IsSendable, DiskOk, AttemptRow, OthersSame, StoppedAt, IsHead, MapRows, Keep;
      HeadsItsGroup(c, head);
      ReissueIsStep(c, head, newId, version, head.terminalId, head.orderId);
      var reissued := store.Reissue(head, newId, baseVersion);
      client := Step(c, Op.Reissue(head.mutationId, newId, version));
      ghost var d := client;
      AttemptInGroup(d, reissued, answer);
      AttemptLabelsExactly(d, reissued, answer);
      TwoSteps(c, Op.Reissue(head.mutationId, newId, version), Op.AttemptReissued(newId, answer));
      ops := [Op.Reissue(head.mutationId, newId, version), Op.AttemptReissued(newId, answer)];
      result := Attempt(reissued, answer);
      OthersSameTrans(c.rows, d.rows, store.rows, head.terminalId, head.orderId);
    }

    // Re-issue a group one row at a time, each at the version the answer before it carried.
    method Rebase(terminalId: Id, orderId: Id, canonicalVersion: nat, newIds: nat -> Id, script: Script)
      returns (outcome: PassOutcome, ghost trace: seq<Op>, ghost accepted: nat)
      requires Valid() && FreshFrom(newIds, client.intentOf, 0)
      modifies this, store
      ensures Valid() && client == Run(old(client), trace)
      ensures OthersSame(old(store.rows), store.rows, terminalId, orderId)
      ensures Rebased(Group(old(store.rows), terminalId, orderId), Group(store.rows, terminalId, orderId), accepted,
                      canonicalVersion, newIds, script, outcome)
      ensures SentInTurn(old(client.sent), client.sent, Group(old(store.rows), terminalId, orderId), accepted,
                         canonicalVersion, newIds, script, outcome)
      ensures StartsWithin(old(client), orderId, canonicalVersion, script) ==> ReissuesWithin(old(client), trace, orderId)
    {
      ghost var before := client;
      ghost var group := Group(store.rows, terminalId, orderId);
      outcome, trace, accepted := Drained, [], 0;
      var version, k := canonicalVersion, 0;
      hide *;
      Starts(before, terminalId, orderId, group, canonicalVersion, newIds, script);
      ghost var within := StartsWithin(before, orderId, canonicalVersion, script);
      if within { StartsToKeep(before, orderId, canonicalVersion, script); }
      var left := ReadGroup(terminalId, orderId);
      while left != []
        invariant Valid() && before.rows == old(store.rows) && accepted == k && outcome.Drained?
        invariant client == Run(before, trace)
        invariant within == StartsWithin(before, orderId, canonicalVersion, script)
        invariant within ==> KeepsWithin(before, trace, orderId, version)
        invariant left == Group(store.rows, terminalId, orderId)
        invariant Underway(before, client, left, group, k, version, terminalId, orderId, canonicalVersion, newIds, script)
        decreases |left|
      {
        ghost var c, done := client, trace;
        TurnMayStart(before, c, left, group, k, version, terminalId, orderId, canonicalVersion, newIds, script);
        var result;
        ghost var ops;
        result, ops := ReissueAndAttempt(terminalId, orderId, left[0], newIds(k), version, script(k));
        RunMore(before, done, ops);
        trace := done + ops;
        if within { WithinTurn(before, done, orderId, canonicalVersion, script, k, version, left[0].mutationId, newIds(k), result); }
        WasTaken(before, c, client, left, k, version, terminalId, orderId, newIds, script);
        var stop := StopOf(result);
        if stop.Some? {
          StopsWith(script(k), result);
          outcome := stop.value;
          StopsHere(before, c, client, left, group, k, version, terminalId, orderId, canonicalVersion, newIds, script, outcome);
          return;
        }
        GoesOn(before, c, client, left, group, k, version, terminalId, orderId, canonicalVersion, newIds, script, result);
        version := result.snapshot.version;
        k, accepted := k + 1, accepted + 1;
        left := ReadGroup(terminalId, orderId);
      }
      if within { KeptWithin(before, trace, orderId, version); }
      AllRebased(before, client, left, group, k, version, terminalId, orderId, canonicalVersion, newIds, script);
    }

    method ReadGroup(terminalId: Id, orderId: Id) returns (group: seq<Row>)
      ensures group == Group(store.rows, terminalId, orderId)
    {
      var queue := store.ReadQueue(terminalId);
      group := Keep(queue, (row: Row) => row.orderId == orderId);
      OfOrderIsGroup(store.rows, terminalId, orderId);
    }
  }
}
