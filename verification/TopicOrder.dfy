/**
 Any number of publishing workers over one outbox: claims, leases that run out, sends that land late or
 again or not at all, outcome writes that come after the lease, crashes and replays, in any order.
 */
module TopicOrder {
  import opened Domain
  import opened Server
  import opened Outbox

  // A pass: what is left of the batch, and whether its first row has been sent and not answered.
  datatype Pass = Pass(left: seq<Copy>, sending: bool)

  // `topic` lists the event ids as they landed; `flights` every id handed to the broker, any number of
  // copies of which may still land. `buried` and `charges` record what happened: the rows ever
  // dead-lettered, and the failures written for each row.
  datatype Bus = Bus(
    rows: Table, topic: seq<nat>, flights: set<nat>, passes: map<Id, Pass>,
    buried: set<nat>, charges: map<nat, nat>)

  datatype Move =
    | Insert(event: Event)
    | Claim(worker: Id, batch: set<nat>)
    | Send(worker: Id)
    | Land(id: nat)
    | Mark(worker: Id)
    | Fail(worker: Id)
    | GiveUp(worker: Id)
    | Expire(id: nat)
    | Crash(worker: Id)
    | Replay(id: nat)

  predicate IsNext(rows: Table, event: Event) {
    forall i :: 0 <= i < |rows| && rows[i].event.orderId == event.orderId ==> rows[i].event.version < event.version
  }

  predicate IsSending(b: Bus, worker: Id) {
    worker in b.passes && b.passes[worker].sending && b.passes[worker].left != [] && b.passes[worker].left[0].id < |b.rows|
  }

  function Rest(b: Bus, worker: Id): map<Id, Pass>
    requires IsSending(b, worker)
  {
    b.passes[worker := Pass(b.passes[worker].left[1..], false)]
  }

  function ChargesOf(b: Bus, id: nat): nat {
    if id in b.charges then b.charges[id] else 0
  }

  function ClaimStep(b: Bus, worker: Id, batch: set<nat>): Bus {
    if worker !in b.passes && forall i <- batch :: i < |b.rows| && Claimable(b.rows, i) then
      b.(rows := ClaimedAll(b.rows, batch, worker), passes := b.passes[worker := Pass(CopiesOf(b.rows, batch, 0), false)])
    else b
  }

  function SendStep(b: Bus, worker: Id): Bus {
    if worker in b.passes && b.passes[worker].left != [] then
      b.(flights := b.flights + {b.passes[worker].left[0].id}, passes := b.passes[worker := b.passes[worker].(sending := true)])
    else b
  }

  // The broker acknowledged the send, so the record is on the topic.
  function MarkStep(b: Bus, worker: Id): Bus {
    if IsSending(b, worker) && b.passes[worker].left[0].id in b.topic then
      var id := b.passes[worker].left[0].id;
      b.(rows := b.rows[id := Marked(b.rows[id])], passes := Rest(b, worker))
    else b
  }

  // The send was refused or its answer lost; the record may land all the same.
  function FailStep(b: Bus, worker: Id, maxAttempts: nat): Bus {
    if IsSending(b, worker) then
      var copy := b.passes[worker].left[0];
      var row := Failed(b.rows[copy.id], copy.attempts, maxAttempts);
      b.(rows := b.rows[copy.id := row], passes := Rest(b, worker),
         buried := if row.deadLettered then b.buried + {copy.id} else b.buried,
         charges := b.charges[copy.id := ChargesOf(b, copy.id) + 1])
    else b
  }

  function Step(b: Bus, move: Move, maxAttempts: nat): Bus {
    match move
    case Insert(event) => if IsNext(b.rows, event) then b.(rows := b.rows + [Fresh(event)]) else b
    case Claim(worker, batch) => ClaimStep(b, worker, batch)
    case Send(worker) => SendStep(b, worker)
    case Land(id) => if id in b.flights then b.(topic := b.topic + [id]) else b
    case Mark(worker) => MarkStep(b, worker)
    case Fail(worker) => FailStep(b, worker, maxAttempts)
    case GiveUp(worker) =>
      if worker in b.passes then
        b.(rows := ReleasedAll(b.rows, IdsOf(b.passes[worker].left), worker), passes := b.passes - {worker})
      else b
    case Expire(id) => if id < |b.rows| then b.(rows := b.rows[id := Expired(b.rows[id])]) else b
    case Crash(worker) => b.(passes := b.passes - {worker})
    case Replay(id) =>
      if id < |b.rows| && CanReplay(b.rows[id]) then b.(rows := b.rows[id := Replayed(b.rows[id])]) else b
  }

  const EMPTY_BUS := Bus([], [], {}, map[], {}, map[])

  function Run(moves: seq<Move>, maxAttempts: nat): Bus {
    if moves == [] then EMPTY_BUS
    else Step(Run(moves[..|moves| - 1], maxAttempts), moves[|moves| - 1], maxAttempts)
  }

  /* ---- order on the topic ---- */

  // Every earlier event of the order has landed, unless it was ever dead-lettered.
  predicate Cleared(rows: Table, landed: seq<nat>, buried: set<nat>, i: nat)
    requires i < |rows|
  {
    forall j :: 0 <= j < |rows| && Precedes(rows, j, i) ==> j in landed || j in buried
  }

  predicate MaySend(b: Bus, i: nat) {
    i < |b.rows| && Cleared(b.rows, b.topic, b.buried, i)
  }

  predicate LandedInOrder(rows: Table, topic: seq<nat>, buried: set<nat>, at: nat)
    requires at < |topic|
  {
    topic[at] < |rows| && Cleared(rows, topic[..at], buried, topic[at])
  }

  predicate PassOk(b: Bus, pass: Pass) {
    forall c <- pass.left :: MaySend(b, c.id)
  }

  predicate RowOk(b: Bus, i: nat)
    requires i < |b.rows|
  {
    (b.rows[i].published ==> i in b.topic) && (b.rows[i].deadLettered ==> i in b.buried)
  }

  predicate BusOk(b: Bus) {
    && (forall i :: 0 <= i < |b.rows| ==> RowOk(b, i))
    && (forall at :: 0 <= at < |b.topic| ==> LandedInOrder(b.rows, b.topic, b.buried, at))
    && (forall i <- b.flights :: MaySend(b, i))
    && (forall w <- b.passes :: PassOk(b, b.passes[w]))
  }

  // The rows keep their events, and what has landed or was buried stays so.
  predicate Extends(b: Bus, after: Bus) {
    && |b.rows| <= |after.rows|
    && (forall i :: 0 <= i < |b.rows| ==> after.rows[i].event == b.rows[i].event)
    && (forall i, j :: 0 <= i < |b.rows| <= j < |after.rows| ==> !Precedes(after.rows, j, i))
    && b.topic <= after.topic && b.buried <= after.buried
  }

  lemma ExtendsKeepsCleared(b: Bus, after: Bus, landed: seq<nat>, landed': seq<nat>, i: nat)
    requires Extends(b, after) && landed <= landed' && i < |b.rows| && Cleared(b.rows, landed, b.buried, i)
    ensures Cleared(after.rows, landed', after.buried, i)
  {
    forall j | 0 <= j < |after.rows| && Precedes(after.rows, j, i) ensures j in landed' || j in after.buried {
      assert Precedes(b.rows, j, i);
      assert j in landed ==> j in landed';
    }
  }

  lemma ExtendsKeepsMaySend(b: Bus, after: Bus, i: nat)
    requires Extends(b, after) && MaySend(b, i)
    ensures MaySend(after, i)
  {
    ExtendsKeepsCleared(b, after, b.topic, after.topic, i);
  }

  lemma ExtendsKeepsLanded(b: Bus, after: Bus, at: nat)
    requires Extends(b, after) && at < |b.topic| && LandedInOrder(b.rows, b.topic, b.buried, at)
    ensures LandedInOrder(after.rows, after.topic, after.buried, at)
  {
    assert after.topic[..at] == b.topic[..at] && after.topic[at] == b.topic[at];
    ExtendsKeepsCleared(b, after, b.topic[..at], after.topic[..at], b.topic[at]);
  }

  lemma ExtendsKeepsBus(b: Bus, after: Bus)
    requires BusOk(b) && Extends(b, after)
    requires forall i :: 0 <= i < |after.rows| ==> RowOk(after, i)
    requires forall at :: |b.topic| <= at < |after.topic| ==> LandedInOrder(after.rows, after.topic, after.buried, at)
    requires forall i <- after.flights :: i in b.flights || MaySend(b, i)
    requires forall w <- after.passes :: forall c <- after.passes[w].left ::
      (w in b.passes && c in b.passes[w].left) || MaySend(b, c.id)
    ensures BusOk(after)
  {
    forall at | 0 <= at < |after.topic| ensures LandedInOrder(after.rows, after.topic, after.buried, at) {
      if at < |b.topic| {
        assert LandedInOrder(b.rows, b.topic, b.buried, at);
        ExtendsKeepsLanded(b, after, at);
      }
    }
    forall i | i in after.flights ensures MaySend(after, i) {
      assert MaySend(b, i);
      ExtendsKeepsMaySend(b, after, i);
    }
    forall w | w in after.passes ensures PassOk(after, after.passes[w]) {
      forall c | c in after.passes[w].left ensures MaySend(after, c.id) {
        if w in b.passes { assert PassOk(b, b.passes[w]); }
        assert MaySend(b, c.id);
        ExtendsKeepsMaySend(b, after, c.id);
      }
    }
  }

  lemma ClaimableMaySend(b: Bus, i: nat)
    requires BusOk(b) && i < |b.rows| && Claimable(b.rows, i)
    ensures MaySend(b, i)
  {
    forall j | 0 <= j < |b.rows| && Precedes(b.rows, j, i) ensures j in b.topic || j in b.buried {
      assert RowOk(b, j);
    }
  }

  // A step that only writes claims, outcomes and passes: events, topic and flights stay.
  predicate OnlyRows(b: Bus, after: Bus) {
    && |after.rows| == |b.rows| && after.topic == b.topic && after.flights == b.flights && b.buried <= after.buried
    && (forall i :: 0 <= i < |b.rows| ==> after.rows[i].event == b.rows[i].event)
    && (forall w <- after.passes :: w in b.passes && forall c <- after.passes[w].left :: c in b.passes[w].left)
  }

  lemma OnlyRowsKeepsBus(b: Bus, after: Bus)
    requires BusOk(b) && OnlyRows(b, after)
    requires forall i :: 0 <= i < |after.rows| ==> RowOk(after, i)
    ensures BusOk(after)
  {
    ExtendsKeepsBus(b, after);
  }

  lemma InsertKeepsBus(b: Bus, event: Event)
    requires BusOk(b) && IsNext(b.rows, event)
    ensures BusOk(b.(rows := b.rows + [Fresh(event)]))
  {
    var after := b.(rows := b.rows + [Fresh(event)]);
    forall i | 0 <= i < |after.rows| ensures RowOk(after, i) {
      assert i < |b.rows| ==> RowOk(b, i);
    }
    forall w, c | w in b.passes && c in b.passes[w].left ensures MaySend(b, c.id) {
      assert PassOk(b, b.passes[w]);
    }
    ExtendsKeepsBus(b, after);
  }

  lemma ClaimKeepsBus(b: Bus, worker: Id, batch: set<nat>)
    requires BusOk(b)
    ensures BusOk(ClaimStep(b, worker, batch))
  {
    var after := ClaimStep(b, worker, batch);
    forall i | 0 <= i < |after.rows| ensures RowOk(after, i) {
      assert RowOk(b, i);
    }
    if after != b {
      forall i | i in batch ensures MaySend(b, i) {
        ClaimableMaySend(b, i);
      }
      ExtendsKeepsBus(b, after);
    }
  }

  lemma SendKeepsBus(b: Bus, worker: Id)
    requires BusOk(b)
    ensures BusOk(SendStep(b, worker))
  {
    var after := SendStep(b, worker);
    forall i | 0 <= i < |after.rows| ensures RowOk(after, i) {
      assert RowOk(b, i);
    }
    if after != b {
      assert PassOk(b, b.passes[worker]) && b.passes[worker].left[0] in b.passes[worker].left;
      ExtendsKeepsBus(b, after);
    }
  }

  lemma LandKeepsBus(b: Bus, id: nat)
    requires BusOk(b) && id in b.flights
    ensures BusOk(b.(topic := b.topic + [id]))
  {
    var after := b.(topic := b.topic + [id]);
    forall i | 0 <= i < |after.rows| ensures RowOk(after, i) {
      assert RowOk(b, i);
    }
    assert MaySend(b, id) && after.topic[..|b.topic|] == b.topic;
    assert LandedInOrder(after.rows, after.topic, after.buried, |b.topic|);
    ExtendsKeepsBus(b, after);
  }

  lemma MarkKeepsBus(b: Bus, worker: Id)
    requires BusOk(b)
    ensures BusOk(MarkStep(b, worker))
  {
    var after := MarkStep(b, worker);
    forall i | 0 <= i < |after.rows| ensures RowOk(after, i) {
      assert RowOk(b, i);
    }
    OnlyRowsKeepsBus(b, after);
  }

  lemma FailKeepsBus(b: Bus, worker: Id, maxAttempts: nat)
    requires BusOk(b)
    ensures BusOk(FailStep(b, worker, maxAttempts))
  {
    var after := FailStep(b, worker, maxAttempts);
    forall i | 0 <= i < |after.rows| ensures RowOk(after, i) {
      assert RowOk(b, i);
    }
    OnlyRowsKeepsBus(b, after);
  }

  lemma StepKeepsBus(b: Bus, move: Move, maxAttempts: nat)
    requires BusOk(b)
    ensures BusOk(Step(b, move, maxAttempts))
  {
    hide BusOk;
    match move
    case Insert(event) => if IsNext(b.rows, event) { InsertKeepsBus(b, event); }
    case Claim(worker, batch) => ClaimKeepsBus(b, worker, batch);
    case Send(worker) => SendKeepsBus(b, worker);
    case Land(id) => if id in b.flights { LandKeepsBus(b, id); }
    case Mark(worker) => MarkKeepsBus(b, worker);
    case Fail(worker) => FailKeepsBus(b, worker, maxAttempts);
    case _ => QuietKeepsBus(b, move, maxAttempts);
  }

  // Releases, crashes, leases running out and replays say nothing about the topic.
  lemma QuietKeepsBus(b: Bus, move: Move, maxAttempts: nat)
    requires BusOk(b) && (move.GiveUp? || move.Expire? || move.Crash? || move.Replay?)
    ensures BusOk(Step(b, move, maxAttempts))
  {
    var after := Step(b, move, maxAttempts);
    forall i | 0 <= i < |after.rows| ensures RowOk(after, i) {
      assert RowOk(b, i);
    }
    OnlyRowsKeepsBus(b, after);
  }

  lemma {:induction false} RunIsOk(moves: seq<Move>, maxAttempts: nat)
    ensures BusOk(Run(moves, maxAttempts))
  {
    hide BusOk;
    if moves == [] {
      assert BusOk(EMPTY_BUS) by { EmptyIsOk(); }
    } else {
      RunIsOk(moves[..|moves| - 1], maxAttempts);
      StepKeepsBus(Run(moves[..|moves| - 1], maxAttempts), moves[|moves| - 1], maxAttempts);
    }
  }

  lemma EmptyIsOk()
    ensures BusOk(EMPTY_BUS)
  {
  }

  /**
   Per-order order needs no lease to hold and no worker to be alive: whenever an event lands, first or
   again, every earlier event of its order that was never dead-lettered has landed before it; and no row
   is marked published whose event is not on the topic.
   */
  lemma EventsLandInOrder(moves: seq<Move>, maxAttempts: nat)
    ensures var b := Run(moves, maxAttempts);
      && (forall at :: 0 <= at < |b.topic| ==> b.topic[at] < |b.rows|)
      && (forall at, j :: (0 <= at < |b.topic| && 0 <= j < |b.rows| && b.topic[at] < |b.rows|
            && Precedes(b.rows, j, b.topic[at]) && j !in b.buried) ==> j in b.topic[..at])
      && (forall i :: 0 <= i < |b.rows| && b.rows[i].published ==> i in b.topic)
  {
    var b := Run(moves, maxAttempts);
    hide Run;
    RunIsOk(moves, maxAttempts);
    forall i | 0 <= i < |b.rows| && b.rows[i].published ensures i in b.topic {
      assert RowOk(b, i);
    }
    forall at | 0 <= at < |b.topic| ensures b.topic[at] < |b.rows| {
      assert LandedInOrder(b.rows, b.topic, b.buried, at);
    }
    forall at, j | 0 <= at < |b.topic| && 0 <= j < |b.rows| && b.topic[at] < |b.rows|
        && Precedes(b.rows, j, b.topic[at]) && j !in b.buried
      ensures j in b.topic[..at] {
      assert LandedInOrder(b.rows, b.topic, b.buried, at);
    }
  }

  /* ---- leases and attempts ---- */

  // The outcome is written while the worker's claim still stands.
  predicate HoldsClaim(b: Bus, worker: Id) {
    IsSending(b, worker) ==>
      var row := b.rows[b.passes[worker].left[0].id]; row.leased && row.owner == Some(worker)
  }

  // Outcome writes land inside the lease, and nobody replays.
  predicate Timely(b: Bus, move: Move) {
    && ((move.Mark? || move.Fail?) ==> HoldsClaim(b, move.worker))
    && !move.Replay?
  }

  predicate TimelyRun(moves: seq<Move>, maxAttempts: nat) {
    moves == [] ||
    (TimelyRun(moves[..|moves| - 1], maxAttempts) && Timely(Run(moves[..|moves| - 1], maxAttempts), moves[|moves| - 1]))
  }

  // A row in order: its attempts are the failures written for it, and it is dead exactly at the bound.
  predicate Accounted(b: Bus, i: nat, maxAttempts: nat)
    requires i < |b.rows|
  {
    var row := b.rows[i];
    && row.attempts == ChargesOf(b, i)
    && row.attempts <= maxAttempts
    && (row.deadLettered <==> row.attempts == maxAttempts)
    && !(row.published && row.deadLettered)
    && (row.leased ==> Waiting(row) && LeaseIsFirst(b.rows, i))
    && (row.deadLettered ==> i in b.buried)
  }

  // A leased row is the earliest of its order that waits.
  predicate LeaseIsFirst(rows: Table, i: nat)
    requires i < |rows|
  {
    forall j :: 0 <= j < |rows| && Precedes(rows, j, i) ==> !Waiting(rows[j])
  }

  // The copy a worker still holds the claim for is up to date.
  predicate CopyOk(b: Bus, worker: Id, copy: Copy) {
    copy.id < |b.rows| &&
    (b.rows[copy.id].leased && b.rows[copy.id].owner == Some(worker) ==> copy.attempts == b.rows[copy.id].attempts)
  }

  predicate DistinctCopies(left: seq<Copy>) {
    forall i, j :: 0 <= i < j < |left| ==> left[i].id != left[j].id
  }

  predicate LeasesOk(b: Bus, maxAttempts: nat) {
    && (forall i :: 0 <= i < |b.rows| ==> Accounted(b, i, maxAttempts))
    && (forall w <- b.passes :: DistinctCopies(b.passes[w].left) && forall c <- b.passes[w].left :: CopyOk(b, w, c))
    && (forall i <- b.charges :: i < |b.rows|)
    && DistinctVersions(b.rows)
  }

  lemma InsertKeepsLeases(b: Bus, event: Event, maxAttempts: nat)
    requires LeasesOk(b, maxAttempts) && IsNext(b.rows, event) && maxAttempts > 0
    ensures LeasesOk(b.(rows := b.rows + [Fresh(event)]), maxAttempts)
  {
    var after := b.(rows := b.rows + [Fresh(event)]);
    forall i | 0 <= i < |after.rows| ensures Accounted(after, i, maxAttempts) {
      if i < |b.rows| {
        assert Accounted(b, i, maxAttempts);
        if b.rows[i].leased {
          forall j | 0 <= j < |after.rows| && Precedes(after.rows, j, i) ensures !Waiting(after.rows[j]) {
            assert Precedes(b.rows, j, i);
          }
        }
      }
    }
    forall w, c | w in after.passes && c in after.passes[w].left ensures CopyOk(after, w, c) {
      assert CopyOk(b, w, c);
    }
  }

  lemma ClaimKeepsRow(b: Bus, worker: Id, batch: set<nat>, i: nat, maxAttempts: nat)
    requires i < |b.rows| && Accounted(b, i, maxAttempts) && (i in batch ==> Claimable(b.rows, i))
    ensures Accounted(b.(rows := ClaimedAll(b.rows, batch, worker)), i, maxAttempts)
  {
    var rows := ClaimedAll(b.rows, batch, worker);
    assert forall j :: 0 <= j < |b.rows| ==>
      Precedes(rows, j, i) == Precedes(b.rows, j, i) && Waiting(rows[j]) == Waiting(b.rows[j]);
  }

  lemma {:induction false} ClaimKeepsLeases(b: Bus, worker: Id, batch: set<nat>, maxAttempts: nat)
    requires LeasesOk(b, maxAttempts)
    ensures LeasesOk(ClaimStep(b, worker, batch), maxAttempts)
  {
    var after := ClaimStep(b, worker, batch);
    if after != b {
      forall i | 0 <= i < |after.rows| ensures Accounted(after, i, maxAttempts) {
        assert Accounted(b, i, maxAttempts);
        ClaimKeepsRow(b, worker, batch, i, maxAttempts);
        assert Accounted(b.(rows := after.rows), i, maxAttempts);
      }
      forall w, c | w in after.passes && c in after.passes[w].left ensures CopyOk(after, w, c) {
        if w != worker { assert CopyOk(b, w, c); }
      }
    }
  }

  // A row that is no longer leased, and waits no longer than before, unsettles nobody else.
  lemma UnleasedKeepsOthers(b: Bus, after: Bus, id: nat, maxAttempts: nat)
    requires LeasesOk(b, maxAttempts) && id < |b.rows| == |after.rows| && after.rows == b.rows[id := after.rows[id]]
    requires after.rows[id].event == b.rows[id].event && !after.rows[id].leased
    requires Waiting(after.rows[id]) ==> Waiting(b.rows[id])
    requires forall w <- after.passes :: w in b.passes && DistinctCopies(after.passes[w].left)
    requires forall w <- after.passes :: forall c <- after.passes[w].left :: c in b.passes[w].left
    requires after.charges.Keys <= b.charges.Keys + {id}
    requires forall i :: i != id ==> ChargesOf(after, i) == ChargesOf(b, i)
    requires b.buried <= after.buried
    requires Accounted(after, id, maxAttempts)
    ensures LeasesOk(after, maxAttempts)
  {
    forall i | 0 <= i < |after.rows| ensures Accounted(after, i, maxAttempts) {
      if i != id {
        assert Accounted(b, i, maxAttempts);
        assert forall j :: 0 <= j < |b.rows| && Precedes(after.rows, j, i) ==> Precedes(b.rows, j, i);
      }
    }
    forall w, c | w in after.passes && c in after.passes[w].left ensures CopyOk(after, w, c) {
      assert CopyOk(b, w, c);
    }
  }

  lemma MarkKeepsLeases(b: Bus, worker: Id, maxAttempts: nat)
    requires LeasesOk(b, maxAttempts) && HoldsClaim(b, worker)
    ensures LeasesOk(MarkStep(b, worker), maxAttempts)
  {
    if IsSending(b, worker) && b.passes[worker].left[0].id in b.topic {
      var id := b.passes[worker].left[0].id;
      assert Accounted(b, id, maxAttempts);
      UnleasedKeepsOthers(b, MarkStep(b, worker), id, maxAttempts);
    }
  }

  lemma FailKeepsLeases(b: Bus, worker: Id, maxAttempts: nat)
    requires LeasesOk(b, maxAttempts) && HoldsClaim(b, worker)
    ensures LeasesOk(FailStep(b, worker, maxAttempts), maxAttempts)
  {
    if IsSending(b, worker) {
      var copy := b.passes[worker].left[0];
      assert Accounted(b, copy.id, maxAttempts) && CopyOk(b, worker, copy);
      UnleasedKeepsOthers(b, FailStep(b, worker, maxAttempts), copy.id, maxAttempts);
    }
  }

  lemma GiveUpKeepsLeases(b: Bus, worker: Id, maxAttempts: nat)
    requires LeasesOk(b, maxAttempts) && worker in b.passes
    ensures LeasesOk(Step(b, GiveUp(worker), maxAttempts), maxAttempts)
  {
    var after := Step(b, GiveUp(worker), maxAttempts);
    forall i | 0 <= i < |after.rows| ensures Accounted(after, i, maxAttempts) {
      assert Accounted(b, i, maxAttempts);
      assert forall j :: 0 <= j < |b.rows| ==>
          Precedes(after.rows, j, i) == Precedes(b.rows, j, i) && Waiting(after.rows[j]) == Waiting(b.rows[j]);
    }
    forall w, c | w in after.passes && c in after.passes[w].left ensures CopyOk(after, w, c) {
      assert CopyOk(b, w, c);
    }
  }

  lemma StepKeepsLeases(b: Bus, move: Move, maxAttempts: nat)
    requires LeasesOk(b, maxAttempts) && Timely(b, move) && maxAttempts > 0
    ensures LeasesOk(Step(b, move, maxAttempts), maxAttempts)
  {
    hide LeasesOk;
    match move
    case Insert(event) => if IsNext(b.rows, event) { InsertKeepsLeases(b, event, maxAttempts); }
    case Claim(worker, batch) => ClaimKeepsLeases(b, worker, batch, maxAttempts);
    case Mark(worker) => MarkKeepsLeases(b, worker, maxAttempts);
    case Fail(worker) => FailKeepsLeases(b, worker, maxAttempts);
    case GiveUp(worker) => if worker in b.passes { GiveUpKeepsLeases(b, worker, maxAttempts); }
    case Expire(id) => if id < |b.rows| { ExpireKeepsLeases(b, id, maxAttempts); }
    case _ => PassesKeepLeases(b, move, maxAttempts);
  }

  lemma ExpireKeepsLeases(b: Bus, id: nat, maxAttempts: nat)
    requires LeasesOk(b, maxAttempts) && id < |b.rows|
    ensures LeasesOk(Step(b, Expire(id), maxAttempts), maxAttempts)
  {
    assert Accounted(b, id, maxAttempts);
    UnleasedKeepsOthers(b, Step(b, Expire(id), maxAttempts), id, maxAttempts);
  }

  lemma PassesKeepLeases(b: Bus, move: Move, maxAttempts: nat)
    requires LeasesOk(b, maxAttempts) && (move.Send? || move.Land? || move.Crash?)
    ensures LeasesOk(Step(b, move, maxAttempts), maxAttempts)
  {
    var after := Step(b, move, maxAttempts);
    forall i | 0 <= i < |after.rows| ensures Accounted(after, i, maxAttempts) {
      assert Accounted(b, i, maxAttempts);
    }
    forall w, c | w in after.passes && c in after.passes[w].left ensures CopyOk(after, w, c) {
      assert CopyOk(b, w, c);
    }
  }

  lemma {:induction false} TimelyRunIsOk(moves: seq<Move>, maxAttempts: nat)
    requires TimelyRun(moves, maxAttempts) && maxAttempts > 0
    ensures LeasesOk(Run(moves, maxAttempts), maxAttempts)
  {
    if moves != [] {
      TimelyRunIsOk(moves[..|moves| - 1], maxAttempts);
      StepKeepsLeases(Run(moves[..|moves| - 1], maxAttempts), moves[|moves| - 1], maxAttempts);
    }
  }

  /**
   While outcomes are written inside the lease and nothing is replayed: at most one event of an order is
   under a live lease, a row's attempts are exactly its failed sends, they never pass the bound, a row is
   dead-lettered exactly when it reaches it, and no row is both published and dead-lettered.
   */
  lemma AttemptsAreFailedSends(moves: seq<Move>, maxAttempts: nat)
    requires TimelyRun(moves, maxAttempts) && maxAttempts > 0
    ensures var b := Run(moves, maxAttempts);
      && (forall i, j :: (0 <= i < |b.rows| && 0 <= j < |b.rows| && b.rows[i].leased && b.rows[j].leased
            && b.rows[i].event.orderId == b.rows[j].event.orderId) ==> i == j)
      && (forall i :: 0 <= i < |b.rows| ==>
            && b.rows[i].attempts == ChargesOf(b, i) <= maxAttempts
            && (b.rows[i].deadLettered <==> ChargesOf(b, i) == maxAttempts)
            && !(b.rows[i].published && b.rows[i].deadLettered))
  {
    var b := Run(moves, maxAttempts);
    TimelyRunIsOk(moves, maxAttempts);
    hide Run;
    forall i | 0 <= i < |b.rows|
      ensures b.rows[i].attempts == ChargesOf(b, i) <= maxAttempts
        && (b.rows[i].deadLettered <==> ChargesOf(b, i) == maxAttempts)
        && !(b.rows[i].published && b.rows[i].deadLettered) {
      assert Accounted(b, i, maxAttempts);
    }
    forall i, j | 0 <= i < |b.rows| && 0 <= j < |b.rows| && b.rows[i].leased && b.rows[j].leased
        && b.rows[i].event.orderId == b.rows[j].event.orderId
      ensures i == j {
      assert Accounted(b, i, maxAttempts) && Accounted(b, j, maxAttempts);
      assert Precedes(b.rows, i, j) || Precedes(b.rows, j, i) || i == j;
    }
  }

  lemma RunAppend(moves: seq<Move>, move: Move, maxAttempts: nat)
    ensures Run(moves + [move], maxAttempts) == Step(Run(moves, maxAttempts), move, maxAttempts)
  {
    assert (moves + [move])[..|moves|] == moves;
  }

  predicate IsBoth(row: OutboxRow) {
    row.published && row.deadLettered
  }

  // An outcome written for a row that already has the other one: the broker's answer for a row that has been
  // dead-lettered, or the last failure, counted on the claimed copy, for one that has been published.
  predicate BothBy(b: Bus, move: Move, i: nat, maxAttempts: nat)
    requires i < |b.rows|
  {
    match move
    case Mark(worker) =>
      IsSending(b, worker) && b.passes[worker].left[0].id == i && i in b.topic && b.rows[i].deadLettered
    case Fail(worker) =>
      IsSending(b, worker) && b.passes[worker].left[0].id == i && b.rows[i].published
      && b.passes[worker].left[0].attempts + 1 >= maxAttempts
    case _ => false
  }

  /** A move makes a row both published and dead-lettered exactly when it is such an outcome. */
  lemma BothExactlyWhen(b: Bus, move: Move, maxAttempts: nat, i: nat)
    requires i < |b.rows| && !IsBoth(b.rows[i])
    ensures i < |Step(b, move, maxAttempts).rows|
    ensures IsBoth(Step(b, move, maxAttempts).rows[i]) <==> BothBy(b, move, i, maxAttempts)
  {
    hide Claimable;
  }

  /**
   Outcome writes are not guarded on the claim, so without that hypothesis the accounting fails: a worker
   that outlived its lease marks published a row another worker has dead-lettered since.
   */
  lemma LateOutcomeIsBoth(event: Event) returns (moves: seq<Move>)
    ensures var b := Run(moves, 1); |b.rows| == 1 && b.rows[0].published && b.rows[0].deadLettered
  {
    moves := LateClaims(event);
    var b := Run(moves, 1);
    RunAppend(moves, Fail(2), 1);
    RunAppend(moves + [Fail(2)], Land(0), 1);
    RunAppend(moves + [Fail(2)] + [Land(0)], Mark(1), 1);
    var failed := Step(b, Fail(2), 1);
    var landed := Step(failed, Land(0), 1);
    assert IsSending(b, 2) && failed.rows[0].deadLettered;
    assert IsSending(landed, 1);
    moves := moves + [Fail(2)] + [Land(0)] + [Mark(1)];
  }

  lemma FirstClaim(event: Event)
    ensures var b := EMPTY_BUS.(rows := [Fresh(event)]);
      && Step(EMPTY_BUS, Insert(event), 1) == b
      && Step(b, Claim(1, {0}), 1) == b.(rows := [Claimed(Fresh(event), 1)], passes := map[1 := Pass([Copy(0, 0)], false)])
  {
    var rows := [Fresh(event)];
    OneCopy(rows);
    ClaimOne(rows);
    assert [] + [Fresh(event)] == rows;
    hide CopiesOf, ClaimedAll, Claimable;
  }

  lemma ClaimOne(rows: Table)
    requires |rows| == 1 && Waiting(rows[0]) && !rows[0].leased
    ensures Claimable(rows, 0) && ClaimedAll(rows, {0}, 1) == [Claimed(rows[0], 1)]
  {
  }

  // One worker has sent the event and has not had its answer.
  lemma FirstSend(event: Event) returns (moves: seq<Move>)
    ensures Run(moves, 1) == EMPTY_BUS.(rows := [Claimed(Fresh(event), 1)], flights := {0}, passes := map[1 := Pass([Copy(0, 0)], true)])
  {
    var b := EMPTY_BUS.(rows := [Fresh(event)]);
    FirstClaim(event);
    var claimed := Step(b, Claim(1, {0}), 1);
    assert Step(claimed, Send(1), 1) == claimed.(flights := {0}, passes := map[1 := Pass([Copy(0, 0)], true)]);
    assert Run([], 1) == EMPTY_BUS;
    hide Run, Step;
    RunAppend([], Insert(event), 1);
    RunAppend([] + [Insert(event)], Claim(1, {0}), 1);
    RunAppend([] + [Insert(event)] + [Claim(1, {0})], Send(1), 1);
    moves := [] + [Insert(event)] + [Claim(1, {0})] + [Send(1)];
  }

  lemma Reclaims(event: Event, passes: map<Id, Pass>)
    requires passes == map[1 := Pass([Copy(0, 0)], true)]
    ensures var b := EMPTY_BUS.(rows := [Claimed(Fresh(event), 1)], flights := {0}, passes := passes);
      Step(Step(b, Expire(0), 1), Claim(2, {0}), 1) == EMPTY_BUS.(
        rows := [Claimed(Fresh(event), 2)], flights := {0}, passes := passes[2 := Pass([Copy(0, 0)], false)])
  {
    var expired := [Expired(Claimed(Fresh(event), 1))];
    var b := EMPTY_BUS.(rows := [Claimed(Fresh(event), 1)], flights := {0}, passes := passes);
    assert Step(b, Expire(0), 1) == b.(rows := expired);
    assert Claimable(expired, 0);
    OneCopy(expired);
    assert ClaimedAll(expired, {0}, 2) == [Claimed(Fresh(event), 2)];
  }

  // Its lease has run out, and a second worker has sent the same event.
  lemma LateClaims(event: Event) returns (moves: seq<Move>)
    ensures var b := Run(moves, 1);
      && |b.rows| == 1 && !b.rows[0].published && 0 in b.flights
      && b.passes == map[1 := Pass([Copy(0, 0)], true), 2 := Pass([Copy(0, 0)], true)]
  {
    var first := FirstSend(event);
    Reclaims(event, map[1 := Pass([Copy(0, 0)], true)]);
    RunAppend(first, Expire(0), 1);
    RunAppend(first + [Expire(0)], Claim(2, {0}), 1);
    RunAppend(first + [Expire(0)] + [Claim(2, {0})], Send(2), 1);
    moves := first + [Expire(0)] + [Claim(2, {0})] + [Send(2)];
    hide Run, ClaimStep, ClaimedAll, Claimable, CopiesOf;
  }

  lemma {:induction false} OneCopy(rows: Table)
    requires |rows| == 1 && rows[0].attempts == 0
    ensures CopiesOf(rows, {0}, 0) == [Copy(0, 0)]
  {
    assert CopiesOf(rows, {0}, 1) == [];
  }

  /* ---- an event that is given up may still land ---- */

  predicate IsPair(first: Event, second: Event) {
    first.orderId == second.orderId && first.version < second.version
  }

  lemma TwoInserted(first: Event, second: Event) returns (moves: seq<Move>)
    requires IsPair(first, second)
    ensures Run(moves, 1) == EMPTY_BUS.(rows := [Fresh(first), Fresh(second)])
  {
    assert [] + [Fresh(first)] == [Fresh(first)];
    assert [Fresh(first)] + [Fresh(second)] == [Fresh(first), Fresh(second)];
    assert Step(EMPTY_BUS, Insert(first), 1) == EMPTY_BUS.(rows := [Fresh(first)]);
    assert Step(EMPTY_BUS.(rows := [Fresh(first)]), Insert(second), 1) == EMPTY_BUS.(rows := [Fresh(first), Fresh(second)]);
    hide Step, Run;
    NothingHasRun();
    RunAppend([], Insert(first), 1);
    RunAppend([] + [Insert(first)], Insert(second), 1);
    moves := [] + [Insert(first)] + [Insert(second)];
  }

  // A worker claims the first row, sends it and writes its failure.
  lemma FirstFails(rows: Table)
    requires |rows| == 2 && Waiting(rows[0]) && !rows[0].leased && rows[0].attempts == 0
    requires IsPair(rows[0].event, rows[1].event)
    ensures var b := EMPTY_BUS.(rows := rows); var claimed := Step(b, Claim(1, {0}), 1); var sent := Step(claimed, Send(1), 1);
      Step(sent, Fail(1), 1) == EMPTY_BUS.(
        rows := [Failed(Claimed(rows[0], 1), 0, 1), rows[1]], flights := {0},
        passes := map[1 := Pass([], false)], buried := {0}, charges := map[0 := 1])
  {
    var b := EMPTY_BUS.(rows := rows);
    FirstOfTwo(rows);
    hide Claimable, CopiesOf, ClaimedAll, Precedes;
    var claimed := b.(rows := [Claimed(rows[0], 1), rows[1]], passes := map[1 := Pass([Copy(0, 0)], false)]);
    assert ClaimStep(b, 1, {0}) == claimed;
    var sent := claimed.(flights := {0}, passes := map[1 := Pass([Copy(0, 0)], true)]);
    assert SendStep(claimed, 1) == sent;
    assert [Copy(0, 0)][1..] == [];
    FailsOnly(sent, rows);
  }

  lemma FailsOnly(sent: Bus, rows: Table)
    requires |rows| == 2
    requires sent == EMPTY_BUS.(rows := [Claimed(rows[0], 1), rows[1]], flights := {0}, passes := map[1 := Pass([Copy(0, 0)], true)])
    ensures FailStep(sent, 1, 1) == EMPTY_BUS.(
        rows := [Failed(Claimed(rows[0], 1), 0, 1), rows[1]], flights := {0},
        passes := map[1 := Pass([], false)], buried := {0}, charges := map[0 := 1])
  {
    assert IsSending(sent, 1) && sent.passes[1].left[1..] == [];
    assert Rest(sent, 1) == map[1 := Pass([], false)];
    assert sent.rows[0 := Failed(Claimed(rows[0], 1), 0, 1)] == [Failed(Claimed(rows[0], 1), 0, 1), rows[1]];
  }

  // The first event has been sent once and given up, with its only attempt charged.
  lemma FirstGivenUp(first: Event, second: Event) returns (moves: seq<Move>)
    requires IsPair(first, second)
    ensures Run(moves, 1) == EMPTY_BUS.(
      rows := [Failed(Claimed(Fresh(first), 1), 0, 1), Fresh(second)], flights := {0},
      passes := map[1 := Pass([], false)], buried := {0}, charges := map[0 := 1])
  {
    hide Step, Run;
    var before := TwoInserted(first, second);
    FirstFails([Fresh(first), Fresh(second)]);
    RunAppend(before, Claim(1, {0}), 1);
    RunAppend(before + [Claim(1, {0})], Send(1), 1);
    RunAppend(before + [Claim(1, {0})] + [Send(1)], Fail(1), 1);
    moves := before + [Claim(1, {0})] + [Send(1)] + [Fail(1)];
  }

  lemma NothingHasRun()
    ensures Run([], 1) == EMPTY_BUS
  {
  }

  lemma FirstOfTwo(rows: Table)
    requires |rows| == 2 && Waiting(rows[0]) && !rows[0].leased && rows[0].attempts == 0
    requires IsPair(rows[0].event, rows[1].event)
    ensures Claimable(rows, 0) && ClaimedAll(rows, {0}, 1) == [Claimed(rows[0], 1), rows[1]]
    ensures CopiesOf(rows, {0}, 0) == [Copy(0, 0)]
  {
    assert CopiesOf(rows, {0}, 2) == [];
    assert CopiesOf(rows, {0}, 1) == [];
  }

  lemma SecondOfTwo(rows: Table)
    requires |rows| == 2 && rows[0].deadLettered && Waiting(rows[1]) && !rows[1].leased && rows[1].attempts == 0
    ensures Claimable(rows, 1) && ClaimedAll(rows, {1}, 2) == [rows[0], Claimed(rows[1], 2)]
    ensures CopiesOf(rows, {1}, 0) == [Copy(1, 0)]
  {
    assert CopiesOf(rows, {1}, 2) == [];
    assert CopiesOf(rows, {1}, 1) == [Copy(1, 0)];
  }

  // Then the second goes out and is published,
  lemma SecondGoes(b: Bus)
    requires |b.rows| == 2 && b == EMPTY_BUS.(rows := b.rows, flights := {0}, passes := map[1 := Pass([], false)],
      buried := {0}, charges := map[0 := 1])
    requires b.rows[0].deadLettered && Waiting(b.rows[1]) && !b.rows[1].leased && b.rows[1].attempts == 0
    ensures SendStep(ClaimStep(b, 2, {1}), 2) == b.(rows := [b.rows[0], Claimed(b.rows[1], 2)], flights := {0, 1},
      passes := map[1 := Pass([], false), 2 := Pass([Copy(1, 0)], true)])
  {
    SecondOfTwo(b.rows);
    hide Claimable, CopiesOf, ClaimedAll, Precedes, Waiting, Claimed;
    var claimed := ClaimStep(b, 2, {1});
    assert claimed.passes == map[1 := Pass([], false), 2 := Pass([Copy(1, 0)], false)];
    assert SendStep(claimed, 2).passes == map[1 := Pass([], false), 2 := Pass([Copy(1, 0)], true)];
  }

  // and the send of the first lands after it.
  lemma FirstLandsLate(sent: Bus)
    requires |sent.rows| == 2 && sent.flights == {0, 1} && sent.topic == []
    requires sent.passes == map[1 := Pass([], false), 2 := Pass([Copy(1, 0)], true)]
    ensures var late := Step(Step(Step(sent, Land(1), 1), Mark(2), 1), Land(0), 1);
      late.rows == [sent.rows[0], Marked(sent.rows[1])] && late.topic == [1, 0] && late.buried == sent.buried
  {
    hide ClaimStep, SendStep, FailStep, IsNext, ReleasedAll;
    var landed := Step(sent, Land(1), 1);
    assert landed.topic == [1] && IsSending(landed, 2);
  }

  /**
   Why the order holds only for events that were never dead-lettered: once an event has been given up its
   successor may go, and the last send of the first one may still land behind it.
   */
  lemma GivenUpMayLandLate(first: Event, second: Event) returns (moves: seq<Move>)
    requires IsPair(first, second)
    ensures var b := Run(moves, 1);
      && |b.rows| == 2 && Precedes(b.rows, 0, 1) && b.topic == [1, 0]
      && b.rows[0].deadLettered && b.buried == {0} && b.rows[1].published && !IsBoth(b.rows[0]) && !IsBoth(b.rows[1])
  {
    var before := FirstGivenUp(first, second);
    var b := Run(before, 1);
    SecondGoes(b);
    var sent := SendStep(ClaimStep(b, 2, {1}), 2);
    FirstLandsLate(sent);
    assert sent == Step(Step(b, Claim(2, {1}), 1), Send(2), 1);
    assert b.rows[0].event == first && b.rows[1].event == second;
    hide Step, Run, ClaimStep, SendStep;
    RunAppend(before, Claim(2, {1}), 1);
    RunAppend(before + [Claim(2, {1})], Send(2), 1);
    RunAppend(before + [Claim(2, {1})] + [Send(2)], Land(1), 1);
    RunAppend(before + [Claim(2, {1})] + [Send(2)] + [Land(1)], Mark(2), 1);
    RunAppend(before + [Claim(2, {1})] + [Send(2)] + [Land(1)] + [Mark(2)], Land(0), 1);
    moves := before + [Claim(2, {1})] + [Send(2)] + [Land(1)] + [Mark(2)] + [Land(0)];
  }
}
