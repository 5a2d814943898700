/**
 One pass of the publisher over the rows it claims, and the broker session it publishes through. The
 environment speaks through a script: what each check before a row sees, and how each send ends.
 */
module OutboxPublisher {
  import opened Domain
  import opened Server
  import opened Outbox

  // What `reasonToStop` finds when it looks; the session may also have died of something else by then.
  datatype Look = Look(dies: bool, paused: bool, leaseOver: bool)

  datatype Answer = Delivered | RecordRejected | Broken | Overran

  // One row's turn: the first check, a second one after a publish delay, and the send.
  datatype Turn = Turn(first: Look, delayed: Option<Look>, answer: Answer)

  type Script = nat -> Turn

  datatype StopReason = TransportDown | PausedByHuman | LeaseOver

  datatype PublishRunResult = PublishRunResult(
    claimed: nat, published: nat, failed: nat, deadLettered: nat, abandoned: nat, reclaimed: nat,
    stoppedBecause: Option<StopReason>)

  datatype Fate = Sent | Charged(recordRejected: bool) | Abandoned

  /* ---- the control flow of a pass ---- */

  function ReasonToStop(alive: bool, look: Look): Option<StopReason> {
    if !alive then Some(TransportDown)
    else if look.paused then Some(PausedByHuman)
    else if look.leaseOver then Some(LeaseOver)
    else None
  }

  function AliveAtSend(alive: bool, turn: Turn): bool {
    alive && !turn.first.dies && (turn.delayed.Some? ==> !turn.delayed.value.dies)
  }

  function StopBefore(alive: bool, turn: Turn): Option<StopReason> {
    var first := ReasonToStop(alive && !turn.first.dies, turn.first);
    if first.Some? || turn.delayed.None? then first
    else ReasonToStop(AliveAtSend(alive, turn), turn.delayed.value)
  }

  // A failed send that was not about the record, or one that outlived its lease, ends the session.
  function AliveAfter(alive: bool, turn: Turn): bool {
    if StopBefore(alive, turn).Some? then
      alive && !turn.first.dies &&
        (ReasonToStop(alive && !turn.first.dies, turn.first).None? && turn.delayed.Some? ==> !turn.delayed.value.dies)
    else AliveAtSend(alive, turn) && !turn.answer.Broken? && !turn.answer.Overran?
  }

  predicate Stops(alive: bool, turn: Turn) {
    StopBefore(alive, turn).Some? || turn.answer.Overran?
  }

  function FateOf(turn: Turn): Fate {
    match turn.answer
    case Delivered => Sent
    case RecordRejected => Charged(true)
    case Broken => Charged(false)
    case Overran => Abandoned
  }

  // What becomes of rows `i`, `i + 1`, .. of a batch of `n`.
  function Fates(alive: bool, n: nat, script: Script, i: nat): (fates: seq<Fate>)
    requires i <= n
    ensures |fates| == n - i
    decreases n - i
  {
    if i == n then []
    else if Stops(alive, script(i)) then seq(n - i, _ => Abandoned)
    else [FateOf(script(i))] + Fates(AliveAfter(alive, script(i)), n, script, i + 1)
  }

  function AliveAtEnd(alive: bool, n: nat, script: Script, i: nat): bool
    requires i <= n
    decreases n - i
  {
    if i == n then alive
    else if Stops(alive, script(i)) then AliveAfter(alive, script(i))
    else AliveAtEnd(AliveAfter(alive, script(i)), n, script, i + 1)
  }

  function Count(fates: seq<Fate>, counted: Fate -> bool): nat {
    if fates == [] then 0
    else Count(fates[..|fates| - 1], counted) + if counted(fates[|fates| - 1]) then 1 else 0
  }

  /* ---- what it writes ---- */

  function WithFate(row: OutboxRow, copy: Copy, fate: Fate, worker: Id, maxAttempts: nat): OutboxRow {
    match fate
    case Sent => Marked(row)
    case Charged(_) => Failed(row, copy.attempts, maxAttempts)
    case Abandoned => Released(row, worker)
  }

  predicate InTable(rows: Table, batch: seq<Copy>) {
    forall i :: 0 <= i < |batch| ==> batch[i].id < |rows|
  }

  predicate DistinctIds(batch: seq<Copy>) {
    forall i, j :: 0 <= i < j < |batch| ==> batch[i].id != batch[j].id
  }

  // The first `n` rows of the batch with their fates written down.
  function AfterOutcomes(rows: Table, batch: seq<Copy>, fates: seq<Fate>, worker: Id, maxAttempts: nat,
      n: nat): (after: Table)
    requires InTable(rows, batch) && n <= |batch| == |fates|
    ensures |after| == |rows|
  {
    if n == 0 then rows
    else
      var before := AfterOutcomes(rows, batch, fates, worker, maxAttempts, n - 1);
      var id := batch[n - 1].id;
      before[id := WithFate(before[id], batch[n - 1], fates[n - 1], worker, maxAttempts)]
  }

  /** Each row of the batch meets its own fate, and no other row is touched. */
  lemma {:induction false} OutcomeOfEach(rows: Table, batch: seq<Copy>, fates: seq<Fate>, worker: Id,
      maxAttempts: nat, n: nat)
    requires InTable(rows, batch) && n <= |batch| == |fates| && DistinctIds(batch)
    ensures var after := AfterOutcomes(rows, batch, fates, worker, maxAttempts, n);
      && (forall k :: 0 <= k < n ==>
            after[batch[k].id] == WithFate(rows[batch[k].id], batch[k], fates[k], worker, maxAttempts))
      && (forall i :: 0 <= i < |rows| && (forall k :: 0 <= k < n ==> batch[k].id != i) ==> after[i] == rows[i])
  {
    if n > 0 {
      OutcomeOfEach(rows, batch, fates, worker, maxAttempts, n - 1);
    }
  }

  function StoppedBy(alive: bool, n: nat, script: Script, i: nat): Option<StopReason>
    requires i <= n
    decreases n - i
  {
    if i == n then None
    else if StopBefore(alive, script(i)).Some? then StopBefore(alive, script(i))
    else if script(i).answer.Overran? then Some(LeaseOver)
    else StoppedBy(AliveAfter(alive, script(i)), n, script, i + 1)
  }

  /* ---- what the script alone says ---- */

  // Something has ended the session in this turn, and the send was not one that outlived the lease.
  predicate EndsSession(turn: Turn) {
    turn.first.dies || (turn.delayed.Some? && turn.delayed.value.dies) || turn.answer.Broken?
  }

  // The session is gone when row `j` is looked at; rows `i`, .., `j - 1` came before it in the pass.
  predicate GoneAt(alive: bool, script: Script, i: nat, j: nat) {
    !alive || script(j).first.dies || exists m :: i <= m < j && EndsSession(script(m))
  }

  // A reason to stop at row `j`: the session is gone, a human has paused the publisher or the lease is over,
  // before the delay or after it, or the send outlived the lease.
  predicate StopsAt(alive: bool, script: Script, i: nat, j: nat) {
    var turn := script(j);
    || GoneAt(alive, script, i, j)
    || turn.first.paused || turn.first.leaseOver
    || (turn.delayed.Some? && (turn.delayed.value.dies || turn.delayed.value.paused || turn.delayed.value.leaseOver))
    || turn.answer.Overran?
  }

  // The first of them, in the order in which they are looked for.
  function ReasonAt(alive: bool, script: Script, i: nat, j: nat): StopReason
    requires StopsAt(alive, script, i, j)
  {
    var turn := script(j);
    if GoneAt(alive, script, i, j) then TransportDown
    else if turn.first.paused then PausedByHuman
    else if turn.first.leaseOver then LeaseOver
    else if turn.delayed.Some? && turn.delayed.value.dies then TransportDown
    else if turn.delayed.Some? && turn.delayed.value.paused then PausedByHuman
    else LeaseOver
  }

  predicate StopsBy(alive: bool, script: Script, i: nat, k: nat) {
    exists j :: i <= j <= k && StopsAt(alive, script, i, j)
  }

  lemma TurnStopsExactly(alive: bool, script: Script, i: nat)
    ensures Stops(alive, script(i)) <==> StopsAt(alive, script, i, i)
    ensures !Stops(alive, script(i)) ==> AliveAfter(alive, script(i)) == !EndsSession(script(i))
    ensures Stops(alive, script(i)) ==>
      ReasonAt(alive, script, i, i) == if StopBefore(alive, script(i)).Some? then StopBefore(alive, script(i)).value else LeaseOver
  {
  }

  lemma LaterTurns(alive: bool, script: Script, i: nat, j: nat)
    requires i < j && !StopsAt(alive, script, i, i)
    ensures GoneAt(alive, script, i, j) <==> GoneAt(!EndsSession(script(i)), script, i + 1, j)
    ensures StopsAt(alive, script, i, j) <==> StopsAt(!EndsSession(script(i)), script, i + 1, j)
    ensures StopsAt(alive, script, i, j) ==> ReasonAt(alive, script, i, j) == ReasonAt(!EndsSession(script(i)), script, i + 1, j)
  {
    assert GoneAt(alive, script, i, j) <==> GoneAt(!EndsSession(script(i)), script, i + 1, j) by {
      if m :| i <= m < j && EndsSession(script(m)) { assert m == i || i + 1 <= m < j; }
    }
    hide GoneAt;
  }

  lemma LaterStops(alive: bool, script: Script, i: nat, k: nat)
    requires i < k && !StopsAt(alive, script, i, i)
    ensures StopsBy(alive, script, i, k) <==> StopsBy(!EndsSession(script(i)), script, i + 1, k)
  {
    hide StopsAt;
    var rest, next := !EndsSession(script(i)), i + 1;
    if j :| i <= j <= k && StopsAt(alive, script, i, j) {
      LaterTurns(alive, script, i, j);
      assert StopsAt(rest, script, next, j);
    }
    if j :| next <= j <= k && StopsAt(rest, script, next, j) {
      LaterTurns(alive, script, i, j);
    }
  }

  /**
   A row is given back exactly if there was a reason to stop at it or at a row before it; and any other is
   published exactly if its send was delivered, and charged exactly if the broker rejected it or broke.
   */
  lemma {:induction false} FateOfEachRow(alive: bool, n: nat, script: Script, i: nat, k: nat)
    requires i <= k < n
    ensures var fate := Fates(alive, n, script, i)[k - i];
      && (fate.Abandoned? <==> StopsBy(alive, script, i, k))
      && (fate.Sent? <==> !StopsBy(alive, script, i, k) && script(k).answer.Delivered?)
      && (fate == Charged(true) <==> !StopsBy(alive, script, i, k) && script(k).answer.RecordRejected?)
      && (fate == Charged(false) <==> !StopsBy(alive, script, i, k) && script(k).answer.Broken?)
    decreases k - i
  {
    TurnStopsExactly(alive, script, i);
    if Stops(alive, script(i)) {
      assert StopsBy(alive, script, i, k);
    } else if i < k {
      hide StopsAt, StopsBy, EndsSession, Stops, AliveAfter, FateOf;
      LaterStops(alive, script, i, k);
      FateOfEachRow(AliveAfter(alive, script(i)), n, script, i + 1, k);
    } else {
      assert StopsAt(alive, script, i, i) <==> StopsBy(alive, script, i, k);
    }
  }

  // The pass stops at row `j`.
  predicate IsFirstStop(alive: bool, script: Script, i: nat, j: nat) {
    i <= j && StopsAt(alive, script, i, j) && forall m :: i <= m < j ==> !StopsAt(alive, script, i, m)
  }

  predicate NoStop(alive: bool, n: nat, script: Script, i: nat) {
    forall j :: i <= j < n ==> !StopsAt(alive, script, i, j)
  }

  lemma LaterFirstStop(alive: bool, n: nat, script: Script, i: nat)
    requires i < n && !StopsAt(alive, script, i, i)
    ensures var rest := !EndsSession(script(i));
      && (NoStop(alive, n, script, i) <==> NoStop(rest, n, script, i + 1))
      && (forall j :: i < j < n && IsFirstStop(alive, script, i, j) ==> IsFirstStop(rest, script, i + 1, j))
  {
    hide StopsAt;
    var rest, next := !EndsSession(script(i)), i + 1;
    forall j | i < j < n ensures StopsAt(alive, script, i, j) <==> StopsAt(rest, script, next, j) {
      LaterTurns(alive, script, i, j);
    }
  }

  /** What is reported as the reason is the first there was, and nothing is if there was none. */
  lemma {:induction false} ReasonIsTheFirst(alive: bool, n: nat, script: Script, i: nat)
    requires i <= n
    ensures StoppedBy(alive, n, script, i).None? <==> NoStop(alive, n, script, i)
    ensures forall j :: i <= j < n && IsFirstStop(alive, script, i, j) ==>
      StoppedBy(alive, n, script, i) == Some(ReasonAt(alive, script, i, j))
    decreases n - i
  {
    if i < n {
      TurnStopsExactly(alive, script, i);
      if StopsAt(alive, script, i, i) {
        FirstStopHere(alive, n, script, i);
      } else {
        ReasonIsTheFirst(!EndsSession(script(i)), n, script, i + 1);
        hide StopsAt, ReasonAt, EndsSession, AliveAfter, StopBefore, IsFirstStop, NoStop;
        LaterFirstStop(alive, n, script, i);
        forall j | i <= j < n && IsFirstStop(alive, script, i, j)
          ensures StoppedBy(alive, n, script, i) == Some(ReasonAt(alive, script, i, j)) {
          FirstIsAStop(alive, script, i, j);
          LaterTurns(alive, script, i, j);
        }
      }
    }
  }

  lemma FirstIsAStop(alive: bool, script: Script, i: nat, j: nat)
    requires IsFirstStop(alive, script, i, j)
    ensures i <= j && StopsAt(alive, script, i, j)
  {
  }

  lemma FirstStopHere(alive: bool, n: nat, script: Script, i: nat)
    requires i < n && StopsAt(alive, script, i, i)
    ensures !NoStop(alive, n, script, i) && StoppedBy(alive, n, script, i) == Some(ReasonAt(alive, script, i, i))
    ensures forall j :: i <= j < n && IsFirstStop(alive, script, i, j) ==> j == i
  {
    TurnStopsExactly(alive, script, i);
  }

  // The session ends in this turn, if it is reached with the session alive: at a look, in the send, or because
  // the send outlived the lease.
  predicate DiesIn(turn: Turn) {
    var stopped := turn.first.paused || turn.first.leaseOver;
    || turn.first.dies
    || (!stopped && turn.delayed.Some? && turn.delayed.value.dies)
    || (!stopped && (turn.delayed.Some? ==> !turn.delayed.value.paused && !turn.delayed.value.leaseOver)
        && (turn.answer.Broken? || turn.answer.Overran?))
  }

  predicate IsReached(alive: bool, script: Script, i: nat, j: nat) {
    forall m :: i <= m < j ==> !StopsAt(alive, script, i, m)
  }

  predicate NoneDies(alive: bool, n: nat, script: Script, i: nat) {
    forall j :: i <= j < n && IsReached(alive, script, i, j) ==> !DiesIn(script(j))
  }

  lemma LaterReached(alive: bool, script: Script, i: nat, j: nat)
    requires i < j && !StopsAt(alive, script, i, i)
    ensures IsReached(alive, script, i, j) <==> IsReached(!EndsSession(script(i)), script, i + 1, j)
  {
    hide StopsAt;
    var rest, next := !EndsSession(script(i)), i + 1;
    forall m | i < m < j ensures StopsAt(alive, script, i, m) <==> StopsAt(rest, script, next, m) {
      LaterTurns(alive, script, i, m);
    }
  }

  /** The session outlives the pass exactly if it was alive and no turn that was reached has ended it. */
  lemma {:induction false} SessionSurvivesExactly(alive: bool, n: nat, script: Script, i: nat)
    requires i <= n
    ensures AliveAtEnd(alive, n, script, i) <==> alive && NoneDies(alive, n, script, i)
    decreases n - i
  {
    if i < n && alive {
      TurnStopsExactly(alive, script, i);
      assert IsReached(alive, script, i, i);
      if StopsAt(alive, script, i, i) {
        assert forall j :: i < j < n ==> !IsReached(alive, script, i, j);
      } else {
        SessionSurvivesExactly(!EndsSession(script(i)), n, script, i + 1);
        assert EndsSession(script(i)) <==> DiesIn(script(i));
        LaterDies(n, script, i);
      }
    } else if i < n {
      assert StopsAt(alive, script, i, i);
    }
  }

  lemma LaterDies(n: nat, script: Script, i: nat)
    requires i < n && !StopsAt(true, script, i, i)
    ensures NoneDies(true, n, script, i) <==> !DiesIn(script(i)) && NoneDies(!EndsSession(script(i)), n, script, i + 1)
  {
    hide StopsAt, DiesIn;
    assert IsReached(true, script, i, i);
    var rest, next := !EndsSession(script(i)), i + 1;
    forall j | i < j < n ensures IsReached(true, script, i, j) <==> IsReached(rest, script, next, j) {
      LaterReached(true, script, i, j);
    }
  }

  /** Once a pass abandons a row it attempts none after it. */
  lemma {:induction false} AbandonedIsSuffix(alive: bool, n: nat, script: Script, i: nat, j: nat, k: nat)
    requires i <= j <= k < n && Fates(alive, n, script, i)[j - i].Abandoned?
    ensures Fates(alive, n, script, i)[k - i].Abandoned?
    decreases n - i
  {
    if !Stops(alive, script(i)) {
      if i < j {
        AbandonedIsSuffix(AliveAfter(alive, script(i)), n, script, i + 1, j, k);
      }
    }
  }

  predicate IsBroken(fate: Fate) {
    fate.Charged? && !fate.recordRejected
  }

  lemma {:induction false} CountCat(a: seq<Fate>, b: seq<Fate>, counted: Fate -> bool)
    ensures Count(a + b, counted) == Count(a, counted) + Count(b, counted)
    decreases |b|
  {
    if b == [] {
      assert a + b == a;
    } else {
      var init, last := b[..|b| - 1], b[|b| - 1];
      CountCat(a, init, counted);
      assert (a + b)[..|a + b| - 1] == a + init && (a + b)[|a + b| - 1] == last;
    }
  }

  lemma {:induction false} CountNone(fates: seq<Fate>, counted: Fate -> bool)
    requires forall k :: 0 <= k < |fates| ==> !counted(fates[k])
    ensures Count(fates, counted) == 0
  {
    if fates != [] { CountNone(fates[..|fates| - 1], counted); }
  }

  /**
   The session is dead before the loop sees the error: in one pass at most one charge is not the record's
   own fault, none in a session already dead, and after it the session is dead.
   */
  lemma {:induction false} BrokenOncePerPass(alive: bool, n: nat, script: Script, i: nat)
    requires i <= n
    ensures Count(Fates(alive, n, script, i), IsBroken) <= if alive then 1 else 0
    ensures Count(Fates(alive, n, script, i), IsBroken) == 1 ==> !AliveAtEnd(alive, n, script, i)
    ensures !alive ==> !AliveAtEnd(alive, n, script, i)
    decreases n - i
  {
    if i < n {
      if Stops(alive, script(i)) {
        CountNone(Fates(alive, n, script, i), IsBroken);
      } else {
        var first, rest := FateOf(script(i)), Fates(AliveAfter(alive, script(i)), n, script, i + 1);
        BrokenOncePerPass(AliveAfter(alive, script(i)), n, script, i + 1);
        CountCat([first], rest, IsBroken);
        assert [first][..0] == [];
      }
    }
  }

  // An outage, as the publisher lives through it: new sessions, and passes in the one it has.
  datatype Episode = NewSession | APass(rows: nat, script: Script)

  function BrokenOver(alive: bool, outage: seq<Episode>): nat
    decreases |outage|
  {
    if outage == [] then 0
    else match outage[0]
      case NewSession => BrokenOver(true, outage[1..])
      case APass(rows, script) =>
        Count(Fates(alive, rows, script, 0), IsBroken) + BrokenOver(AliveAtEnd(alive, rows, script, 0), outage[1..])
  }

  function Sessions(outage: seq<Episode>): nat
    decreases |outage|
  {
    if outage == [] then 0 else (if outage[0].NewSession? then 1 else 0) + Sessions(outage[1..])
  }

  /** An outage of any length charges at most one attempt a session for what is not the events' fault. */
  lemma {:induction false} OutageCost(alive: bool, outage: seq<Episode>)
    ensures BrokenOver(alive, outage) <= Sessions(outage) + if alive then 1 else 0
    decreases |outage|
  {
    if outage != [] {
      match outage[0]
      case NewSession => OutageCost(true, outage[1..]);
      case APass(rows, script) =>
        BrokenOncePerPass(alive, rows, script, 0);
        OutageCost(AliveAtEnd(alive, rows, script, 0), outage[1..]);
    }
  }

  /* ---- the code ---- */

  predicate IsSent(fate: Fate) {
    fate.Sent?
  }

  predicate IsCharged(fate: Fate) {
    fate.Charged?
  }

  function DeadLettered(batch: seq<Copy>, fates: seq<Fate>, maxAttempts: nat, n: nat): nat
    requires n <= |batch| == |fates|
  {
    if n == 0 then 0
    else DeadLettered(batch, fates, maxAttempts, n - 1) +
         if fates[n - 1].Charged? && batch[n - 1].attempts + 1 >= maxAttempts then 1 else 0
  }

  // Rows taken from an earlier claimant.
  function Reclaimed(rows: Table, batch: seq<Copy>, n: nat): nat
    requires InTable(rows, batch) && n <= |batch|
  {
    if n == 0 then 0 else Reclaimed(rows, batch, n - 1) + if rows[batch[n - 1].id].owner.Some? then 1 else 0
  }

  // Giving the rest back in one statement is giving it back row by row.
  lemma {:induction false} ReleasedTogether(rows: Table, batch: seq<Copy>, fates: seq<Fate>, worker: Id,
      maxAttempts: nat, i: nat, n: nat)
    requires InTable(rows, batch) && i <= n <= |batch| == |fates|
    requires forall k :: i <= k < n ==> fates[k].Abandoned?
    ensures AfterOutcomes(rows, batch, fates, worker, maxAttempts, n) ==
      ReleasedAll(AfterOutcomes(rows, batch, fates, worker, maxAttempts, i), IdsOf(batch[i..n]), worker)
  {
    var held := AfterOutcomes(rows, batch, fates, worker, maxAttempts, i);
    if i == n {
      assert ReleasedAll(held, IdsOf(batch[i..n]), worker) == held;
    } else {
      ReleasedTogether(rows, batch, fates, worker, maxAttempts, i, n - 1);
      IdsOfMore(batch, i, n);
      ReleasedOneMore(held, IdsOf(batch[i..n - 1]), batch[n - 1].id, worker);
    }
  }

  lemma IdsOfMore(batch: seq<Copy>, i: nat, n: nat)
    requires i < n <= |batch|
    ensures IdsOf(batch[i..n]) == IdsOf(batch[i..n - 1]) + {batch[n - 1].id}
  {
    assert batch[i..n] == batch[i..n - 1] + [batch[n - 1]];
  }

  lemma ReleasedOneMore(rows: Table, ids: set<nat>, id: nat, worker: Id)
    requires id < |rows|
    ensures var before := ReleasedAll(rows, ids, worker);
      ReleasedAll(rows, ids + {id}, worker) == before[id := Released(before[id], worker)]
  {
  }

  lemma AbandonedRest(fates: seq<Fate>, i: nat)
    requires i <= |fates| && forall k :: i <= k < |fates| ==> fates[k].Abandoned?
    ensures Count(fates, IsSent) == Count(fates[..i], IsSent) && Count(fates, IsCharged) == Count(fates[..i], IsCharged)
  {
    assert fates == fates[..i] + fates[i..];
    CountCat(fates[..i], fates[i..], IsSent);
    CountCat(fates[..i], fates[i..], IsCharged);
    CountNone(fates[i..], IsSent);
    CountNone(fates[i..], IsCharged);
  }

  // The places, up to `n`, of the rows that were sent, that were charged, that are dead now, and that somebody
  // else had claimed.
  function SentPlaces(fates: seq<Fate>, n: nat): set<nat>
    requires n <= |fates|
  {
    set k | 0 <= k < n && fates[k] == Sent
  }

  function ChargedPlaces(fates: seq<Fate>, n: nat): set<nat>
    requires n <= |fates|
  {
    set k | 0 <= k < n && fates[k].Charged?
  }

  function DeadPlaces(rows: Table, batch: seq<Copy>, fates: seq<Fate>, maxAttempts: nat, n: nat): set<nat>
    requires InTable(rows, batch) && n <= |batch| == |fates|
  {
    set k | 0 <= k < n && fates[k].Charged? && Failed(rows[batch[k].id], batch[k].attempts, maxAttempts).deadLettered
  }

  function TakenPlaces(rows: Table, batch: seq<Copy>, n: nat): set<nat>
    requires InTable(rows, batch) && n <= |batch|
  {
    set k | 0 <= k < n && rows[batch[k].id].owner != None
  }

  lemma OneMore(places: set<nat>, more: set<nat>, n: nat, one: bool)
    requires more == places + (if one then {n} else {}) && n !in places
    ensures |more| == |places| + if one then 1 else 0
  {
  }

  lemma {:induction false} SentAreCounted(fates: seq<Fate>, n: nat)
    requires n <= |fates|
    ensures Count(fates[..n], IsSent) == |SentPlaces(fates, n)|
  {
    if n > 0 {
      SentAreCounted(fates, n - 1);
      assert fates[..n][..n - 1] == fates[..n - 1];
      OneMore(SentPlaces(fates, n - 1), SentPlaces(fates, n), n - 1, fates[n - 1] == Sent);
    }
  }

  lemma {:induction false} ChargedAreCounted(fates: seq<Fate>, n: nat)
    requires n <= |fates|
    ensures Count(fates[..n], IsCharged) == |ChargedPlaces(fates, n)|
  {
    if n > 0 {
      ChargedAreCounted(fates, n - 1);
      assert fates[..n][..n - 1] == fates[..n - 1];
      OneMore(ChargedPlaces(fates, n - 1), ChargedPlaces(fates, n), n - 1, fates[n - 1].Charged?);
    }
  }

  lemma OneMorePlace(rows: Table, batch: seq<Copy>, fates: seq<Fate>, maxAttempts: nat, m: nat)
    requires InTable(rows, batch) && m < |batch| == |fates|
    ensures DeadPlaces(rows, batch, fates, maxAttempts, m + 1) == DeadPlaces(rows, batch, fates, maxAttempts, m) +
      if fates[m].Charged? && batch[m].attempts + 1 >= maxAttempts then {m} else {}
    ensures m !in DeadPlaces(rows, batch, fates, maxAttempts, m)
  {
  }

  lemma {:induction false} DeadAreCounted(rows: Table, batch: seq<Copy>, fates: seq<Fate>, maxAttempts: nat, n: nat)
    requires InTable(rows, batch) && n <= |batch| == |fates|
    ensures DeadLettered(batch, fates, maxAttempts, n) == |DeadPlaces(rows, batch, fates, maxAttempts, n)|
  {
    if n == 0 {
      assert DeadPlaces(rows, batch, fates, maxAttempts, 0) == {};
    } else {
      hide DeadPlaces;
      var m := n - 1;
      DeadAreCounted(rows, batch, fates, maxAttempts, m);
      OneMorePlace(rows, batch, fates, maxAttempts, m);
      OneMore(DeadPlaces(rows, batch, fates, maxAttempts, m), DeadPlaces(rows, batch, fates, maxAttempts, n), m,
        fates[m].Charged? && batch[m].attempts + 1 >= maxAttempts);
    }
  }

  lemma {:induction false} TakenAreCounted(rows: Table, batch: seq<Copy>, n: nat)
    requires InTable(rows, batch) && n <= |batch|
    ensures Reclaimed(rows, batch, n) == |TakenPlaces(rows, batch, n)|
  {
    if n > 0 {
      TakenAreCounted(rows, batch, n - 1);
      OneMore(TakenPlaces(rows, batch, n - 1), TakenPlaces(rows, batch, n), n - 1, rows[batch[n - 1].id].owner != None);
    }
  }

  /**
   The counts of a pass are what they say: rows published, rows charged, those of them that are dead from now
   on, rows given back, and rows that somebody else had claimed before.
   */
  lemma CountsExactly(rows: Table, batch: seq<Copy>, fates: seq<Fate>, maxAttempts: nat, reason: Option<StopReason>)
    requires InTable(rows, batch) && |batch| == |fates|
    ensures var result := Tally(batch, fates, maxAttempts, Reclaimed(rows, batch, |batch|), reason);
      && result.claimed == |batch| && result.published == |SentPlaces(fates, |fates|)|
      && result.failed == |ChargedPlaces(fates, |fates|)|
      && result.deadLettered == |DeadPlaces(rows, batch, fates, maxAttempts, |fates|)|
      && result.abandoned == result.claimed - result.published - result.failed
      && result.reclaimed == |TakenPlaces(rows, batch, |batch|)| && result.stoppedBecause == reason
  {
    assert fates[..|fates|] == fates;
    SentAreCounted(fates, |fates|);
    ChargedAreCounted(fates, |fates|);
    DeadAreCounted(rows, batch, fates, maxAttempts, |fates|);
    TakenAreCounted(rows, batch, |batch|);
    EveryRowIsCounted(fates);
    hide Count, DeadLettered, Reclaimed, SentPlaces, ChargedPlaces, DeadPlaces, TakenPlaces;
  }

  // The counts after the first `i` rows, and those of a whole pass.
  function TallyOf(batch: seq<Copy>, fates: seq<Fate>, maxAttempts: nat, reclaimed: nat, i: nat): PublishRunResult
    requires i <= |batch| == |fates|
  {
    PublishRunResult(|batch|, Count(fates[..i], IsSent), Count(fates[..i], IsCharged),
      DeadLettered(batch, fates, maxAttempts, i), 0, reclaimed, None)
  }

  function Tally(batch: seq<Copy>, fates: seq<Fate>, maxAttempts: nat, reclaimed: nat,
      stoppedBecause: Option<StopReason>): PublishRunResult
    requires |batch| == |fates|
  {
    PublishRunResult(|batch|, Count(fates, IsSent), Count(fates, IsCharged),
      DeadLettered(batch, fates, maxAttempts, |batch|), Count(fates, IsAbandoned), reclaimed, stoppedBecause)
  }

  predicate IsAbandoned(fate: Fate) {
    fate.Abandoned?
  }

  /** Every row a pass claims is published, failed or given back. */
  lemma {:induction false} EveryRowIsCounted(fates: seq<Fate>)
    ensures Count(fates, IsSent) + Count(fates, IsCharged) + Count(fates, IsAbandoned) == |fates|
  {
    if fates != [] {
      EveryRowIsCounted(fates[..|fates| - 1]);
    }
  }

  lemma TallyStarts(batch: seq<Copy>, fates: seq<Fate>, maxAttempts: nat, reclaimed: nat)
    requires |batch| == |fates|
    ensures TallyOf(batch, fates, maxAttempts, reclaimed, 0) == PublishRunResult(|batch|, 0, 0, 0, 0, reclaimed, None)
  {
  }

  lemma TallyGrows(batch: seq<Copy>, fates: seq<Fate>, maxAttempts: nat, reclaimed: nat, i: nat, turn: Turn)
    requires i < |batch| == |fates| && fates[i] == FateOf(turn) && !turn.answer.Overran?
    ensures var before := TallyOf(batch, fates, maxAttempts, reclaimed, i);
      TallyOf(batch, fates, maxAttempts, reclaimed, i + 1) ==
        if turn.answer.Delivered? then before.(published := before.published + 1)
        else before.(failed := before.failed + 1,
               deadLettered := before.deadLettered + if batch[i].attempts + 1 >= maxAttempts then 1 else 0)
  {
    assert fates[..i + 1][..i] == fates[..i];
  }

  lemma TallyStops(batch: seq<Copy>, fates: seq<Fate>, maxAttempts: nat, reclaimed: nat, i: nat,
      reason: Option<StopReason>)
    requires i <= |batch| == |fates| && forall k :: i <= k < |fates| ==> fates[k].Abandoned?
    requires forall k :: 0 <= k < i ==> !fates[k].Abandoned?
    ensures Tally(batch, fates, maxAttempts, reclaimed, reason) ==
      TallyOf(batch, fates, maxAttempts, reclaimed, i).(abandoned := |batch| - i, stoppedBecause := reason)
  {
    AbandonedRest(fates, i);
    DeadBefore(batch, fates, maxAttempts, i, |batch|);
    EveryRowIsCounted(fates);
    EveryRowIsCounted(fates[..i]);
    CountNone(fates[..i], IsAbandoned);
  }

  lemma {:induction false} DeadBefore(batch: seq<Copy>, fates: seq<Fate>, maxAttempts: nat, i: nat, n: nat)
    requires i <= n <= |batch| == |fates| && forall k :: i <= k < n ==> fates[k].Abandoned?
    ensures DeadLettered(batch, fates, maxAttempts, n) == DeadLettered(batch, fates, maxAttempts, i)
  {
    if i < n { DeadBefore(batch, fates, maxAttempts, i, n - 1); }
  }

  lemma TallyEnds(batch: seq<Copy>, fates: seq<Fate>, maxAttempts: nat, reclaimed: nat)
    requires |batch| == |fates| && forall k :: 0 <= k < |fates| ==> !fates[k].Abandoned?
    ensures Tally(batch, fates, maxAttempts, reclaimed, None) == TallyOf(batch, fates, maxAttempts, reclaimed, |batch|)
  {
    assert fates[..|batch|] == fates;
    CountNone(fates, IsAbandoned);
  }

  lemma Unfold(alive: bool, n: nat, script: Script, i: nat)
    requires i < n
    ensures Stops(alive, script(i)) <==> StopBefore(alive, script(i)).Some? || script(i).answer.Overran?
    ensures Stops(alive, script(i)) ==>
      && (forall k :: 0 <= k < n - i ==> Fates(alive, n, script, i)[k].Abandoned?)
      && AliveAtEnd(alive, n, script, i) == AliveAfter(alive, script(i))
      && StoppedBy(alive, n, script, i) ==
           (if StopBefore(alive, script(i)).Some? then StopBefore(alive, script(i)) else Some(LeaseOver))
    ensures !Stops(alive, script(i)) ==>
      && Fates(alive, n, script, i)[0] == FateOf(script(i)) && !FateOf(script(i)).Abandoned?
      && Fates(alive, n, script, i)[1..] == Fates(AliveAfter(alive, script(i)), n, script, i + 1)
      && AliveAtEnd(alive, n, script, i) == AliveAtEnd(AliveAfter(alive, script(i)), n, script, i + 1)
      && StoppedBy(alive, n, script, i) == StoppedBy(AliveAfter(alive, script(i)), n, script, i + 1)
    ensures StopBefore(alive, script(i)).None? ==>
      AliveAfter(alive, script(i)) == (AliveAtSend(alive, script(i)) && !script(i).answer.Broken? && !script(i).answer.Overran?)
  {
  }

  lemma AtEnd(alive: bool, n: nat, script: Script)
    ensures AliveAtEnd(alive, n, script, n) == alive && StoppedBy(alive, n, script, n).None?
  {
  }

  lemma AfterOneMore(rows: Table, batch: seq<Copy>, fates: seq<Fate>, worker: Id, maxAttempts: nat, i: nat)
    requires InTable(rows, batch) && i < |batch| == |fates|
    ensures var before := AfterOutcomes(rows, batch, fates, worker, maxAttempts, i);
      AfterOutcomes(rows, batch, fates, worker, maxAttempts, i + 1) ==
        before[batch[i].id := WithFate(before[batch[i].id], batch[i], fates[i], worker, maxAttempts)]
  {
  }

  lemma BatchInTable(rows: Table, chosen: set<nat>, worker: Id)
    ensures InTable(rows, CopiesOf(rows, chosen, 0)) && InTable(ClaimedAll(rows, chosen, worker), CopiesOf(rows, chosen, 0))
  {
    var batch := CopiesOf(rows, chosen, 0);
    forall i | 0 <= i < |batch| ensures batch[i].id < |rows| {
      assert batch[i] in batch;
    }
  }

  // Where a pass stands before row `i`.
  predicate Halfway(claimed: Table, rows: Table, first: bool, alive: bool, batch: seq<Copy>, fates: seq<Fate>,
                    script: Script, i: nat, worker: Id, maxAttempts: nat) {
    && i <= |batch| == |fates| && InTable(claimed, batch)
    && fates == Fates(first, |batch|, script, 0) && fates[i..] == Fates(alive, |batch|, script, i)
    && (forall k :: 0 <= k < i ==> !fates[k].Abandoned?)
    && AliveAtEnd(first, |batch|, script, 0) == AliveAtEnd(alive, |batch|, script, i)
    && StoppedBy(first, |batch|, script, 0) == StoppedBy(alive, |batch|, script, i)
    && rows == AfterOutcomes(claimed, batch, fates, worker, maxAttempts, i)
  }

  lemma HalfwayStarts(claimed: Table, alive: bool, batch: seq<Copy>, fates: seq<Fate>, script: Script, worker: Id, maxAttempts: nat)
    requires InTable(claimed, batch) && fates == Fates(alive, |batch|, script, 0)
    ensures Halfway(claimed, claimed, alive, alive, batch, fates, script, 0, worker, maxAttempts)
  {
  }

  lemma IdAt(claimed: Table, rows: Table, first: bool, alive: bool, batch: seq<Copy>, fates: seq<Fate>,
             script: Script, i: nat, worker: Id, maxAttempts: nat)
    requires Halfway(claimed, rows, first, alive, batch, fates, script, i, worker, maxAttempts) && i < |batch|
    ensures batch[i].id < |rows|
  {
  }

  // What the checks and the send leave of the session when the pass stops at row `i`.
  lemma TurnStops(claimed: Table, rows: Table, first: bool, alive: bool, batch: seq<Copy>, fates: seq<Fate>, script: Script,
                  i: nat, worker: Id, maxAttempts: nat, reclaimed: nat, reason: Option<StopReason>, after: bool)
    requires Halfway(claimed, rows, first, alive, batch, fates, script, i, worker, maxAttempts) && i < |batch|
    requires reason.Some? && Stops(alive, script(i)) && after == AliveAfter(alive, script(i))
    requires reason == if StopBefore(alive, script(i)).Some? then StopBefore(alive, script(i)) else Some(LeaseOver)
    ensures InTable(claimed, batch) && forall k :: i <= k < |fates| ==> fates[k].Abandoned?
    ensures rows == AfterOutcomes(claimed, batch, fates, worker, maxAttempts, i)
    ensures fates == Fates(first, |batch|, script, 0) && after == AliveAtEnd(first, |batch|, script, 0)
    ensures Tally(batch, fates, maxAttempts, reclaimed, StoppedBy(first, |batch|, script, 0)) ==
      TallyOf(batch, fates, maxAttempts, reclaimed, i).(abandoned := |batch| - i, stoppedBecause := reason)
  {
    Unfold(alive, |batch|, script, i);
    hide Fates, AliveAtEnd, StoppedBy, AfterOutcomes, Tally, TallyOf, Stops;
    forall k | i <= k < |fates| ensures fates[k].Abandoned? {
      assert fates[k] == fates[i..][k - i];
    }
    TallyStops(batch, fates, maxAttempts, reclaimed, i, reason);
  }

  lemma TurnGoesOn(claimed: Table, rows: Table, now: Table, first: bool, alive: bool, after: bool, batch: seq<Copy>,
                   fates: seq<Fate>, script: Script, i: nat, worker: Id, maxAttempts: nat, reclaimed: nat)
    requires Halfway(claimed, rows, first, alive, batch, fates, script, i, worker, maxAttempts) && i < |batch|
    requires !Stops(alive, script(i)) && after == AliveAfter(alive, script(i)) && batch[i].id < |rows|
    requires now == rows[batch[i].id := WithFate(rows[batch[i].id], batch[i], FateOf(script(i)), worker, maxAttempts)]
    ensures Halfway(claimed, now, first, after, batch, fates, script, i + 1, worker, maxAttempts)
    ensures var before := TallyOf(batch, fates, maxAttempts, reclaimed, i);
      TallyOf(batch, fates, maxAttempts, reclaimed, i + 1) ==
        if script(i).answer.Delivered? then before.(published := before.published + 1)
        else before.(failed := before.failed + 1,
               deadLettered := before.deadLettered + if batch[i].attempts + 1 >= maxAttempts then 1 else 0)
  {
    Unfold(alive, |batch|, script, i);
    AfterOneMore(claimed, batch, fates, worker, maxAttempts, i);
    assert fates[i] == fates[i..][0] && fates[i + 1..] == fates[i..][1..];
    hide Fates, AliveAtEnd, StoppedBy, AfterOutcomes, TallyOf, StopBefore, AliveAfter;
    TallyGrows(batch, fates, maxAttempts, reclaimed, i, script(i));
  }

  lemma BatchEnds(claimed: Table, rows: Table, first: bool, alive: bool, batch: seq<Copy>, fates: seq<Fate>,
                  script: Script, worker: Id, maxAttempts: nat, reclaimed: nat)
    requires Halfway(claimed, rows, first, alive, batch, fates, script, |batch|, worker, maxAttempts)
    ensures rows == AfterOutcomes(claimed, batch, fates, worker, maxAttempts, |batch|)
    ensures alive == AliveAtEnd(first, |batch|, script, 0) && |batch| == |fates| && InTable(claimed, batch)
    ensures Tally(batch, fates, maxAttempts, reclaimed, StoppedBy(first, |batch|, script, 0)) ==
      TallyOf(batch, fates, maxAttempts, reclaimed, |batch|)
  {
    AtEnd(alive, |batch|, script);
    TallyEnds(batch, fates, maxAttempts, reclaimed);
  }

  class BrokerSession {
    var alive: bool

    constructor ()
      ensures alive
    {
      alive := true;
    }

    method Die()
      modifies this
      ensures !alive
    {
      alive := false;
    }

    // `guardTransport`: the session dies before the error reaches the caller.
    method Publish(answer: Answer) returns (delivered: bool)
      modifies this
      ensures delivered <==> answer.Delivered?
      ensures alive == (old(alive) && !answer.Broken?)
    {
      delivered := answer.Delivered?;
      if answer.Broken? {
        Die();
      }
    }
  }

  // The first `limit` rows of `due` that may be claimed.
  function Candidates(rows: Table, due: seq<nat>, limit: nat): (chosen: set<nat>)
    ensures |chosen| <= limit
    ensures forall i <- chosen :: i < |rows| && i in due && Claimable(rows, i)
    decreases |due|
  {
    if due == [] then {}
    else
      var chosen := Candidates(rows, due[..|due| - 1], limit);
      var last := due[|due| - 1];
      if |chosen| < limit && last < |rows| && Claimable(rows, last) then chosen + {last} else chosen
  }

  /**
   A claim takes what comes first: of the rows that are due and may be claimed, one is left only when the batch
   is full without it, and then everything in the batch was due before it.
   */
  lemma {:induction false} FirstDueAreTaken(rows: Table, due: seq<nat>, limit: nat, k: nat)
    requires k < |due| && due[k] < |rows| && Claimable(rows, due[k]) && due[k] !in Candidates(rows, due, limit)
    ensures |Candidates(rows, due, limit)| == limit
    ensures forall i <- Candidates(rows, due, limit) :: i in due[..k]
    decreases |due|
  {
    var init, last := due[..|due| - 1], due[|due| - 1];
    if k < |init| {
      FirstDueAreTaken(rows, init, limit, k);
      assert init[..k] == due[..k];
    } else {
      assert init == due[..k];
    }
  }

  predicate IsFirstReplayable(rows: Table, newestFirst: seq<nat>, k: nat)
    requires k < |newestFirst|
  {
    && newestFirst[k] < |rows| && CanReplay(rows[newestFirst[k]])
    && forall j :: 0 <= j < k && newestFirst[j] < |rows| ==> !CanReplay(rows[newestFirst[j]])
  }

  class Publisher {
    var rows: Table
    const worker: Id
    const maxAttempts: nat

    constructor (rows: Table, worker: Id, maxAttempts: nat)
      ensures this.rows == rows && this.worker == worker && this.maxAttempts == maxAttempts
    {
      this.rows := rows;
      this.worker := worker;
      this.maxAttempts := maxAttempts;
    }

    // `due` lists the rows whose time has come and that nobody has locked, in the order of that time.
    method ClaimBatch(due: seq<nat>, limit: nat) returns (batch: seq<Copy>)
      modifies this
      ensures rows == ClaimedAll(old(rows), Candidates(old(rows), due, limit), worker)
      ensures batch == CopiesOf(old(rows), Candidates(old(rows), due, limit), 0)
    {
      var chosen: set<nat>, k := {}, 0;
      while k < |due|
        invariant 0 <= k <= |due| && chosen == Candidates(rows, due[..k], limit)
        invariant rows == old(rows)
      {
        assert due[..k + 1][..k] == due[..k];
        if |chosen| < limit && due[k] < |rows| && MayClaim(due[k]) {
          chosen := chosen + {due[k]};
        }
        k := k + 1;
      }
      assert due[..k] == due;
      batch := CopiesOf(rows, chosen, 0);
      rows := ClaimedAll(rows, chosen, worker);
    }

    predicate MayClaim(i: nat)
      requires i < |rows|
      reads this
    {
      Claimable(rows, i)
    }

    method MarkPublished(id: nat)
      requires id < |rows|
      modifies this
      ensures rows == old(rows)[id := Marked(old(rows)[id])]
    {
      rows := rows[id := rows[id].(published := true, owner := None, leased := false)];
    }

    method RecordFailure(copy: Copy) returns (dead: bool)
      requires copy.id < |rows|
      modifies this
      ensures rows == old(rows)[copy.id := Failed(old(rows)[copy.id], copy.attempts, maxAttempts)]
      ensures dead == (copy.attempts + 1 >= maxAttempts)
    {
      var attempt := copy.attempts + 1;
      dead := attempt >= maxAttempts;
      rows := rows[copy.id := rows[copy.id].(attempts := attempt, deadLettered := dead, owner := None, leased := false)];
    }

    // A replay puts the newest published row back into the claimable state. `newestFirst` lists the rows
    // nobody has locked, the latest published first.
    method ReplayLastEvent(newestFirst: seq<nat>) returns (replayed: Option<nat>)
      modifies this
      ensures replayed.None? ==>
        rows == old(rows) && forall i <- newestFirst :: i < |rows| ==> !(rows[i].published && !rows[i].deadLettered)
      ensures replayed.Some? ==>
        replayed.value < |old(rows)| && old(rows)[replayed.value].published && !old(rows)[replayed.value].deadLettered
      ensures replayed.Some? ==> rows == old(rows)[replayed.value := Replayed(old(rows)[replayed.value])]
      ensures replayed.Some? ==>
        exists k :: 0 <= k < |newestFirst| && newestFirst[k] == replayed.value && IsFirstReplayable(old(rows), newestFirst, k)
    {
      replayed := None;
      var k := 0;
      while k < |newestFirst|
        invariant 0 <= k <= |newestFirst| && rows == old(rows)
        invariant forall j :: 0 <= j < k && newestFirst[j] < |rows| ==> !CanReplay(rows[newestFirst[j]])
      {
        var id := newestFirst[k];
        if id < |rows| && rows[id].published && !rows[id].deadLettered {
          assert IsFirstReplayable(rows, newestFirst, k);
          rows := rows[id := rows[id].(published := false, owner := None, leased := false, attempts := 0)];
          return Some(id);
        }
        k := k + 1;
      }
    }

    // One statement for all the rows a pass gives back: those this worker still holds are free at once, what
    // somebody else has claimed since stays claimed, and nothing is charged or otherwise changed.
    method ReleaseClaims(ids: set<nat>)
      modifies this`rows
      ensures |rows| == |old(rows)|
      ensures forall i :: 0 <= i < |rows| && i in ids && rows[i].owner == Some(worker) ==> rows[i].published
      ensures forall i :: 0 <= i < |rows| && !(i in ids && old(rows)[i].owner == Some(worker) && !old(rows)[i].published) ==>
        rows[i] == old(rows)[i]
      ensures forall i :: 0 <= i < |rows| ==>
        rows[i] == old(rows)[i] || rows[i] == old(rows)[i].(owner := None, leased := false)
    {
      if ids != {} {
        rows := ReleasedAll(rows, ids, worker);
      }
    }

    method PublishOnce(session: BrokerSession, due: seq<nat>, limit: nat,
        script: Script) returns (result: PublishRunResult)
      modifies this, session
      ensures
        var chosen := Candidates(old(rows), due, limit);
        var batch, claimed := CopiesOf(old(rows), chosen, 0), ClaimedAll(old(rows), chosen, worker);
        var fates := Fates(old(session.alive), |batch|, script, 0);
        && InTable(old(rows), batch) && InTable(claimed, batch)
        && rows == AfterOutcomes(claimed, batch, fates, worker, maxAttempts, |batch|)
        && session.alive == AliveAtEnd(old(session.alive), |batch|, script, 0)
        && result == Tally(batch, fates, maxAttempts, Reclaimed(old(rows), batch, |batch|),
                           StoppedBy(old(session.alive), |batch|, script, 0))
    {
      hide *;
      ghost var before := rows;
      var owners := rows;
      var batch := ClaimBatch(due, limit);
      assert InTable(before, batch) && InTable(rows, batch) by { BatchInTable(before, Candidates(before, due, limit), worker); }
      var reclaimed := CountReclaimed(owners, batch);
      result := SendBatch(session, batch, script, reclaimed);
    }

    method CountReclaimed(owners: Table, batch: seq<Copy>) returns (reclaimed: nat)
      requires InTable(owners, batch)
      ensures reclaimed == Reclaimed(owners, batch, |batch|)
    {
      reclaimed := 0;
      for i := 0 to |batch|
        invariant reclaimed == Reclaimed(owners, batch, i)
      {
        reclaimed := reclaimed + if owners[batch[i].id].owner.Some? then 1 else 0;
      }
    }

    // The loop of a pass over the rows it holds.
    method SendBatch(session: BrokerSession, batch: seq<Copy>, script: Script, reclaimed: nat) returns (result: PublishRunResult)
      requires InTable(rows, batch)
      modifies this, session
      ensures var fates := Fates(old(session.alive), |batch|, script, 0);
        && rows == AfterOutcomes(old(rows), batch, fates, worker, maxAttempts, |batch|)
        && session.alive == AliveAtEnd(old(session.alive), |batch|, script, 0)
        && result == Tally(batch, fates, maxAttempts, reclaimed, StoppedBy(old(session.alive), |batch|, script, 0))
    {
      ghost var claimed, alive := rows, session.alive;
      var n, i := |batch|, 0;
      ghost var fates := Fates(alive, n, script, 0);
      result := PublishRunResult(n, 0, 0, 0, 0, reclaimed, None);
      hide *;
      TallyStarts(batch, fates, maxAttempts, reclaimed);
      HalfwayStarts(claimed, alive, batch, fates, script, worker, maxAttempts);
      while i < n
        invariant 0 <= i <= n == |fates|
        invariant Halfway(claimed, rows, alive, session.alive, batch, fates, script, i, worker, maxAttempts)
        invariant result == TallyOf(batch, fates, maxAttempts, reclaimed, i)
      {
        ghost var before, was := rows, session.alive;
        IdAt(claimed, rows, alive, session.alive, batch, fates, script, i, worker, maxAttempts);
        var reason := Look(session, script(i));
        if reason.None? {
          reason := Send(session, script(i), batch[i]);
        }
        if reason.Some? {
          TurnStops(claimed, before, alive, was, batch, fates, script, i, worker, maxAttempts, reclaimed, reason, session.alive);
          GiveUpFrom(batch, i, claimed, fates);
          result := result.(abandoned := n - i, stoppedBecause := reason);
          return;
        }
        TurnGoesOn(claimed, before, rows, alive, was, session.alive, batch, fates, script, i, worker, maxAttempts, reclaimed);
        if script(i).answer.Delivered? {
          result := result.(published := result.published + 1);
        } else {
          result := result.(failed := result.failed + 1,
            deadLettered := result.deadLettered + if batch[i].attempts + 1 >= maxAttempts then 1 else 0);
        }
        i := i + 1;
      }
      BatchEnds(claimed, rows, alive, session.alive, batch, fates, script, worker, maxAttempts, reclaimed);
    }

    // The checks before a send, each asked of the session as it is by then.
    method Look(session: BrokerSession, turn: Turn) returns (reason: Option<StopReason>)
      modifies session
      ensures reason == StopBefore(old(session.alive), turn)
      ensures session.alive == if reason.Some? then AliveAfter(old(session.alive), turn) else AliveAtSend(old(session.alive), turn)
    {
      if turn.first.dies {
        session.Die();
      }
      reason := ReasonToStop(session.alive, turn.first);
      if reason.None? && turn.delayed.Some? {
        if turn.delayed.value.dies {
          session.Die();
        }
        reason := ReasonToStop(session.alive, turn.delayed.value);
      }
    }

    // The send and the outcome it is recorded with; one that outlives the lease is recorded as nothing.
    method Send(session: BrokerSession, turn: Turn, copy: Copy) returns (reason: Option<StopReason>)
      requires copy.id < |rows|
      modifies this, session
      ensures reason == if turn.answer.Overran? then Some(LeaseOver) else None
      ensures session.alive == (old(session.alive) && !turn.answer.Broken? && !turn.answer.Overran?)
      ensures rows == if turn.answer.Overran? then old(rows)
        else old(rows)[copy.id := WithFate(old(rows)[copy.id], copy, FateOf(turn), worker, maxAttempts)]
    {
      reason := None;
      if turn.answer.Overran? {
        session.Die();
        reason := Some(LeaseOver);
      } else {
        var delivered := session.Publish(turn.answer);
        if delivered {
          MarkPublished(copy.id);
        } else {
          var _ := RecordFailure(copy);
        }
      }
    }

    method GiveUpFrom(batch: seq<Copy>, i: nat, ghost claimed: Table, ghost fates: seq<Fate>)
      requires i <= |batch| == |fates| && InTable(claimed, batch)
      requires forall k :: i <= k < |fates| ==> fates[k].Abandoned?
      requires rows == AfterOutcomes(claimed, batch, fates, worker, maxAttempts, i)
      modifies this
      ensures rows == AfterOutcomes(claimed, batch, fates, worker, maxAttempts, |batch|)
    {
      ghost var before := rows;
      ReleaseClaims(IdsOf(batch[i..]));
      assert rows == ReleasedAll(before, IdsOf(batch[i..]), worker);
      ReleasedTogether(claimed, batch, fates, worker, maxAttempts, i, |batch|);
      assert batch[i..|batch|] == batch[i..];
    }
  }
}
