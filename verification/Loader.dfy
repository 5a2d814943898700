/**
 The coalescing loader of a screen, and the bounded retry each of its rounds is.
 */
module Loader {
  import opened Domain

  /* ---- one round: read until satisfied, or until the budget runs out ---- */

  datatype Outcome<T> = Outcome(value: T, converged: bool, attempts: nat) | NeverRead(attempts: nat)

  // The freshest successful read among the first `n`.
  function Freshest<T>(results: nat -> Option<T>, n: nat): (read: Option<T>)
    ensures read.None? <==> forall i :: 0 <= i < n ==> results(i).None?
    ensures read.Some? ==> exists i :: 0 <= i < n && results(i) == read && forall j :: i < j < n ==> results(j).None?
  {
    if n == 0 then None else if results(n - 1).Some? then results(n - 1) else Freshest(results, n - 1)
  }

  predicate SatisfiedAt<T>(results: nat -> Option<T>, satisfied: T -> bool, i: nat) {
    results(i).Some? && satisfied(results(i).value)
  }

  // `results(i)` is what the `i`-th read brings, `None` when it fails.
  method RefetchUntil<T>(results: nat -> Option<T>, satisfied: T -> bool, attempts: int) returns (outcome: Outcome<T>)
    ensures var budget: nat := if attempts > 1 then attempts else 1;
      && 1 <= outcome.attempts <= budget
      && (forall i :: 0 <= i < outcome.attempts - 1 ==> !SatisfiedAt(results, satisfied, i))
      && (outcome.NeverRead? <==> Freshest(results, budget).None?)
      && (outcome.Outcome? ==>
            && Freshest(results, outcome.attempts) == Some(outcome.value)
            && (outcome.converged <==> SatisfiedAt(results, satisfied, outcome.attempts - 1))
            && (!outcome.converged ==> outcome.attempts == budget))
  {
    var budget := if attempts > 1 then attempts else 1;
    var value: Option<T>, failedLast, attempt := None, false, 0;
    while attempt < budget
      invariant 0 <= attempt <= budget
      invariant value == Freshest(results, attempt)
      invariant forall i :: 0 <= i < attempt ==> !SatisfiedAt(results, satisfied, i)
      invariant attempt > 0 ==> (failedLast <==> results(attempt - 1).None?)
    {
      var read := results(attempt);
      attempt := attempt + 1;
      if read.Some? {
        value, failedLast := read, false;
        if satisfied(read.value) {
          assert results(attempt - 1).Some?;
          return Outcome(read.value, true, attempt);
        }
      } else {
        failedLast := true;
      }
    }
    if value.None? {
      return NeverRead(budget);
    }
    outcome := Outcome(value.value, !failedLast && satisfied(value.value), budget);
  }

  /* ---- the loader ---- */

  // What an event asked for, and when.
  datatype Raised = Raised(expectation: Id, at: nat)

  // A round in progress: what it took up, when its reads went out, which of them came back with something,
  // whether one is still out, and when the freshest one that came back had gone out.
  datatype Phase = Idle | Reading(batch: seq<Raised>, issued: seq<nat>, came: seq<bool>, out: bool, freshest: Option<nat>)

  datatype Round = Round(batch: seq<Raised>, issued: seq<nat>, came: seq<bool>)

  // `raised`, `finished` and `applied` record what happened; `now` counts the moves.
  datatype Loader = Loader(
    now: nat, queued: seq<Raised>, again: bool, phase: Phase,
    raised: seq<Raised>, finished: seq<Round>, applied: seq<nat>)

  datatype Move =
    | Raise(expectation: Id)
    | Ask
    | Issue
    | Land(ok: bool)
    | Finish

  function StartRound(l: Loader): Loader {
    l.(queued := [], again := false, phase := Reading(l.queued, [], [], false, None))
  }

  // `run`, with an expectation or without: it starts the loop, or asks the running one for a round more.
  function RunStep(l: Loader): Loader {
    if l.phase.Idle? then StartRound(l) else l.(again := true)
  }

  // The last check and the clearing of `running` are one step.
  function FinishStep(l: Loader): Loader
    requires l.phase.Reading?
  {
    var done := l.(finished := l.finished + [Round(l.phase.batch, l.phase.issued, l.phase.came)],
                   applied := if l.phase.freshest.Some? then l.applied + [l.phase.freshest.value] else l.applied);
    if l.again || l.queued != [] then StartRound(done) else done.(phase := Idle)
  }

  function Step(before: Loader, move: Move): Loader {
    var l := before.(now := before.now + 1);
    match move
    case Raise(expectation) =>
      var r := Raised(expectation, before.now);
      RunStep(l.(queued := l.queued + [r], raised := l.raised + [r]))
    case Ask => RunStep(l)
    case Issue =>
      if l.phase.Reading? && !l.phase.out
      then l.(phase := l.phase.(issued := l.phase.issued + [before.now], out := true)) else l
    case Land(ok) =>
      if l.phase.Reading? && l.phase.out && l.phase.issued != []
      then l.(phase := l.phase.(out := false, came := l.phase.came + [ok],
              freshest := if ok then Some(l.phase.issued[|l.phase.issued| - 1]) else l.phase.freshest))
      else l
    case Finish => if l.phase.Reading? && !l.phase.out && l.phase.issued != [] then FinishStep(l) else l
  }

  const START := Loader(0, [], false, Idle, [], [], [])

  function Run(moves: seq<Move>): Loader {
    if moves == [] then START else Step(Run(moves[..|moves| - 1]), moves[|moves| - 1])
  }

  /* ---- what it keeps ---- */

  // Only reads that went out after an expectation was raised may answer for it.
  predicate JudgedLater(batch: seq<Raised>, issued: seq<nat>) {
    forall i, k :: 0 <= i < |batch| && 0 <= k < |issued| ==> batch[i].at < issued[k]
  }

  predicate Increasing(times: seq<nat>) {
    forall i, j :: 0 <= i < j < |times| ==> times[i] < times[j]
  }

  predicate HadARound(l: Loader, r: Raised) {
    exists k :: 0 <= k < |l.finished| && r in l.finished[k].batch && l.finished[k].issued != []
  }

  predicate LookedAfter(l: Loader, r: Raised) {
    r in l.queued || (l.phase.Reading? && r in l.phase.batch) || HadARound(l, r)
  }

  predicate PhaseOk(l: Loader) {
    l.phase.Reading? ==>
      && JudgedLater(l.phase.batch, l.phase.issued) && Increasing(l.phase.issued)
      && (forall i :: 0 <= i < |l.phase.batch| ==> l.phase.batch[i].at < l.now)
      && (forall k :: 0 <= k < |l.phase.issued| ==> l.phase.issued[k] < l.now)
      && (l.phase.freshest.Some? ==> l.phase.freshest.value in l.phase.issued)
      && (forall a <- l.applied, k <- l.phase.issued :: a < k)
  }

  predicate LoaderOk(l: Loader) {
    && PhaseOk(l)
    && (forall i :: 0 <= i < |l.queued| ==> l.queued[i].at < l.now)
    && (l.phase.Idle? ==> l.queued == [])
    && (forall k :: 0 <= k < |l.finished| ==> JudgedLater(l.finished[k].batch, l.finished[k].issued))
    && Increasing(l.applied) && (forall a <- l.applied :: a < l.now)
    && (forall r <- l.raised :: LookedAfter(l, r))
  }

  lemma RoundStarts(l: Loader)
    requires forall i :: 0 <= i < |l.queued| ==> l.queued[i].at < l.now
    requires forall k :: 0 <= k < |l.finished| ==> JudgedLater(l.finished[k].batch, l.finished[k].issued)
    requires Increasing(l.applied) && forall a <- l.applied :: a < l.now
    requires forall r <- l.raised :: r in l.queued || HadARound(l, r)
    ensures LoaderOk(StartRound(l))
  {
    var after := StartRound(l);
    forall r | r in l.raised ensures LookedAfter(after, r) {
      if r !in l.queued { RoundStays(l, after, r); }
    }
  }

  lemma RoundStays(l: Loader, after: Loader, r: Raised)
    requires HadARound(l, r) && l.finished <= after.finished
    ensures HadARound(after, r)
  {
    var k :| 0 <= k < |l.finished| && r in l.finished[k].batch && l.finished[k].issued != [];
    assert after.finished[k] == l.finished[k];
  }

  lemma RaiseKeeps(l: Loader, expectation: Id)
    requires LoaderOk(l)
    ensures LoaderOk(Step(l, Raise(expectation)))
  {
    var r := Raised(expectation, l.now);
    var asked := l.(now := l.now + 1, queued := l.queued + [r], raised := l.raised + [r]);
    forall s | s in asked.raised ensures s in asked.queued || (l.phase.Reading? && s in l.phase.batch) || HadARound(asked, s) {
      if s in l.raised {
        assert LookedAfter(l, s);
        if HadARound(l, s) { RoundStays(l, asked, s); }
      }
    }
    if l.phase.Idle? {
      RoundStarts(asked);
    } else {
      var after := Step(l, Raise(expectation));
      forall s | s in after.raised ensures LookedAfter(after, s) {
        if HadARound(asked, s) { RoundStays(asked, after, s); }
      }
    }
  }

  lemma AskKeeps(l: Loader)
    requires LoaderOk(l)
    ensures LoaderOk(Step(l, Ask))
  {
    var after := Step(l, Ask);
    if l.phase.Idle? {
      forall s | s in l.raised ensures HadARound(l.(now := l.now + 1), s) {
        assert LookedAfter(l, s);
        RoundStays(l, l.(now := l.now + 1), s);
      }
      RoundStarts(l.(now := l.now + 1));
    } else {
      forall s | s in after.raised ensures LookedAfter(after, s) {
        assert LookedAfter(l, s);
        if HadARound(l, s) { RoundStays(l, after, s); }
      }
    }
  }

  lemma StaysLookedAfter(l: Loader, after: Loader)
    requires forall s <- l.raised :: LookedAfter(l, s)
    requires after.raised == l.raised && after.queued == l.queued && after.finished == l.finished
    requires after.phase.Reading? <==> l.phase.Reading?
    requires l.phase.Reading? ==> after.phase.batch == l.phase.batch
    ensures forall s <- after.raised :: LookedAfter(after, s)
  {
    forall s | s in after.raised ensures LookedAfter(after, s) {
      assert LookedAfter(l, s);
      if HadARound(l, s) { RoundStays(l, after, s); }
    }
  }

  lemma IssueKeeps(l: Loader)
    requires LoaderOk(l)
    ensures LoaderOk(Step(l, Issue))
  {
    StaysLookedAfter(l, Step(l, Issue));
    hide LookedAfter;
    if l.phase.Reading? && !l.phase.out { GrowsIncreasing(l.phase.issued, l.now); }
  }

  lemma LandKeeps(l: Loader, ok: bool)
    requires LoaderOk(l)
    ensures LoaderOk(Step(l, Land(ok)))
  {
    StaysLookedAfter(l, Step(l, Land(ok)));
    hide LookedAfter, Increasing, JudgedLater;
  }

  lemma GrowsIncreasing(times: seq<nat>, next: nat)
    requires Increasing(times) && forall a <- times :: a < next
    ensures Increasing(times + [next])
  {
    assert forall i :: 0 <= i < |times| ==> times[i] in times;
  }

  function RoundDone(l: Loader): Loader
    requires l.phase.Reading?
  {
    l.(now := l.now + 1, finished := l.finished + [Round(l.phase.batch, l.phase.issued, l.phase.came)],
       applied := if l.phase.freshest.Some? then l.applied + [l.phase.freshest.value] else l.applied)
  }

  lemma BatchHadItsRound(l: Loader, s: Raised)
    requires LoaderOk(l) && l.phase.Reading? && l.phase.issued != [] && s in l.raised
    ensures s in l.queued || HadARound(RoundDone(l), s)
  {
    var done := RoundDone(l);
    assert LookedAfter(l, s);
    if HadARound(l, s) {
      RoundStays(l, done, s);
    } else if s in l.phase.batch {
      assert done.finished[|l.finished|].batch == l.phase.batch;
    }
  }

  lemma FinishKeeps(l: Loader)
    requires LoaderOk(l) && l.phase.Reading? && !l.phase.out && l.phase.issued != []
    ensures LoaderOk(Step(l, Finish))
  {
    var done := RoundDone(l);
    if l.phase.freshest.Some? { GrowsIncreasing(l.applied, l.phase.freshest.value); }
    forall s | s in l.raised ensures s in l.queued || HadARound(done, s) {
      hide LoaderOk, HadARound;
      BatchHadItsRound(l, s);
    }
    if l.again || l.queued != [] {
      RoundStarts(done);
    } else {
      var after := Step(l, Finish);
      forall s | s in after.raised ensures LookedAfter(after, s) {
        RoundStays(done, after, s);
      }
    }
  }

  lemma WaitKeeps(l: Loader)
    requires LoaderOk(l)
    ensures LoaderOk(l.(now := l.now + 1))
  {
    StaysLookedAfter(l, l.(now := l.now + 1));
    hide LookedAfter, Increasing, JudgedLater;
  }

  lemma StepKeeps(l: Loader, move: Move)
    requires LoaderOk(l)
    ensures LoaderOk(Step(l, move))
  {
    hide LoaderOk;
    match move
    case Raise(expectation) => RaiseKeeps(l, expectation);
    case Ask => AskKeeps(l);
    case Finish =>
      if l.phase.Reading? && !l.phase.out && l.phase.issued != [] { FinishKeeps(l); } else { WaitKeeps(l); }
    case Issue => IssueKeeps(l);
    case Land(ok) => LandKeeps(l, ok);
  }

  lemma {:induction false} RunIsOk(moves: seq<Move>)
    ensures LoaderOk(Run(moves))
  {
    hide LoaderOk, Step;
    if moves == [] {
      StartIsOk();
    } else {
      RunIsOk(moves[..|moves| - 1]);
      StepKeeps(Run(moves[..|moves| - 1]), moves[|moves| - 1]);
    }
  }

  lemma StartIsOk()
    ensures LoaderOk(START)
  {
  }

  /**
   Results are written in the order their reads went out; an expectation is answered for only by reads that
   went out after it was raised; and when the loader goes idle every expectation has had a round with at
   least one read in it, whatever became of earlier rounds.
   */
  lemma NoExpectationIsStranded(moves: seq<Move>)
    ensures var l := Run(moves);
      && Increasing(l.applied)
      && (forall k :: 0 <= k < |l.finished| ==> JudgedLater(l.finished[k].batch, l.finished[k].issued))
      && (forall r <- l.raised :: LookedAfter(l, r))
      && (l.phase.Idle? ==> forall r <- l.raised :: HadARound(l, r))
  {
    RunIsOk(moves);
    var l := Run(moves);
    forall r | r in l.raised && l.phase.Idle? ensures HadARound(l, r) {
      assert LookedAfter(l, r);
    }
  }

  /* ---- what is applied ---- */

  // When the last read of a round that came back with something had gone out.
  predicate IsFreshest(issued: seq<nat>, came: seq<bool>, k: nat) {
    k < |came| <= |issued| && came[k] && forall j :: k < j < |came| ==> !came[j]
  }

  predicate BringsNothing(came: seq<bool>) {
    forall k :: 0 <= k < |came| ==> !came[k]
  }

  predicate IsResult(issued: seq<nat>, came: seq<bool>, result: Option<nat>) {
    match result
    case None => BringsNothing(came)
    case Some(at) => exists k: nat :: k < |came| && IsFreshest(issued, came, k) && issued[k] == at
  }

  // The results of the rounds, one for each that brought anything, in their order.
  predicate AreResults(rounds: seq<Round>, applied: seq<nat>) {
    if rounds == [] then applied == []
    else
      var before, last := rounds[..|rounds| - 1], rounds[|rounds| - 1];
      if BringsNothing(last.came) then AreResults(before, applied)
      else applied != [] && IsResult(last.issued, last.came, Some(applied[|applied| - 1])) && AreResults(before, applied[..|applied| - 1])
  }

  predicate ResultsOk(l: Loader) {
    && AreResults(l.finished, l.applied)
    && (forall k :: 0 <= k < |l.finished| ==> 0 < |l.finished[k].came| == |l.finished[k].issued|)
    && (l.phase.Reading? ==>
          && |l.phase.issued| == |l.phase.came| + (if l.phase.out then 1 else 0)
          && IsResult(l.phase.issued, l.phase.came, l.phase.freshest))
  }

  lemma IssuesMore(issued: seq<nat>, came: seq<bool>, result: Option<nat>, now: nat)
    requires |came| == |issued| && IsResult(issued, came, result)
    ensures IsResult(issued + [now], came, result)
  {
    if result.Some? {
      var k: nat :| k < |came| && IsFreshest(issued, came, k) && issued[k] == result.value;
      assert IsFreshest(issued + [now], came, k) && (issued + [now])[k] == result.value;
    }
  }

  lemma ComesBack(issued: seq<nat>, came: seq<bool>, result: Option<nat>, ok: bool)
    requires |issued| == |came| + 1 && IsResult(issued, came, result)
    ensures IsResult(issued, came + [ok], if ok then Some(issued[|issued| - 1]) else result)
  {
    if ok {
      assert IsFreshest(issued, came + [ok], |came|);
    } else if result.Some? {
      var k: nat :| k < |came| && IsFreshest(issued, came, k) && issued[k] == result.value;
      assert IsFreshest(issued, came + [ok], k);
    }
  }

  lemma RoundEnds(l: Loader)
    requires ResultsOk(l) && l.phase.Reading? && !l.phase.out && l.phase.issued != []
    ensures ResultsOk(FinishStep(l))
  {
    var round := Round(l.phase.batch, l.phase.issued, l.phase.came);
    var rounds := l.finished + [round];
    assert rounds[..|l.finished|] == l.finished;
    if l.phase.freshest.Some? {
      var applied := l.applied + [l.phase.freshest.value];
      assert applied[..|l.applied|] == l.applied;
    }
    assert BringsNothing([]);
  }

  lemma NothingReadYet()
    ensures IsResult([], [], None)
  {
    assert BringsNothing([]);
  }

  lemma StepKeepsResults(l: Loader, move: Move)
    requires ResultsOk(l)
    ensures ResultsOk(Step(l, move))
  {
    hide AreResults, IsResult, IsFreshest, BringsNothing;
    NothingReadYet();
    match move
    case Issue => if l.phase.Reading? && !l.phase.out { IssuesMore(l.phase.issued, l.phase.came, l.phase.freshest, l.now); }
    case Land(ok) =>
      if l.phase.Reading? && l.phase.out && l.phase.issued != [] { ComesBack(l.phase.issued, l.phase.came, l.phase.freshest, ok); }
    case Finish =>
      if l.phase.Reading? && !l.phase.out && l.phase.issued != [] { RoundEnds(l.(now := l.now + 1)); }
    case _ =>
  }

  /**
   What is written, over any run: for each finished round the freshest read that came back with something, and
   nothing for one in which none did; once each, in the order of the rounds. Every finished round has heard back
   from all its reads.
   */
  lemma {:induction false} EachRoundIsApplied(moves: seq<Move>)
    ensures ResultsOk(Run(moves))
  {
    hide ResultsOk, Step;
    if moves == [] {
      NothingApplied();
    } else {
      EachRoundIsApplied(moves[..|moves| - 1]);
      StepKeepsResults(Run(moves[..|moves| - 1]), moves[|moves| - 1]);
    }
  }

  lemma NothingApplied()
    ensures ResultsOk(START)
  {
  }
}
