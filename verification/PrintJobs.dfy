/**
 The life of a print job: one attempt at a time, a bound on attempts, a sweep that repairs lost jobs, and
 a human who may retry a dead one.
 */
module PrintJobs {
  import opened Domain
  import opened TicketHash

  datatype JobState = PendingJob | PrintedJob | FailedJob | DeadLetterJob

  datatype Job = Job(orderId: Id, state: JobState, attempts: nat)

  type Jobs = map<Hash, Job>

  // How the call to the device ends. In the last case the worker dies before it records anything.
  datatype DeviceAnswer = Emitted | Recognised | NoAnswer | WorkerDied

  datatype PrintOutcome = Printed | DeviceDuplicate | AlreadyPrinted | DeadLettered | Retried | Vanished

  // A ticket of the projection, as the sweep sees it.
  datatype KitchenTicket = KitchenTicket(ticket: PrintableTicket, cancelled: bool)

  datatype ManualRetryResult = Requeued | NotDeadLettered | NoTicket

  datatype ReconcileResult = ReconcileResult(found: nat, enqueued: nat)

  /* ---- one run ---- */

  function JobFor(jobs: Jobs, ticket: PrintableTicket): Job {
    if HashOf(ticket) in jobs then jobs[HashOf(ticket)] else Job(ticket.orderId, PendingJob, 0)
  }

  predicate IsFinal(job: Job) {
    job.state.PrintedJob? || job.state.DeadLetterJob?
  }

  function AfterAnswer(job: Job, answer: DeviceAnswer, maxAttempts: nat): Job {
    match answer
    case Emitted => job.(state := PrintedJob, attempts := job.attempts + 1)
    case Recognised => job.(state := PrintedJob, attempts := job.attempts + 1)
    case NoAnswer =>
      job.(state := if job.attempts + 1 >= maxAttempts then DeadLetterJob else FailedJob, attempts := job.attempts + 1)
    case WorkerDied => job
  }

  function Processed(jobs: Jobs, ticket: PrintableTicket, answer: DeviceAnswer, maxAttempts: nat): Jobs {
    var job := JobFor(jobs, ticket);
    jobs[HashOf(ticket) := if IsFinal(job) then job else AfterAnswer(job, answer, maxAttempts)]
  }

  function OutcomeOf(jobs: Jobs, ticket: PrintableTicket, answer: DeviceAnswer): PrintOutcome {
    var job := JobFor(jobs, ticket);
    if job.state.PrintedJob? then AlreadyPrinted
    else if job.state.DeadLetterJob? then DeadLettered
    else match answer
      case Emitted => Printed
      case Recognised => DeviceDuplicate
      case NoAnswer => Retried
      case WorkerDied => Vanished
  }

  // A human's retry: every dead row of the order starts over.
  function ResetOrder(jobs: Jobs, orderId: Id): (after: Jobs)
    ensures after.Keys == jobs.Keys
  {
    map hash <- jobs ::
      if jobs[hash].orderId == orderId && jobs[hash].state.DeadLetterJob?
      then jobs[hash].(state := PendingJob, attempts := 0) else jobs[hash]
  }

  /* ---- the sweep ---- */

  // Nothing is printing the ticket: it has no job, or one that has sat unfinished for too long.
  predicate IsOrphan(jobs: Jobs, stale: set<Hash>, kitchenTicket: KitchenTicket) {
    var orderId := kitchenTicket.ticket.orderId;
    && !kitchenTicket.cancelled
    && ((forall hash <- jobs :: jobs[hash].orderId != orderId)
        || (exists hash <- jobs :: jobs[hash].orderId == orderId && !IsFinal(jobs[hash]) && hash in stale))
  }

  function Orphans(jobs: Jobs, stale: set<Hash>, tickets: seq<KitchenTicket>): seq<PrintableTicket> {
    if tickets == [] then []
    else
      var before, last := Orphans(jobs, stale, tickets[..|tickets| - 1]), tickets[|tickets| - 1];
      if IsOrphan(jobs, stale, last) then before + [last.ticket] else before
  }

  function Found(jobs: Jobs, stale: set<Hash>, tickets: seq<KitchenTicket>, limit: nat): (found: seq<PrintableTicket>)
    ensures |found| <= limit && found <= Orphans(jobs, stale, tickets)
    ensures |found| == limit || found == Orphans(jobs, stale, tickets)
  {
    var orphans := Orphans(jobs, stale, tickets);
    if |orphans| <= limit then orphans else orphans[..limit]
  }

  // An order's lines are frozen when it goes to the kitchen, so it has one ticket and at most one job.
  predicate OneJobPerOrder(jobs: Jobs) {
    && (forall hash <- jobs :: hash.orderId == jobs[hash].orderId)
    && (forall a <- jobs, b <- jobs :: jobs[a].orderId == jobs[b].orderId ==> a == b)
  }

  lemma {:induction false} OrphansAreOrphans(jobs: Jobs, stale: set<Hash>, tickets: seq<KitchenTicket>,
      ticket: PrintableTicket)
    requires ticket in Orphans(jobs, stale, tickets)
    ensures IsOrphan(jobs, stale, KitchenTicket(ticket, false)) && KitchenTicket(ticket, false) in tickets
  {
    var init, last := tickets[..|tickets| - 1], tickets[|tickets| - 1];
    if ticket in Orphans(jobs, stale, init) {
      OrphansAreOrphans(jobs, stale, init, ticket);
    } else {
      assert last == KitchenTicket(ticket, false);
    }
  }

  // Nothing of an order is being printed and nothing is left to do for it.
  predicate AllFinal(jobs: Jobs, orderId: Id) {
    && (exists hash <- jobs :: jobs[hash].orderId == orderId)
    && (forall hash <- jobs :: jobs[hash].orderId == orderId ==> IsFinal(jobs[hash]))
  }

  /**
   What the sweep enqueues is a ticket that is not cancelled and whose order has no job, or one that has sat
   unfinished for too long; so an order whose jobs are all finished is left alone.
   */
  lemma SweepSparesFinalJobs(jobs: Jobs, stale: set<Hash>, tickets: seq<KitchenTicket>, limit: nat,
      ticket: PrintableTicket)
    requires ticket in Found(jobs, stale, tickets, limit)
    ensures KitchenTicket(ticket, false) in tickets && !AllFinal(jobs, ticket.orderId)
    ensures HashOf(ticket) in jobs && IsFinal(jobs[HashOf(ticket)]) && jobs[HashOf(ticket)].orderId == ticket.orderId ==>
      exists other <- jobs :: other != HashOf(ticket) && jobs[other].orderId == ticket.orderId
        && !IsFinal(jobs[other]) && other in stale
  {
    OrphansAreOrphans(jobs, stale, tickets, ticket);
  }

  // Nothing that should be printed is passed over.
  lemma {:induction false} EveryOrphanIsFound(jobs: Jobs, stale: set<Hash>, tickets: seq<KitchenTicket>, i: nat)
    requires i < |tickets| && IsOrphan(jobs, stale, tickets[i])
    ensures tickets[i].ticket in Orphans(jobs, stale, tickets)
  {
    if i < |tickets| - 1 {
      EveryOrphanIsFound(jobs, stale, tickets[..|tickets| - 1], i);
    }
  }

  class PrintStore {
    var jobs: Jobs
    const maxAttempts: nat

    constructor (maxAttempts: nat)
      ensures jobs == map[] && this.maxAttempts == maxAttempts
    {
      jobs := map[];
      this.maxAttempts := maxAttempts;
    }

    method ProcessPrintJob(ticket: PrintableTicket, answer: DeviceAnswer) returns (outcome: PrintOutcome, called: bool)
      modifies this
      ensures jobs == Processed(old(jobs), ticket, answer, maxAttempts)
      ensures outcome == OutcomeOf(old(jobs), ticket, answer)
      ensures called <==> !IsFinal(JobFor(old(jobs), ticket))
    {
      var hash := HashOf(ticket);
      called := false;
      if hash !in jobs {
        jobs := jobs[hash := Job(ticket.orderId, PendingJob, 0)];
      }
      var row := jobs[hash];
      if row.state.PrintedJob? {
        outcome := AlreadyPrinted;
      } else if row.state.DeadLetterJob? {
        outcome := DeadLettered;
      } else {
        called := true;
        var attempt := row.attempts + 1;
        match answer {
          case Emitted =>
            jobs := jobs[hash := row.(state := PrintedJob, attempts := attempt)];
            outcome := Printed;
          case Recognised =>
            jobs := jobs[hash := row.(state := PrintedJob, attempts := attempt)];
            outcome := DeviceDuplicate;
          case NoAnswer =>
            RecordFailure(hash, attempt);
            outcome := Retried;
          case WorkerDied =>
            outcome := Vanished;
        }
      }
    }

    method RecordFailure(hash: Hash, attempt: nat)
      requires hash in jobs
      modifies this
      ensures jobs == old(jobs)[hash :=
        old(jobs)[hash].(state := if attempt >= maxAttempts then DeadLetterJob else FailedJob, attempts := attempt)]
    {
      var state := if attempt >= maxAttempts then DeadLetterJob else FailedJob;
      jobs := jobs[hash := jobs[hash].(state := state, attempts := attempt)];
    }

    method ResetDeadLetteredJob(orderId: Id) returns (wasReset: bool)
      modifies this
      ensures jobs == ResetOrder(old(jobs), orderId)
      ensures wasReset <==> jobs != old(jobs)
    {
      wasReset := exists hash <- jobs :: jobs[hash].orderId == orderId && jobs[hash].state.DeadLetterJob?;
      ghost var before := jobs;
      jobs := ResetOrder(jobs, orderId);
      if wasReset {
        ghost var hash :| hash in before && before[hash].orderId == orderId && before[hash].state.DeadLetterJob?;
        assert jobs[hash].state != before[hash].state;
      }
    }

    // The row is reset first; `ticket` is what the projection then holds for the order.
    method RetryDeadLetteredTicket(orderId: Id, ticket: Option<PrintableTicket>)
      returns (result: ManualRetryResult, enqueued: Option<PrintableTicket>)
      modifies this
      ensures jobs == ResetOrder(old(jobs), orderId)
      ensures result == (if jobs == old(jobs) then NotDeadLettered else if ticket.None? then NoTicket else Requeued)
      ensures enqueued == if result.Requeued? then ticket else None
      ensures forall hash <- jobs :: jobs[hash].orderId == orderId ==> !jobs[hash].state.DeadLetterJob?
    {
      enqueued := None;
      var wasReset := ResetDeadLetteredJob(orderId);
      if !wasReset {
        return NotDeadLettered, None;
      }
      if ticket.None? {
        return NoTicket, None;
      }
      result, enqueued := Requeued, ticket;
    }

    // `failsAt` is where the queue stops taking jobs, if it does.
    method Reconcile(tickets: seq<KitchenTicket>, stale: set<Hash>, limit: nat, failsAt: Option<nat>)
      returns (result: ReconcileResult, queue: seq<PrintableTicket>)
      ensures var found := Found(jobs, stale, tickets, limit);
        && result.found == |found| && result.enqueued == |queue| <= |found|
        && queue == found[..|queue|]
        && (|queue| < |found| ==> failsAt == Some(|queue|))
    {
      var orphans := Found(jobs, stale, tickets, limit);
      result, queue := ReconcileResult(|orphans|, 0), [];
      while result.enqueued < |orphans|
        invariant result.found == |orphans| && result.enqueued == |queue| <= |orphans|
        invariant queue == orphans[..|queue|]
      {
        if failsAt == Some(result.enqueued) {
          return;
        }
        queue := queue + [orphans[result.enqueued]];
        result := result.(enqueued := result.enqueued + 1);
      }
    }
  }

  /* ---- every sequential run ---- */

  datatype Op = Process(ticket: PrintableTicket, answer: DeviceAnswer) | Reset(orderId: Id)

  // `calls` and `deaths` count, for each ticket since its last reset, the device calls and the workers
  // that died before recording one; `answers` records what the device has ever said about it, call by call.
  datatype Shift = Shift(jobs: Jobs, calls: map<Hash, nat>, deaths: map<Hash, nat>, answers: map<Hash, seq<DeviceAnswer>>)

  function AnswersOf(s: Shift, hash: Hash): seq<DeviceAnswer> {
    if hash in s.answers then s.answers[hash] else []
  }

  function Of(counts: map<Hash, nat>, hash: Hash): nat {
    if hash in counts then counts[hash] else 0
  }

  predicate CallsDevice(s: Shift, op: Op, hash: Hash) {
    op.Process? && HashOf(op.ticket) == hash && !IsFinal(JobFor(s.jobs, op.ticket))
  }

  function Step(s: Shift, op: Op, maxAttempts: nat): Shift {
    match op
    case Process(ticket, answer) =>
      var hash := HashOf(ticket);
      var called := CallsDevice(s, op, hash);
      Shift(Processed(s.jobs, ticket, answer, maxAttempts),
            if called then s.calls[hash := Of(s.calls, hash) + 1] else s.calls,
            if called && answer.WorkerDied? then s.deaths[hash := Of(s.deaths, hash) + 1] else s.deaths,
            if called then s.answers[hash := AnswersOf(s, hash) + [answer]] else s.answers)
    case Reset(orderId) =>
      var dead := set hash <- s.jobs | s.jobs[hash].orderId == orderId && s.jobs[hash].state.DeadLetterJob?;
      Shift(ResetOrder(s.jobs, orderId), s.calls - dead, s.deaths - dead, s.answers)
  }

  function Run(ops: seq<Op>, maxAttempts: nat): Shift {
    if ops == [] then Shift(map[], map[], map[], map[])
    else Step(Run(ops[..|ops| - 1], maxAttempts), ops[|ops| - 1], maxAttempts)
  }

  predicate JobOk(s: Shift, hash: Hash, maxAttempts: nat)
    requires hash in s.jobs
  {
    var job := s.jobs[hash];
    && Of(s.calls, hash) == job.attempts + Of(s.deaths, hash)
    && job.attempts <= maxAttempts
    && (job.state.DeadLetterJob? ==> job.attempts == maxAttempts)
    && (job.state.PendingJob? || job.state.FailedJob? ==> job.attempts < maxAttempts)
  }

  predicate ShiftOk(s: Shift, maxAttempts: nat) {
    && (forall hash <- s.jobs :: JobOk(s, hash, maxAttempts))
    && s.calls.Keys <= s.jobs.Keys && s.deaths.Keys <= s.jobs.Keys
  }

  lemma ProcessKeepsShift(s: Shift, ticket: PrintableTicket, answer: DeviceAnswer, maxAttempts: nat)
    requires ShiftOk(s, maxAttempts) && maxAttempts > 0
    ensures ShiftOk(Step(s, Process(ticket, answer), maxAttempts), maxAttempts)
  {
    var after, own := Step(s, Process(ticket, answer), maxAttempts), HashOf(ticket);
    assert own in s.jobs ==> JobOk(s, own, maxAttempts);
    forall hash | hash in after.jobs ensures JobOk(after, hash, maxAttempts) {
      if hash != own { assert JobOk(s, hash, maxAttempts); }
    }
  }

  lemma ResetKeepsShift(s: Shift, orderId: Id, maxAttempts: nat)
    requires ShiftOk(s, maxAttempts) && maxAttempts > 0
    ensures ShiftOk(Step(s, Reset(orderId), maxAttempts), maxAttempts)
  {
    var after := Step(s, Reset(orderId), maxAttempts);
    forall hash | hash in after.jobs ensures JobOk(after, hash, maxAttempts) {
      assert JobOk(s, hash, maxAttempts);
    }
  }

  lemma StepKeepsShift(s: Shift, op: Op, maxAttempts: nat)
    requires ShiftOk(s, maxAttempts) && maxAttempts > 0
    ensures ShiftOk(Step(s, op, maxAttempts), maxAttempts)
  {
    hide ShiftOk, Step;
    match op
    case Process(ticket, answer) => ProcessKeepsShift(s, ticket, answer, maxAttempts);
    case Reset(orderId) => ResetKeepsShift(s, orderId, maxAttempts);
  }

  lemma {:induction false} RunIsOk(ops: seq<Op>, maxAttempts: nat)
    requires maxAttempts > 0
    ensures ShiftOk(Run(ops, maxAttempts), maxAttempts)
  {
    if ops != [] {
      RunIsOk(ops[..|ops| - 1], maxAttempts);
      StepKeepsShift(Run(ops[..|ops| - 1], maxAttempts), ops[|ops| - 1], maxAttempts);
    }
  }

  /** PRINTED is for good, and only a human's reset of that order takes a job out of DEAD_LETTER. */
  lemma FinalIsFinal(s: Shift, op: Op, maxAttempts: nat, hash: Hash)
    requires hash in s.jobs && IsFinal(s.jobs[hash])
    ensures var after := Step(s, op, maxAttempts);
      hash in after.jobs && (after.jobs[hash] == s.jobs[hash]
        || (s.jobs[hash].state.DeadLetterJob? && op == Reset(s.jobs[hash].orderId)))
    ensures !CallsDevice(s, op, hash)
  {
  }

  lemma {:induction false} PrintedForGood(ops: seq<Op>, more: seq<Op>, maxAttempts: nat, hash: Hash)
    requires hash in Run(ops, maxAttempts).jobs && Run(ops, maxAttempts).jobs[hash].state.PrintedJob?
    ensures hash in Run(ops + more, maxAttempts).jobs
    ensures Run(ops + more, maxAttempts).jobs[hash] == Run(ops, maxAttempts).jobs[hash]
    decreases |more|
  {
    if more == [] {
      assert ops + more == ops;
    } else {
      var before := more[..|more| - 1];
      PrintedForGood(ops, before, maxAttempts, hash);
      assert (ops + more)[..|ops + more| - 1] == ops + before;
      FinalIsFinal(Run(ops + before, maxAttempts), more[|more| - 1], maxAttempts, hash);
    }
  }

  /**
   Between two resets the device is called at most `maxAttempts` times for a ticket, not counting calls
   whose worker died before it could record one; and a job is dead exactly when its attempts are used up
   without success.
   */
  lemma {:induction false} CallsAreBounded(ops: seq<Op>, maxAttempts: nat, hash: Hash)
    requires maxAttempts > 0
    ensures var s := Run(ops, maxAttempts);
      && Of(s.calls, hash) <= maxAttempts + Of(s.deaths, hash)
      && (hash in s.jobs ==> s.jobs[hash].attempts == Of(s.calls, hash) - Of(s.deaths, hash))
      && (hash in s.jobs && !s.jobs[hash].state.PrintedJob? ==>
            (s.jobs[hash].state.DeadLetterJob? <==> s.jobs[hash].attempts == maxAttempts))
  {
    RunIsOk(ops, maxAttempts);
    var s := Run(ops, maxAttempts);
    if hash in s.jobs { assert JobOk(s, hash, maxAttempts); }
  }

  /* ---- what the device said ---- */

  predicate SaysPrinted(answer: DeviceAnswer) {
    answer.Emitted? || answer.Recognised?
  }

  /**
   One attempt at a job that is not finished: PRINTED exactly if the device says that the ticket came out or had
   come out before; dead exactly if it does not and the attempts are used up; nothing if the worker died.
   */
  lemma OneAttempt(jobs: Jobs, ticket: PrintableTicket, answer: DeviceAnswer, maxAttempts: nat)
    requires !IsFinal(JobFor(jobs, ticket))
    ensures var before, after := JobFor(jobs, ticket), Processed(jobs, ticket, answer, maxAttempts);
      && after.Keys == jobs.Keys + {HashOf(ticket)}
      && (forall hash <- jobs :: hash != HashOf(ticket) ==> after[hash] == jobs[hash])
      && var job := after[HashOf(ticket)];
      && job.orderId == before.orderId
      && (job.state.PrintedJob? <==> SaysPrinted(answer))
      && (job.state.DeadLetterJob? <==> answer.NoAnswer? && before.attempts + 1 >= maxAttempts)
      && (job.state.FailedJob? <==> (answer.NoAnswer? && before.attempts + 1 < maxAttempts) || (answer.WorkerDied? && before.state.FailedJob?))
      && job.attempts == before.attempts + if answer.WorkerDied? then 0 else 1
  {
  }

  /** What is reported: what the record said already, or else what the device said. */
  lemma ReportsExactly(jobs: Jobs, ticket: PrintableTicket, answer: DeviceAnswer)
    ensures var outcome, state := OutcomeOf(jobs, ticket, answer), JobFor(jobs, ticket).state;
      && (outcome.AlreadyPrinted? <==> state.PrintedJob?)
      && (outcome.DeadLettered? <==> state.DeadLetterJob?)
      && (outcome.Printed? <==> !state.PrintedJob? && !state.DeadLetterJob? && answer.Emitted?)
      && (outcome.DeviceDuplicate? <==> !state.PrintedJob? && !state.DeadLetterJob? && answer.Recognised?)
      && (outcome.Retried? <==> !state.PrintedJob? && !state.DeadLetterJob? && answer.NoAnswer?)
  {
  }

  // The last call of the device about the ticket is the one that said so, and the only one.
  predicate EndedWell(answers: seq<DeviceAnswer>) {
    && answers != [] && SaysPrinted(answers[|answers| - 1])
    && forall i :: 0 <= i < |answers| - 1 ==> !SaysPrinted(answers[i])
  }

  predicate AnswersOk(s: Shift, hash: Hash) {
    && (hash in s.jobs && s.jobs[hash].state.PrintedJob? <==> EndedWell(AnswersOf(s, hash)))
    && (!EndedWell(AnswersOf(s, hash)) ==> forall answer <- AnswersOf(s, hash) :: !SaysPrinted(answer))
    && (hash !in s.jobs ==> AnswersOf(s, hash) == [])
  }

  lemma StepKeepsAnswers(s: Shift, op: Op, maxAttempts: nat, hash: Hash)
    requires AnswersOk(s, hash)
    ensures AnswersOk(Step(s, op, maxAttempts), hash)
  {
    var before, after := AnswersOf(s, hash), AnswersOf(Step(s, op, maxAttempts), hash);
    if CallsDevice(s, op, hash) {
      assert after == before + [op.answer] && after[|after| - 1] == op.answer;
    } else {
      assert after == before;
    }
  }

  /**
   In every run: a job is PRINTED if and only if the device has said so in answer to a call about its ticket;
   that call was the last one about it, and the device had never said so before.
   */
  lemma {:induction false} PrintedExactlyWhenTold(ops: seq<Op>, maxAttempts: nat, hash: Hash)
    ensures var s := Run(ops, maxAttempts);
      && (hash in s.jobs && s.jobs[hash].state.PrintedJob? <==> exists answer <- AnswersOf(s, hash) :: SaysPrinted(answer))
      && (hash in s.jobs && s.jobs[hash].state.PrintedJob? <==> EndedWell(AnswersOf(s, hash)))
  {
    RunKeepsAnswers(ops, maxAttempts, hash);
    var answers := AnswersOf(Run(ops, maxAttempts), hash);
    if EndedWell(answers) { assert answers[|answers| - 1] in answers; }
  }

  lemma {:induction false} RunKeepsAnswers(ops: seq<Op>, maxAttempts: nat, hash: Hash)
    ensures AnswersOk(Run(ops, maxAttempts), hash)
  {
    hide AnswersOk, Step;
    if ops == [] {
      NothingAnswered(hash);
    } else {
      RunKeepsAnswers(ops[..|ops| - 1], maxAttempts, hash);
      StepKeepsAnswers(Run(ops[..|ops| - 1], maxAttempts), ops[|ops| - 1], maxAttempts, hash);
    }
  }

  lemma NothingAnswered(hash: Hash)
    ensures AnswersOk(Shift(map[], map[], map[], map[]), hash)
  {
  }

  /** What the sweep is for: a ticket that no run was ever for, and nobody cancelled, is found. */
  lemma {:induction false} NeverTriedIsFound(ops: seq<Op>, maxAttempts: nat, stale: set<Hash>, tickets: seq<KitchenTicket>, i: nat)
    requires i < |tickets| && !tickets[i].cancelled
    requires forall k :: 0 <= k < |ops| && ops[k].Process? ==> ops[k].ticket.orderId != tickets[i].ticket.orderId
    ensures tickets[i].ticket in Found(Run(ops, maxAttempts).jobs, stale, tickets, |tickets|)
  {
    var jobs := Run(ops, maxAttempts).jobs;
    JobsAreMadeByRuns(ops, maxAttempts);
    hide Run, HashOf, Orphans;
    forall hash | hash in jobs ensures jobs[hash].orderId != tickets[i].ticket.orderId {
      var k :| 0 <= k < |ops| && ops[k].Process? && HashOf(ops[k].ticket) == hash;
      HashNamesOrder(ops[k].ticket);
    }
    EveryOrphanIsFound(jobs, stale, tickets, i);
    FewOrphans(jobs, stale, tickets);
  }

  /** And so is one whose job has sat unfinished for too long. */
  lemma StuckIsFound(jobs: Jobs, stale: set<Hash>, tickets: seq<KitchenTicket>, i: nat, hash: Hash)
    requires i < |tickets| && !tickets[i].cancelled && hash in jobs && hash in stale
    requires jobs[hash].orderId == tickets[i].ticket.orderId && (jobs[hash].state.PendingJob? || jobs[hash].state.FailedJob?)
    ensures tickets[i].ticket in Found(jobs, stale, tickets, |tickets|)
  {
    EveryOrphanIsFound(jobs, stale, tickets, i);
    FewOrphans(jobs, stale, tickets);
  }

  lemma {:induction false} FewOrphans(jobs: Jobs, stale: set<Hash>, tickets: seq<KitchenTicket>)
    ensures |Orphans(jobs, stale, tickets)| <= |tickets|
  {
    if tickets != [] { FewOrphans(jobs, stale, tickets[..|tickets| - 1]); }
  }

  /** A reset starts over exactly the dead jobs of the order. */
  lemma ResetsExactly(jobs: Jobs, orderId: Id, hash: Hash)
    requires hash in jobs
    ensures var after := ResetOrder(jobs, orderId)[hash];
      if jobs[hash].orderId == orderId && jobs[hash].state.DeadLetterJob? then after == Job(orderId, PendingJob, 0)
      else after == jobs[hash]
  {
  }

  // Every job was made by a run for its ticket.
  predicate MadeByRun(ops: seq<Op>, hash: Hash) {
    exists i :: 0 <= i < |ops| && ops[i].Process? && HashOf(ops[i].ticket) == hash
  }

  predicate FromRuns(ops: seq<Op>, jobs: Jobs) {
    forall hash <- jobs :: jobs[hash].orderId == hash.orderId && MadeByRun(ops, hash)
  }

  // A step makes no job but that of the ticket it runs for.
  lemma StepMakesOne(s: Shift, op: Op, maxAttempts: nat)
    requires forall hash <- s.jobs :: s.jobs[hash].orderId == hash.orderId
    ensures forall hash <- Step(s, op, maxAttempts).jobs ::
      && Step(s, op, maxAttempts).jobs[hash].orderId == hash.orderId
      && (hash in s.jobs || (op.Process? && HashOf(op.ticket) == hash))
  {
  }

  lemma MoreOps(before: seq<Op>, op: Op, hash: Hash)
    requires MadeByRun(before, hash) || (op.Process? && HashOf(op.ticket) == hash)
    ensures MadeByRun(before + [op], hash)
  {
    var ops := before + [op];
    if MadeByRun(before, hash) {
      var i :| 0 <= i < |before| && before[i].Process? && HashOf(before[i].ticket) == hash;
      assert ops[i] == before[i];
    } else {
      assert ops[|before|] == op;
    }
  }

  lemma {:induction false} JobsAreMadeByRuns(ops: seq<Op>, maxAttempts: nat)
    ensures FromRuns(ops, Run(ops, maxAttempts).jobs)
  {
    hide HashOf, MadeByRun, Step;
    if ops != [] {
      var before, op := ops[..|ops| - 1], ops[|ops| - 1];
      assert ops == before + [op];
      JobsAreMadeByRuns(before, maxAttempts);
      StepMakesOne(Run(before, maxAttempts), op, maxAttempts);
      forall hash | hash in Run(ops, maxAttempts).jobs ensures MadeByRun(ops, hash) {
        MoreOps(before, op, hash);
      }
    }
  }

  // An order is only ever sent to the printer as one ticket.
  predicate OneTicketPerOrder(ops: seq<Op>) {
    forall i, j :: 0 <= i < |ops| && 0 <= j < |ops| && ops[i].Process? && ops[j].Process? ==> SameTicket(ops[i].ticket, ops[j].ticket)
  }

  predicate SameTicket(a: PrintableTicket, b: PrintableTicket) {
    a.orderId == b.orderId ==> HashOf(a) == HashOf(b)
  }

  /** So an order has one job at most. */
  lemma OneJobInEveryRun(ops: seq<Op>, maxAttempts: nat)
    requires OneTicketPerOrder(ops)
    ensures OneJobPerOrder(Run(ops, maxAttempts).jobs)
  {
    var jobs := Run(ops, maxAttempts).jobs;
    JobsAreMadeByRuns(ops, maxAttempts);
    hide Run, HashOf;
    forall a, b | a in jobs && b in jobs && jobs[a].orderId == jobs[b].orderId ensures a == b {
      assert MadeByRun(ops, a) && MadeByRun(ops, b);
      var i :| 0 <= i < |ops| && ops[i].Process? && HashOf(ops[i].ticket) == a;
      var j :| 0 <= j < |ops| && ops[j].Process? && HashOf(ops[j].ticket) == b;
      assert SameTicket(ops[i].ticket, ops[j].ticket);
      HashNamesOrder(ops[i].ticket);
      HashNamesOrder(ops[j].ticket);
    }
  }

  /**
   In every run that sends an order to the printer as one ticket, no sweep at any moment enqueues a ticket
   that has been printed or given up, whatever is stale and whatever the projection holds: the job of what
   it enqueues, if there is one, is unfinished.
   */
  lemma SweepSparesFinishedInEveryRun(ops: seq<Op>, maxAttempts: nat, stale: set<Hash>, tickets: seq<KitchenTicket>,
      limit: nat, ticket: PrintableTicket)
    requires OneTicketPerOrder(ops) && ticket in Found(Run(ops, maxAttempts).jobs, stale, tickets, limit)
    ensures var jobs := Run(ops, maxAttempts).jobs;
      && (forall hash <- jobs :: jobs[hash].orderId == ticket.orderId ==> !IsFinal(jobs[hash]))
      && (HashOf(ticket) in jobs ==> !IsFinal(jobs[HashOf(ticket)]))
  {
    var jobs := Run(ops, maxAttempts).jobs;
    OneJobInEveryRun(ops, maxAttempts);
    HashNamesOrder(ticket);
    hide Run, HashOf, Found;
    SweepSparesFinalJobs(jobs, stale, tickets, limit, ticket);
    forall hash | hash in jobs && jobs[hash].orderId == ticket.orderId ensures !IsFinal(jobs[hash]) {
      assert forall other <- jobs :: jobs[other].orderId == ticket.orderId ==> other == hash;
    }
  }

  lemma HashNamesOrder(ticket: PrintableTicket)
    ensures HashOf(ticket).orderId == ticket.orderId
  {
  }
}
