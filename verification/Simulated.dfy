/**
 * The attempt budget of dry-run jobs. The daemon and the job's own helper share the row, so each
 * can outlive its hold on it and put a FAILED or REVIEW_REQUIRED row back by the attempts of its
 * own old copy. It happens at most once in a job's life between manual retries, because a helper
 * claims once and only a helper can take the row from a running daemon.
 */
module Simulated {
  import opened Prelude
  import opened Jobs
  import opened Statements
  import opened RetryPolicy
  import opened System
  import opened Invariants
  import opened History
  import opened Delivery
  import opened Scenarios

  predicate DryJob(s: System, j: nat) {
    j < |s.jobs| && s.jobs[j].dryRun
  }

  // The statuses from which a worker that has lost the row can still put it back.
  predicate Lost(status: Status) { status.Failed? || status.ReviewRequired? }

  // The counters other than the exposure to the network are as before.
  predicate SamePay(before: seq<Event>, after: seq<Event>, j: nat) {
    TallyOf(after, j).(exposure := 0) == TallyOf(before, j).(exposure := 0)
  }

  // The helper of j has started, and neither holds the job nor will claim it any more.
  predicate HelperOver(s: System, j: nat) {
    j in s.helped && (j + 1 in s.workers ==> s.workers[j + 1].hold.Idle? && s.workers[j + 1].gate.Done?)
  }

  // Attempts not yet given back by a put-back.
  function Net(s: System, j: nat): int
    requires j < |s.jobs|
  {
    s.jobs[j].attempts - Grace(s.trace, j)
  }

  // One attempt at a time: a queued job has none behind it.
  ghost predicate OneAttempt(s: System, j: nat)
    requires j < |s.jobs|
  {
    Net(s, j) <= 1 && (Unsent(s.jobs[j].status) ==> Net(s, j) <= 0)
  }

  // One late put-back has happened, and nobody is left who could make another.
  ghost predicate SecondAttempt(s: System, j: nat)
    requires j < |s.jobs|
  {
    && Net(s, j) <= 2 && (Unsent(s.jobs[j].status) ==> Net(s, j) <= 1)
    && 2 <= s.jobs[j].maxAttempts && HelperOver(s, j)
    && !(Holds(s, 0, j) && Lost(s.jobs[j].status))
  }

  // The daemon loses the row only to the helper, which is over by then.
  ghost predicate DryOk(s: System, j: nat)
    requires j < |s.jobs|
  {
    && (OneAttempt(s, j) || SecondAttempt(s, j))
    && (Holds(s, 0, j) && Lost(s.jobs[j].status) ==> HelperOver(s, j))
  }

  // ----- One step -----

  lemma Simulates(s: System, w: nat, j: nat)
    requires Sound(s) && DryJob(s, j) && Holds(s, w, j)
    ensures !ViaLive(s.workers[w], s.workers[w].hold.claimed)
    ensures s.workers[w].hold.claimed.maxAttempts == s.jobs[j].maxAttempts
    ensures 1 <= s.workers[w].hold.claimed.attempts
    ensures w == 0 || (w == j + 1 && j in s.helped && s.workers[w].gate.Done?)
  {
    assert HoldOk(s.jobs, s.workers[w]);
  }

  lemma StaysDry(s: System, step: Step, j: nat)
    requires Sound(s) && DryJob(s, j)
    ensures DryJob(Apply(s, step), j) && Apply(s, step).jobs[j].maxAttempts == s.jobs[j].maxAttempts
  {
    StepGood(s, step);
    assert Follows(s.jobs[j], Apply(s, step).jobs[j]);
  }

  // A helper that is over stays over.
  lemma OverStays(s: System, step: Step, j: nat)
    requires Sound(s) && HelperOver(s, j)
    ensures HelperOver(Apply(s, step), j)
  {
    hide ApplyFinishSend, Transition, ManualRetry, Sound;
    if step.FinishSend? {
      FinishKeepsHelped(s, step.worker, step.outcome, step.jitter);
      if step.worker in s.workers && s.workers[step.worker].hold.Sending? {
        FinishKeepsOthers(s, step.worker, step.outcome, step.jitter);
      } else {
        NothingToFinish(s, step.worker, step.outcome, step.jitter);
      }
    }
  }

  lemma UntouchedDryOk(s: System, step: Step, j: nat)
    requires Sound(s) && DryJob(s, j) && !Touches(s, step, j) && DryOk(s, j)
    ensures DryJob(Apply(s, step), j) && DryOk(Apply(s, step), j)
  {
    hide Apply, TallyOf, HelperOver, Sound, DryOk, Meanwhile;
    StaysDry(s, step, j);
    UntouchedMeanwhile(s, step, j);
    HoldsOnlyByClaim(s, step, 0, j);
    if HelperOver(s, j) { OverStays(s, step, j); }
    MeanwhileDryOk(s, Apply(s, step), j);
  }

  lemma MeanwhileDryOk(s: System, after: System, j: nat)
    requires Sound(s) && DryJob(s, j) && DryOk(s, j)
    requires DryJob(after, j) && after.jobs[j].maxAttempts == s.jobs[j].maxAttempts && Meanwhile(s, after, j)
    requires Holds(after, 0, j) ==> Holds(s, 0, j)
    requires HelperOver(s, j) ==> HelperOver(after, j)
    ensures DryOk(after, j)
  {
    assert Shape(s.jobs[j]);
    hide TallyOf, HelperOver, Sound, Holds;
  }

  lemma ClaimDryOk(s: System, w: nat, now: Instant, j: nat)
    requires Sound(s) && DryJob(s, j) && DryOk(s, j) && Touches(s, Claim(w, now), j)
    ensures DryOk(ApplyClaim(s, w, now), j)
  {
    hide TallyOf;
    AppendEvent(s.trace, Claimed(w, j, now), j);
  }

  lemma PutBackDryOk(s: System, w: nat, j: nat)
    requires Sound(s) && DryJob(s, j) && DryOk(s, j) && Holds(s, w, j)
    ensures var after := ApplyPutBack(s, w); j < |after.jobs| && DryOk(after, j)
  {
    hide TallyOf;
    Simulates(s, w, j);
    AppendEvent(s.trace, PutBackUnsent(j), j);
  }

  lemma BeginSendDryOk(s: System, w: nat, mediaExists: bool, j: nat)
    requires Sound(s) && DryJob(s, j) && DryOk(s, j) && Holds(s, w, j)
    ensures var after := ApplyBeginSend(s, w, mediaExists); j < |after.jobs| && DryOk(after, j)
  {
    hide TallyOf, Sound;
    BeginsOrFails(s, w, mediaExists, j);
    Simulates(s, w, j);
    hide ApplyBeginSend;
  }

  // Either the send call goes out, or the job fails, or nothing happens, or the worker's process ends.
  lemma BeginsOrFails(s: System, w: nat, mediaExists: bool, j: nat)
    requires Sound(s) && DryJob(s, j) && Holds(s, w, j)
    ensures var after := ApplyBeginSend(s, w, mediaExists);
      && |after.jobs| == |s.jobs| && after.helped == s.helped && after.jobs[j].attempts == s.jobs[j].attempts
      && after.jobs[j].maxAttempts == s.jobs[j].maxAttempts && SamePay(s.trace, after.trace, j)
      && (|| (after.jobs == s.jobs && Holds(after, w, j)
              && after.workers == s.workers[w := s.workers[w].(hold := after.workers[w].hold)])
          || (after.jobs == s.jobs && after.workers == s.workers - {w})
          || (after.jobs[j].status.Failed?
              && after.workers == s.workers[w := s.workers[w].(hold := Idle)]))
  {
    hide TallyOf, Sound;
    Simulates(s, w, j);
    AppendEvent(s.trace, SendCalled(w, j, false, s.clock), j);
  }

  lemma RecoveryDryOk(s: System, config: Config, j: nat)
    requires DryJob(s, j) && DryOk(s, j) && 0 !in s.workers
    ensures var after := ApplyStartDaemon(s, config); j < |after.jobs| && DryOk(after, j)
  {
    hide TallyOf;
    AppendEvent(s.trace, WorkerStarted(0, config.sendIntervalMs), j);
  }

  // An error whose transition to `target` is tried on a row that has left PROCESSING.
  lemma LateError(s: System, w: nat, target: Status, change: Change, j: nat)
    requires Sound(s) && DryJob(s, j) && Holds(s, w, j) && s.workers[w].hold.Sending?
    requires !s.jobs[j].status.Processing? && (target.Retry? || target.Failed?)
    ensures var after := ErrorSettled(s, w, target, change, NoEffect);
      && |after.jobs| == |s.jobs| && SamePay(s.trace, after.trace, j)
      && after.jobs[j] == if Settles(s, j, target, change) then TransitionRow(s.jobs[j], target, change, s.clock)
                          else s.jobs[j]
  {
    hide TallyOf, Sound;
    AppendEvent(s.trace, ErrorHandled(j), j);
    AppendEvent(s.trace + [ErrorHandled(j)], SendFinished(w, s.clock), j);
  }

  // What the end of a simulated delivery does to the row. It is always accepted; its write is
  // refused when the row has left PROCESSING, and then the row may be put back.
  ghost predicate Finished(s: System, after: System, w: nat, j: nat)
    requires j < |s.jobs| && w in s.workers && s.workers[w].hold.Sending?
  {
    var row := s.jobs[j];
    && j < |after.jobs| && after.jobs[j].attempts == row.attempts
    && SamePay(s.trace, after.trace, j)
    && (row.status.Processing? ==> after.jobs[j].status.DryRun?)
    && (after.jobs[j].status.Retry? && !row.status.Retry? ==>
          Lost(row.status) && s.workers[w].hold.claimed.attempts < s.workers[w].hold.claimed.maxAttempts)
    && (!row.status.Processing? && !after.jobs[j].status.Retry? ==>
          after.jobs[j].status == row.status || (Lost(row.status) && after.jobs[j].status.Failed?))
    && (row.status.Retry? ==> after.jobs[j].status.Retry?)
  }

  // The refused write is treated as a transient error, by the worker's own copy of the job.
  lemma RefusedIsTransient(s: System, w: nat, outcome: Outcome, jitter: real, j: nat)
    returns (target: Status, change: Change)
    requires Sound(s) && DryJob(s, j) && Holds(s, w, j) && s.workers[w].hold.Sending?
    requires 0.0 <= jitter < 1.0 && !s.jobs[j].status.Processing?
    ensures ApplyFinishSend(s, w, outcome, jitter)
      == ErrorSettled(Record(s, DeliveryAccepted(j)), w, target, change, NoEffect)
    ensures target.Retry? || target.Failed?
    ensures target.Retry? ==> s.workers[w].hold.claimed.attempts < s.workers[w].hold.claimed.maxAttempts
  {
    Simulates(s, w, j);
    hide ErrorSettled, RetryDelayMs, Sound;
    var noted, worker := Record(s, DeliveryAccepted(j)), s.workers[w];
    var decision := WorkerDecision(worker, UnknownTransient, None, jitter);
    assert decision.RetryAfter? || decision.Fail?;
    if decision.RetryAfter? {
      target, change := Retry, ErrorChange(UnknownTransient, Some(s.clock + decision.delayMs));
    } else {
      target, change := Failed, ErrorChange(UnknownTransient, None);
    }
    assert ApplyDecision(noted, w, UnknownTransient, decision) == ErrorSettled(noted, w, target, change, NoEffect);
  }

  lemma RefusedWrite(s: System, w: nat, outcome: Outcome, jitter: real, j: nat)
    requires Sound(s) && DryJob(s, j) && Holds(s, w, j) && s.workers[w].hold.Sending?
    requires 0.0 <= jitter < 1.0 && !s.jobs[j].status.Processing?
    ensures Finished(s, ApplyFinishSend(s, w, outcome, jitter), w, j)
  {
    hide TallyOf, ErrorSettled, ApplyFinishSend;
    AppendEvent(s.trace, DeliveryAccepted(j), j);
    RecordSound(s, DeliveryAccepted(j));
    var target, change := RefusedIsTransient(s, w, outcome, jitter, j);
    LateError(Record(s, DeliveryAccepted(j)), w, target, change, j);
    hide Sound;
  }

  lemma AcceptedWrite(s: System, w: nat, outcome: Outcome, jitter: real, j: nat)
    requires Sound(s) && DryJob(s, j) && Holds(s, w, j) && s.workers[w].hold.Sending?
    requires 0.0 <= jitter < 1.0 && s.jobs[j].status.Processing?
    ensures Finished(s, ApplyFinishSend(s, w, outcome, jitter), w, j)
  {
    hide TallyOf, ApplyError;
    Simulates(s, w, j);
    AppendEvent(s.trace, DeliveryAccepted(j), j);
    AppendEvent(s.trace + [DeliveryAccepted(j)], SendFinished(w, s.clock), j);
  }

  lemma FinishTouchesDry(s: System, w: nat, outcome: Outcome, jitter: real, j: nat)
    requires Sound(s) && DryJob(s, j) && Holds(s, w, j) && s.workers[w].hold.Sending? && 0.0 <= jitter < 1.0
    ensures Finished(s, ApplyFinishSend(s, w, outcome, jitter), w, j)
  {
    if s.jobs[j].status.Processing? {
      AcceptedWrite(s, w, outcome, jitter, j);
    } else {
      RefusedWrite(s, w, outcome, jitter, j);
    }
  }

  lemma FinishedDryOk(s: System, after: System, w: nat, j: nat)
    requires DryJob(s, j) && DryOk(s, j) && Holds(s, w, j) && s.workers[w].hold.Sending? && Finished(s, after, w, j)
    requires 1 <= s.workers[w].hold.claimed.attempts
    requires s.workers[w].hold.claimed.maxAttempts == s.jobs[j].maxAttempts == after.jobs[j].maxAttempts
    requires w == 0 || (w == j + 1 && !HelperOver(s, j) && HelperOver(after, j))
    requires Holds(after, 0, j) ==> Holds(s, 0, j) && w != 0
    requires HelperOver(s, j) ==> HelperOver(after, j)
    ensures DryOk(after, j)
  {
    hide TallyOf, HelperOver;
  }

  // The worker that has finished holds nothing any more; for the helper, that is the end.
  lemma FinishEndsHold(s: System, step: Step, j: nat)
    requires Sound(s) && DryJob(s, j) && Touches(s, step, j) && step.FinishSend?
    requires 0.0 <= step.jitter < 1.0 && s.workers[step.worker].hold.Sending?
    ensures var after := Apply(s, step);
      && (Holds(after, 0, j) ==> Holds(s, 0, j) && step.worker != 0)
      && (step.worker != 0 ==> !HelperOver(s, j) && HelperOver(after, j))
  {
    var w := step.worker;
    Simulates(s, w, j);
    FinishKeepsOthers(s, w, step.outcome, step.jitter);
    FinishKeepsHelped(s, w, step.outcome, step.jitter);
    hide ApplyFinishSend, Sound;
  }

  lemma FinishDryOk(s: System, step: Step, j: nat)
    requires Sound(s) && DryJob(s, j) && DryOk(s, j) && Touches(s, step, j) && step.FinishSend?
    ensures DryJob(Apply(s, step), j) && DryOk(Apply(s, step), j)
  {
    StaysDry(s, step, j);
    var w := step.worker;
    Simulates(s, w, j);
    if 0.0 <= step.jitter < 1.0 && s.workers[w].hold.Sending? {
      FinishTouchesDry(s, w, step.outcome, step.jitter, j);
      if HelperOver(s, j) { OverStays(s, step, j); }
      FinishEndsHold(s, step, j);
      hide ApplyFinishSend, TallyOf, Sound, DryOk, HelperOver, Finished;
      FinishedDryOk(s, Apply(s, step), w, j);
    } else {
      assert Apply(s, step) == s;
    }
  }

  lemma FinishKeepsHelped(s: System, w: nat, outcome: Outcome, jitter: real)
    ensures ApplyFinishSend(s, w, outcome, jitter).helped == s.helped
  {
  }

  lemma StepDryOk(s: System, step: Step, j: nat)
    requires Sound(s) && DryJob(s, j) && DryOk(s, j)
    ensures DryJob(Apply(s, step), j) && DryOk(Apply(s, step), j)
  {
    StaysDry(s, step, j);
    if !Touches(s, step, j) {
      UntouchedDryOk(s, step, j);
    } else if step.Claim? {
      ClaimDryOk(s, step.worker, step.now, j);
    } else if step.PutBack? {
      PutBackDryOk(s, step.worker, j);
    } else if step.BeginSend? {
      BeginSendDryOk(s, step.worker, step.mediaExists, j);
    } else if step.FinishSend? {
      FinishDryOk(s, step, j);
    } else {
      RecoveryDryOk(s, step.config, j);
    }
  }

  // ----- Every run -----

  lemma NewDryJobOk(s: System, step: Step, j: nat)
    requires Sound(s) && |s.jobs| <= j && DryJob(Apply(s, step), j)
    ensures DryOk(Apply(s, step), j)
  {
    StepGood(s, step);
    OnlyCreateAppends(s, step);
    UnmentionedTally(s.trace, |s.jobs|, j);
    AppendEvent(s.trace, Created(|s.jobs|), j);
    assert forall w :: w in s.workers ==> HoldOk(s.jobs, s.workers[w]);
  }

  lemma DryOkInBudget(s: System, j: nat)
    requires Sound(s) && j < |s.jobs| && DryOk(s, j)
    ensures InBudget(s, j) && Net(s, j) <= 2
  {
    assert Shape(s.jobs[j]);
  }

  // On every run from an empty queue, every dry-run job stays within its budget, and never has
  // more than two attempts that were not put back.
  lemma {:induction false} DryAttemptsWithinBudget(s: System, steps: seq<Step>, j: nat)
    requires Initial(s) && DryJob(Run(s, steps), j)
    ensures var after := Run(s, steps); Sound(after) && DryOk(after, j) && InBudget(after, j) && Net(after, j) <= 2
  {
    RunSound(s, steps);
    if steps != [] {
      var n := |steps| - 1;
      var before := Run(s, steps[..n]);
      RunSound(s, steps[..n]);
      if j < |before.jobs| {
        StepGood(before, steps[n]);
        assert Follows(before.jobs[j], Run(s, steps).jobs[j]);
        DryAttemptsWithinBudget(s, steps[..n], j);
        StepDryOk(before, steps[n], j);
      } else {
        NewDryJobOk(before, steps[n], j);
      }
      DryOkInBudget(Run(s, steps), j);
    }
  }

  // ----- The second attempt is reached -----

  const DRY_CONFIG := Config(true, 100, 100, 0)

  function DryMessage(): NewJob {
    var job := Message(1, Pending);
    job.(dryRun := true, key := job.key.(dryRun := true))
  }

  predicate NoGraces(trace: seq<Event>) {
    forall i :: 0 <= i < |trace| ==> !trace[i].PutBackUnsent? && !trace[i].AuthPaused?
  }

  lemma {:induction false} NoGracesNoGrace(trace: seq<Event>, j: nat)
    requires NoGraces(trace)
    ensures Grace(trace, j) == 0
  {
    if trace != [] {
      NoGracesNoGrace(trace[..|trace| - 1], j);
    }
  }

  // One dry-run job, with so many attempts made and none put back.
  predicate Alone(s: System, attempts: nat) {
    && |s.jobs| == 1 && NoGraces(s.trace) && Sendable(s.dests, GROUP)
    && s.jobs[0].dryRun && !s.jobs[0].hasMedia && s.jobs[0].maxAttempts == 3 && s.jobs[0].destination == GROUP
    && s.jobs[0].attempts == attempts
  }

  // The helper is sending, and its copy of the job counts one attempt.
  predicate HelperSends(s: System) {
    && 1 in s.workers && s.workers[1].config == DRY_CONFIG && s.workers[1].hold.Sending?
    && s.workers[1].hold.job == 0
    && s.workers[1].hold.claimed.attempts == 1 && s.workers[1].hold.claimed.maxAttempts == 3
  }

  // A worker past its check claims the only job.
  lemma ClaimsAlone(s: System, w: nat, n: nat)
    requires Alone(s, n) && Due(s.jobs[0], s.clock) && w <= 1
    requires w in s.workers && s.workers[w].hold.Idle? && s.workers[w].gate == Checked(s.clock)
    ensures var after, row := Apply(s, Claim(w, s.clock)), ClaimedRow(s.jobs[0], s.clock);
      && Alone(after, n + 1) && after.jobs == [row] && after.clock == s.clock
      && after.workers == s.workers[w := s.workers[w].(hold := Pacing(0, row), gate := AfterClaim(w))]
  {
    assert Claimable(s.jobs[0], s.dests, s.clock, s.workers[w].config.dryRun) && Matches(OwnJob(w), 0);
    assert ClaimChoice(s, w, s.clock) == Some(0);
  }

  const HELPER_STEPS := [StartHelper(0, DRY_CONFIG), CheckPause(1), Claim(1, 1), BeginSend(1, true)]

  lemma HelperLooks(s: System)
    requires Alone(s, 0) && s.workers == map[] && s.helped == {}
    ensures var after := Apply(Apply(s, StartHelper(0, DRY_CONFIG)), CheckPause(1));
      && Alone(after, 0) && after.jobs == s.jobs && after.clock == s.clock
      && after.workers == map[1 := Worker(DRY_CONFIG, false, 0, Idle, Checked(s.clock))]
  {
  }

  lemma HelperStarts(s: System)
    requires Alone(s, 0) && s.jobs[0].status.Pending? && s.clock == 1 && s.workers == map[] && s.helped == {}
    ensures var after := Run(s, HELPER_STEPS);
      && Alone(after, 1) && after.jobs[0].status.Processing? && HelperSends(after)
      && 0 !in after.workers && after.clock == 1
  {
    var started := Apply(s, StartHelper(0, DRY_CONFIG));
    var checked := Apply(started, CheckPause(1));
    var claimed := Apply(checked, Claim(1, 1));
    HelperLooks(s);
    ClaimsAlone(checked, 1, 0);
    HelperBegins(claimed);
    hide Apply, Run, Alone;
    FourSteps(s, HELPER_STEPS[0], HELPER_STEPS[1], HELPER_STEPS[2], HELPER_STEPS[3],
              started, checked, claimed, Apply(claimed, BeginSend(1, true)));
  }

  lemma HelperBegins(s: System)
    requires Alone(s, 1) && s.jobs[0].status.Processing?
    requires s.workers == map[1 := Worker(DRY_CONFIG, false, 0, Pacing(0, s.jobs[0]), Done)]
    ensures var after := Apply(s, BeginSend(1, true));
      Alone(after, 1) && after.jobs == s.jobs && HelperSends(after) && 0 !in after.workers && after.clock == s.clock
  {
  }

  // The daemon starts, and takes the row for one that a crash has left.
  lemma DaemonReviews(s: System)
    requires Alone(s, 1) && s.jobs[0].status.Processing? && HelperSends(s) && 0 !in s.workers
    ensures var after := Apply(s, StartDaemon(LIVE_CONFIG));
      && Alone(after, 1) && after.jobs[0].status.ReviewRequired? && HelperSends(after) && after.clock == s.clock
      && 0 in after.workers && after.workers[0] == FreshDaemon(LIVE_CONFIG)
  {
  }

  const LATE_FINISH := FinishSend(1, Accepted(0), 0.0)

  // The helper's write is refused, and its error handling puts the row back.
  lemma LateFinish(s: System)
    requires Alone(s, 1) && s.jobs[0].status.ReviewRequired? && HelperSends(s)
    requires 0 in s.workers && s.workers[0] == FreshDaemon(LIVE_CONFIG)
    ensures var after := Apply(s, LATE_FINISH);
      && Alone(after, 1) && after.jobs[0].status.Retry? && after.clock == s.clock
      && after.jobs[0].nextAttemptAt.Some? && after.jobs[0].nextAttemptAt.value <= s.clock + 120
      && 0 in after.workers && after.workers[0] == FreshDaemon(LIVE_CONFIG)
  {
    DelayWithinBounds(1, 100, 100, 0.0);
    var noted := Record(s, DeliveryAccepted(0));
    assert !Conflicts(noted.jobs, noted.jobs[0].key, 0);
    hide RetryDelayMs;
    assert WorkerDecision(s.workers[1], UnknownTransient, None, 0.0).RetryAfter?;
  }

  const DAEMON_STEPS := [Tick(120), ConnectionOpened, CheckPause(0), Claim(0, 121)]

  lemma DaemonClaims(s: System)
    requires Alone(s, 1) && s.jobs[0].status.Retry? && s.clock == 1
    requires s.jobs[0].nextAttemptAt.Some? && s.jobs[0].nextAttemptAt.value <= 121
    requires 0 in s.workers && s.workers[0] == FreshDaemon(LIVE_CONFIG)
    ensures Alone(Run(s, DAEMON_STEPS), 2)
  {
    var waited := Apply(s, Tick(120));
    var connected := Apply(waited, ConnectionOpened);
    var checked := Apply(connected, CheckPause(0));
    Connects(waited);
    Checks(connected);
    ClaimsAlone(checked, 0, 1);
    hide Apply, Run;
    Waited(s, 120);
    FourSteps(s, Tick(120), ConnectionOpened, CheckPause(0), Claim(0, 121),
              waited, connected, checked, Apply(checked, Claim(0, 121)));
  }

  function SecondAttemptSteps(): seq<Step> {
    [Refresh([GROUP_FOUND]), SetEnabled(GROUP, true), Create(DryMessage())] + HELPER_STEPS
    + [StartDaemon(LIVE_CONFIG), LATE_FINISH] + DAEMON_STEPS
  }

  // Recovery takes the row from a helper that is still at work, the helper puts it back without an
  // operator, and the daemon claims it once more.
  lemma SecondAttemptIsReached()
    ensures Initial(Beginning(1))
    ensures var s := Run(Beginning(1), SecondAttemptSteps());
      |s.jobs| == 1 && s.jobs[0].dryRun && s.jobs[0].attempts == 2 && Net(s, 0) == 2
  {
    var start := [Refresh([GROUP_FOUND]), SetEnabled(GROUP, true), Create(DryMessage())];
    GroupFound(1);
    JobTaken(1, DryMessage());
    ThreeSteps(Beginning(1), start[0], start[1], start[2], Known(1), Allowed(1), QueuedOne(1, DryMessage()));
    var queued := QueuedOne(1, DryMessage());
    assert Alone(queued, 0);
    hide Run, Apply, Alone, HelperSends;
    HelperStarts(queued);
    RunConcat(Beginning(1), start, HELPER_STEPS);
    var working := Run(queued, HELPER_STEPS);
    DaemonReviews(working);
    var reviewed := Apply(working, StartDaemon(LIVE_CONFIG));
    LateFinish(reviewed);
    var putBack := Apply(reviewed, LATE_FINISH);
    TwoSteps(working, StartDaemon(LIVE_CONFIG), LATE_FINISH, reviewed, putBack);
    RunConcat(Beginning(1), start + HELPER_STEPS, [StartDaemon(LIVE_CONFIG), LATE_FINISH]);
    DaemonClaims(putBack);
    RunConcat(Beginning(1), start + HELPER_STEPS + [StartDaemon(LIVE_CONFIG), LATE_FINISH], DAEMON_STEPS);
    TwoAttempts(Run(putBack, DAEMON_STEPS));
  }

  lemma TwoAttempts(s: System)
    requires Alone(s, 2)
    ensures |s.jobs| == 1 && s.jobs[0].dryRun && s.jobs[0].attempts == 2 && Net(s, 0) == 2
  {
    NoGracesNoGrace(s.trace, 0);
  }
}
