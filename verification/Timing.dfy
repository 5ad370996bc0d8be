/** Timed pauses hold: what sets them, what lifts them, and what is claimed meanwhile. */
module Timing {
  import opened Prelude
  import opened Jobs
  import opened Statements
  import opened RetryPolicy
  import opened System
  import opened Invariants
  import opened History
  import opened Delivery
  import CleanStop
  import Draining
  import Fairness

  // ----- Pauses -----

  // The live daemon has found no pause in force, and claims or delivers.
  predicate LiveDaemonBusy(s: System) {
    0 in s.workers && !s.workers[0].config.dryRun && (!s.workers[0].hold.Idle? || s.workers[0].gate.Checked?)
  }

  // The daemon is about to remove a pause.
  predicate DaemonClears(s: System) {
    0 in s.workers && s.workers[0].gate.Clearing?
  }

  // The live job whose rate limit set the pause: still waiting for exactly that instant, or cancelled.
  predicate Causes(s: System, j: nat, until: Instant) {
    && j < |s.jobs| && !s.jobs[j].dryRun
    && (|| s.jobs[j].status.Cancelled?
        || (s.jobs[j].status.WaitingRateLimit? && s.jobs[j].nextAttemptAt == Some(until)))
  }

  ghost predicate PauseSound(s: System) {
    && (LiveDaemonBusy(s) ==> s.pause.until.None?)
    && (DaemonClears(s) && s.pause.until.Some? ==> s.pause.until.value <= s.clock)
    && (s.pause.until.Some? ==> exists j: nat :: Causes(s, j, s.pause.until.value))
  }

  lemma CauseStays(s: System, step: Step, j: nat, until: Instant)
    requires Sound(s) && Causes(s, j, until) && (LiveDaemonBusy(s) && step.Claim? ==> s.pause.until.None?)
    requires s.pause.until == Some(until)
    ensures Causes(Apply(s, step), j, until)
  {
    StepGood(s, step);
    assert Follows(s.jobs[j], Apply(s, step).jobs[j]);
    if Apply(s, step).jobs[j].status.Processing? {
      OnlyClaimsProcess(s, step, j);
      ClaimTouch(s, step.worker, step.now, j);
    }
  }

  lemma OnlyClaimsProcess(s: System, step: Step, j: nat)
    requires Sound(s) && j < |s.jobs| && j < |Apply(s, step).jobs|
    requires !s.jobs[j].status.Processing? && Apply(s, step).jobs[j].status.Processing?
    ensures step.Claim? && Touches(s, step, j)
  {
    if !Touches(s, step, j) {
      hide TallyOf;
      UntouchedMeanwhile(s, step, j);
    } else if step.FinishSend? && 0.0 <= step.jitter < 1.0 && s.workers[step.worker].hold.Sending? {
      CleanStop.FinishEnds(s, step.worker, step.outcome, step.jitter);
    } else if step.PutBack? || step.BeginSend? {
      var w := step.worker;
      CleanStop.SettleEnds(s, w, j, Retry, PutBackChange(s.clock), s.workers[w].lastFinish);
      CleanStop.SettleEnds(s, w, j, Failed, ErrorChange(DestinationError, None), s.workers[w].lastFinish);
      CleanStop.SettleEnds(s, w, j, Failed, ErrorChange(MediaError, None), s.workers[w].lastFinish);
    }
  }

  // What the end of a delivery does to the pause: nothing, a reason only, or a new rate limit
  // caused by the delivered job.
  ghost predicate PauseAfterFinish(s: System, after: System, j: nat) {
    || after.pause.until == s.pause.until
    || (after.pause.until.Some? && j < |after.jobs| && after.jobs[j].status.WaitingRateLimit?
        && after.jobs[j].nextAttemptAt == after.pause.until && s.clock <= after.pause.until.value)
  }

  lemma DecisionPause(s: System, w: nat, errorClass: ErrorClass, decision: Decision)
    requires w in s.workers && s.workers[w].hold.Sending? && s.workers[w].hold.job < |s.jobs|
    requires decision.RateLimit? ==> 0 <= decision.delayMs
    ensures var after := ApplyDecision(s, w, errorClass, decision);
      && PauseAfterFinish(s, after, s.workers[w].hold.job)
      && (!decision.RateLimit? ==> after.pause.until == s.pause.until)
  {
  }

  lemma ErrorPause(s: System, w: nat, errorClass: ErrorClass, retryAfterMs: Option<nat>, jitter: real)
    requires w in s.workers && s.workers[w].hold.Sending? && s.workers[w].hold.job < |s.jobs|
    requires 0.0 <= jitter < 1.0
    ensures var after := ApplyError(s, w, errorClass, retryAfterMs, jitter);
      && PauseAfterFinish(s, after, s.workers[w].hold.job)
      && (!errorClass.RateLimited? ==> after.pause.until == s.pause.until)
  {
    hide ApplyDecision, RetryDelayMs, PauseAfterFinish;
    var worker := s.workers[w];
    RetryOnlyWithinBudget(errorClass, worker.hold.claimed.attempts, worker.hold.claimed.maxAttempts,
                          worker.config.retryBaseMs, worker.config.retryMaxMs, retryAfterMs, jitter);
    DecisionPause(s, w, errorClass, WorkerDecision(worker, errorClass, retryAfterMs, jitter));
  }

  lemma FinishPause(s: System, w: nat, outcome: Outcome, jitter: real)
    requires w in s.workers && s.workers[w].hold.Sending? && s.workers[w].hold.job < |s.jobs|
    requires 0.0 <= jitter < 1.0
    ensures var after := ApplyFinishSend(s, w, outcome, jitter);
      && PauseAfterFinish(s, after, s.workers[w].hold.job)
      && (!ViaLive(s.workers[w], s.workers[w].hold.claimed) ==> after.pause.until == s.pause.until)
  {
    hide ApplyError;
    var worker := s.workers[w];
    var noted := Record(s, DeliveryAccepted(worker.hold.job));
    ErrorPause(noted, w, UnknownTransient, None, jitter);
    if outcome.Rejected? {
      ErrorPause(s, w, TransportClass(worker.hold.claimed, outcome.errorClass), outcome.retryAfterMs, jitter);
    }
  }

  lemma FinishPauseSound(s: System, step: Step)
    requires Sound(s) && PauseSound(s) && step.FinishSend? && 0.0 <= step.jitter < 1.0
    requires step.worker in s.workers && s.workers[step.worker].hold.Sending?
    ensures PauseSound(Apply(s, step))
  {
    var w, after := step.worker, Apply(s, step);
    var j := s.workers[w].hold.job;
    assert HoldOk(s.jobs, s.workers[w]);
    FinishPause(s, w, step.outcome, step.jitter);
    FinishKeepsOthers(s, w, step.outcome, step.jitter);
    if after.pause.until == s.pause.until {
      if s.pause.until.Some? {
        var k: nat :| Causes(s, k, s.pause.until.value);
        CauseStays(s, step, k, s.pause.until.value);
      }
    } else {
      StepGood(s, step);
      assert Follows(s.jobs[j], after.jobs[j]);
      assert Causes(after, j, after.pause.until.value);
    }
  }

  lemma OtherPauseSound(s: System, step: Step)
    requires Sound(s) && PauseSound(s) && !(step.FinishSend? && 0.0 <= step.jitter < 1.0)
    ensures PauseSound(Apply(s, step))
  {
    var after := Apply(s, step);
    OtherPauseKept(s, step);
    if after.pause.until.Some? {
      var k: nat :| Causes(s, k, s.pause.until.value);
      CauseStays(s, step, k, s.pause.until.value);
    }
  }

  lemma OtherPauseKept(s: System, step: Step)
    requires !(step.FinishSend? && 0.0 <= step.jitter < 1.0)
    ensures var after := Apply(s, step);
      && (after.pause.until.Some? ==> after.pause.until == s.pause.until)
      && (LiveDaemonBusy(after) ==> LiveDaemonBusy(s) || after.pause.until.None?)
      && (DaemonClears(after) && after.pause.until.Some? ==> DaemonClears(s) || after.pause.until.value <= after.clock)
      && s.clock <= after.clock
  {
    hide Transition, ManualRetry, Insert;
  }

  // The worker never overwrites an unexpired pause_until, and the job that caused a pause is
  // itself due when the pause expires, unless it was cancelled.
  lemma {:induction false} PauseHasItsCause(s: System, steps: seq<Step>)
    requires Sound(s) && PauseSound(s)
    ensures Sound(Run(s, steps)) && PauseSound(Run(s, steps))
  {
    if steps != [] {
      var n := |steps| - 1;
      var before, step := Run(s, steps[..n]), steps[n];
      PauseHasItsCause(s, steps[..n]);
      StepGood(before, step);
      if step.FinishSend? && 0.0 <= step.jitter < 1.0 {
        if step.worker in before.workers && before.workers[step.worker].hold.Sending? {
          FinishPauseSound(before, step);
        }
      } else {
        OtherPauseSound(before, step);
      }
    }
  }

  // While pause_until lies ahead, only an opened connection lifts it.
  lemma PauseKept(s: System, step: Step, until: Instant)
    requires Sound(s) && PauseSound(s) && s.pause.until == Some(until) && s.clock < until
    requires !step.ConnectionOpened?
    ensures Apply(s, step).pause.until == Some(until)
  {
    hide ApplyFinishSend, Transition, ManualRetry, Insert, Causes;
    if step.FinishSend? {
      if step.worker in s.workers && s.workers[step.worker].hold.Sending? {
        assert HoldOk(s.jobs, s.workers[step.worker]);
        if 0.0 <= step.jitter < 1.0 { FinishPause(s, step.worker, step.outcome, step.jitter); }
      } else {
        NothingToFinish(s, step.worker, step.outcome, step.jitter);
      }
    } else if step.ClearPause? && step.worker in s.workers {
      assert Placed(step.worker, s.workers[step.worker], s.helped, s.clock);
    }
  }

  lemma PausedNoLiveClaim(s: System, step: Step, until: Instant, j: nat)
    requires Sound(s) && PauseSound(s) && LiveJob(s, j) && s.pause.until == Some(until)
    ensures !(step.Claim? && Touches(s, step, j))
  {
  }

  predicate NoOpening(steps: seq<Step>) {
    forall i :: 0 <= i < |steps| ==> !steps[i].ConnectionOpened?
  }

  // From a rate limit until it expires, with no connection opened in between, the pause stays
  // and no live job whatsoever is claimed, whoever restarts.
  lemma {:induction false} PausedMeansNoClaims(s: System, steps: seq<Step>, until: Instant, j: nat)
    requires Draining.Healthy(s) && PauseSound(s) && LiveJob(s, j)
    requires s.pause.until == Some(until) && NoOpening(steps) && Run(s, steps).clock < until
    ensures var after := Run(s, steps);
      && Draining.Healthy(after) && PauseSound(after) && LiveJob(after, j) && after.pause.until == Some(until)
      && TallyOf(after.trace, j).claims == TallyOf(s.trace, j).claims
  {
    PauseHasItsCause(s, steps);
    Draining.RunHealthy(s, steps);
    if steps != [] {
      var n := |steps| - 1;
      var before, step := Run(s, steps[..n]), steps[n];
      Fairness.ClockNeverRunsBack(before, step);
      PausedMeansNoClaims(s, steps[..n], until, j);
      PauseKept(before, step, until);
      UntouchedStaysLive(before, step, j);
      NoClaimNoCount(before, step, j, until);
    }
  }

  lemma NoClaimNoCount(s: System, step: Step, j: nat, until: Instant)
    requires Draining.Healthy(s) && PauseSound(s) && LiveJob(s, j) && s.pause.until == Some(until)
    ensures TallyOf(Apply(s, step).trace, j).claims == TallyOf(s.trace, j).claims
  {
    hide TallyOf, Apply;
    PausedNoLiveClaim(s, step, until, j);
    assert Draining.JobOk(s, j);
    if Touches(s, step, j) {
      TouchNoClaim(s, step, j);
    } else {
      UntouchedMeanwhile(s, step, j);
    }
  }

  lemma TouchNoClaim(s: System, step: Step, j: nat)
    requires Sound(s) && LiveJob(s, j) && Owned(s, j) && InBudget(s, j) && Touches(s, step, j) && !step.Claim?
    ensures TallyOf(Apply(s, step).trace, j).claims == TallyOf(s.trace, j).claims
  {
    hide TallyOf;
    if step.PutBack? {
      DaemonDelivers(s, step.worker, j);
      PutBackTouch(s, j);
    } else if step.BeginSend? {
      DaemonDelivers(s, step.worker, j);
      BeginSendTouch(s, step.mediaExists, j);
    } else if step.FinishSend? {
      DaemonDelivers(s, step.worker, j);
      if 0.0 <= step.jitter < 1.0 { FinishTouch(s, step.outcome, step.jitter, j); }
    } else {
      RecoveryKeepsBudget(s, step.config, j);
    }
  }
}
