/**
 * Nothing uncertain is left behind unless a process dies in the middle of a delivery, and
 * start-up recovery moves exactly what was left.
 */
module CleanStop {
  import opened Prelude
  import opened Jobs
  import opened Statements
  import opened System
  import opened Invariants
  import opened History
  import opened Delivery

  predicate InHand(s: System, j: nat) {
    exists w :: w in s.workers && !s.workers[w].hold.Idle? && s.workers[w].hold.job == j
  }

  // Every PROCESSING row is in the hands of a running worker.
  ghost predicate NoOrphans(s: System) {
    forall j: nat :: j < |s.jobs| && s.jobs[j].status.Processing? ==> InHand(s, j)
  }

  // A worker dies while it holds a job.
  predicate DiesBusy(s: System, step: Step) {
    step.Crash? && step.worker in s.workers && !s.workers[step.worker].hold.Idle?
  }

  lemma StillInHand(s: System, after: System, j: nat, w: nat)
    requires w in after.workers && !after.workers[w].hold.Idle? && after.workers[w].hold.job == j
    ensures InHand(after, j)
  {
  }

  // A worker that ends its hold of j leaves row j settled.
  lemma SettleEnds(s: System, w: nat, j: nat, target: Status, change: Change, finished: Instant)
    requires WellFormed(s.jobs) && w in s.workers && j < |s.jobs|
    requires target.Retry? || target.WaitingRateLimit? || target.Failed? || target.Sent? || target.DryRun?
    ensures var after := Settle(s, w, j, target, change, finished);
      j < |after.jobs| && !after.jobs[j].status.Processing?
  {
  }

  lemma ErrorSettledEnds(s: System, w: nat, target: Status, change: Change, effect: Effect)
    requires WellFormed(s.jobs) && w in s.workers && s.workers[w].hold.Sending? && s.workers[w].hold.job < |s.jobs|
    requires target.Retry? || target.WaitingRateLimit? || target.Failed?
    ensures var after := ErrorSettled(s, w, target, change, effect);
      && |after.jobs| == |s.jobs| && !after.jobs[s.workers[w].hold.job].status.Processing?
  {
    SettleEnds(s, w, s.workers[w].hold.job, target, change, s.clock);
  }

  lemma DecisionEnds(s: System, w: nat, errorClass: ErrorClass, decision: RetryPolicy.Decision)
    requires WellFormed(s.jobs) && w in s.workers && s.workers[w].hold.Sending? && s.workers[w].hold.job < |s.jobs|
    ensures var after := ApplyDecision(s, w, errorClass, decision);
      && |after.jobs| == |s.jobs| && !after.jobs[s.workers[w].hold.job].status.Processing?
  {
    hide ErrorSettled;
    if decision.RetryAfter? {
      ErrorSettledEnds(s, w, Retry, ErrorChange(errorClass, Some(s.clock + decision.delayMs)), NoEffect);
    } else if decision.RateLimit? {
      ErrorSettledEnds(s, w, WaitingRateLimit, ErrorChange(errorClass, Some(s.clock + decision.delayMs)),
                       LimitRate(s.clock + decision.delayMs));
    } else if decision.PauseAuth? {
      ErrorSettledEnds(s, w, Retry, ErrorChange(errorClass, Some(s.clock + decision.delayMs)),
                       PauseForAuth(ClassPause(errorClass)));
    } else {
      var claimed := s.workers[w].hold.claimed;
      DenyRefinesTable(s.jobs, claimed.destination);
      var blocked := if BlocksDestination(errorClass) then Blocked(s, claimed.destination) else s;
      ErrorSettledEnds(blocked, w, Failed, ErrorChange(errorClass, None), NoEffect);
    }
  }

  lemma AcceptedEnds(s: System, w: nat, target: Status, remote: RemoteId, jitter: real)
    requires WellFormed(s.jobs) && w in s.workers && s.workers[w].hold.Sending? && s.workers[w].hold.job < |s.jobs|
    requires target.Sent? || target.DryRun?
    ensures var after := ApplyAccepted(s, w, target, remote, jitter);
      && |after.jobs| == |s.jobs| && !after.jobs[s.workers[w].hold.job].status.Processing?
  {
    hide ApplyDecision;
    var noted := Record(s, DeliveryAccepted(s.workers[w].hold.job));
    SettleEnds(noted, w, s.workers[w].hold.job, target, Change(Some(remote), None, None), s.clock);
    DecisionEnds(noted, w, UnknownTransient, WorkerDecision(s.workers[w], UnknownTransient, None, jitter));
  }

  lemma FinishEnds(s: System, w: nat, outcome: Outcome, jitter: real)
    requires WellFormed(s.jobs) && w in s.workers && s.workers[w].hold.Sending? && s.workers[w].hold.job < |s.jobs|
    ensures var after := ApplyFinishSend(s, w, outcome, jitter);
      && |after.jobs| == |s.jobs| && !after.jobs[s.workers[w].hold.job].status.Processing?
  {
    hide ApplyDecision, ApplyAccepted;
    var worker := s.workers[w];
    if !ViaLive(worker, worker.hold.claimed) {
      AcceptedEnds(s, w, DryRun, Simulated, jitter);
    } else if outcome.Rejected? {
      var errorClass := TransportClass(worker.hold.claimed, outcome.errorClass);
      DecisionEnds(s, w, errorClass, WorkerDecision(worker, errorClass, outcome.retryAfterMs, jitter));
    } else {
      AcceptedEnds(s, w, Sent, RemoteMessage(outcome.number), jitter);
    }
  }

  lemma WorkerStepNoOrphan(s: System, step: Step, j: nat)
    requires Sound(s) && NoOrphans(s) && j < |s.jobs| && j < |Apply(s, step).jobs|
    requires Apply(s, step).jobs[j].status.Processing?
    requires step.PutBack? || step.BeginSend? || step.FinishSend?
    ensures InHand(Apply(s, step), j)
  {
    var w, after := step.worker, Apply(s, step);
    if Holds(s, w, j) {
      assert HoldOk(s.jobs, s.workers[w]);
      if step.PutBack? {
        SettleEnds(s, w, j, Retry, PutBackChange(s.clock), s.workers[w].lastFinish);
        StillInHand(s, s, j, w);
      } else if step.BeginSend? {
        SettleEnds(s, w, j, Failed, ErrorChange(DestinationError, None), s.workers[w].lastFinish);
        SettleEnds(s, w, j, Failed, ErrorChange(MediaError, None), s.workers[w].lastFinish);
        StillInHand(s, after, j, w);
      } else {
        if 0.0 <= step.jitter < 1.0 && s.workers[w].hold.Sending? {
          FinishEnds(s, w, step.outcome, step.jitter);
        }
        StillInHand(s, after, j, w);
      }
    } else {
      ElsewhereNoOrphan(s, step, j);
    }
  }

  lemma OthersKeepHold(s: System, step: Step, v: nat)
    requires v in s.workers && (step.PutBack? || step.BeginSend? || step.FinishSend?) && v != step.worker
    ensures v in Apply(s, step).workers && Apply(s, step).workers[v] == s.workers[v]
  {
    if step.FinishSend? && step.worker in s.workers && s.workers[step.worker].hold.Sending? {
      FinishKeepsOthers(s, step.worker, step.outcome, step.jitter);
    }
  }

  lemma NotElsewhere(s: System, step: Step, j: nat)
    requires Sound(s) && j < |s.jobs| && (step.PutBack? || step.BeginSend? || step.FinishSend?)
    requires !Holds(s, step.worker, j) && j < |Apply(s, step).jobs| && Apply(s, step).jobs[j].status.Processing?
    ensures s.jobs[j].status.Processing?
  {
    if step.PutBack? { PutBackElsewhere(s, step.worker, j); }
    else if step.BeginSend? { BeginSendElsewhere(s, step.worker, step.mediaExists, j); }
    else { FinishSendElsewhere(s, step.worker, step.outcome, step.jitter, j); }
  }

  lemma ElsewhereNoOrphan(s: System, step: Step, j: nat)
    requires Sound(s) && NoOrphans(s) && j < |s.jobs| && j < |Apply(s, step).jobs|
    requires Apply(s, step).jobs[j].status.Processing?
    requires (step.PutBack? || step.BeginSend? || step.FinishSend?) && !Holds(s, step.worker, j)
    ensures InHand(Apply(s, step), j)
  {
    hide Apply, Sound;
    NotElsewhere(s, step, j);
    assert InHand(s, j);
    var v :| v in s.workers && !s.workers[v].hold.Idle? && s.workers[v].hold.job == j;
    OthersKeepHold(s, step, v);
    StillInHand(s, Apply(s, step), j, v);
  }

  lemma ClaimNoOrphan(s: System, step: Step, j: nat)
    requires Sound(s) && NoOrphans(s) && step.Claim? && j < |s.jobs|
    requires j < |Apply(s, step).jobs| && Apply(s, step).jobs[j].status.Processing?
    ensures InHand(Apply(s, step), j)
  {
    if Touches(s, step, j) {
      StillInHand(s, Apply(s, step), j, step.worker);
    } else {
      ClaimElsewhere(s, step.worker, step.now, j);
      assert InHand(s, j);
      var v :| v in s.workers && !s.workers[v].hold.Idle? && s.workers[v].hold.job == j;
      StillInHand(s, Apply(s, step), j, v);
    }
  }

  lemma OtherStepNoOrphan(s: System, step: Step, j: nat)
    requires Sound(s) && NoOrphans(s) && !DiesBusy(s, step)
    requires !(step.Claim? || step.PutBack? || step.BeginSend? || step.FinishSend?)
    requires j < |Apply(s, step).jobs| && Apply(s, step).jobs[j].status.Processing?
    ensures InHand(Apply(s, step), j)
  {
    OnlyCreateAppends(s, step);
    if j < |s.jobs| {
      StepGood(s, step);
      assert Follows(s.jobs[j], Apply(s, step).jobs[j]);
      NotClaimed(s, step, j);
      assert InHand(s, j);
      var v :| v in s.workers && !s.workers[v].hold.Idle? && s.workers[v].hold.job == j;
      WorkersKept(s, step, v);
      StillInHand(s, Apply(s, step), j, v);
    }
  }

  lemma NotClaimed(s: System, step: Step, j: nat)
    requires Sound(s) && j < |s.jobs| && j < |Apply(s, step).jobs|
    requires !(step.Claim? || step.PutBack? || step.BeginSend? || step.FinishSend?)
    requires Apply(s, step).jobs[j].status.Processing?
    ensures s.jobs[j].status.Processing?
  {
    if !Touches(s, step, j) {
      hide TallyOf;
      UntouchedMeanwhile(s, step, j);
    }
  }

  lemma WorkersKept(s: System, step: Step, v: nat)
    requires v in s.workers && !s.workers[v].hold.Idle? && !DiesBusy(s, step)
    requires !(step.Claim? || step.PutBack? || step.BeginSend? || step.FinishSend?)
    ensures v in Apply(s, step).workers && Apply(s, step).workers[v].hold == s.workers[v].hold
  {
  }

  lemma StepNoOrphans(s: System, step: Step)
    requires Sound(s) && NoOrphans(s) && !DiesBusy(s, step)
    ensures NoOrphans(Apply(s, step))
  {
    forall j: nat | j < |Apply(s, step).jobs| && Apply(s, step).jobs[j].status.Processing?
      ensures InHand(Apply(s, step), j)
    {
      if step.PutBack? || step.BeginSend? || step.FinishSend? {
        OnlyCreateAppends(s, step);
        WorkerStepNoOrphan(s, step, j);
      } else if step.Claim? {
        OnlyCreateAppends(s, step);
        ClaimNoOrphan(s, step, j);
      } else {
        OtherStepNoOrphan(s, step, j);
      }
    }
  }

  ghost predicate NobodyDiesBusy(s: System, steps: seq<Step>) {
    steps == []
    || (NobodyDiesBusy(s, steps[..|steps| - 1]) && !DiesBusy(Run(s, steps[..|steps| - 1]), steps[|steps| - 1]))
  }

  lemma {:induction false} RunNoOrphans(s: System, steps: seq<Step>)
    requires Sound(s) && NoOrphans(s) && NobodyDiesBusy(s, steps)
    ensures Sound(Run(s, steps)) && NoOrphans(Run(s, steps))
  {
    if steps != [] {
      var n := |steps| - 1;
      RunNoOrphans(s, steps[..n]);
      StepGood(Run(s, steps[..n]), steps[n]);
      StepNoOrphans(Run(s, steps[..n]), steps[n]);
    }
  }

  predicate AllIdle(s: System) {
    forall w :: w in s.workers ==> s.workers[w].hold.Idle?
  }

  // When every worker has stopped normally, no row is PROCESSING and recovery changes nothing.
  lemma NormalStopLeavesNothing(s: System, steps: seq<Step>)
    requires Sound(s) && NoOrphans(s) && NobodyDiesBusy(s, steps) && AllIdle(Run(s, steps))
    ensures Recovered(Run(s, steps).jobs) == Run(s, steps).jobs
  {
    var after := Run(s, steps);
    RunNoOrphans(s, steps);
    forall j | 0 <= j < |after.jobs| ensures !after.jobs[j].status.Processing? {
      assert !InHand(after, j);
    }
    assert Recovered(after.jobs) == after.jobs;
  }

  // After the daemon dies alone in the middle of a delivery, recovery at the next start
  // reviews exactly the job it was delivering (if an operator has not settled it already).
  lemma RecoveryReviewsExactlyTheInFlight(s: System, config: Config, j: nat)
    requires Sound(s) && NoOrphans(s) && 0 in s.workers
    requires forall w :: w in s.workers && w != 0 ==> s.workers[w].hold.Idle?
    requires j < |s.jobs|
    ensures var after := Apply(Apply(s, Crash(0)), StartDaemon(config));
      && |after.jobs| == |s.jobs|
      && (if s.jobs[j].status.Processing?
          then Holds(s, 0, j) && after.jobs[j].status.ReviewRequired?
          else after.jobs[j] == s.jobs[j])
  {
    if s.jobs[j].status.Processing? {
      assert InHand(s, j);
    }
  }

  // A live job under review is only ever moved on by an operator.
  lemma ReviewNeedsOperator(s: System, step: Step, j: nat)
    requires Sound(s) && LiveJob(s, j) && Owned(s, j) && s.jobs[j].status.ReviewRequired?
    ensures j < |Apply(s, step).jobs|
    ensures Apply(s, step).jobs[j] != s.jobs[j] ==>
      step == OperatorRetry(j) || step == OperatorCancel(j) || step == OperatorMarkSent(j)
  {
    hide TallyOf, Sound, ApplyClaim, ApplyPutBack, ApplyBeginSend, ApplyFinishSend;
    if step.PutBack? || step.BeginSend? || step.FinishSend? {
      if Holds(s, step.worker, j) { DaemonDelivers(s, step.worker, j); }
      if step.PutBack? { PutBackElsewhere(s, step.worker, j); }
      else if step.BeginSend? { BeginSendElsewhere(s, step.worker, step.mediaExists, j); }
      else { FinishSendElsewhere(s, step.worker, step.outcome, step.jitter, j); }
    } else if step.Claim? {
      ReviewIsNotClaimed(s, step.worker, step.now, j);
      ClaimElsewhere(s, step.worker, step.now, j);
    }
  }

  lemma ReviewIsNotClaimed(s: System, w: nat, now: Instant, j: nat)
    requires j < |s.jobs| && s.jobs[j].status.ReviewRequired?
    ensures !Touches(s, Claim(w, now), j)
  {
  }
}
