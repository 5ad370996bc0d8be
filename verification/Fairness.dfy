/**
 * Nobody starves: once a job has been due for a millisecond, the set of jobs ordered before it
 * gains only new jobs stamped before its due time, and loses a member at every claim that could
 * have taken the job itself.
 */
module Fairness {
  import opened Prelude
  import opened Jobs
  import opened Statements
  import opened RetryPolicy
  import opened System
  import opened Invariants
  import opened History
  import opened Delivery
  import opened Denial
  import opened Scenarios

  // Queued, of an allowed destination, and due before now.
  predicate Waits(s: System, j: nat) {
    && j < |s.jobs| && Unsent(s.jobs[j].status) && !s.jobs[j].status.Scheduled?
    && Sendable(s.dests, s.jobs[j].destination) && DueAt(s.jobs[j]) < s.clock
  }

  predicate IsAhead(rows: seq<Job>, k: nat, j: nat)
    requires j < |rows|
  {
    k < |rows| && k != j && Unsent(rows[k].status) && Before(rows, k, j)
  }

  function Ahead(s: System, j: nat): set<nat>
    requires j < |s.jobs|
  {
    set k: nat | k < |s.jobs| && IsAhead(s.jobs, k, j)
  }

  // A queued row after the step was queued with the same due time, or is due at the step's
  // clock or later.
  predicate LateOrSame(before: Job, after: Job, clock: Instant) {
    Unsent(after.status) ==> (Unsent(before.status) && DueAt(after) == DueAt(before)) || clock <= DueAt(after)
  }

  lemma SettledLate(s: System, w: nat, j: nat, target: Status, change: Change, finished: Instant, k: nat)
    requires w in s.workers && k < |s.jobs|
    requires Unsent(target) ==> change.nextAttemptAt.Some? && s.clock <= change.nextAttemptAt.value
    ensures var after := Settle(s, w, j, target, change, finished);
      k < |after.jobs| && LateOrSame(s.jobs[k], after.jobs[k], s.clock)
  {
  }

  lemma ErrorSettledLate(s: System, w: nat, target: Status, change: Change, effect: Effect, k: nat)
    requires w in s.workers && s.workers[w].hold.Sending? && k < |s.jobs|
    requires Unsent(target) ==> change.nextAttemptAt.Some? && s.clock <= change.nextAttemptAt.value
    ensures var after := ErrorSettled(s, w, target, change, effect);
      k < |after.jobs| && LateOrSame(s.jobs[k], after.jobs[k], s.clock)
  {
    SettledLate(s, w, s.workers[w].hold.job, target, change, s.clock, k);
  }

  lemma DecisionLate(s: System, w: nat, errorClass: ErrorClass, decision: Decision, k: nat)
    requires w in s.workers && s.workers[w].hold.Sending? && k < |s.jobs|
    requires !decision.Fail? ==> 0 <= decision.delayMs
    ensures var after := ApplyDecision(s, w, errorClass, decision);
      k < |after.jobs| && LateOrSame(s.jobs[k], after.jobs[k], s.clock)
  {
    hide ErrorSettled;
    if decision.RetryAfter? {
      ErrorSettledLate(s, w, Retry, ErrorChange(errorClass, Some(s.clock + decision.delayMs)), NoEffect, k);
    } else if decision.RateLimit? {
      ErrorSettledLate(s, w, WaitingRateLimit, ErrorChange(errorClass, Some(s.clock + decision.delayMs)),
                       LimitRate(s.clock + decision.delayMs), k);
    } else if decision.PauseAuth? {
      ErrorSettledLate(s, w, Retry, ErrorChange(errorClass, Some(s.clock + decision.delayMs)),
                       PauseForAuth(ClassPause(errorClass)), k);
    } else {
      var blocked :=
        if BlocksDestination(errorClass) then Blocked(s, s.workers[w].hold.claimed.destination) else s;
      ErrorSettledLate(blocked, w, Failed, ErrorChange(errorClass, None), NoEffect, k);
    }
  }

  lemma ErrorLate(s: System, w: nat, errorClass: ErrorClass, retryAfterMs: Option<nat>, jitter: real, k: nat)
    requires w in s.workers && s.workers[w].hold.Sending? && k < |s.jobs| && 0.0 <= jitter < 1.0
    ensures var after := ApplyError(s, w, errorClass, retryAfterMs, jitter);
      k < |after.jobs| && LateOrSame(s.jobs[k], after.jobs[k], s.clock)
  {
    hide ApplyDecision, RetryDelayMs, LateOrSame;
    var worker := s.workers[w];
    RetryOnlyWithinBudget(errorClass, worker.hold.claimed.attempts, worker.hold.claimed.maxAttempts,
                          worker.config.retryBaseMs, worker.config.retryMaxMs, retryAfterMs, jitter);
    DecisionLate(s, w, errorClass, WorkerDecision(worker, errorClass, retryAfterMs, jitter), k);
  }

  lemma AcceptedLate(s: System, w: nat, target: Status, remote: RemoteId, jitter: real, k: nat)
    requires w in s.workers && s.workers[w].hold.Sending? && k < |s.jobs| && 0.0 <= jitter < 1.0
    requires target.Sent? || target.DryRun?
    ensures var after := ApplyAccepted(s, w, target, remote, jitter);
      k < |after.jobs| && LateOrSame(s.jobs[k], after.jobs[k], s.clock)
  {
    hide ApplyError;
    var noted := Record(s, DeliveryAccepted(s.workers[w].hold.job));
    SettledLate(noted, w, s.workers[w].hold.job, target, Change(Some(remote), None, None), s.clock, k);
    ErrorLate(noted, w, UnknownTransient, None, jitter, k);
  }

  lemma FinishLate(s: System, w: nat, outcome: Outcome, jitter: real, k: nat)
    requires k < |s.jobs| && 0.0 <= jitter < 1.0
    ensures var after := ApplyFinishSend(s, w, outcome, jitter);
      k < |after.jobs| && LateOrSame(s.jobs[k], after.jobs[k], s.clock)
  {
    hide ApplyError, ApplyAccepted;
    if w in s.workers && s.workers[w].hold.Sending? {
      var claimed := s.workers[w].hold.claimed;
      if !ViaLive(s.workers[w], claimed) {
        AcceptedLate(s, w, DryRun, Simulated, jitter, k);
      } else if outcome.Rejected? {
        ErrorLate(s, w, TransportClass(claimed, outcome.errorClass), outcome.retryAfterMs, jitter, k);
      } else {
        AcceptedLate(s, w, Sent, RemoteMessage(outcome.number), jitter, k);
      }
    }
  }

  lemma TouchedLate(s: System, step: Step, k: nat)
    requires Sound(s) && k < |s.jobs| && Touches(s, step, k)
    ensures k < |Apply(s, step).jobs| && LateOrSame(s.jobs[k], Apply(s, step).jobs[k], s.clock)
  {
    if step.PutBack? {
      var w := step.worker;
      SettledLate(s, w, k, Retry, PutBackChange(s.clock), s.workers[w].lastFinish, k);
    } else if step.BeginSend? {
      var w := step.worker;
      SettledLate(s, w, k, Failed, ErrorChange(DestinationError, None), s.workers[w].lastFinish, k);
      SettledLate(s, w, k, Failed, ErrorChange(MediaError, None), s.workers[w].lastFinish, k);
    } else if step.FinishSend? {
      if 0.0 <= step.jitter < 1.0 { FinishLate(s, step.worker, step.outcome, step.jitter, k); }
    }
  }

  lemma StepLate(s: System, step: Step, k: nat)
    requires Sound(s) && k < |s.jobs|
    ensures k < |Apply(s, step).jobs| && LateOrSame(s.jobs[k], Apply(s, step).jobs[k], s.clock)
  {
    if Touches(s, step, k) {
      TouchedLate(s, step, k);
    } else {
      hide TallyOf;
      UntouchedMeanwhile(s, step, k);
      assert Shape(s.jobs[k]);
    }
  }

  // ----- The waiting job keeps waiting until it is claimed or cancelled -----

  // A new job stamped before the waiting job's due time: the stamp was read before the insert.
  predicate JumpsAhead(s: System, step: Step, due: Instant) {
    && step.Create? && NewJobOk(step.newJob) && Insert(s.jobs, s.dests, step.newJob).Ok?
    && (step.newJob.status.Pending? ==> step.newJob.scheduledAt <= s.clock)
    && step.newJob.scheduledAt < due
  }

  // A queued, promoted job either stays exactly as it is or leaves the queue.
  lemma WaiterUnchanged(s: System, step: Step, j: nat)
    requires Sound(s) && j < |s.jobs| && Unsent(s.jobs[j].status) && !s.jobs[j].status.Scheduled?
    ensures j < |Apply(s, step).jobs|
    ensures Unsent(Apply(s, step).jobs[j].status) ==> Apply(s, step).jobs[j] == s.jobs[j]
  {
    StepGood(s, step);
    assert Follows(s.jobs[j], Apply(s, step).jobs[j]);
  }

  lemma DecisionDests(s: System, w: nat, errorClass: ErrorClass, decision: Decision, jid: Jid)
    requires w in s.workers && s.workers[w].hold.Sending? && Sendable(s.dests, jid)
    ensures var after := ApplyDecision(s, w, errorClass, decision);
      || Sendable(after.dests, jid)
      || forall k :: 0 <= k < |after.jobs| && after.jobs[k].destination == jid ==> !Unsent(after.jobs[k].status)
  {
    var jobs := CancelledFor(s.jobs, s.workers[w].hold.claimed.destination);
    assert forall k :: (0 <= k < |jobs| && jobs[k].destination == s.workers[w].hold.claimed.destination ==>
                          !Unsent(jobs[k].status));
  }

  lemma FinishDests(s: System, w: nat, outcome: Outcome, jitter: real, jid: Jid)
    requires Sendable(s.dests, jid)
    ensures var after := ApplyFinishSend(s, w, outcome, jitter);
      || Sendable(after.dests, jid)
      || forall k :: 0 <= k < |after.jobs| && after.jobs[k].destination == jid ==> !Unsent(after.jobs[k].status)
  {
    hide ApplyDecision;
    if w in s.workers && s.workers[w].hold.Sending? {
      var worker := s.workers[w];
      var noted := Record(s, DeliveryAccepted(worker.hold.job));
      DecisionDests(noted, w, UnknownTransient, WorkerDecision(worker, UnknownTransient, None, jitter), jid);
      if outcome.Rejected? {
        var errorClass := TransportClass(worker.hold.claimed, outcome.errorClass);
        DecisionDests(s, w, errorClass, WorkerDecision(worker, errorClass, outcome.retryAfterMs, jitter), jid);
      }
    }
  }

  // Permission is only ever taken away together with the destination's queued jobs.
  lemma PermissionLostCancels(s: System, step: Step, j: nat)
    requires Sound(s) && j < |s.jobs| && Sendable(s.dests, s.jobs[j].destination)
    ensures var after := Apply(s, step);
      && j < |after.jobs|
      && (Unsent(after.jobs[j].status) ==> Sendable(after.dests, s.jobs[j].destination))
  {
    StepGood(s, step);
    assert Follows(s.jobs[j], Apply(s, step).jobs[j]);
    if step.FinishSend? {
      if 0.0 <= step.jitter < 1.0 {
        FinishDests(s, step.worker, step.outcome, step.jitter, s.jobs[j].destination);
      }
    } else if step.Refresh? {
      UpsertKeepsKnown(s.dests, step.items, s.jobs[j].destination);
    }
  }

  lemma ClockNeverRunsBack(s: System, step: Step)
    ensures s.clock <= Apply(s, step).clock
  {
    if step.FinishSend? && 0.0 <= step.jitter < 1.0 {
      FinishKeepsClock(s, step.worker, step.outcome, step.jitter);
    }
  }

  lemma {:induction false} RunNeverRunsBack(s: System, steps: seq<Step>)
    ensures s.clock <= Run(s, steps).clock
  {
    if steps != [] {
      RunNeverRunsBack(s, steps[..|steps| - 1]);
      ClockNeverRunsBack(Run(s, steps[..|steps| - 1]), steps[|steps| - 1]);
    }
  }

  lemma FinishKeepsClock(s: System, w: nat, outcome: Outcome, jitter: real)
    ensures ApplyFinishSend(s, w, outcome, jitter).clock == s.clock
  {
  }

  lemma WaitsOn(s: System, step: Step, j: nat)
    requires Sound(s) && Waits(s, j)
    requires j < |Apply(s, step).jobs| && Unsent(Apply(s, step).jobs[j].status)
    ensures Waits(Apply(s, step), j) && Apply(s, step).jobs[j] == s.jobs[j]
  {
    WaiterUnchanged(s, step, j);
    PermissionLostCancels(s, step, j);
    ClockNeverRunsBack(s, step);
  }

  // Nothing gets ahead of a waiting job but a new job stamped before its due time.
  lemma AheadOnlyShrinks(s: System, step: Step, j: nat)
    requires Sound(s) && Waits(s, j)
    requires j < |Apply(s, step).jobs| && Unsent(Apply(s, step).jobs[j].status)
    ensures Waits(Apply(s, step), j)
    ensures Ahead(Apply(s, step), j) <= Ahead(s, j) <==> !JumpsAhead(s, step, DueAt(s.jobs[j]))
    ensures Ahead(Apply(s, step), j) <= Ahead(s, j) + {|s.jobs|}
  {
    var after := Apply(s, step);
    WaitsOn(s, step, j);
    forall k: nat | k in Ahead(after, j) && k < |s.jobs| ensures k in Ahead(s, j) {
      StepLate(s, step, k);
    }
    OnlyCreateAppends(s, step);
    if |s.jobs| in Ahead(after, j) {
      AppendedRow(s, step, |s.jobs|);
    }
    if JumpsAhead(s, step, DueAt(s.jobs[j])) {
      LateStampIsAhead(s, step, j);
    }
  }

  lemma LateStampIsAhead(s: System, step: Step, j: nat)
    requires j < |s.jobs| && JumpsAhead(s, step, DueAt(s.jobs[j]))
    ensures |s.jobs| in Ahead(Apply(s, step), j) && |s.jobs| !in Ahead(s, j)
  {
    assert Apply(s, step).jobs == s.jobs + [FreshRow(step.newJob)];
  }

  lemma AppendedRow(s: System, step: Step, k: nat)
    requires Sound(s) && |s.jobs| <= k < |Apply(s, step).jobs|
    ensures step.Create? && DueAt(Apply(s, step).jobs[k]) == step.newJob.scheduledAt
    ensures forall due :: step.newJob.scheduledAt < due ==> JumpsAhead(s, step, due)
  {
    OnlyCreateAppends(s, step);
  }

  // A claim that could have taken j: the daemon's, in the right mode, read late enough.
  predicate Rival(s: System, step: Step, j: nat)
    requires j < |s.jobs|
  {
    && step.Claim? && step.worker == 0 && CanClaim(s, 0, step.now)
    && DueAt(s.jobs[j]) <= step.now
    && (s.workers[step.worker].config.dryRun ==> s.jobs[j].dryRun)
  }

  // Such a claim always takes some job: j itself or one ahead of it.
  lemma RivalTakesFromAhead(s: System, step: Step, j: nat)
    requires Sound(s) && Waits(s, j) && Rival(s, step, j)
    ensures ClaimChoice(s, step.worker, step.now).Some?
    ensures var k := ClaimChoice(s, step.worker, step.now).value;
      k == j || (k in Ahead(s, j) && Apply(s, step).jobs[k].status.Processing?)
  {
    assert Shape(s.jobs[j]);
    assert Claimable(s.jobs[j], s.dests, step.now, s.workers[step.worker].config.dryRun);
    assert Matches(None, j);
  }

  function Rivals(s: System, steps: seq<Step>, j: nat): nat
    requires Sound(s) && j < |s.jobs|
  {
    if steps == [] then 0
    else
      var n := |steps| - 1;
      RunSound(s, steps[..n]);
      Rivals(s, steps[..n], j) + if Rival(Run(s, steps[..n]), steps[n], j) then 1 else 0
  }

  // How many new jobs of the run are stamped before j's due time.
  function LateStamps(s: System, steps: seq<Step>, due: Instant): nat {
    if steps == [] then 0
    else
      var n := |steps| - 1;
      LateStamps(s, steps[..n], due) + if JumpsAhead(Run(s, steps[..n]), steps[n], due) then 1 else 0
  }

  // j stays queued throughout.
  ghost predicate PassedOver(s: System, steps: seq<Step>, j: nat)
    requires j < |s.jobs|
  {
    steps == []
    || (PassedOver(s, steps[..|steps| - 1], j)
        && j < |Run(s, steps).jobs| && Unsent(Run(s, steps).jobs[j].status))
  }

  lemma RivalShrinksAhead(s: System, step: Step, j: nat)
    requires Sound(s) && Waits(s, j) && Rival(s, step, j)
    requires j < |Apply(s, step).jobs| && Unsent(Apply(s, step).jobs[j].status)
    ensures |Ahead(Apply(s, step), j)| < |Ahead(s, j)|
  {
    AheadOnlyShrinks(s, step, j);
    RivalTakesFromAhead(s, step, j);
    var k := ClaimChoice(s, step.worker, step.now).value;
    ClaimedIsProcessing(s, step);
    assert k !in Ahead(Apply(s, step), j);
    Shrinks(Ahead(s, j), Ahead(Apply(s, step), j), k);
  }

  lemma AheadGrowsByStamps(s: System, step: Step, j: nat)
    requires Sound(s) && Waits(s, j)
    requires j < |Apply(s, step).jobs| && Unsent(Apply(s, step).jobs[j].status)
    ensures |Ahead(Apply(s, step), j)|
      <= |Ahead(s, j)| + if JumpsAhead(s, step, DueAt(s.jobs[j])) then 1 else 0
  {
    AheadOnlyShrinks(s, step, j);
    if JumpsAhead(s, step, DueAt(s.jobs[j])) {
      Subset(Ahead(Apply(s, step), j), Ahead(s, j) + {|s.jobs|});
    } else {
      Subset(Ahead(Apply(s, step), j), Ahead(s, j));
    }
  }

  lemma ClaimedIsProcessing(s: System, step: Step)
    requires step.Claim? && CanClaim(s, step.worker, step.now)
    requires ClaimChoice(s, step.worker, step.now).Some?
    ensures var k := ClaimChoice(s, step.worker, step.now).value;
      k < |Apply(s, step).jobs| && Apply(s, step).jobs[k].status.Processing?
  {
  }

  lemma Shrinks(a: set<nat>, b: set<nat>, k: nat)
    requires b <= a && k in a && k !in b
    ensures |b| < |a|
  {
    assert b <= a - {k};
    Subset(b, a - {k});
  }

  lemma {:induction false} Subset(b: set<nat>, a: set<nat>)
    requires b <= a
    ensures |b| <= |a|
  {
    if b != {} {
      var x :| x in b;
      Subset(b - {x}, a - {x});
    }
  }

  // Bounded bypass: over any run in which j stays queued, the number of claims that took another
  // job instead of j is at most the number of jobs ahead of j at the start, plus the new jobs
  // stamped before j's due time.
  lemma {:induction false} BoundedBypass(s: System, steps: seq<Step>, j: nat)
    requires Sound(s) && Waits(s, j) && PassedOver(s, steps, j)
    ensures var after := Run(s, steps);
      && Sound(after) && Waits(after, j) && after.jobs[j] == s.jobs[j]
      && Rivals(s, steps, j) + |Ahead(after, j)| <= |Ahead(s, j)| + LateStamps(s, steps, DueAt(s.jobs[j]))
  {
    RunSound(s, steps);
    if steps != [] {
      var n := |steps| - 1;
      var before := Run(s, steps[..n]);
      BoundedBypass(s, steps[..n], j);
      WaitsOn(before, steps[n], j);
      hide Apply, Ahead, Waits, Sound;
      if Rival(before, steps[n], j) {
        RivalShrinksAhead(before, steps[n], j);
      } else {
        AheadGrowsByStamps(before, steps[n], j);
      }
    }
  }

  // When nobody is ahead, the next such claim takes j.
  lemma FirstInLineIsClaimed(s: System, step: Step, j: nat)
    requires Sound(s) && Waits(s, j) && Rival(s, step, j) && Ahead(s, j) == {}
    ensures Apply(s, step).jobs[j] == ClaimedRow(s.jobs[j], step.now)
  {
    RivalTakesFromAhead(s, step, j);
  }

  // The millisecond matters: a job due at this very instant is overtaken by an older job that
  // a stopping worker puts back unsent, which is due at the same instant.
  lemma PutBackOvertakesAtTheSameInstant(s: System, w: nat, i: nat, j: nat)
    requires Sound(s) && i < j < |s.jobs| && Unsent(s.jobs[j].status) && DueAt(s.jobs[j]) == s.clock
    requires Holds(s, w, i) && s.workers[w].hold.Pacing? && s.workers[w].stopping && s.jobs[i].status.Processing?
    ensures i !in Ahead(s, j) && i in Ahead(Apply(s, PutBack(w)), j)
    ensures Apply(s, PutBack(w)).jobs[j] == s.jobs[j]
  {
    StoreKeepsWellFormed(s.jobs, i, TransitionRow(s.jobs[i], Retry, PutBackChange(s.clock), s.clock));
    assert Settles(s, i, Retry, PutBackChange(s.clock));
  }

  function StampedEarlier(): NewJob {
    var job := Message(1, Pending);
    job.(key := job.key.(forceNonce := Some(1)))
  }

  // Such a stamp happens: an enqueue reads the clock at 1, another job is queued at 2 and has been
  // due for a millisecond when the first enqueue's insert gets through.
  lemma LateStampHappens()
    ensures Initial(Beginning(2))
    ensures exists steps :: var s := Run(Beginning(2), steps);
      Sound(s) && Waits(s, 0) && JumpsAhead(s, Create(StampedEarlier()), DueAt(s.jobs[0]))
  {
    var job := Message(2, Pending);
    DaemonStarted(2, job);
    RunExtend(Beginning(2), FirstSteps(job), Tick(1));
    RunSound(Beginning(2), FirstSteps(job) + [Tick(1)]);
    hide Run, Sound;
    var s := StartedOne(2, job).(clock := 3);
    assert Run(Beginning(2), FirstSteps(job) + [Tick(1)]) == s;
    assert !Conflicts(s.jobs, StampedEarlier().key, -1);
    assert JumpsAhead(s, Create(StampedEarlier()), DueAt(s.jobs[0]));
  }
}
