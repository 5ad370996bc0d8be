/**
 * Scheduled work is never early. A claimer reads the clock once and runs several transactions;
 * the start it records is on time whenever no other process released the job by a later reading.
 */
module Schedule {
  import opened Prelude
  import opened Jobs
  import opened Statements
  import opened RetryPolicy
  import opened System
  import opened Invariants
  import opened History
  import opened Delivery
  import opened Scenarios

  // When a job is claimed its scheduled time and its next-attempt time have both passed, by
  // the clock and, for the next attempt, by the instant the claimer read.
  lemma NeverClaimedEarly(s: System, w: nat, now: Instant, j: nat)
    requires Sound(s) && j < |s.jobs| && Touches(s, Claim(w, now), j)
    ensures s.jobs[j].scheduledAt <= s.clock
    ensures s.jobs[j].nextAttemptAt.Some? ==> s.jobs[j].nextAttemptAt.value <= now
    ensures ApplyClaim(s, w, now).jobs[j].startedAt == Some(now)
  {
    assert Arrived(s.jobs[j], s.clock) && Shape(s.jobs[j]);
  }

  ghost predicate StartedOnTime(jobs: seq<Job>) {
    forall j :: 0 <= j < |jobs| && jobs[j].startedAt.Some? ==> jobs[j].scheduledAt <= jobs[j].startedAt.value
  }

  lemma StartedOnlyByClaim(s: System, step: Step, j: nat)
    requires Sound(s) && j < |s.jobs|
    ensures j < |Apply(s, step).jobs|
    ensures Apply(s, step).jobs[j].startedAt == s.jobs[j].startedAt || (step.Claim? && Touches(s, step, j))
  {
    hide ApplyFinishSend, Sound;
    if step.FinishSend? {
      if 0.0 <= step.jitter < 1.0 { FinishKeepsStart(s, step.worker, step.outcome, step.jitter, j); }
    }
  }

  lemma DecisionKeepsStart(s: System, w: nat, errorClass: ErrorClass, decision: Decision, j: nat)
    requires w in s.workers && s.workers[w].hold.Sending? && j < |s.jobs|
    ensures var after := ApplyDecision(s, w, errorClass, decision);
      j < |after.jobs| && after.jobs[j].startedAt == s.jobs[j].startedAt
  {
  }

  lemma FinishKeepsStart(s: System, w: nat, outcome: Outcome, jitter: real, j: nat)
    requires j < |s.jobs|
    ensures var after := ApplyFinishSend(s, w, outcome, jitter);
      j < |after.jobs| && after.jobs[j].startedAt == s.jobs[j].startedAt
  {
    hide ApplyDecision;
    if w in s.workers && s.workers[w].hold.Sending? {
      var worker := s.workers[w];
      var noted := Record(s, DeliveryAccepted(worker.hold.job));
      DecisionKeepsStart(noted, w, UnknownTransient, WorkerDecision(worker, UnknownTransient, None, jitter), j);
      if outcome.Rejected? {
        var errorClass := TransportClass(worker.hold.claimed, outcome.errorClass);
        DecisionKeepsStart(s, w, errorClass, WorkerDecision(worker, errorClass, outcome.retryAfterMs, jitter), j);
      }
    }
  }

  // ----- Readings of the clock -----

  // What releases jobs in this step was read no later than r.
  predicate ReadsBy(step: Step, r: Instant) {
    && (step.Promote? ==> step.now <= r)
    && (step.Create? && step.newJob.status.Pending? ==> step.newJob.scheduledAt <= r)
  }

  predicate AllReadBy(steps: seq<Step>, r: Instant) {
    forall i :: 0 <= i < |steps| ==> ReadsBy(steps[i], r)
  }

  // Every claimer read the clock no earlier than what had released jobs by then.
  predicate OrderedReadings(steps: seq<Step>) {
    forall i, k :: 0 <= k < i < |steps| && steps[i].Claim? ==> ReadsBy(steps[k], steps[i].now)
  }

  lemma DecisionNeverPends(s: System, w: nat, errorClass: ErrorClass, decision: Decision, j: nat)
    requires w in s.workers && s.workers[w].hold.Sending? && j < |s.jobs|
    ensures var after := ApplyDecision(s, w, errorClass, decision);
      j < |after.jobs| && (after.jobs[j].status.Pending? ==> s.jobs[j].status.Pending?)
  {
  }

  lemma FinishNeverPends(s: System, w: nat, outcome: Outcome, jitter: real, j: nat)
    requires j < |s.jobs|
    ensures var after := ApplyFinishSend(s, w, outcome, jitter);
      j < |after.jobs| && (after.jobs[j].status.Pending? ==> s.jobs[j].status.Pending?)
  {
    hide ApplyDecision;
    if w in s.workers && s.workers[w].hold.Sending? {
      var worker := s.workers[w];
      var noted := Record(s, DeliveryAccepted(worker.hold.job));
      DecisionNeverPends(noted, w, UnknownTransient, WorkerDecision(worker, UnknownTransient, None, jitter), j);
      if outcome.Rejected? {
        var errorClass := TransportClass(worker.hold.claimed, outcome.errorClass);
        DecisionNeverPends(s, w, errorClass, WorkerDecision(worker, errorClass, outcome.retryAfterMs, jitter), j);
      }
    }
  }

  // Only a promotion makes a row PENDING that was not.
  lemma OnlyPromotePends(s: System, step: Step, j: nat)
    requires Sound(s) && j < |s.jobs| && !s.jobs[j].status.Pending?
    requires j < |Apply(s, step).jobs| && Apply(s, step).jobs[j].status.Pending?
    ensures step.Promote? && s.jobs[j].status.Scheduled? && s.jobs[j].scheduledAt <= step.now <= s.clock
  {
    hide ApplyFinishSend, TallyOf, Sound;
    if step.FinishSend? {
      FinishNeverPends(s, step.worker, step.outcome, step.jitter, j);
    }
  }

  // NothingEarly at an earlier instant survives every step whose readings are no later.
  lemma StepKeepsArrivals(s: System, step: Step, r: Instant)
    requires Sound(s) && NothingEarly(s.jobs, r) && ReadsBy(step, r)
    ensures NothingEarly(Apply(s, step).jobs, r)
  {
    var after := Apply(s, step);
    StepGood(s, step);
    OnlyCreateAppends(s, step);
    hide Apply, Sound;
    forall j | 0 <= j < |after.jobs| ensures Arrived(after.jobs[j], r) {
      if j < |s.jobs| {
        assert Follows(s.jobs[j], after.jobs[j]) && Arrived(s.jobs[j], r);
        if after.jobs[j].status.Pending? && !s.jobs[j].status.Pending? {
          OnlyPromotePends(s, step, j);
        }
      } else {
        NewRowArrives(s, step, r);
      }
    }
  }

  lemma NewRowArrives(s: System, step: Step, r: Instant)
    requires step.Create? && ReadsBy(step, r) && |s.jobs| < |Apply(s, step).jobs|
    ensures Arrived(Apply(s, step).jobs[|s.jobs|], r)
  {
  }

  lemma {:induction false} RunKeepsArrivals(s: System, steps: seq<Step>, r: Instant)
    requires Sound(s) && NothingEarly(s.jobs, r) && AllReadBy(steps, r)
    ensures NothingEarly(Run(s, steps).jobs, r)
  {
    if steps != [] {
      var n := |steps| - 1;
      RunKeepsArrivals(s, steps[..n], r);
      RunSound(s, steps[..n]);
      StepKeepsArrivals(Run(s, steps[..n]), steps[n], r);
    }
  }

  lemma StepStartsOnTime(s: System, step: Step)
    requires Sound(s) && StartedOnTime(s.jobs) && (step.Claim? ==> NothingEarly(s.jobs, step.now))
    ensures StartedOnTime(Apply(s, step).jobs)
  {
    var after := Apply(s, step);
    StepGood(s, step);
    OnlyCreateAppends(s, step);
    forall j | 0 <= j < |after.jobs| && after.jobs[j].startedAt.Some?
      ensures after.jobs[j].scheduledAt <= after.jobs[j].startedAt.value
    {
      if j < |s.jobs| {
        StartedOnlyByClaim(s, step, j);
        assert Follows(s.jobs[j], after.jobs[j]);
        if step.Claim? && Touches(s, step, j) {
          NeverClaimedEarly(s, step.worker, step.now, j);
          assert Arrived(s.jobs[j], step.now);
        }
      }
    }
  }

  // On every run whose claimers read the clock no earlier than the promotions and immediate
  // enqueues before them, no job's recorded start precedes its schedule. Time may pass between a
  // claimer's reading and its transactions.
  lemma {:induction false} NoRecordedStartIsEarly(s: System, steps: seq<Step>)
    requires Initial(s) && OrderedReadings(steps)
    ensures StartedOnTime(Run(s, steps).jobs)
  {
    if steps != [] {
      var n := |steps| - 1;
      NoRecordedStartIsEarly(s, steps[..n]);
      RunSound(s, steps[..n]);
      if steps[n].Claim? {
        RunKeepsArrivals(s, steps[..n], steps[n].now);
      }
      StepStartsOnTime(Run(s, steps[..n]), steps[n]);
    }
  }

  // ----- When a recorded start is early -----

  // The step makes job j PENDING: its immediate enqueue, or the promotion that finds it due.
  predicate Releases(s: System, step: Step, j: nat) {
    || (step.Promote? && j < |s.jobs| && s.jobs[j].status.Scheduled? && s.jobs[j].scheduledAt <= step.now <= s.clock)
    || (step.Create? && step.newJob.status.Pending? && j == |s.jobs| < |Apply(s, step).jobs|)
  }

  // The reading by which a release was made.
  function ReleaseReading(step: Step): Instant
    requires step.Promote? || step.Create?
  {
    if step.Promote? then step.now else step.newJob.scheduledAt
  }

  ghost predicate ReleasedAt(s: System, steps: seq<Step>, j: nat, k: nat) {
    k < |steps| && Releases(Run(s, steps[..k]), steps[k], j)
  }

  // Every job past SCHEDULED that was not cancelled was released by some step, by a reading that
  // is not before its schedule.
  lemma {:induction false} ReleasedBySomeStep(s: System, steps: seq<Step>, j: nat) returns (k: nat)
    requires Initial(s) && j < |Run(s, steps).jobs|
    requires !Run(s, steps).jobs[j].status.Scheduled? && !Run(s, steps).jobs[j].status.Cancelled?
    ensures ReleasedAt(s, steps, j, k) && Run(s, steps).jobs[j].scheduledAt <= ReleaseReading(steps[k])
  {
    var n := |steps| - 1;
    var before := Run(s, steps[..n]);
    RunSound(s, steps[..n]);
    StepGood(before, steps[n]);
    OnlyCreateAppends(before, steps[n]);
    if j < |before.jobs| {
      assert Follows(before.jobs[j], Run(s, steps).jobs[j]);
      if before.jobs[j].status.Scheduled? {
        OnlyPromotePends(before, steps[n], j);
        k := n;
      } else {
        k := ReleasedBySomeStep(s, steps[..n], j);
        assert steps[..n][..k] == steps[..k];
      }
    } else {
      k := n;
    }
  }

  // A claim with reading r records an early start exactly when the job was released by another
  // reading, at or after its schedule, while r lies before the schedule.
  lemma EarlyStartExactlyWhenReleasedLater(
    s: System, steps: seq<Step>, w: nat, r: Instant, j: nat)
    requires Initial(s) && j < |Run(s, steps).jobs| && Touches(Run(s, steps), Claim(w, r), j)
    ensures var before, after := Run(s, steps), Run(s, steps + [Claim(w, r)]);
      && j < |after.jobs| && after.jobs[j].startedAt.Some?
      && (after.jobs[j].startedAt.value < after.jobs[j].scheduledAt
          <==> exists k: nat :: ReleasedAt(s, steps, j, k)
                 && r < before.jobs[j].scheduledAt <= ReleaseReading(steps[k]))
  {
    var before := Run(s, steps);
    RunSound(s, steps);
    RunExtend(s, steps, Claim(w, r));
    NeverClaimedEarly(before, w, r, j);
    ClaimedRowStays(before, w, r, j);
    var k := ReleasedBySomeStep(s, steps, j);
  }

  lemma ClaimedRowStays(s: System, w: nat, now: Instant, j: nat)
    requires Sound(s) && j < |s.jobs| && Touches(s, Claim(w, now), j)
    ensures !s.jobs[j].status.Scheduled? && !s.jobs[j].status.Cancelled?
    ensures var after := Apply(s, Claim(w, now));
      j < |after.jobs| && after.jobs[j].startedAt == Some(now) && after.jobs[j].scheduledAt == s.jobs[j].scheduledAt
  {
  }

  // What happens between a daemon's reading r and its claim: time passes, and another process,
  // whose reading is t, promotes.
  function LatePromotion(r: Instant, t: Instant): seq<Step>
    requires r <= t
  {
    [Tick(t - r), Promote(t), Claim(0, r)]
  }

  // It happens for every reading r and every later instant t at which a job is due.
  lemma PromotedAfterTheReading(r: Instant, t: Instant)
    requires 0 < r < t
    ensures Initial(Beginning(r))
    ensures var steps := FirstSteps(Message(t, Scheduled)) + LatePromotion(r, t);
      var after := Run(Beginning(r), steps);
      && |after.jobs| == 1 && after.jobs[0].startedAt == Some(r) && after.jobs[0].scheduledAt == t
      && !OrderedReadings(steps)
  {
    var job := Message(t, Scheduled);
    var first, late := FirstSteps(job), LatePromotion(r, t);
    DaemonStarted(r, job);
    RunConcat(Beginning(r), first, late);
    assert (first + late)[7] == Promote(t) && (first + late)[8] == Claim(0, r);
    assert !ReadsBy((first + late)[7], (first + late)[8].now);
    var started := StartedOne(r, job);
    var waited := started.(clock := t);
    var promoted := Apply(waited, Promote(t));
    assert promoted.jobs == [FreshRow(job).(status := Pending)];
    assert Claimable(promoted.jobs[0], promoted.dests, r, false) && Matches(None, 0);
    assert ClaimChoice(promoted, 0, r) == Some(0);
    ThreeSteps(started, late[0], late[1], late[2], waited, promoted, Apply(promoted, Claim(0, r)));
  }
}
