/**
 * Two live sends of one job are always separated by an error the worker recorded or by a
 * manual retry, so a crash alone never repeats a delivery. The one thing that breaks this is a
 * manual retry of a PROCESSING job the daemon is going to send, which the code admits.
 */
module Resend {
  import opened Prelude
  import opened Jobs
  import opened Statements
  import opened RetryPolicy
  import opened System
  import opened Invariants
  import opened History
  import opened Delivery
  import opened Scenarios

  ghost predicate NeverTwice(trace: seq<Event>, j: nat) {
    trace == [] || (NeverTwice(trace[..|trace| - 1], j) && Exposure(trace, j) <= 1)
  }

  // ----- How a step extends the trace -----

  // The step appended events, none of them a live send of a job the step does not begin to send.
  ghost predicate Extends(s: System, after: System, j: nat) {
    && s.trace <= after.trace
    && forall i :: |s.trace| <= i < |after.trace| ==> !LiveSend(after.trace[i], j)
  }

  lemma DecisionExtends(s: System, w: nat, errorClass: ErrorClass, decision: Decision, j: nat)
    requires w in s.workers && s.workers[w].hold.Sending?
    ensures Extends(s, ApplyDecision(s, w, errorClass, decision), j)
  {
  }

  lemma FinishExtends(s: System, w: nat, outcome: Outcome, jitter: real, j: nat)
    ensures Extends(s, ApplyFinishSend(s, w, outcome, jitter), j)
  {
    if w in s.workers && s.workers[w].hold.Sending? {
      var worker := s.workers[w];
      var noted := Record(s, DeliveryAccepted(worker.hold.job));
      DecisionExtends(noted, w, UnknownTransient, WorkerDecision(worker, UnknownTransient, None, jitter), j);
      if outcome.Rejected? {
        var errorClass := TransportClass(worker.hold.claimed, outcome.errorClass);
        DecisionExtends(s, w, errorClass, WorkerDecision(worker, errorClass, outcome.retryAfterMs, jitter), j);
      }
    }
  }

  lemma StepExtends(s: System, step: Step, j: nat)
    ensures s.trace <= Apply(s, step).trace
    ensures Extends(s, Apply(s, step), j)
      || (step.BeginSend? && Holds(s, step.worker, j)
          && |Apply(s, step).trace| == |s.trace| + 1 && LiveSend(Apply(s, step).trace[|s.trace|], j))
  {
    match step
    case FinishSend(w, outcome, jitter) => if 0.0 <= jitter < 1.0 { FinishExtends(s, w, outcome, jitter, j); }
    case BeginSend(w, mediaExists) =>
    case _ =>
  }

  lemma {:induction false} QuietSuffix(trace: seq<Event>, after: seq<Event>, j: nat)
    requires trace <= after && NeverTwice(trace, j)
    requires forall i :: |trace| <= i < |after| ==> !LiveSend(after[i], j)
    requires Exposure(trace, j) <= 1
    ensures NeverTwice(after, j) && Exposure(after, j) <= 1
  {
    if |after| == |trace| {
      assert after == trace;
    } else {
      QuietSuffix(trace, after[..|after| - 1], j);
    }
  }

  // ----- From counters to positions -----

  lemma {:induction false} PrefixNeverTwice(trace: seq<Event>, q: nat, j: nat)
    requires NeverTwice(trace, j) && q < |trace| && LiveSend(trace[q], j)
    ensures Exposure(trace[..q], j) == 0
  {
    var n := |trace| - 1;
    if q < n {
      PrefixNeverTwice(trace[..n], q, j);
      assert trace[..n][..q] == trace[..q];
    }
  }

  lemma {:induction false} SendStaysExposed(trace: seq<Event>, p: nat, q: nat, j: nat)
    requires p < q <= |trace| && LiveSend(trace[p], j)
    requires forall r :: p < r < q ==> !Separator(trace[r], j)
    ensures 1 <= Exposure(trace[..q], j)
  {
    assert trace[..q][..q - 1] == trace[..q - 1];
    if p < q - 1 {
      SendStaysExposed(trace, p, q - 1, j);
    }
  }

  // ----- The main result -----

  lemma StepKeepsNeverTwice(s: System, step: Step, j: nat)
    requires Sound(s) && LiveJob(s, j) && Owned(s, j) && InBudget(s, j) && Guarded(s, j) && NeverTwice(s.trace, j)
    requires Careful(s, step)
    ensures var after := Apply(s, step);
      LiveJob(after, j) && Owned(after, j) && InBudget(after, j) && Guarded(after, j) && NeverTwice(after.trace, j)
  {
    StepKeepsBudget(s, step, j);
    if Touches(s, step, j) { TouchKeepsGuard(s, step, j); } else { UntouchedKeepsGuard(s, step, j); }
    StepExtends(s, step, j);
    var after := Apply(s, step);
    if Extends(s, after, j) {
      QuietSuffix(s.trace, after.trace, j);
    } else {
      assert after.trace[..|s.trace|] == s.trace;
    }
  }

  lemma {:induction false} NothingBeforeBirth(trace: seq<Event>, j: nat)
    requires TraceBounded(trace, j)
    ensures NeverTwice(trace, j)
  {
    UnmentionedTally(trace, j, j);
    if trace != [] {
      var rest := trace[..|trace| - 1];
      assert TraceBounded(rest, j);
      NothingBeforeBirth(rest, j);
    }
  }

  lemma BirthNeverTwice(s: System, step: Step, j: nat)
    requires Sound(s) && |s.jobs| <= j && LiveJob(Apply(s, step), j)
    ensures NeverTwice(Apply(s, step).trace, j)
  {
    OnlyCreateAppends(s, step);
    NothingBeforeBirth(s.trace, j);
    UnmentionedTally(s.trace, |s.jobs|, j);
    StepExtends(s, step, j);
    QuietSuffix(s.trace, Apply(s, step).trace, j);
  }

  lemma {:induction false} CarefulRunGuarded(s: System, steps: seq<Step>, j: nat)
    requires Initial(s) && CarefulRun(s, steps) && LiveJob(Run(s, steps), j)
    ensures var after := Run(s, steps);
      Sound(after) && Owned(after, j) && InBudget(after, j) && Guarded(after, j) && NeverTwice(after.trace, j)
  {
    RunSound(s, steps);
    if steps != [] {
      var n := |steps| - 1;
      var before := Run(s, steps[..n]);
      RunSound(s, steps[..n]);
      StepGood(before, steps[n]);
      if j < |before.jobs| {
        assert Follows(before.jobs[j], Run(s, steps).jobs[j]);
        CarefulRunGuarded(s, steps[..n], j);
        StepKeepsNeverTwice(before, steps[n], j);
      } else {
        NewJobStarts(before, steps[n], j);
        BirthNeverTwice(before, steps[n], j);
      }
    }
  }

  // Two live sends of j with neither an error recorded nor a manual retry of j between them.
  ghost predicate SentTwice(trace: seq<Event>, j: nat) {
    exists p: nat, q: nat :: SentTwiceAt(trace, j, p, q)
  }

  ghost predicate SentTwiceAt(trace: seq<Event>, j: nat, p: nat, q: nat) {
    && p < q < |trace| && LiveSend(trace[p], j) && LiveSend(trace[q], j)
    && forall r :: p < r < q ==> !Separator(trace[r], j)
  }

  lemma NeverTwiceMeansIt(trace: seq<Event>, j: nat)
    requires NeverTwice(trace, j)
    ensures !SentTwice(trace, j)
  {
    forall p: nat, q: nat ensures !SentTwiceAt(trace, j, p, q) {
      if p < q < |trace| && LiveSend(trace[p], j) && LiveSend(trace[q], j) {
        PrefixNeverTwice(trace, q, j);
        if forall r :: p < r < q ==> !Separator(trace[r], j) {
          SendStaysExposed(trace, p, q, j);
        }
      }
    }
  }

  // On every run in which no operator retries a PROCESSING job the daemon is going to send, with
  // crashes, recoveries, denials, refreshes and helpers interleaved in any way, two live sends of
  // one job have an error recorded by the worker or a manual retry of that job between them.
  lemma NoResendWithoutCause(s: System, steps: seq<Step>, j: nat)
    requires Initial(s) && CarefulRun(s, steps) && LiveJob(Run(s, steps), j)
    ensures !SentTwice(Run(s, steps).trace, j)
  {
    CarefulRunGuarded(s, steps, j);
    NeverTwiceMeansIt(Run(s, steps).trace, j);
  }

  // ----- Exactly then -----

  // The delivery that was under way, as the transport accepts it.
  function DeliverAnyway(): seq<Step> { [BeginSend(0, true), FinishSend(0, Accepted(0), 0.0)] }

  function RestartAndDeliver(config: Config, at: Instant): seq<Step> {
    ComesUp(config) + [Claim(0, at), BeginSend(0, true)]
  }

  // The daemon is about to send j, which an operator has moved to RETRY under it, and no other
  // job is queued.
  ghost predicate RetriedUnderDaemon(s: System, j: nat) {
    && Sound(s) && LiveJob(s, j) && HeldPacing(s, j) && !s.workers[0].stopping
    && s.jobs[j].status.Retry? && s.jobs[j].nextAttemptAt.Some? && s.jobs[j].nextAttemptAt.value <= s.clock
    && Paced(s.workers[0], s.clock) && Sendable(s.dests, s.jobs[j].destination)
    && OnlyQueued(s.jobs, j, |s.jobs|)
  }

  lemma RetryTakesEffect(s: System, j: nat)
    requires Sound(s) && SendAhead(s, j)
    ensures Apply(s, OperatorRetry(j)) ==
      Record(s.(jobs := s.jobs[j := RetryRow(s.jobs[j], s.clock)]), ManuallyRetried(j))
  {
    StoreKeepsWellFormed(s.jobs, j, RetryRow(s.jobs[j], s.clock));
  }

  lemma SendsAnyway(s: System, j: nat)
    requires RetriedUnderDaemon(s, j)
    ensures Apply(s, BeginSend(0, true)) ==
      Record(SetHold(s, 0, Sending(j, s.workers[0].hold.claimed)), SendCalled(0, j, true, s.clock))
  {
    DaemonDelivers(s, 0, j);
  }

  lemma RefusedAcceptance(s: System, j: nat)
    requires Sound(s) && LiveJob(s, j) && Holds(s, 0, j) && s.workers[0].hold.Sending?
    requires s.jobs[j].status.Retry?
    ensures Apply(s, FinishSend(0, Accepted(0), 0.0)) == Gone(Record(s, DeliveryAccepted(j)), 0)
  {
    DaemonDelivers(s, 0, j);
  }

  // The message goes out, and the refused write ends the daemon without a trace of an error.
  lemma DeliversAnyway(s: System, j: nat)
    requires RetriedUnderDaemon(s, j)
    ensures var down := Run(s, DeliverAnyway());
      && Sound(down) && down.jobs == s.jobs && down.dests == s.dests && down.clock == s.clock && 0 !in down.workers
      && down.trace == s.trace + [SendCalled(0, j, true, s.clock), DeliveryAccepted(j)]
  {
    var sending := Apply(s, BeginSend(0, true));
    var down := Apply(sending, FinishSend(0, Accepted(0), 0.0));
    SendsAnyway(s, j);
    StepGood(s, BeginSend(0, true));
    RefusedAcceptance(sending, j);
    StepGood(sending, FinishSend(0, Accepted(0), 0.0));
    TwoSteps(s, BeginSend(0, true), FinishSend(0, Accepted(0), 0.0), sending, down);
  }

  lemma ClaimAndSend(s: System, j: nat)
    requires LiveJob(s, j) && 0 in s.workers && s.workers[0].hold.Idle? && !s.workers[0].config.dryRun
    requires s.workers[0].gate == Checked(s.clock) && s.workers[0].lastFinish == 0 && !s.workers[0].stopping
    requires s.jobs[j].status.Retry? && s.jobs[j].nextAttemptAt.Some? && s.jobs[j].nextAttemptAt.value <= s.clock
    requires Sendable(s.dests, s.jobs[j].destination) && OnlyQueued(s.jobs, j, |s.jobs|)
    ensures Run(s, [Claim(0, s.clock), BeginSend(0, true)]).trace
      == s.trace + [Claimed(0, j, s.clock), SendCalled(0, j, true, s.clock)]
  {
    assert Claimable(s.jobs[j], s.dests, s.clock, false) && Matches(None, j);
    assert ClaimChoice(s, 0, s.clock) == Some(j);
    var claimed := ApplyClaim(s, 0, s.clock);
    assert claimed.workers[0].hold == Pacing(j, ClaimedRow(s.jobs[j], s.clock));
    var sending := ApplyBeginSend(claimed, 0, true);
    assert sending.trace == claimed.trace + [SendCalled(0, j, true, s.clock)];
    TwoSteps(s, Claim(0, s.clock), BeginSend(0, true), claimed, sending);
  }

  lemma RestartSends(s: System, j: nat, config: Config)
    requires LiveJob(s, j) && 0 !in s.workers && !config.dryRun
    requires s.jobs[j].status.Retry? && s.jobs[j].nextAttemptAt.Some? && s.jobs[j].nextAttemptAt.value <= s.clock
    requires Sendable(s.dests, s.jobs[j].destination) && OnlyQueued(s.jobs, j, |s.jobs|)
    ensures Run(s, RestartAndDeliver(config, s.clock)).trace ==
      s.trace + [WorkerStarted(0, config.sendIntervalMs), Claimed(0, j, s.clock), SendCalled(0, j, true, s.clock)]
  {
    DaemonComesUp(s, config);
    hide Run, ComesUp;
    ClaimAndSend(Run(s, ComesUp(config)), j);
    RunConcat(s, ComesUp(config), [Claim(0, s.clock), BeginSend(0, true)]);
  }

  // Everything after the retry: make way for j, deliver it, restart and deliver it again.
  function Recklessly(s: System, j: nat, config: Config): seq<Step>
    requires j < |s.jobs| && 0 in s.workers
  {
    var ready := Run(s, MakeWay(s, 0, j));
    MakeWay(s, 0, j) + DeliverAnyway() + RestartAndDeliver(config, ready.clock)
  }

  predicate NoRetries(steps: seq<Step>) {
    forall i :: 0 <= i < |steps| ==> !steps[i].OperatorRetry?
  }

  lemma RetryLeavesRetried(s: System, j: nat)
    requires Sound(s) && SendAhead(s, j)
    ensures var retried := Apply(s, OperatorRetry(j));
      && |retried.jobs| == |s.jobs| && 0 in retried.workers
      && RetriedUnderDaemon(Run(retried, MakeWay(retried, 0, j)), j)
      && AllPreparation(MakeWay(retried, 0, j), j)
  {
    var retried := Apply(s, OperatorRetry(j));
    RetryTakesEffect(s, j);
    StepGood(s, OperatorRetry(j));
    MakeWayWorks(retried, 0, j);
    RunSound(retried, MakeWay(retried, 0, j));
    hide Apply, Run, Sound, MakeWay;
  }

  // From every sound state in which the daemon is going to send a live PROCESSING job, a manual
  // retry of that job can lead to a repeated delivery: the transport accepts the message, the
  // refused write is thrown away, and the restarted daemon sends the same job again.
  lemma RetryWhilePacingResends(s: System, j: nat, config: Config)
    requires Sound(s) && SendAhead(s, j) && !config.dryRun
    ensures var retried := Apply(s, OperatorRetry(j));
      && |retried.jobs| == |s.jobs| && 0 in retried.workers
      && NoRetries(Recklessly(retried, j, config))
      && SentTwice(Run(retried, Recklessly(retried, j, config)).trace, j)
  {
    RetryLeavesRetried(s, j);
    hide Apply, Run, Sound, SentTwice;
    var retried := Apply(s, OperatorRetry(j));
    var way := MakeWay(retried, 0, j);
    var ready := Run(retried, way);
    DeliversAnyway(ready, j);
    var down := Run(ready, DeliverAnyway());
    RestartSends(down, j, config);
    RunConcat(retried, way, DeliverAnyway());
    RunConcat(retried, way + DeliverAnyway(), RestartAndDeliver(config, ready.clock));
    var after := Run(down, RestartAndDeliver(config, ready.clock));
    TwoSends(ready.trace, after.trace, j, ready.clock, config.sendIntervalMs);
  }

  lemma TwoSends(before: seq<Event>, after: seq<Event>, j: nat, at: Instant, ms: int)
    requires after == before + [SendCalled(0, j, true, at), DeliveryAccepted(j)]
                      + [WorkerStarted(0, ms), Claimed(0, j, at), SendCalled(0, j, true, at)]
    ensures SentTwice(after, j)
  {
    assert SentTwiceAt(after, j, |before|, |before| + 4);
  }

  // After any careful run: no continuation without further retries sends j twice without a cause
  // exactly when the retry was careful.
  lemma RetryIsSafeExactlyWhenCareful(s: System, steps: seq<Step>, j: nat)
    requires Initial(s) && CarefulRun(s, steps) && LiveJob(Run(s, steps), j)
    ensures (forall later :: NoRetries(later) ==>
              !SentTwice(Run(Apply(Run(s, steps), OperatorRetry(j)), later).trace, j))
      <==> Careful(Run(s, steps), OperatorRetry(j))
  {
    var now := Run(s, steps);
    RunSound(s, steps);
    if Careful(now, OperatorRetry(j)) {
      forall later | NoRetries(later) ensures !SentTwice(Run(Apply(now, OperatorRetry(j)), later).trace, j) {
        CarefulAfterRetry(s, steps, j, later);
      }
    } else {
      RetryWhilePacingResends(now, j, LIVE_CONFIG);
    }
  }

  lemma CarefulAfterRetry(s: System, steps: seq<Step>, j: nat, later: seq<Step>)
    requires Initial(s) && CarefulRun(s, steps) && LiveJob(Run(s, steps), j)
    requires Careful(Run(s, steps), OperatorRetry(j)) && NoRetries(later)
    ensures !SentTwice(Run(Apply(Run(s, steps), OperatorRetry(j)), later).trace, j)
  {
    hide Apply, SentTwice;
    var all := steps + [OperatorRetry(j)] + later;
    RunExtend(s, steps, OperatorRetry(j));
    RunConcat(s, steps + [OperatorRetry(j)], later);
    assert (steps + [OperatorRetry(j)])[..|steps|] == steps;
    CarefulConcat(s, steps + [OperatorRetry(j)], later);
    RunSound(s, steps);
    StaysLive(Run(s, steps), [OperatorRetry(j)] + later, j);
    RunConcat(s, steps, [OperatorRetry(j)] + later);
    assert steps + ([OperatorRetry(j)] + later) == all;
    NoResendWithoutCause(s, all, j);
  }

  lemma {:induction false} StaysLive(s: System, steps: seq<Step>, j: nat)
    requires Sound(s) && LiveJob(s, j)
    ensures LiveJob(Run(s, steps), j)
  {
    if steps != [] {
      var n := |steps| - 1;
      StaysLive(s, steps[..n], j);
      RunSound(s, steps[..n]);
      UntouchedOrNot(Run(s, steps[..n]), steps[n], j);
    }
  }

  lemma UntouchedOrNot(s: System, step: Step, j: nat)
    requires Sound(s) && LiveJob(s, j)
    ensures LiveJob(Apply(s, step), j)
  {
    StepGood(s, step);
    assert Follows(s.jobs[j], Apply(s, step).jobs[j]);
  }

  lemma {:induction false} CarefulConcat(s: System, first: seq<Step>, second: seq<Step>)
    requires CarefulRun(s, first) && NoRetries(second)
    ensures CarefulRun(s, first + second)
  {
    if second == [] {
      assert first + second == first;
    } else {
      var n := |second| - 1;
      CarefulConcat(s, first, second[..n]);
      assert (first + second)[..|first| + n] == first + second[..n];
    }
  }

  // ----- Such a state is reached -----

  lemma ClaimedOne(clock: Instant, job: NewJob)
    requires NewJobOk(job) && job.destination == GROUP && job.status.Pending? && !job.dryRun
    ensures var s := Apply(StartedOne(clock, job), Claim(0, clock));
      SendAhead(s, 0) && s == StartedOne(clock, job).(
        jobs := [ClaimedRow(FreshRow(job), clock)],
        workers := map[0 := Worker(LIVE_CONFIG, false, 0, Pacing(0, ClaimedRow(FreshRow(job), clock)), Ready)],
        trace := [Created(0), WorkerStarted(0, 0), Claimed(0, 0, clock)])
  {
    var s := StartedOne(clock, job);
    assert Claimable(s.jobs[0], s.dests, clock, false) && Matches(None, 0);
    assert ClaimChoice(s, 0, clock) == Some(0);
    assert s.jobs[0 := ClaimedRow(s.jobs[0], clock)] == [ClaimedRow(FreshRow(job), clock)];
  }

  // One allowed group, one job, and the daemon that has just claimed it.
  lemma SendAheadIsReached()
    ensures Initial(Beginning(1))
    ensures exists steps :: CarefulRun(Beginning(1), steps) && SendAhead(Run(Beginning(1), steps), 0)
  {
    var job := Message(1, Pending);
    DaemonStarted(1, job);
    ClaimedOne(1, job);
    hide Apply, Run, SendAhead;
    RunExtend(Beginning(1), FirstSteps(job), Claim(0, 1));
    NoRetryIsCareful(Beginning(1), FirstSteps(job) + [Claim(0, 1)]);
  }

  lemma {:induction false} NoRetryIsCareful(s: System, steps: seq<Step>)
    requires NoRetries(steps)
    ensures CarefulRun(s, steps)
  {
    if steps != [] {
      NoRetryIsCareful(s, steps[..|steps| - 1]);
    }
  }
}
