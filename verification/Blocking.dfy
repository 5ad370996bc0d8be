/**
 * The pause reasons AUTH_REQUIRED, LOGGED_OUT and FATAL: when they really keep live jobs from being
 * claimed until a connection opens.
 */
module Blocking {
  import opened Prelude
  import opened Jobs
  import opened Statements
  import opened RetryPolicy
  import opened System
  import opened Invariants
  import opened History
  import opened Delivery
  import opened Scenarios
  import opened Timing
  import Resend

  // ----- The connection and the pause keys -----

  // An opened connection lifts every pause and lets the daemon begin; a fatal close, a logout or a
  // missing login stops every live worker at its next look, and changes nothing else.
  lemma ConnectionDecidesThePause(s: System, reason: PauseReason, w: nat)
    ensures var connected := Apply(s, ConnectionOpened);
      && connected.pause == Pause(None, None)
      && connected == s.(pause := connected.pause, workers := connected.workers)
      && connected.workers.Keys == s.workers.Keys
      && (w in s.workers ==>
            connected.workers[w]
            == if w == 0 && s.workers[0].gate.Connecting? then s.workers[0].(gate := Ready) else s.workers[w])
    ensures reason != PausedRateLimited ==>
      var ended := Apply(s, ConnectionEnded(reason));
      && ended == s.(pause := Pause(Some(reason), s.pause.until))
      && (w in s.workers && !s.workers[w].config.dryRun ==> Apply(ended, CheckPause(w)) == ended)
  {
  }

  // ----- Pauses by reason -----

  // The reasons that block a live worker whatever pause_until says.
  predicate BlockedByReason(pause: Pause) {
    pause.reason.Some? && !pause.reason.value.PausedRateLimited?
  }

  // The live daemon, not asked to stop, holds a live job whose delivery can still end in a rate
  // limit: the row is PROCESSING and attempts are left.
  predicate CanBeRateLimited(s: System) {
    && 0 in s.workers && !s.workers[0].config.dryRun && !s.workers[0].stopping
    && !s.workers[0].hold.Idle? && !s.workers[0].hold.claimed.dryRun
    && s.workers[0].hold.claimed.attempts < s.workers[0].hold.claimed.maxAttempts
    && s.workers[0].hold.job < |s.jobs| && s.jobs[s.workers[0].hold.job].status.Processing?
  }

  // The live daemon has looked at the pause keys and not yet claimed.
  predicate PastItsCheck(s: System) {
    && 0 in s.workers && !s.workers[0].config.dryRun && s.workers[0].hold.Idle?
    && (s.workers[0].gate.Clearing? || s.workers[0].gate.Checked?)
  }

  predicate CanSlipThrough(s: System) { CanBeRateLimited(s) || PastItsCheck(s) }

  ghost predicate LiveClaimSince(s: System, after: System) {
    exists i :: |s.trace| <= i < |after.trace| && LiveClaimAt(after, i)
  }

  predicate LiveClaimAt(s: System, i: int)
    requires 0 <= i < |s.trace|
  {
    s.trace[i].Claimed? && LiveJob(s, s.trace[i].job)
  }

  // What the end of a delivery that cannot be rate limited does to the reason.
  lemma DecisionKeepsBlock(s: System, w: nat, errorClass: ErrorClass, decision: Decision)
    requires w in s.workers && s.workers[w].hold.Sending? && BlockedByReason(s.pause)
    requires decision.RateLimit? ==>
      s.workers[w].hold.job < |s.jobs| && !s.jobs[s.workers[w].hold.job].status.Processing?
    ensures BlockedByReason(ApplyDecision(s, w, errorClass, decision).pause)
  {
  }

  lemma ErrorKeepsBlock(s: System, w: nat, errorClass: ErrorClass, retryAfterMs: Option<nat>, jitter: real)
    requires w in s.workers && s.workers[w].hold.Sending? && BlockedByReason(s.pause)
    requires s.workers[w].hold.job < |s.jobs|
    requires errorClass.RateLimited? ==>
      || s.workers[w].hold.claimed.maxAttempts <= s.workers[w].hold.claimed.attempts
      || !s.jobs[s.workers[w].hold.job].status.Processing?
    ensures BlockedByReason(ApplyError(s, w, errorClass, retryAfterMs, jitter).pause)
  {
    hide ApplyDecision, RetryDelayMs;
    DecisionKeepsBlock(s, w, errorClass, WorkerDecision(s.workers[w], errorClass, retryAfterMs, jitter));
  }

  lemma FinishKeepsBlock(s: System, w: nat, outcome: Outcome, jitter: real)
    requires Sound(s) && w in s.workers && s.workers[w].hold.Sending? && BlockedByReason(s.pause)
    requires !CanBeRateLimited(s) && !NobodyLooks(s)
    ensures BlockedByReason(ApplyFinishSend(s, w, outcome, jitter).pause)
  {
    hide ApplyError;
    var worker := s.workers[w];
    assert HoldOk(s.jobs, worker);
    ErrorKeepsBlock(Record(s, DeliveryAccepted(worker.hold.job)), w, UnknownTransient, None, jitter);
    if outcome.Rejected? && ViaLive(worker, worker.hold.claimed) {
      ErrorKeepsBlock(s, w, TransportClass(worker.hold.claimed, outcome.errorClass), outcome.retryAfterMs, jitter);
    }
  }

  // ----- Shut: no live worker claims, or comes to claim, before a connection opens -----

  // No live worker will look at the pause keys before a connection opens.
  predicate NobodyLooks(s: System) {
    0 !in s.workers || s.workers[0].config.dryRun || s.workers[0].stopping || s.workers[0].gate.Connecting?
  }

  ghost predicate Shut(s: System) {
    !PastItsCheck(s) && (NobodyLooks(s) || (BlockedByReason(s.pause) && !CanBeRateLimited(s)))
  }

  predicate DaemonKept(s: System, after: System) {
    0 in after.workers ==>
      && 0 in s.workers && after.workers[0].config == s.workers[0].config
      && after.workers[0].gate == s.workers[0].gate && (s.workers[0].stopping ==> after.workers[0].stopping)
  }

  lemma DecisionKeepsDaemon(s: System, w: nat, errorClass: ErrorClass, decision: Decision)
    requires w in s.workers && s.workers[w].hold.Sending?
    ensures DaemonKept(s, ApplyDecision(s, w, errorClass, decision))
  {
    hide Transition;
  }

  // The end of a delivery leaves the daemon where it stands, or ends it, or asks it to stop.
  lemma FinishKeepsDaemon(s: System, w: nat, outcome: Outcome, jitter: real)
    ensures DaemonKept(s, ApplyFinishSend(s, w, outcome, jitter))
  {
    hide ApplyDecision, Transition;
    if w in s.workers && s.workers[w].hold.Sending? {
      var worker := s.workers[w];
      var noted := Record(s, DeliveryAccepted(worker.hold.job));
      DecisionKeepsDaemon(noted, w, UnknownTransient, WorkerDecision(worker, UnknownTransient, None, jitter));
      if outcome.Rejected? {
        var errorClass := TransportClass(worker.hold.claimed, outcome.errorClass);
        DecisionKeepsDaemon(s, w, errorClass, WorkerDecision(worker, errorClass, outcome.retryAfterMs, jitter));
      }
    }
  }

  // The steps that move a worker through its gate.
  predicate MovesGate(step: Step) {
    step.CheckPause? || step.ClearPause? || step.Claim? || step.StartDaemon? || step.ConnectionOpened?
  }

  // No other step lets a daemon begin, or brings one past its check.
  lemma OthersKeepDaemon(s: System, step: Step)
    requires !MovesGate(step)
    ensures DaemonKept(s, Apply(s, step))
  {
    hide ApplyFinishSend, Transition, ManualRetry, Insert;
    if step.FinishSend? {
      FinishKeepsDaemon(s, step.worker, step.outcome, step.jitter);
    }
  }

  lemma NobodyStartsToLook(s: System, step: Step)
    requires Sound(s) && NobodyLooks(s) && !PastItsCheck(s) && !step.ConnectionOpened?
    ensures NobodyLooks(Apply(s, step)) && !PastItsCheck(Apply(s, step))
  {
    assert 0 in s.workers ==> Placed(0, s.workers[0], s.helped, s.clock);
    if !MovesGate(step) {
      OthersKeepDaemon(s, step);
      hide Apply, Sound;
    } else {
      hide Sound, ClaimedRow, Recovered;
    }
  }

  lemma NoneGetsPastItsCheck(s: System, step: Step)
    requires Sound(s) && BlockedByReason(s.pause) && !PastItsCheck(s)
    ensures !PastItsCheck(Apply(s, step))
  {
    assert 0 in s.workers ==> Placed(0, s.workers[0], s.helped, s.clock);
    if !MovesGate(step) {
      OthersKeepDaemon(s, step);
      hide Apply, Sound;
    } else {
      hide Sound, ClaimedRow, Recovered;
    }
  }

  lemma BlockStays(s: System, step: Step)
    requires Sound(s) && BlockedByReason(s.pause) && !CanBeRateLimited(s) && !NobodyLooks(s) && !PastItsCheck(s)
    requires !step.ConnectionOpened?
    ensures BlockedByReason(Apply(s, step).pause)
  {
    hide ApplyFinishSend;
    if step.FinishSend? && 0.0 <= step.jitter < 1.0 && step.worker in s.workers
       && s.workers[step.worker].hold.Sending? {
      FinishKeepsBlock(s, step.worker, step.outcome, step.jitter);
    } else if step.FinishSend? {
      NothingFinished(s, step);
    }
  }

  lemma NothingFinished(s: System, step: Step)
    requires step.FinishSend?
    requires !(0.0 <= step.jitter < 1.0 && step.worker in s.workers && s.workers[step.worker].hold.Sending?)
    ensures Apply(s, step) == s
  {
  }

  // A live job is claimed only by a daemon that has passed its check.
  lemma ShutClaimsNothingLive(s: System, step: Step, j: nat)
    requires Sound(s) && !PastItsCheck(s) && LiveJob(s, j)
    ensures !(step.Claim? && Touches(s, step, j))
  {
  }

  // Nothing can come to be rate limited: the daemon takes no live job, and a row that has left
  // PROCESSING does not come back under its hold.
  lemma StaysUnlimited(s: System, step: Step)
    requires Sound(s) && !PastItsCheck(s) && !CanBeRateLimited(s) && !step.ConnectionOpened?
    ensures !CanBeRateLimited(Apply(s, step))
  {
    var after := Apply(s, step);
    if CanBeRateLimited(after) {
      var j := after.workers[0].hold.job;
      StepGood(s, step);
      LimitedWasHeld(s, step, j);
      assert HoldOk(s.jobs, s.workers[0]);
      if !s.jobs[j].status.Processing? {
        OnlyClaimsProcess(s, step, j);
        ShutClaimsNothingLive(s, step, j);
      }
    }
  }

  // The daemon's live hold was there before the step.
  lemma LimitedWasHeld(s: System, step: Step, j: nat)
    requires Sound(s) && !PastItsCheck(s) && !step.ConnectionOpened?
    requires CanBeRateLimited(Apply(s, step)) && Apply(s, step).workers[0].hold.job == j
    ensures 0 in s.workers && !s.workers[0].config.dryRun && !s.workers[0].hold.Idle? && !s.workers[0].stopping
    ensures s.workers[0].hold.job == j && s.workers[0].hold.claimed == Apply(s, step).workers[0].hold.claimed
  {
    hide ApplyFinishSend, Sound, Transition, ManualRetry, Insert, ClaimedRow, CancelledFor;
    if step.FinishSend? && 0.0 <= step.jitter < 1.0 && step.worker in s.workers
       && s.workers[step.worker].hold.Sending? {
      FinishKeepsOthers(s, step.worker, step.outcome, step.jitter);
    } else if step.FinishSend? {
      NothingFinished(s, step);
    }
  }

  lemma ShutStays(s: System, step: Step)
    requires Sound(s) && Shut(s) && !step.ConnectionOpened?
    ensures Shut(Apply(s, step))
  {
    if NobodyLooks(s) {
      NobodyStartsToLook(s, step);
    } else {
      NoneGetsPastItsCheck(s, step);
      BlockStays(s, step);
      StaysUnlimited(s, step);
    }
    hide Apply, CanBeRateLimited, PastItsCheck, NobodyLooks, BlockedByReason;
  }

  // ----- Only a claim is recorded as a claim -----

  lemma DecisionClaimsNothing(s: System, w: nat, errorClass: ErrorClass, decision: Decision, i: nat)
    requires w in s.workers && s.workers[w].hold.Sending?
    requires |s.trace| <= i < |ApplyDecision(s, w, errorClass, decision).trace|
    ensures s.trace <= ApplyDecision(s, w, errorClass, decision).trace
    ensures !ApplyDecision(s, w, errorClass, decision).trace[i].Claimed?
  {
  }

  lemma FinishClaimsNothing(s: System, w: nat, outcome: Outcome, jitter: real, i: nat)
    requires |s.trace| <= i < |ApplyFinishSend(s, w, outcome, jitter).trace|
    ensures !ApplyFinishSend(s, w, outcome, jitter).trace[i].Claimed?
  {
    var worker := s.workers[w];
    var noted := Record(s, DeliveryAccepted(worker.hold.job));
    var unexpected := WorkerDecision(worker, UnknownTransient, None, jitter);
    if ViaLive(worker, worker.hold.claimed) && outcome.Rejected? {
      var errorClass := TransportClass(worker.hold.claimed, outcome.errorClass);
      DecisionClaimsNothing(s, w, errorClass, WorkerDecision(worker, errorClass, outcome.retryAfterMs, jitter), i);
    } else if |s.trace| < i {
      if i < |ApplyDecision(noted, w, UnknownTransient, unexpected).trace| {
        DecisionClaimsNothing(noted, w, UnknownTransient, unexpected, i);
      }
    } else {
      Resend.DecisionExtends(noted, w, UnknownTransient, unexpected, 0);
      assert ApplyFinishSend(s, w, outcome, jitter).trace[i] == DeliveryAccepted(worker.hold.job);
    }
  }

  lemma OnlyClaimsClaim(s: System, step: Step, i: nat)
    requires |s.trace| <= i < |Apply(s, step).trace| && Apply(s, step).trace[i].Claimed?
    ensures step.Claim? && Touches(s, step, Apply(s, step).trace[i].job) && Apply(s, step).trace[i].job < |s.jobs|
    ensures step.worker == Apply(s, step).trace[i].worker
  {
    if step.FinishSend? {
      FinishClaimsNothing(s, step.worker, step.outcome, step.jitter, i);
    }
  }

  lemma ShutStepClaimsNothingLive(s: System, step: Step)
    requires Sound(s) && Shut(s)
    ensures s.trace <= Apply(s, step).trace && !LiveClaimSince(s, Apply(s, step))
  {
    var after := Apply(s, step);
    Resend.StepExtends(s, step, 0);
    StepGood(s, step);
    forall i | |s.trace| <= i < |after.trace| ensures !LiveClaimAt(after, i) {
      if LiveClaimAt(after, i) {
        OnlyClaimsClaim(s, step, i);
        assert Follows(s.jobs[after.trace[i].job], after.jobs[after.trace[i].job]);
        ShutClaimsNothingLive(s, step, after.trace[i].job);
      }
    }
  }

  lemma {:induction false} ShutRunClaimsNothingLive(s: System, steps: seq<Step>)
    requires Sound(s) && Shut(s) && NoOpening(steps)
    ensures var after := Run(s, steps);
      Sound(after) && Shut(after) && s.trace <= after.trace && !LiveClaimSince(s, after)
  {
    if steps != [] {
      var n := |steps| - 1;
      var before, after := Run(s, steps[..n]), Run(s, steps);
      ShutRunClaimsNothingLive(s, steps[..n]);
      StepGood(before, steps[n]);
      ShutStays(before, steps[n]);
      ShutStepClaimsNothingLive(before, steps[n]);
      hide Apply, Sound, Shut;
      forall i | |s.trace| <= i < |after.trace| ensures !LiveClaimAt(after, i) {
        if i < |before.trace| {
          assert after.trace[i] == before.trace[i] && !LiveClaimAt(before, i);
          OldJobsKeepMode(before, after, i);
        }
      }
    }
  }

  lemma OldJobsKeepMode(before: System, after: System, i: nat)
    requires Sound(before) && RowsFollow(before.jobs, after.jobs) && i < |before.trace| <= |after.trace|
    requires after.trace[i] == before.trace[i]
    ensures LiveClaimAt(after, i) ==> LiveClaimAt(before, i)
  {
    if LiveClaimAt(after, i) {
      var j := before.trace[i].job;
      assert Mentions(before.trace[i], j);
      assert Follows(before.jobs[j], after.jobs[j]);
    }
  }

  // ----- A rate limit lifts any block -----

  // The delivery under way ends in a rate limit, which runs out.
  function RunIntoLimit(): seq<Step> { [FinishSend(0, Rejected(RateLimited, Some(1000)), 0.0), Tick(1000)] }

  lemma EndsInLimit(s: System)
    requires Sound(s) && CanBeRateLimited(s) && s.workers[0].hold.Sending?
    ensures Apply(s, RunIntoLimit()[0])
      == ErrorSettled(s, 0, WaitingRateLimit, ErrorChange(RateLimited, Some(s.clock + 1000)), LimitRate(s.clock + 1000))
  {
    hide ErrorSettled;
    assert HoldOk(s.jobs, s.workers[0]);
    assert WorkerDecision(s.workers[0], RateLimited, Some(1000), 0.0) == RateLimit(1000);
  }

  lemma LimitRecorded(s: System, change: Change, until: Instant)
    requires Sound(s) && CanBeRateLimited(s) && s.workers[0].hold.Sending? && change.nextAttemptAt == Some(until)
    ensures var j, after := s.workers[0].hold.job, ErrorSettled(s, 0, WaitingRateLimit, change, LimitRate(until));
      && after.jobs == s.jobs[j := TransitionRow(s.jobs[j], WaitingRateLimit, change, s.clock)]
      && after.pause == Pause(Some(PausedRateLimited), Some(until)) && after.clock == s.clock
      && 0 in after.workers && after.workers[0] == s.workers[0].(hold := Idle, lastFinish := s.clock)
      && s.trace <= after.trace
  {
    TransitionKeepsWellFormed(s.jobs, s.workers[0].hold.job, WaitingRateLimit, change, s.clock);
    hide Sound, Transition, TransitionRow;
  }

  lemma LimitReplacesReason(s: System)
    requires Sound(s) && CanBeRateLimited(s) && s.workers[0].hold.Sending?
    ensures var j, after := s.workers[0].hold.job, Run(s, RunIntoLimit());
      && |after.jobs| == |s.jobs| && after.jobs[j].status.WaitingRateLimit? && LiveJob(after, j)
      && after.jobs[j].nextAttemptAt == Some(after.clock)
      && after.pause == Pause(Some(PausedRateLimited), Some(after.clock))
      && 0 in after.workers && after.workers[0].hold.Idle? && !after.workers[0].config.dryRun
      && after.workers[0].gate.Ready? && !after.workers[0].stopping
      && s.trace <= after.trace
  {
    assert HoldOk(s.jobs, s.workers[0]);
    EndsInLimit(s);
    LimitRecorded(s, ErrorChange(RateLimited, Some(s.clock + 1000)), s.clock + 1000);
    hide ErrorSettled, Sound, Apply, Run;
    var limited := Apply(s, RunIntoLimit()[0]);
    Waited(limited, 1000);
    TwoSteps(s, RunIntoLimit()[0], Tick(1000), limited, Apply(limited, Tick(1000)));
  }

  // The daemon at the head of its loop finds the limit expired, removes it, and claims.
  function ClaimAgain(at: Instant): seq<Step> { [CheckPause(0), ClearPause(0), Claim(0, at)] }

  lemma LimitedJobIsClaimed(s: System, j: nat)
    requires LiveJob(s, j) && s.jobs[j].status.WaitingRateLimit?
    requires s.jobs[j].nextAttemptAt.Some? && s.jobs[j].nextAttemptAt.value <= s.clock
    requires s.pause.reason == Some(PausedRateLimited) && s.pause.until.Some? && s.pause.until.value <= s.clock
    requires 0 in s.workers && s.workers[0].hold.Idle? && !s.workers[0].config.dryRun
    requires s.workers[0].gate.Ready? && !s.workers[0].stopping
    requires Sendable(s.dests, s.jobs[j].destination) && OnlyQueued(s.jobs, j, |s.jobs|)
    ensures var after := Run(s, ClaimAgain(s.clock));
      s.trace <= after.trace && LiveClaimSince(s, after)
  {
    var checked := Apply(s, CheckPause(0));
    var cleared := Apply(checked, ClearPause(0));
    OnlyJobIsClaimed(cleared, j);
    var after := Apply(cleared, Claim(0, s.clock));
    ThreeSteps(s, CheckPause(0), ClearPause(0), Claim(0, s.clock), checked, cleared, after);
    assert LiveClaimAt(after, |s.trace|);
  }

  // A daemon past its check claims the only job queued.
  lemma OnlyJobIsClaimed(s: System, j: nat)
    requires LiveJob(s, j) && Due(s.jobs[j], s.clock) && Sendable(s.dests, s.jobs[j].destination)
    requires OnlyQueued(s.jobs, j, |s.jobs|)
    requires PastItsCheck(s) && s.workers[0].gate.Checked? && s.workers[0].gate.since <= s.clock
    ensures var after := Apply(s, Claim(0, s.clock));
      |after.trace| == |s.trace| + 1 && s.trace <= after.trace && LiveClaimAt(after, |s.trace|)
  {
    assert Claimable(s.jobs[j], s.dests, s.clock, false) && Matches(None, j);
    assert ClaimChoice(s, 0, s.clock) == Some(j);
  }

  // From a delivery under way: run into the limit, make way, and the job is claimed.
  function LimitAndClaim(s: System, j: nat): seq<Step>
    requires j < |s.jobs|
  {
    var limited := Run(s, RunIntoLimit());
    if j < |limited.jobs| && 0 in limited.workers
    then RunIntoLimit() + MakeWay(limited, 0, j)
         + ClaimAgain(Run(limited, MakeWay(limited, 0, j)).clock)
    else []
  }

  lemma DeliveryLiftsBlock(s: System)
    requires Sound(s) && CanBeRateLimited(s) && s.workers[0].hold.Sending?
    ensures NoOpening(LimitAndClaim(s, s.workers[0].hold.job))
    ensures var after := Run(s, LimitAndClaim(s, s.workers[0].hold.job));
      s.trace <= after.trace && LiveClaimSince(s, after)
  {
    var j := s.workers[0].hold.job;
    LimitReplacesReason(s);
    hide Apply, Run, Sound, CanBeRateLimited, NoOpening, RunIntoLimit, ClaimAgain, LiveClaimSince, AllPreparation;
    var limited := Run(s, RunIntoLimit());
    var way := MakeWay(limited, 0, j);
    MakeWayWorks(limited, 0, j);
    var ready := Run(limited, way);
    LimitedJobIsClaimed(ready, j);
    RunConcat(s, RunIntoLimit(), way);
    RunConcat(s, RunIntoLimit() + way, ClaimAgain(ready.clock));
    ClaimedSinceEarlier(s, ready, Run(ready, ClaimAgain(ready.clock)));
    LimitAndClaimOpensNothing(way, j, ready.clock);
  }

  lemma LimitAndClaimOpensNothing(way: seq<Step>, j: nat, at: Instant)
    requires AllPreparation(way, j)
    ensures NoOpening(RunIntoLimit() + way + ClaimAgain(at))
  {
  }

  lemma ClaimedSinceEarlier(s: System, mid: System, after: System)
    requires s.trace <= mid.trace <= after.trace && LiveClaimSince(mid, after)
    ensures s.trace <= after.trace && LiveClaimSince(s, after)
  {
    var i :| |mid.trace| <= i < |after.trace| && LiveClaimAt(after, i);
    assert LiveClaimAt(after, i);
  }

  lemma PacingLeadsToDelivery(s: System)
    requires Sound(s) && CanBeRateLimited(s) && s.workers[0].hold.Pacing?
    ensures var j := s.workers[0].hold.job;
      var steps := MakeWay(s, 0, j) + [BeginSend(0, true)];
      var sending := Run(s, steps);
      && NoOpening(steps) && Sound(sending) && CanBeRateLimited(sending) && sending.workers[0].hold.Sending?
      && s.trace <= sending.trace
  {
    var j := s.workers[0].hold.job;
    assert HoldOk(s.jobs, s.workers[0]);
    MakeWayWorks(s, 0, j);
    var ready := Run(s, MakeWay(s, 0, j));
    RunExtend(s, MakeWay(s, 0, j), BeginSend(0, true));
    RunSound(s, MakeWay(s, 0, j) + [BeginSend(0, true)]);
    assert NoOpening(MakeWay(s, 0, j));
    hide Run, Sound, MakeWay;
    BeginsSending(ready);
  }

  lemma BeginsSending(s: System)
    requires CanBeRateLimited(s) && s.workers[0].hold.Pacing? && Paced(s.workers[0], s.clock)
    requires Sendable(s.dests, s.workers[0].hold.claimed.destination)
    ensures var after := Apply(s, BeginSend(0, true));
      CanBeRateLimited(after) && after.workers[0].hold.Sending? && s.trace <= after.trace
  {
  }

  // ----- A daemon past its check claims what comes -----

  // Discover the group and queue a new message for it.
  function Queueing(s: System): seq<Step> {
    [Refresh([GROUP_FOUND]), Create(NewMessage(Apply(s, Refresh([GROUP_FOUND]))))]
  }

  lemma NewMessageQueued(s: System)
    requires PastItsCheck(s)
    ensures var queued := Run(s, Queueing(s));
      && |queued.jobs| == |s.jobs| + 1 && LiveJob(queued, |s.jobs|) && queued.jobs[|s.jobs|].status.Pending?
      && queued.workers == s.workers && queued.clock == s.clock && s.trace <= queued.trace
  {
    OneUpsert(s.dests, GROUP_FOUND);
    var found := Apply(s, Refresh([GROUP_FOUND]));
    NewMessageIsNew(found);
    assert GROUP in found.dests;
    TwoSteps(s, Refresh([GROUP_FOUND]), Create(NewMessage(found)), found, Apply(found, Create(NewMessage(found))));
  }

  function WayAndClaim(s: System, j: nat): seq<Step>
    requires j < |s.jobs| && 0 in s.workers
  {
    MakeWay(s, 0, j) + [Claim(0, Run(s, MakeWay(s, 0, j)).clock)]
  }

  lemma QueuedIsClaimed(s: System, j: nat)
    requires PastItsCheck(s) && s.workers[0].gate.Checked? && s.workers[0].gate.since <= s.clock
    requires LiveJob(s, j) && s.jobs[j].status.Pending?
    ensures NoOpening(WayAndClaim(s, j))
    ensures var after := Run(s, WayAndClaim(s, j)); s.trace <= after.trace && LiveClaimSince(s, after)
  {
    MakeWayWorks(s, 0, j);
    hide Apply, Run, MakeWay;
    var way := MakeWay(s, 0, j);
    var ready := Run(s, way);
    OnlyJobIsClaimed(ready, j);
    RunExtend(s, way, Claim(0, ready.clock));
    assert NoOpening(way);
  }

  // Then make way, and claim.
  function QueueAndClaim(s: System): seq<Step> {
    var queued := Run(s, Queueing(s));
    if 0 in queued.workers && |s.jobs| < |queued.jobs| then Queueing(s) + WayAndClaim(queued, |s.jobs|) else []
  }

  lemma CheckedClaims(s: System)
    requires Sound(s) && PastItsCheck(s) && s.workers[0].gate.Checked?
    ensures NoOpening(QueueAndClaim(s))
    ensures var after := Run(s, QueueAndClaim(s)); s.trace <= after.trace && LiveClaimSince(s, after)
  {
    assert s.workers[0].gate.since <= s.clock;
    hide Apply, Run, Sound, WayAndClaim, LiveClaimSince, NoOpening;
    var queued := Run(s, Queueing(s));
    NewMessageQueued(s);
    QueuedIsClaimed(queued, |s.jobs|);
    NoOpeningConcat(Queueing(s), WayAndClaim(queued, |s.jobs|));
    RunConcat(s, Queueing(s), WayAndClaim(queued, |s.jobs|));
    ClaimedSinceEarlier(s, queued, Run(s, QueueAndClaim(s)));
  }

  lemma NoOpeningConcat(first: seq<Step>, rest: seq<Step>)
    requires forall i :: 0 <= i < |first| ==> !first[i].ConnectionOpened?
    ensures NoOpening(rest) ==> NoOpening(first + rest)
  {
  }

  lemma ClearingChecks(s: System)
    requires Sound(s) && PastItsCheck(s) && s.workers[0].gate.Clearing?
    ensures var after := Apply(s, ClearPause(0));
      Sound(after) && PastItsCheck(after) && after.workers[0].gate.Checked? && after.trace == s.trace
    ensures Run(s, [ClearPause(0)]) == Apply(s, ClearPause(0))
  {
    StepGood(s, ClearPause(0));
    RunOne(s, ClearPause(0));
  }

  // Under a reason AUTH_REQUIRED, LOGGED_OUT or FATAL: without an opened connection no run claims
  // a live job exactly when the live daemon is not between its look at the pause keys and its
  // claim, and holds no delivery that can still end in a rate limit, which would replace the
  // reason by one that expires.
  lemma BlockHoldsExactlyWhenNothingSlipsThrough(s: System)
    requires Sound(s) && BlockedByReason(s.pause)
    ensures (forall steps :: NoOpening(steps) ==> !LiveClaimSince(s, Run(s, steps))) <==> !CanSlipThrough(s)
  {
    hide Run, Sound, CanBeRateLimited, PastItsCheck, LiveClaimSince, NoOpening;
    if CanSlipThrough(s) {
      var steps := SomeRunClaims(s);
      assert LiveClaimSince(s, Run(s, steps));
    } else {
      forall steps | NoOpening(steps) ensures !LiveClaimSince(s, Run(s, steps)) {
        ShutRunClaimsNothingLive(s, steps);
      }
    }
  }

  lemma SomeRunClaims(s: System) returns (steps: seq<Step>)
    requires Sound(s) && CanSlipThrough(s)
    ensures NoOpening(steps) && LiveClaimSince(s, Run(s, steps))
  {
    hide Sound, Run;
    if PastItsCheck(s) {
      if s.workers[0].gate.Checked? {
        CheckedClaims(s);
        steps := QueueAndClaim(s);
      } else {
        ClearingChecks(s);
        var checked := Apply(s, ClearPause(0));
        CheckedClaims(checked);
        steps := [ClearPause(0)] + QueueAndClaim(checked);
        RunConcat(s, [ClearPause(0)], QueueAndClaim(checked));
        ClaimedSinceEarlier(s, checked, Run(s, steps));
      }
    } else if s.workers[0].hold.Sending? {
      DeliveryLiftsBlock(s);
      steps := LimitAndClaim(s, s.workers[0].hold.job);
    } else {
      PacingLeadsToDelivery(s);
      var first := MakeWay(s, 0, s.workers[0].hold.job) + [BeginSend(0, true)];
      var sending := Run(s, first);
      var second := LimitAndClaim(sending, sending.workers[0].hold.job);
      DeliveryLiftsBlock(sending);
      steps := first + second;
      RunConcat(s, first, second);
      ClaimedSinceEarlier(s, sending, Run(s, steps));
    }
  }

  // Both ways are reached: the connection ends for good while a message is being sent, and a
  // local logout in another process writes its reason between the daemon's check and its claim.
  lemma SlippingThroughIsReached()
    ensures Initial(Beginning(1))
    ensures exists steps :: var s := Run(Beginning(1), steps);
      Sound(s) && s.pause.reason == Some(PausedFatal) && CanBeRateLimited(s) && s.workers[0].hold.Sending?
    ensures exists steps :: var s := Run(Beginning(1), steps);
      Sound(s) && s.pause.reason == Some(PausedAuthRequired) && PastItsCheck(s) && !CanBeRateLimited(s)
  {
    var job := Message(1, Pending);
    var first, sending := FirstSteps(job), [Claim(0, 1), BeginSend(0, true), ConnectionEnded(PausedFatal)];
    var logout := ConnectionEnded(PausedAuthRequired);
    DaemonStarted(1, job);
    RunConcat(Beginning(1), first, sending);
    RunExtend(Beginning(1), first, logout);
    RunSound(Beginning(1), first + sending);
    RunSound(Beginning(1), first + [logout]);
    EndedWhileSending(job);
    LoggedOutMeanwhile(job);
    hide Run, Sound, CanBeRateLimited, PastItsCheck, Apply, StartedOne, FirstSteps;
    assert CanBeRateLimited(Run(Beginning(1), first + sending));
    assert PastItsCheck(Run(Beginning(1), first + [logout]));
  }

  lemma EndedWhileSending(job: NewJob)
    requires job == Message(1, Pending)
    ensures var s := Run(StartedOne(1, job), [Claim(0, 1), BeginSend(0, true), ConnectionEnded(PausedFatal)]);
      s.pause.reason == Some(PausedFatal) && CanBeRateLimited(s) && s.workers[0].hold.Sending?
  {
    var started, ended := StartedOne(1, job), ConnectionEnded(PausedFatal);
    var claimed := Apply(started, Claim(0, 1));
    var begun := Apply(claimed, BeginSend(0, true));
    assert CanBeRateLimited(claimed) && claimed.workers[0].hold.Pacing?
           && claimed.workers[0].config.sendIntervalMs <= 0
           && Sendable(claimed.dests, claimed.workers[0].hold.claimed.destination) by {
      Resend.ClaimedOne(1, job);
      hide Apply, Run;
    }
    BegunOne(claimed);
    EndedNow(begun);
    hide Run, Apply, CanBeRateLimited, StartedOne;
    ThreeSteps(started, Claim(0, 1), BeginSend(0, true), ended, claimed, begun, Apply(begun, ended));
  }

  lemma EndedNow(s: System)
    requires CanBeRateLimited(s)
    ensures var after := Apply(s, ConnectionEnded(PausedFatal));
      after.pause.reason == Some(PausedFatal) && after.workers == s.workers && CanBeRateLimited(after)
  {
  }

  lemma BegunOne(s: System)
    requires CanBeRateLimited(s) && s.workers[0].hold.Pacing? && s.workers[0].config.sendIntervalMs <= 0
    requires Sendable(s.dests, s.workers[0].hold.claimed.destination)
    ensures var after := Apply(s, BeginSend(0, true)); CanBeRateLimited(after) && after.workers[0].hold.Sending?
  {
  }

  lemma LoggedOutMeanwhile(job: NewJob)
    ensures var s := Apply(StartedOne(1, job), ConnectionEnded(PausedAuthRequired));
      s.pause.reason == Some(PausedAuthRequired) && PastItsCheck(s) && !CanBeRateLimited(s)
  {
  }
}
