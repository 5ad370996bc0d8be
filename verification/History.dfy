/** Counters over the event trace of one job, and who can move a job that nobody is delivering. */
module History {
  import opened Prelude
  import opened Jobs
  import opened Statements
  import opened RetryPolicy
  import opened System
  import opened Invariants

  // What the trace says about one job.
  //  exposure: live send calls since the last error recorded or manual retry
  //  grace:    authentication pauses and shutdown put-backs since the last manual retry
  //  claims, resets, graces: all claims; creation and manual retries; all pauses and put-backs
  datatype Tally = Tally(exposure: nat, grace: nat, claims: nat, resets: nat, graces: nat)

  predicate Separator(e: Event, j: nat) {
    e == ErrorHandled(j) || e == ManuallyRetried(j)
  }

  predicate LiveSend(e: Event, j: nat) {
    e.SendCalled? && e.job == j && e.live
  }

  function Account(t: Tally, e: Event, j: nat): Tally {
    if LiveSend(e, j) then t.(exposure := t.exposure + 1)
    else if e == ErrorHandled(j) then t.(exposure := 0)
    else if e == ManuallyRetried(j) then t.(exposure := 0, grace := 0, resets := t.resets + 1)
    else if e == PutBackUnsent(j) || e == AuthPaused(j) then t.(grace := t.grace + 1, graces := t.graces + 1)
    else if e.Claimed? && e.job == j then t.(claims := t.claims + 1)
    else if e == Created(j) then t.(resets := t.resets + 1)
    else t
  }

  function TallyOf(trace: seq<Event>, j: nat): Tally {
    if trace == [] then Tally(0, 0, 0, 0, 0)
    else Account(TallyOf(trace[..|trace| - 1], j), trace[|trace| - 1], j)
  }

  function Exposure(trace: seq<Event>, j: nat): nat {
    TallyOf(trace, j).exposure
  }

  function Grace(trace: seq<Event>, j: nat): nat {
    TallyOf(trace, j).grace
  }

  lemma AppendEvent(trace: seq<Event>, e: Event, j: nat)
    ensures TallyOf(trace + [e], j) == Account(TallyOf(trace, j), e, j)
  {
    assert (trace + [e])[..|trace|] == trace;
  }

  lemma {:induction false} UnmentionedTally(trace: seq<Event>, n: nat, j: nat)
    requires TraceBounded(trace, n) && n <= j
    ensures TallyOf(trace, j) == Tally(0, 0, 0, 0, 0)
  {
    if trace != [] {
      var e, rest := trace[|trace| - 1], trace[..|trace| - 1];
      assert TraceBounded(rest, n);
      UnmentionedTally(rest, n, j);
      assert !Mentions(e, j);
    }
  }

  predicate SameTally(before: seq<Event>, after: seq<Event>, j: nat) {
    TallyOf(after, j) == TallyOf(before, j)
  }

  // ----- Steps that do not deliver j -----

  predicate Holds(s: System, w: nat, j: nat) {
    w in s.workers && !s.workers[w].hold.Idle? && s.workers[w].hold.job == j
  }

  // The step is a claim of j, a worker acting on the j it holds, or start-up recovery.
  predicate Touches(s: System, step: Step, j: nat) {
    match step
    case Claim(w, now) => CanClaim(s, w, now) && ClaimChoice(s, w, now) == Some(j)
    case PutBack(w) => Holds(s, w, j)
    case BeginSend(w, _) => Holds(s, w, j)
    case FinishSend(w, _, _) => Holds(s, w, j)
    case StartDaemon(_) => 0 !in s.workers
    case _ => false
  }

  // What may happen to row j meanwhile: promotion, cancellation, or an operator's decision.
  ghost predicate Meanwhile(s: System, after: System, j: nat)
    requires j < |s.jobs| && j < |after.jobs|
  {
    var a, b := s.jobs[j], after.jobs[j];
    || (SameTally(s.trace, after.trace, j)
        && b.attempts == a.attempts
        && (|| b == a
            || (a.status.Scheduled? && b == a.(status := Pending))
            || (b.status.Cancelled? && !a.status.Processing? && !Final(a.status))
            || (b.status.Sent? && (a.status.Processing? || a.status.ReviewRequired?))))
    || (&& TallyOf(after.trace, j) == Account(TallyOf(s.trace, j), ManuallyRetried(j), j)
        && b == RetryRow(a, s.clock)
        && (a.status.Processing? || a.status.ReviewRequired? || a.status.Failed?))
  }

  lemma SettleElsewhere(s: System, w: nat, k: nat, target: Status, change: Change, finished: Instant, j: nat)
    requires w in s.workers && j < |s.jobs| && k != j
    ensures j < |Settle(s, w, k, target, change, finished).jobs|
    ensures Settle(s, w, k, target, change, finished).jobs[j] == s.jobs[j]
    ensures Settle(s, w, k, target, change, finished).trace == s.trace
  {
  }

  lemma FailureElsewhere(s: System, w: nat, target: Status, change: Change, j: nat)
    requires w in s.workers && s.workers[w].hold.Sending? && s.workers[w].hold.job != j && j < |s.jobs|
    requires Settles(s, s.workers[w].hold.job, target, change)
    ensures var after := Failure(s, w, target, change);
      j < |after.jobs| && after.jobs[j] == s.jobs[j] && SameTally(s.trace, after.trace, j)
  {
    var k := s.workers[w].hold.job;
    SettleElsewhere(s, w, k, target, change, s.clock, j);
    AppendEvent(s.trace, ErrorHandled(k), j);
    AppendEvent(s.trace + [ErrorHandled(k)], SendFinished(w, s.clock), j);
  }

  lemma EffectElsewhere(s: System, w: nat, k: nat, effect: Effect, j: nat)
    requires w in s.workers && k != j
    ensures WithEffect(s, w, k, effect).jobs == s.jobs
    ensures SameTally(s.trace, WithEffect(s, w, k, effect).trace, j)
  {
    match effect
    case NoEffect =>
    case LimitRate(until) => AppendEvent(s.trace, RateLimitPaused(k, until), j);
    case PauseForAuth(_) => AppendEvent(s.trace, AuthPaused(k), j);
  }

  lemma ErrorSettledElsewhere(s: System, w: nat, target: Status, change: Change, effect: Effect, j: nat)
    requires w in s.workers && s.workers[w].hold.Sending? && s.workers[w].hold.job != j && j < |s.jobs|
    ensures var after := ErrorSettled(s, w, target, change, effect);
      j < |after.jobs| && after.jobs[j] == s.jobs[j] && SameTally(s.trace, after.trace, j)
  {
    var k := s.workers[w].hold.job;
    if Settles(s, k, target, change) {
      FailureElsewhere(s, w, target, change, j);
      EffectElsewhere(Failure(s, w, target, change), w, k, effect, j);
    }
  }

  // Row j is as before or was cancelled with its destination, and its counters stand still.
  ghost predicate Elsewhere(s: System, after: System, j: nat)
    requires j < |s.jobs|
  {
    && j < |after.jobs| && SameTally(s.trace, after.trace, j)
    && (|| after.jobs[j] == s.jobs[j]
        || (after.jobs[j] == BlockedRow(s.jobs[j]) && Unsent(s.jobs[j].status)))
  }

  lemma DecisionElsewhere(s: System, w: nat, errorClass: ErrorClass, decision: Decision, j: nat)
    requires w in s.workers && s.workers[w].hold.Sending? && s.workers[w].hold.job != j && j < |s.jobs|
    ensures Elsewhere(s, ApplyDecision(s, w, errorClass, decision), j)
  {
    hide ErrorSettled;
    match decision
    case RetryAfter(delay) =>
      ErrorSettledElsewhere(s, w, Retry, ErrorChange(errorClass, Some(s.clock + delay)), NoEffect, j);
    case RateLimit(delay) =>
      ErrorSettledElsewhere(s, w, WaitingRateLimit, ErrorChange(errorClass, Some(s.clock + delay)),
                            LimitRate(s.clock + delay), j);
    case PauseAuth(delay) =>
      ErrorSettledElsewhere(s, w, Retry, ErrorChange(errorClass, Some(s.clock + delay)),
                            PauseForAuth(ClassPause(errorClass)), j);
    case Fail =>
      var blocked :=
        if BlocksDestination(errorClass) then Blocked(s, s.workers[w].hold.claimed.destination) else s;
      ErrorSettledElsewhere(blocked, w, Failed, ErrorChange(errorClass, None), NoEffect, j);
  }

  lemma AcceptedElsewhere(s: System, w: nat, target: Status, remote: RemoteId, jitter: real, j: nat)
    requires w in s.workers && s.workers[w].hold.Sending? && s.workers[w].hold.job != j && j < |s.jobs|
    ensures Elsewhere(s, ApplyAccepted(s, w, target, remote, jitter), j)
  {
    hide TallyOf, ApplyDecision, Transition;
    var k := s.workers[w].hold.job;
    var noted := Record(s, DeliveryAccepted(k));
    var change := Change(Some(remote), None, None);
    AppendEvent(s.trace, DeliveryAccepted(k), j);
    if Settles(noted, k, target, change) {
      SettledElsewhere(noted, w, target, change, j);
    } else {
      DecisionElsewhere(noted, w, UnknownTransient, WorkerDecision(s.workers[w], UnknownTransient, None, jitter), j);
    }
  }

  lemma SettledElsewhere(s: System, w: nat, target: Status, change: Change, j: nat)
    requires w in s.workers && s.workers[w].hold.Sending? && s.workers[w].hold.job != j && j < |s.jobs|
    ensures Elsewhere(
      s, Record(Settle(s, w, s.workers[w].hold.job, target, change, s.clock), SendFinished(w, s.clock)), j)
  {
    SettleElsewhere(s, w, s.workers[w].hold.job, target, change, s.clock, j);
    AppendEvent(s.trace, SendFinished(w, s.clock), j);
  }

  lemma FinishElsewhere(s: System, w: nat, outcome: Outcome, jitter: real, j: nat)
    requires w in s.workers && s.workers[w].hold.Sending? && s.workers[w].hold.job != j && j < |s.jobs|
    ensures Elsewhere(s, ApplyFinishSend(s, w, outcome, jitter), j)
  {
    hide ApplyDecision, ApplyAccepted;
    var worker := s.workers[w];
    if !ViaLive(worker, worker.hold.claimed) {
      AcceptedElsewhere(s, w, DryRun, Simulated, jitter, j);
    } else if outcome.Rejected? {
      var errorClass := TransportClass(worker.hold.claimed, outcome.errorClass);
      DecisionElsewhere(s, w, errorClass, WorkerDecision(worker, errorClass, outcome.retryAfterMs, jitter), j);
    } else {
      AcceptedElsewhere(s, w, Sent, RemoteMessage(outcome.number), jitter, j);
    }
  }

  lemma OperatorRetryMeanwhile(s: System, k: nat, j: nat)
    requires Sound(s) && j < |s.jobs|
    ensures j < |ApplyOperatorRetry(s, k).jobs| && Meanwhile(s, ApplyOperatorRetry(s, k), j)
  {
    hide TallyOf, Sound;
    AppendEvent(s.trace, ManuallyRetried(k), j);
    var outcome := ManualRetry(s.jobs, k, s.clock);
    if outcome.Ok? {
      assert outcome.value == s.jobs[k := RetryRow(s.jobs[k], s.clock)];
      assert ApplyOperatorRetry(s, k).trace == s.trace + [ManuallyRetried(k)];
    }
  }

  lemma OperatorCancelMeanwhile(s: System, k: nat, j: nat)
    requires Sound(s) && j < |s.jobs|
    ensures j < |ApplyOperatorCancel(s, k).jobs| && Meanwhile(s, ApplyOperatorCancel(s, k), j)
  {
  }

  lemma OperatorMarkSentMeanwhile(s: System, k: nat, j: nat)
    requires Sound(s) && j < |s.jobs|
    ensures j < |ApplyOperatorMarkSent(s, k).jobs| && Meanwhile(s, ApplyOperatorMarkSent(s, k), j)
  {
    hide TallyOf, Sound;
    AppendEvent(s.trace, ManuallyMarkedSent(k), j);
    var outcome := Transition(s.jobs, k, Sent, MarkSentChange(), s.clock);
    if outcome.Ok? {
      assert outcome.value == s.jobs[k := TransitionRow(s.jobs[k], Sent, MarkSentChange(), s.clock)];
      assert ApplyOperatorMarkSent(s, k).trace == s.trace + [ManuallyMarkedSent(k)];
    }
  }

  lemma ClaimElsewhere(s: System, w: nat, now: Instant, j: nat)
    requires Sound(s) && j < |s.jobs| && !Touches(s, Claim(w, now), j)
    ensures Elsewhere(s, ApplyClaim(s, w, now), j)
  {
    hide TallyOf, Sound;
    var after := ApplyClaim(s, w, now);
    if CanClaim(s, w, now) && ClaimChoice(s, w, now).Some? {
      var k := ClaimChoice(s, w, now).value;
      AppendEvent(s.trace, Claimed(w, k, now), j);
      assert after.trace == s.trace + [Claimed(w, k, now)] && after.jobs == s.jobs[k := ClaimedRow(s.jobs[k], now)];
    } else {
      assert after.jobs == s.jobs && after.trace == s.trace;
    }
  }

  lemma PutBackElsewhere(s: System, w: nat, j: nat)
    requires Sound(s) && j < |s.jobs| && !Holds(s, w, j)
    ensures Elsewhere(s, ApplyPutBack(s, w), j)
  {
    if w in s.workers && s.workers[w].hold.Pacing? {
      var k := s.workers[w].hold.job;
      SettleElsewhere(s, w, k, Retry, PutBackChange(s.clock), s.workers[w].lastFinish, j);
      AppendEvent(s.trace, PutBackUnsent(k), j);
    }
  }

  lemma BeginSendElsewhere(s: System, w: nat, mediaExists: bool, j: nat)
    requires Sound(s) && j < |s.jobs| && !Holds(s, w, j)
    ensures Elsewhere(s, ApplyBeginSend(s, w, mediaExists), j)
  {
    if w in s.workers && s.workers[w].hold.Pacing? {
      var worker := s.workers[w];
      SettleElsewhere(s, w, worker.hold.job, Failed, ErrorChange(DestinationError, None), worker.lastFinish, j);
      SettleElsewhere(s, w, worker.hold.job, Failed, ErrorChange(MediaError, None), worker.lastFinish, j);
      AppendEvent(s.trace, SendCalled(w, worker.hold.job, ViaLive(worker, worker.hold.claimed), s.clock), j);
    }
  }

  lemma FinishSendElsewhere(s: System, w: nat, outcome: Outcome, jitter: real, j: nat)
    requires Sound(s) && j < |s.jobs| && !Holds(s, w, j)
    ensures Elsewhere(s, ApplyFinishSend(s, w, outcome, jitter), j)
  {
    if w in s.workers && s.workers[w].hold.Sending? {
      FinishElsewhere(s, w, outcome, jitter, j);
    }
  }

  lemma DatabaseMeanwhile(s: System, step: Step, j: nat)
    requires Sound(s) && j < |s.jobs|
    requires step.Promote? || step.CancelDisabled? || step.SetEnabled? || step.Refresh? || step.Create?
    ensures j < |Apply(s, step).jobs| && Meanwhile(s, Apply(s, step), j)
  {
    hide TallyOf, Sound;
    match step
    case Create(job) => AppendEvent(s.trace, Created(|s.jobs|), j);
    case Promote(_) =>
    case CancelDisabled =>
    case SetEnabled(_, _) =>
    case Refresh(_) =>
  }

  lemma ProcessMeanwhile(s: System, step: Step, j: nat)
    requires Sound(s) && j < |s.jobs| && !Touches(s, step, j)
    requires step.StartHelper? || step.StartDaemon? || step.Tick? || step.RequestStop? || step.Crash?
             || step.Exit? || step.ConnectionOpened? || step.ConnectionEnded? || step.CheckPause? || step.ClearPause?
    ensures j < |Apply(s, step).jobs| && Meanwhile(s, Apply(s, step), j)
  {
    hide TallyOf, Sound;
    if step.StartHelper? {
      HelperElsewhere(s, step.job, step.config, j);
    } else {
      hide ApplyClaim, ApplyPutBack, ApplyBeginSend, ApplyFinishSend, ManualRetry, Transition, Insert;
      assert Apply(s, step).jobs == s.jobs && Apply(s, step).trace == s.trace;
    }
  }

  lemma HelperElsewhere(s: System, k: nat, config: Config, j: nat)
    requires j < |s.jobs|
    ensures Elsewhere(s, ApplyStartHelper(s, k, config), j)
  {
    hide TallyOf;
    AppendEvent(s.trace, WorkerStarted(k + 1, config.sendIntervalMs), j);
  }

  // A step that does not touch j leaves its row and counters alone, up to Meanwhile.
  lemma UntouchedMeanwhile(s: System, step: Step, j: nat)
    requires Sound(s) && j < |s.jobs| && !Touches(s, step, j)
    ensures j < |Apply(s, step).jobs| && Meanwhile(s, Apply(s, step), j)
  {
    hide TallyOf, Sound, ApplyClaim, ApplyPutBack, ApplyBeginSend, ApplyFinishSend, ManualRetry, Transition, Insert;
    match step
    case CheckPause(_) => ProcessMeanwhile(s, step, j);
    case ClearPause(_) => ProcessMeanwhile(s, step, j);
    case Claim(w, now) => ClaimElsewhere(s, w, now, j);
    case PutBack(w) => PutBackElsewhere(s, w, j);
    case BeginSend(w, mediaExists) => BeginSendElsewhere(s, w, mediaExists, j);
    case FinishSend(w, outcome, jitter) => FinishSendElsewhere(s, w, outcome, jitter, j);
    case Promote(_) => DatabaseMeanwhile(s, step, j);
    case CancelDisabled => DatabaseMeanwhile(s, step, j);
    case SetEnabled(_, _) => DatabaseMeanwhile(s, step, j);
    case Refresh(_) => DatabaseMeanwhile(s, step, j);
    case Create(_) => DatabaseMeanwhile(s, step, j);
    case OperatorCancel(k) => OperatorCancelMeanwhile(s, k, j);
    case OperatorRetry(k) => OperatorRetryMeanwhile(s, k, j);
    case OperatorMarkSent(k) => OperatorMarkSentMeanwhile(s, k, j);
    case _ => ProcessMeanwhile(s, step, j);
  }
}
