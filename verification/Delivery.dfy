/**
 * Delivery over whole runs, for live jobs: a crash never causes a second send, and attempts
 * stay within budget. Dry-run jobs never reach the live transport and are not at stake here.
 */
module Delivery {
  import opened Prelude
  import opened Jobs
  import opened Statements
  import opened RetryPolicy
  import opened System
  import opened Invariants
  import opened History

  predicate LiveJob(s: System, j: nat) {
    j < |s.jobs| && !s.jobs[j].dryRun
  }

  predicate HeldPacing(s: System, j: nat) {
    Holds(s, 0, j) && s.workers[0].hold.Pacing?
  }

  // While the daemon holds j, only an operator can have moved the row.
  ghost predicate Owned(s: System, j: nat)
    requires LiveJob(s, j)
  {
    Holds(s, 0, j) ==>
      var row := s.jobs[j];
      && (row.status.Processing? || row.status.Retry? || row.status.Cancelled? || row.status.Sent?)
      && (row.status.Processing? ==> row.attempts == s.workers[0].hold.claimed.attempts)
  }

  ghost predicate InBudget(s: System, j: nat)
    requires j < |s.jobs|
  {
    var row, grace := s.jobs[j], Grace(s.trace, j);
    row.attempts <= row.maxAttempts + grace && (Unsent(row.status) ==> row.attempts < row.maxAttempts + grace)
  }

  // The daemon is going to send the live job j, unless something stops it on the way.
  predicate SendAhead(s: System, j: nat) {
    LiveJob(s, j) && HeldPacing(s, j) && !s.workers[0].stopping && s.jobs[j].status.Processing?
  }

  // A job exposed to the network is neither queued nor about to be sent.
  ghost predicate Guarded(s: System, j: nat)
    requires LiveJob(s, j)
  {
    && Exposure(s.trace, j) <= 1
    && (Exposure(s.trace, j) == 1 ==> !Unsent(s.jobs[j].status) && !HeldPacing(s, j))
    && (HeldPacing(s, j) && !s.workers[0].stopping ==> s.jobs[j].status.Processing? || s.jobs[j].status.Sent?)
  }

  // The one thing an operator must not do: retry a live job the daemon is going to send.
  predicate Careful(s: System, step: Step) {
    step.OperatorRetry? ==> !SendAhead(s, step.job)
  }

  predicate CarefulRun(s: System, steps: seq<Step>) {
    steps == []
    || (CarefulRun(s, steps[..|steps| - 1]) && Careful(Run(s, steps[..|steps| - 1]), steps[|steps| - 1]))
  }

  // ----- Only the daemon delivers live jobs -----

  lemma DaemonDelivers(s: System, w: nat, j: nat)
    requires Sound(s) && LiveJob(s, j) && Holds(s, w, j)
    ensures w == 0 && ViaLive(s.workers[0], s.workers[0].hold.claimed)
    ensures s.workers[0].hold.claimed.maxAttempts == s.jobs[j].maxAttempts
    ensures s.workers[0].hold.claimed.destination == s.jobs[j].destination
  {
    assert HoldOk(s.jobs, s.workers[w]);
  }

  lemma DecisionKeepsOthers(s: System, w: nat, errorClass: ErrorClass, decision: Decision)
    requires w in s.workers && s.workers[w].hold.Sending?
    ensures var after := ApplyDecision(s, w, errorClass, decision);
      && (forall v :: v in s.workers && v != w ==> v in after.workers && after.workers[v] == s.workers[v])
      && (forall v :: v in after.workers ==> v in s.workers)
      && (w in after.workers ==> after.workers[w].hold.Idle? && after.workers[w].gate == s.workers[w].gate)
  {
  }

  lemma FinishKeepsOthers(s: System, w: nat, outcome: Outcome, jitter: real)
    requires w in s.workers && s.workers[w].hold.Sending?
    ensures var after := ApplyFinishSend(s, w, outcome, jitter);
      && (forall v :: v in s.workers && v != w ==> v in after.workers && after.workers[v] == s.workers[v])
      && (forall v :: v in after.workers ==> v in s.workers)
      && (w in after.workers ==> after.workers[w].hold.Idle? && after.workers[w].gate == s.workers[w].gate)
  {
    var worker := s.workers[w];
    var noted := Record(s, DeliveryAccepted(worker.hold.job));
    DecisionKeepsOthers(noted, w, UnknownTransient, WorkerDecision(worker, UnknownTransient, None, jitter));
    if outcome.Rejected? {
      var errorClass := TransportClass(worker.hold.claimed, outcome.errorClass);
      DecisionKeepsOthers(s, w, errorClass, WorkerDecision(worker, errorClass, outcome.retryAfterMs, jitter));
    }
  }

  // A step that does not touch j cannot make a worker hold it.
  lemma HoldsOnlyByClaim(s: System, step: Step, w: nat, j: nat)
    requires Sound(s) && !Touches(s, step, j)
    ensures Holds(Apply(s, step), w, j) ==>
      && Holds(s, w, j) && Apply(s, step).workers[w].hold == s.workers[w].hold
      && (s.workers[w].stopping ==> Apply(s, step).workers[w].stopping)
  {
    hide ApplyFinishSend, ApplyDecision, Transition, Sound, ManualRetry;
    if step.FinishSend? {
      if step.worker in s.workers && s.workers[step.worker].hold.Sending? {
        FinishKeepsOthers(s, step.worker, step.outcome, step.jitter);
      } else {
        NothingToFinish(s, step.worker, step.outcome, step.jitter);
      }
    }
  }

  lemma NothingToFinish(s: System, w: nat, outcome: Outcome, jitter: real)
    requires w !in s.workers || !s.workers[w].hold.Sending?
    ensures ApplyFinishSend(s, w, outcome, jitter) == s
  {
  }

  // ----- What the daemon's own steps do to the live job it holds -----

  lemma ClaimTouch(s: System, w: nat, now: Instant, j: nat)
    requires Sound(s) && LiveJob(s, j) && Touches(s, Claim(w, now), j)
    ensures var after := ApplyClaim(s, w, now);
      && w == 0 && !s.workers[0].config.dryRun && !Holds(s, 0, j)
      && Unsent(s.jobs[j].status) && !s.jobs[j].status.Scheduled?
      && after.jobs == s.jobs[j := ClaimedRow(s.jobs[j], now)]
      && after.workers == s.workers[0 := s.workers[0].(gate := Ready, hold := Pacing(j, after.jobs[j]))]
      && TallyOf(after.trace, j) == Account(TallyOf(s.trace, j), Claimed(w, j, now), j)
  {
    AppendEvent(s.trace, Claimed(w, j, now), j);
  }

  lemma PutBackTouch(s: System, j: nat)
    requires Sound(s) && LiveJob(s, j) && Holds(s, 0, j) && Owned(s, j)
    ensures var after := ApplyPutBack(s, 0);
      || after == s
      || (&& HeldPacing(s, j) && !Holds(after, 0, j)
          && (if s.jobs[j].status.Processing?
              then && 0 in after.workers
                   && after.jobs == s.jobs[j := TransitionRow(s.jobs[j], Retry, PutBackChange(s.clock), s.clock)]
                   && TallyOf(after.trace, j) == Account(TallyOf(s.trace, j), PutBackUnsent(j), j)
              else after == Gone(s, 0)))
  {
    TransitionKeepsWellFormed(s.jobs, j, Retry, PutBackChange(s.clock), s.clock);
    AppendEvent(s.trace, PutBackUnsent(j), j);
  }

  lemma BeginSendTouch(s: System, mediaExists: bool, j: nat)
    requires Sound(s) && LiveJob(s, j) && Holds(s, 0, j) && Owned(s, j)
    ensures var after := ApplyBeginSend(s, 0, mediaExists);
      || after == s
      || (&& HeldPacing(s, j) && !s.workers[0].stopping && !HeldPacing(after, j) && Holds(after, 0, j)
          && after.jobs == s.jobs
          && after.workers[0].hold == Sending(j, s.workers[0].hold.claimed)
          && Sendable(s.dests, s.jobs[j].destination)
          && TallyOf(after.trace, j) == Account(TallyOf(s.trace, j), SendCalled(0, j, true, s.clock), j))
      || (&& HeldPacing(s, j) && !Holds(after, 0, j) && after.trace == s.trace && |after.jobs| == |s.jobs|
          && (after.jobs[j] == s.jobs[j]
              || (after.jobs[j].status.Failed? && after.jobs[j].attempts == s.jobs[j].attempts)))
  {
    DaemonDelivers(s, 0, j);
    AppendEvent(s.trace, SendCalled(0, j, true, s.clock), j);
  }

  // What the end of a delivery does to the held row and its counters.
  ghost predicate Delivered(s: System, after: System, j: nat)
    requires LiveJob(s, j)
  {
    && |after.jobs| == |s.jobs| && !Holds(after, 0, j)
    && if s.jobs[j].status.Processing?
       then
         && 0 in after.workers && after.jobs[j].attempts == s.jobs[j].attempts
         && var settled := Account(TallyOf(s.trace, j), ErrorHandled(j), j);
            (|| (after.jobs[j].status.Sent? && SameTally(s.trace, after.trace, j))
             || ((after.jobs[j].status.Retry? || after.jobs[j].status.WaitingRateLimit?)
                 && s.jobs[j].attempts < s.jobs[j].maxAttempts && TallyOf(after.trace, j) == settled)
             || (after.jobs[j].status.Retry? && TallyOf(after.trace, j) == Account(settled, AuthPaused(j), j))
             || (after.jobs[j].status.Failed? && TallyOf(after.trace, j) == settled))
       else
         && 0 !in after.workers && SameTally(s.trace, after.trace, j)
         && (|| after.jobs[j] == s.jobs[j]
             || (after.jobs[j] == BlockedRow(s.jobs[j]) && Unsent(s.jobs[j].status)))
  }

  lemma FailureTouch(s: System, target: Status, change: Change, j: nat)
    requires Sound(s) && LiveJob(s, j) && Holds(s, 0, j) && s.workers[0].hold.Sending?
    requires s.jobs[j].status.Processing? && ChangeFits(s.jobs[j], target, change)
    requires target.Retry? || target.WaitingRateLimit? || target.Failed?
    ensures Settles(s, j, target, change)
    ensures var after := Failure(s, 0, target, change);
      && after.jobs == s.jobs[j := TransitionRow(s.jobs[j], target, change, s.clock)]
      && 0 in after.workers && after.workers[0].hold.Idle?
      && TallyOf(after.trace, j) == Account(TallyOf(s.trace, j), ErrorHandled(j), j)
  {
    TransitionKeepsWellFormed(s.jobs, j, target, change, s.clock);
    AppendEvent(s.trace, ErrorHandled(j), j);
    AppendEvent(s.trace + [ErrorHandled(j)], SendFinished(0, s.clock), j);
  }

  lemma EffectTouch(s: System, j: nat, effect: Effect)
    requires 0 in s.workers
    ensures var after := WithEffect(s, 0, j, effect);
      && after.jobs == s.jobs && 0 in after.workers && after.workers[0].hold == s.workers[0].hold
      && TallyOf(after.trace, j)
         == if effect.PauseForAuth? then Account(TallyOf(s.trace, j), AuthPaused(j), j) else TallyOf(s.trace, j)
  {
    match effect
    case NoEffect =>
    case LimitRate(until) => AppendEvent(s.trace, RateLimitPaused(j, until), j);
    case PauseForAuth(_) => AppendEvent(s.trace, AuthPaused(j), j);
  }

  // A row an operator has taken away from the worker refuses every transition it tries.
  lemma TakenAway(s: System, target: Status, change: Change, effect: Effect, j: nat)
    requires LiveJob(s, j) && Holds(s, 0, j) && Owned(s, j) && s.workers[0].hold.Sending?
    requires !s.jobs[j].status.Processing?
    requires target.Retry? || target.WaitingRateLimit? || target.Failed?
    ensures ErrorSettled(s, 0, target, change, effect) == Gone(s, 0)
  {
  }

  lemma ErrorSettledTouch(s: System, target: Status, change: Change, effect: Effect, j: nat)
    requires Sound(s) && LiveJob(s, j) && Holds(s, 0, j) && Owned(s, j) && s.workers[0].hold.Sending?
    requires ChangeFits(s.jobs[j], target, change)
    requires || (target.Retry? && effect.PauseForAuth?) || (target.Failed? && effect.NoEffect?)
             || ((target.Retry? || target.WaitingRateLimit?) && !effect.PauseForAuth?
                 && s.workers[0].hold.claimed.attempts < s.workers[0].hold.claimed.maxAttempts)
    ensures Delivered(s, ErrorSettled(s, 0, target, change, effect), j)
  {
    DaemonDelivers(s, 0, j);
    if s.jobs[j].status.Processing? {
      FailureTouch(s, target, change, j);
      EffectTouch(Failure(s, 0, target, change), j, effect);
    } else {
      TakenAway(s, target, change, effect, j);
    }
  }

  lemma FailTouch(s: System, errorClass: ErrorClass, j: nat)
    requires Sound(s) && LiveJob(s, j) && Holds(s, 0, j) && Owned(s, j) && s.workers[0].hold.Sending?
    ensures Delivered(s, ApplyDecision(s, 0, errorClass, Fail), j)
  {
    var change := ErrorChange(errorClass, None);
    if BlocksDestination(errorClass) {
      DaemonDelivers(s, 0, j);
      var blocked := Blocked(s, s.workers[0].hold.claimed.destination);
      BlockedGood(s, s.workers[0].hold.claimed.destination);
      ErrorSettledTouch(blocked, Failed, change, NoEffect, j);
    } else {
      ErrorSettledTouch(s, Failed, change, NoEffect, j);
    }
  }

  lemma DecisionTouch(s: System, errorClass: ErrorClass, decision: Decision, j: nat)
    requires Sound(s) && LiveJob(s, j) && Holds(s, 0, j) && Owned(s, j) && s.workers[0].hold.Sending?
    requires decision.RetryAfter? || decision.RateLimit? ==>
      s.workers[0].hold.claimed.attempts < s.workers[0].hold.claimed.maxAttempts
    ensures Delivered(s, ApplyDecision(s, 0, errorClass, decision), j)
  {
    hide ErrorSettled, Delivered;
    if decision.RetryAfter? {
      ErrorSettledTouch(s, Retry, ErrorChange(errorClass, Some(s.clock + decision.delayMs)), NoEffect, j);
    } else if decision.RateLimit? {
      ErrorSettledTouch(s, WaitingRateLimit, ErrorChange(errorClass, Some(s.clock + decision.delayMs)),
                        LimitRate(s.clock + decision.delayMs), j);
    } else if decision.PauseAuth? {
      ErrorSettledTouch(s, Retry, ErrorChange(errorClass, Some(s.clock + decision.delayMs)),
                        PauseForAuth(ClassPause(errorClass)), j);
    } else {
      FailTouch(s, errorClass, j);
    }
  }

  lemma ErrorTouch(s: System, errorClass: ErrorClass, retryAfterMs: Option<nat>, jitter: real, j: nat)
    requires Sound(s) && LiveJob(s, j) && Holds(s, 0, j) && Owned(s, j) && s.workers[0].hold.Sending?
    requires 0.0 <= jitter < 1.0
    ensures Delivered(s, ApplyError(s, 0, errorClass, retryAfterMs, jitter), j)
  {
    hide ApplyDecision, Delivered, Sound, Owned;
    var worker := s.workers[0];
    RetryOnlyWithinBudget(errorClass, worker.hold.claimed.attempts, worker.hold.claimed.maxAttempts,
                          worker.config.retryBaseMs, worker.config.retryMaxMs, retryAfterMs, jitter);
    DecisionTouch(s, errorClass, WorkerDecision(worker, errorClass, retryAfterMs, jitter), j);
  }

  lemma AcceptedTouch(s: System, number: nat, jitter: real, j: nat)
    requires Sound(s) && LiveJob(s, j) && Holds(s, 0, j) && Owned(s, j) && s.workers[0].hold.Sending?
    requires 0.0 <= jitter < 1.0
    ensures Delivered(s, ApplyAccepted(s, 0, Sent, RemoteMessage(number), jitter), j)
  {
    var change := Change(Some(RemoteMessage(number)), None, None);
    var noted := Record(s, DeliveryAccepted(j));
    RecordSound(s, DeliveryAccepted(j));
    AppendEvent(s.trace, DeliveryAccepted(j), j);
    TransitionKeepsWellFormed(noted.jobs, j, Sent, change, s.clock);
    if s.jobs[j].status.Processing? {
      AppendEvent(noted.trace, SendFinished(0, s.clock), j);
    } else {
      ErrorTouch(noted, UnknownTransient, None, jitter, j);
    }
  }

  lemma FinishTouch(s: System, outcome: Outcome, jitter: real, j: nat)
    requires Sound(s) && LiveJob(s, j) && Holds(s, 0, j) && Owned(s, j)
    requires 0.0 <= jitter < 1.0
    ensures s.workers[0].hold.Pacing? ==> ApplyFinishSend(s, 0, outcome, jitter) == s
    ensures s.workers[0].hold.Sending? ==> Delivered(s, ApplyFinishSend(s, 0, outcome, jitter), j)
  {
    DaemonDelivers(s, 0, j);
    if s.workers[0].hold.Sending? {
      match outcome
      case Rejected(errorClass, retryAfterMs) =>
        ErrorTouch(s, TransportClass(s.workers[0].hold.claimed, errorClass), retryAfterMs, jitter, j);
      case Accepted(number) => AcceptedTouch(s, number, jitter, j);
    }
  }

  // ----- Every step keeps ownership and the attempt budget, whatever the operator does -----

  lemma MeanwhileKeepsBudget(s: System, after: System, j: nat)
    requires Sound(s) && LiveJob(s, j) && Owned(s, j) && InBudget(s, j)
    requires LiveJob(after, j) && Meanwhile(s, after, j) && SameIdentity(s.jobs[j], after.jobs[j])
    requires Holds(after, 0, j) ==> Holds(s, 0, j) && after.workers[0].hold == s.workers[0].hold
    ensures Owned(after, j) && InBudget(after, j)
  {
    assert Shape(s.jobs[j]);
  }

  lemma UntouchedKeepsBudget(s: System, step: Step, j: nat)
    requires Sound(s) && LiveJob(s, j) && !Touches(s, step, j)
    requires Owned(s, j) && InBudget(s, j)
    ensures LiveJob(Apply(s, step), j) && Owned(Apply(s, step), j) && InBudget(Apply(s, step), j)
  {
    UntouchedStaysLive(s, step, j);
    UntouchedMeanwhile(s, step, j);
    HoldsOnlyByClaim(s, step, 0, j);
    MeanwhileKeepsBudget(s, Apply(s, step), j);
  }

  lemma UntouchedStaysLive(s: System, step: Step, j: nat)
    requires Sound(s) && LiveJob(s, j)
    ensures LiveJob(Apply(s, step), j) && SameIdentity(s.jobs[j], Apply(s, step).jobs[j])
  {
    StepGood(s, step);
    assert Follows(s.jobs[j], Apply(s, step).jobs[j]);
  }

  lemma RecoveryKeepsBudget(s: System, config: Config, j: nat)
    requires Sound(s) && LiveJob(s, j) && InBudget(s, j) && 0 !in s.workers
    ensures var after := ApplyStartDaemon(s, config);
      && LiveJob(after, j) && Owned(after, j) && InBudget(after, j) && !Holds(after, 0, j)
      && SameTally(s.trace, after.trace, j) && after.jobs[j] == RecoveredRow(s.jobs[j])
  {
    hide TallyOf, Sound;
    AppendEvent(s.trace, WorkerStarted(0, config.sendIntervalMs), j);
  }

  lemma ClaimKeepsBudget(s: System, w: nat, now: Instant, j: nat)
    requires Sound(s) && LiveJob(s, j) && Owned(s, j) && InBudget(s, j)
    requires Touches(s, Claim(w, now), j)
    ensures var after := ApplyClaim(s, w, now);
      LiveJob(after, j) && Owned(after, j) && InBudget(after, j)
  {
    ClaimTouch(s, w, now, j);
  }

  lemma PutBackKeepsBudget(s: System, j: nat)
    requires Sound(s) && LiveJob(s, j) && Owned(s, j) && InBudget(s, j) && Holds(s, 0, j)
    ensures var after := ApplyPutBack(s, 0); LiveJob(after, j) && Owned(after, j) && InBudget(after, j)
  {
    PutBackTouch(s, j);
  }

  lemma BeginSendKeepsBudget(s: System, mediaExists: bool, j: nat)
    requires Sound(s) && LiveJob(s, j) && Owned(s, j) && InBudget(s, j) && Holds(s, 0, j)
    ensures var after := ApplyBeginSend(s, 0, mediaExists);
      LiveJob(after, j) && Owned(after, j) && InBudget(after, j)
  {
    BeginSendTouch(s, mediaExists, j);
    BeginSendGood(s, 0, mediaExists);
    assert Follows(s.jobs[j], ApplyBeginSend(s, 0, mediaExists).jobs[j]);
  }

  lemma DeliveredKeepsBudget(s: System, after: System, j: nat)
    requires Sound(s) && LiveJob(s, j) && InBudget(s, j)
    requires LiveJob(after, j) && SameIdentity(s.jobs[j], after.jobs[j])
    requires Delivered(s, after, j)
    ensures Owned(after, j) && InBudget(after, j)
  {
    assert Shape(s.jobs[j]);
  }

  lemma FinishKeepsBudget(s: System, outcome: Outcome, jitter: real, j: nat)
    requires Sound(s) && LiveJob(s, j) && Owned(s, j) && InBudget(s, j) && Holds(s, 0, j)
    requires 0.0 <= jitter < 1.0
    ensures var after := ApplyFinishSend(s, 0, outcome, jitter);
      LiveJob(after, j) && Owned(after, j) && InBudget(after, j)
  {
    hide ApplyFinishSend, Delivered, Owned, InBudget;
    FinishTouch(s, outcome, jitter, j);
    if s.workers[0].hold.Sending? {
      FinishSendGood(s, 0, outcome, jitter);
      assert Follows(s.jobs[j], ApplyFinishSend(s, 0, outcome, jitter).jobs[j]);
      DeliveredKeepsBudget(s, ApplyFinishSend(s, 0, outcome, jitter), j);
    }
  }

  lemma TouchKeepsBudget(s: System, step: Step, j: nat)
    requires Sound(s) && LiveJob(s, j) && Touches(s, step, j)
    requires Owned(s, j) && InBudget(s, j)
    ensures LiveJob(Apply(s, step), j) && Owned(Apply(s, step), j) && InBudget(Apply(s, step), j)
  {
    match step
    case Claim(w, now) => ClaimKeepsBudget(s, w, now, j);
    case PutBack(w) => DaemonDelivers(s, w, j); PutBackKeepsBudget(s, j);
    case BeginSend(w, mediaExists) => DaemonDelivers(s, w, j); BeginSendKeepsBudget(s, mediaExists, j);
    case FinishSend(w, outcome, jitter) =>
      DaemonDelivers(s, w, j);
      if 0.0 <= jitter < 1.0 { FinishKeepsBudget(s, outcome, jitter, j); }
    case StartDaemon(config) => RecoveryKeepsBudget(s, config, j);
  }

  lemma StepKeepsBudget(s: System, step: Step, j: nat)
    requires Sound(s) && LiveJob(s, j) && Owned(s, j) && InBudget(s, j)
    ensures LiveJob(Apply(s, step), j) && Owned(Apply(s, step), j) && InBudget(Apply(s, step), j)
  {
    if Touches(s, step, j) { TouchKeepsBudget(s, step, j); } else { UntouchedKeepsBudget(s, step, j); }
  }

  // A job starts with no attempts, no history and nobody holding it.
  lemma NewJobStarts(s: System, step: Step, j: nat)
    requires Sound(s) && |s.jobs| <= j && LiveJob(Apply(s, step), j)
    ensures Owned(Apply(s, step), j) && InBudget(Apply(s, step), j) && Guarded(Apply(s, step), j)
  {
    var after := Apply(s, step);
    StepGood(s, step);
    assert step.Create? by { OnlyCreateAppends(s, step); }
    UnmentionedTally(s.trace, |s.jobs|, j);
    AppendEvent(s.trace, Created(|s.jobs|), j);
    assert forall w :: w in s.workers ==> HoldOk(s.jobs, s.workers[w]);
  }

  lemma OnlyCreateAppends(s: System, step: Step)
    requires Sound(s)
    ensures |Apply(s, step).jobs| == |s.jobs| || (step.Create? && |Apply(s, step).jobs| == |s.jobs| + 1)
  {
    if step.FinishSend? && step.worker in s.workers && s.workers[step.worker].hold.Sending? {
      FinishKeepsLength(s, step.worker, step.outcome, step.jitter);
    }
  }

  lemma FinishKeepsLength(s: System, w: nat, outcome: Outcome, jitter: real)
    requires w in s.workers && s.workers[w].hold.Sending?
    ensures |ApplyFinishSend(s, w, outcome, jitter).jobs| == |s.jobs|
  {
    var worker := s.workers[w];
    var noted := Record(s, DeliveryAccepted(worker.hold.job));
    DecisionKeepsLength(noted, w, UnknownTransient, WorkerDecision(worker, UnknownTransient, None, jitter));
    if outcome.Rejected? {
      var errorClass := TransportClass(worker.hold.claimed, outcome.errorClass);
      DecisionKeepsLength(s, w, errorClass, WorkerDecision(worker, errorClass, outcome.retryAfterMs, jitter));
    }
  }

  lemma DecisionKeepsLength(s: System, w: nat, errorClass: ErrorClass, decision: Decision)
    requires w in s.workers && s.workers[w].hold.Sending?
    ensures |ApplyDecision(s, w, errorClass, decision).jobs| == |s.jobs|
  {
  }

  // On every run from an empty queue, attempts never exceed the budget plus the authentication
  // pauses and shutdown put-backs since the last manual retry, and a queued job has room left.
  lemma {:induction false} AttemptsWithinBudget(s: System, steps: seq<Step>, j: nat)
    requires Initial(s) && LiveJob(Run(s, steps), j)
    ensures Sound(Run(s, steps)) && Owned(Run(s, steps), j) && InBudget(Run(s, steps), j)
  {
    RunSound(s, steps);
    if steps != [] {
      var n := |steps| - 1;
      var before := Run(s, steps[..n]);
      RunSound(s, steps[..n]);
      StepGood(before, steps[n]);
      if j < |before.jobs| {
        assert Follows(before.jobs[j], Run(s, steps).jobs[j]);
        AttemptsWithinBudget(s, steps[..n], j);
        StepKeepsBudget(before, steps[n], j);
      } else {
        NewJobStarts(before, steps[n], j);
      }
    }
  }

  // ----- No second send without a recorded error or a manual retry -----

  lemma MeanwhileKeepsGuard(s: System, after: System, j: nat)
    requires Sound(s) && LiveJob(s, j) && Guarded(s, j)
    requires LiveJob(after, j) && Meanwhile(s, after, j)
    requires Holds(after, 0, j) ==>
      && Holds(s, 0, j) && after.workers[0].hold == s.workers[0].hold
      && (s.workers[0].stopping ==> after.workers[0].stopping)
    requires SendAhead(s, j) ==> !after.jobs[j].status.Retry?
    ensures Guarded(after, j)
  {
  }

  lemma UntouchedKeepsGuard(s: System, step: Step, j: nat)
    requires Sound(s) && LiveJob(s, j) && !Touches(s, step, j) && Careful(s, step)
    requires Guarded(s, j)
    ensures LiveJob(Apply(s, step), j) && Guarded(Apply(s, step), j)
  {
    UntouchedStaysLive(s, step, j);
    UntouchedMeanwhile(s, step, j);
    HoldsOnlyByClaim(s, step, 0, j);
    if SendAhead(s, j) {
      OnlyOperatorsRetry(s, step, j);
    }
    MeanwhileKeepsGuard(s, Apply(s, step), j);
  }

  // Nobody but an operator moves an untouched PROCESSING row to RETRY.
  lemma OnlyOperatorsRetry(s: System, step: Step, j: nat)
    requires Sound(s) && j < |s.jobs| && !Touches(s, step, j) && s.jobs[j].status.Processing?
    ensures j < |Apply(s, step).jobs|
    ensures Apply(s, step).jobs[j].status.Retry? ==> step == OperatorRetry(j)
  {
    hide TallyOf, ApplyClaim, ApplyPutBack, ApplyBeginSend, ApplyFinishSend;
    if step.Claim? {
      ClaimElsewhere(s, step.worker, step.now, j);
    } else if step.PutBack? {
      PutBackElsewhere(s, step.worker, j);
    } else if step.BeginSend? {
      BeginSendElsewhere(s, step.worker, step.mediaExists, j);
    } else if step.FinishSend? {
      FinishSendElsewhere(s, step.worker, step.outcome, step.jitter, j);
    }
  }

  lemma ClaimKeepsGuard(s: System, w: nat, now: Instant, j: nat)
    requires Sound(s) && LiveJob(s, j) && Guarded(s, j) && Touches(s, Claim(w, now), j)
    ensures LiveJob(ApplyClaim(s, w, now), j) && Guarded(ApplyClaim(s, w, now), j)
  {
    ClaimTouch(s, w, now, j);
  }

  lemma PutBackKeepsGuard(s: System, j: nat)
    requires Sound(s) && LiveJob(s, j) && Owned(s, j) && InBudget(s, j) && Guarded(s, j) && Holds(s, 0, j)
    ensures LiveJob(ApplyPutBack(s, 0), j) && Guarded(ApplyPutBack(s, 0), j)
  {
    PutBackKeepsBudget(s, j);
    PutBackTouch(s, j);
  }

  lemma BeginSendKeepsGuard(s: System, mediaExists: bool, j: nat)
    requires Sound(s) && LiveJob(s, j) && Owned(s, j) && InBudget(s, j) && Guarded(s, j) && Holds(s, 0, j)
    ensures LiveJob(ApplyBeginSend(s, 0, mediaExists), j) && Guarded(ApplyBeginSend(s, 0, mediaExists), j)
  {
    var after := ApplyBeginSend(s, 0, mediaExists);
    BeginSendKeepsBudget(s, mediaExists, j);
    BeginSendTouch(s, mediaExists, j);
    hide ApplyBeginSend, TallyOf, Sound, InBudget, Owned, Guarded;
    if after != s {
      BegunKeepsGuard(s, after, j);
    }
  }

  // The call has gone out, or the job has failed without one.
  lemma BegunKeepsGuard(s: System, after: System, j: nat)
    requires LiveJob(s, j) && LiveJob(after, j) && Guarded(s, j) && HeldPacing(s, j) && !HeldPacing(after, j)
    requires
      || (&& !s.workers[0].stopping && after.jobs == s.jobs
          && TallyOf(after.trace, j) == Account(TallyOf(s.trace, j), SendCalled(0, j, true, s.clock), j))
      || (&& after.trace == s.trace && (after.jobs[j] == s.jobs[j] || after.jobs[j].status.Failed?))
    ensures Guarded(after, j)
  {
    hide TallyOf;
  }

  lemma FinishKeepsGuard(s: System, outcome: Outcome, jitter: real, j: nat)
    requires Sound(s) && LiveJob(s, j) && Owned(s, j) && InBudget(s, j) && Guarded(s, j) && Holds(s, 0, j)
    requires 0.0 <= jitter < 1.0
    ensures var after := ApplyFinishSend(s, 0, outcome, jitter); LiveJob(after, j) && Guarded(after, j)
  {
    FinishKeepsBudget(s, outcome, jitter, j);
    FinishTouch(s, outcome, jitter, j);
    hide ApplyFinishSend, Owned, InBudget;
  }

  lemma TouchKeepsGuard(s: System, step: Step, j: nat)
    requires Sound(s) && LiveJob(s, j) && Touches(s, step, j)
    requires Owned(s, j) && InBudget(s, j) && Guarded(s, j)
    ensures LiveJob(Apply(s, step), j) && Guarded(Apply(s, step), j)
  {
    match step
    case Claim(w, now) => ClaimKeepsGuard(s, w, now, j);
    case PutBack(w) => DaemonDelivers(s, w, j); PutBackKeepsGuard(s, j);
    case BeginSend(w, mediaExists) => DaemonDelivers(s, w, j); BeginSendKeepsGuard(s, mediaExists, j);
    case FinishSend(w, outcome, jitter) =>
      DaemonDelivers(s, w, j);
      if 0.0 <= jitter < 1.0 { FinishKeepsGuard(s, outcome, jitter, j); }
    case StartDaemon(config) => RecoveryKeepsBudget(s, config, j);
  }
}
