/** One worker's sends are spaced: each starts an interval after the previous one finished. */
module Spacing {
  import opened Prelude
  import opened Jobs
  import opened Statements
  import opened RetryPolicy
  import opened System

  // The running instance of a worker, as the trace shows it: the end of its last send
  // (0 before the first) and its interval.
  datatype Pace = Pace(last: Instant, intervalMs: int)

  function Advance(pace: Pace, e: Event, w: nat): Pace {
    if e.WorkerStarted? && e.worker == w then Pace(0, e.intervalMs)
    else if e.SendFinished? && e.worker == w then pace.(last := e.at)
    else pace
  }

  function PaceOf(trace: seq<Event>, w: nat): Pace {
    if trace == [] then Pace(0, 0) else Advance(PaceOf(trace[..|trace| - 1], w), trace[|trace| - 1], w)
  }

  lemma PaceExtend(trace: seq<Event>, e: Event, w: nat)
    ensures PaceOf(trace + [e], w) == Advance(PaceOf(trace, w), e, w)
  {
    assert (trace + [e])[..|trace|] == trace;
  }

  // The trace knows every running worker's fields.
  ghost predicate Tracked(s: System) {
    forall w :: w in s.workers ==>
      PaceOf(s.trace, w) == Pace(s.workers[w].lastFinish, s.workers[w].config.sendIntervalMs)
  }

  // A send call that keeps its distance from the last finished send of the same instance.
  predicate Kept(e: Event, pace: Pace) {
    e.SendCalled? ==> pace.intervalMs <= 0 || pace.last == 0 || pace.last + pace.intervalMs <= e.at
  }

  ghost predicate AllSpaced(trace: seq<Event>) {
    forall q :: 0 <= q < |trace| && trace[q].SendCalled? ==> Kept(trace[q], PaceOf(trace[..q], trace[q].worker))
  }

  lemma SpacedExtend(trace: seq<Event>, e: Event)
    requires AllSpaced(trace) && (e.SendCalled? ==> Kept(e, PaceOf(trace, e.worker)))
    ensures AllSpaced(trace + [e])
  {
    var longer := trace + [e];
    forall q | 0 <= q < |longer| && longer[q].SendCalled?
      ensures Kept(longer[q], PaceOf(longer[..q], longer[q].worker))
    {
      if q < |trace| {
        assert longer[..q] == trace[..q];
      } else {
        assert longer[..q] == trace;
      }
    }
  }

  // Recording an event that neither starts a worker nor finishes a send changes nobody's pace.
  lemma RecordTracked(s: System, e: Event)
    requires Tracked(s) && AllSpaced(s.trace)
    requires !e.WorkerStarted? && !e.SendFinished?
    requires e.SendCalled? ==> Kept(e, PaceOf(s.trace, e.worker))
    ensures Tracked(Record(s, e)) && AllSpaced(Record(s, e).trace)
  {
    SpacedExtend(s.trace, e);
    forall w | w in s.workers ensures PaceOf(s.trace + [e], w) == PaceOf(s.trace, w) {
      PaceExtend(s.trace, e, w);
    }
  }

  lemma FinishedTracked(s: System, w: nat, rows: seq<Job>)
    requires Tracked(s) && AllSpaced(s.trace) && w in s.workers
    ensures var worker := s.workers[w].(hold := Idle, lastFinish := s.clock);
      var after := Record(s.(jobs := rows, workers := s.workers[w := worker]), SendFinished(w, s.clock));
      Tracked(after) && AllSpaced(after.trace)
  {
    SpacedExtend(s.trace, SendFinished(w, s.clock));
    forall v | v in s.workers
      ensures PaceOf(s.trace + [SendFinished(w, s.clock)], v) ==
        if v == w then Pace(s.clock, s.workers[w].config.sendIntervalMs) else PaceOf(s.trace, v)
    {
      PaceExtend(s.trace, SendFinished(w, s.clock), v);
    }
  }

  // Swapping the order of two bookkeeping events of one delivery does not matter to the pace.
  lemma FailureTracked(s: System, w: nat, target: Status, change: Change)
    requires Tracked(s) && AllSpaced(s.trace) && w in s.workers && s.workers[w].hold.Sending?
    requires Settles(s, s.workers[w].hold.job, target, change)
    ensures Tracked(Failure(s, w, target, change)) && AllSpaced(Failure(s, w, target, change).trace)
  {
    var j := s.workers[w].hold.job;
    RecordTracked(s, ErrorHandled(j));
    FinishedTracked(Record(s, ErrorHandled(j)), w, Settle(s, w, j, target, change, s.clock).jobs);
  }

  lemma EffectTracked(s: System, w: nat, j: nat, effect: Effect)
    requires Tracked(s) && AllSpaced(s.trace) && w in s.workers
    ensures Tracked(WithEffect(s, w, j, effect)) && AllSpaced(WithEffect(s, w, j, effect).trace)
  {
    if effect.LimitRate? {
      RecordTracked(s.(pause := Pause(Some(PausedRateLimited), Some(effect.until))), RateLimitPaused(j, effect.until));
    } else if effect.PauseForAuth? {
      RecordTracked(s.(pause := s.pause.(reason := Some(effect.reason)),
                       workers := s.workers[w := s.workers[w].(stopping := true)]), AuthPaused(j));
    }
  }

  lemma ErrorSettledTracked(s: System, w: nat, target: Status, change: Change, effect: Effect)
    requires Tracked(s) && AllSpaced(s.trace) && w in s.workers && s.workers[w].hold.Sending?
    ensures var after := ErrorSettled(s, w, target, change, effect); Tracked(after) && AllSpaced(after.trace)
  {
    if Settles(s, s.workers[w].hold.job, target, change) {
      FailureTracked(s, w, target, change);
      EffectTracked(Failure(s, w, target, change), w, s.workers[w].hold.job, effect);
    }
  }

  lemma DecisionTracked(s: System, w: nat, errorClass: ErrorClass, decision: Decision)
    requires Tracked(s) && AllSpaced(s.trace) && w in s.workers && s.workers[w].hold.Sending?
    ensures var after := ApplyDecision(s, w, errorClass, decision); Tracked(after) && AllSpaced(after.trace)
  {
    hide ErrorSettled;
    if decision.RetryAfter? {
      ErrorSettledTracked(s, w, Retry, ErrorChange(errorClass, Some(s.clock + decision.delayMs)), NoEffect);
    } else if decision.RateLimit? {
      ErrorSettledTracked(s, w, WaitingRateLimit, ErrorChange(errorClass, Some(s.clock + decision.delayMs)),
                          LimitRate(s.clock + decision.delayMs));
    } else if decision.PauseAuth? {
      ErrorSettledTracked(s, w, Retry, ErrorChange(errorClass, Some(s.clock + decision.delayMs)),
                          PauseForAuth(ClassPause(errorClass)));
    } else {
      var blocked := if BlocksDestination(errorClass) then Blocked(s, s.workers[w].hold.claimed.destination) else s;
      ErrorSettledTracked(blocked, w, Failed, ErrorChange(errorClass, None), NoEffect);
    }
  }

  lemma AcceptedTracked(s: System, w: nat, target: Status, remote: RemoteId, jitter: real)
    requires Tracked(s) && AllSpaced(s.trace) && w in s.workers && s.workers[w].hold.Sending?
    ensures var after := ApplyAccepted(s, w, target, remote, jitter); Tracked(after) && AllSpaced(after.trace)
  {
    hide ApplyDecision;
    var j := s.workers[w].hold.job;
    var noted := Record(s, DeliveryAccepted(j));
    var change := Change(Some(remote), None, None);
    RecordTracked(s, DeliveryAccepted(j));
    if Settles(noted, j, target, change) {
      FinishedTracked(noted, w, Settle(noted, w, j, target, change, s.clock).jobs);
    } else {
      DecisionTracked(noted, w, UnknownTransient, WorkerDecision(s.workers[w], UnknownTransient, None, jitter));
    }
  }

  lemma FinishTracked(s: System, w: nat, outcome: Outcome, jitter: real)
    requires Tracked(s) && AllSpaced(s.trace)
    ensures var after := ApplyFinishSend(s, w, outcome, jitter); Tracked(after) && AllSpaced(after.trace)
  {
    hide ApplyDecision, ApplyAccepted;
    if w in s.workers && s.workers[w].hold.Sending? {
      var worker := s.workers[w];
      if !ViaLive(worker, worker.hold.claimed) {
        AcceptedTracked(s, w, DryRun, Simulated, jitter);
      } else if outcome.Rejected? {
        var errorClass := TransportClass(worker.hold.claimed, outcome.errorClass);
        DecisionTracked(s, w, errorClass, WorkerDecision(worker, errorClass, outcome.retryAfterMs, jitter));
      } else {
        AcceptedTracked(s, w, Sent, RemoteMessage(outcome.number), jitter);
      }
    }
  }

  lemma StartTracked(s: System, w: nat, starter: Worker, rows: seq<Job>, helped: set<nat>)
    requires Tracked(s) && AllSpaced(s.trace) && w !in s.workers && starter.lastFinish == 0
    ensures var after := Record(s.(jobs := rows, workers := s.workers[w := starter], helped := helped),
                                WorkerStarted(w, starter.config.sendIntervalMs));
      Tracked(after) && AllSpaced(after.trace)
  {
    var ms := starter.config.sendIntervalMs;
    var e := WorkerStarted(w, ms);
    SpacedExtend(s.trace, e);
    forall v | v in s.workers || v == w
      ensures PaceOf(s.trace + [e], v) == if v == w then Pace(0, ms) else PaceOf(s.trace, v)
    {
      PaceExtend(s.trace, e, v);
    }
  }

  lemma WorkerStepTracked(s: System, step: Step)
    requires Tracked(s) && AllSpaced(s.trace)
    requires step.Claim? || step.PutBack? || step.BeginSend? || step.StartDaemon? || step.StartHelper?
    ensures Tracked(Apply(s, step)) && AllSpaced(Apply(s, step).trace)
  {
    if step.StartDaemon? {
      if 0 !in s.workers { StartTracked(s, 0, FreshDaemon(step.config), Recovered(s.jobs), s.helped); }
    } else if step.StartHelper? {
      if CanHelp(s, step.job, step.config) {
        var helper := Worker(step.config, false, 0, Idle, Ready);
        StartTracked(s, step.job + 1, helper, s.jobs, s.helped + {step.job});
      }
    } else if step.Claim? {
      ClaimTracked(s, step.worker, step.now);
    } else if step.PutBack? {
      PutBackTracked(s, step.worker);
    } else {
      BeginSendTracked(s, step.worker, step.mediaExists);
    }
  }

  lemma ClaimTracked(s: System, w: nat, now: Instant)
    requires Tracked(s) && AllSpaced(s.trace)
    ensures Tracked(ApplyClaim(s, w, now)) && AllSpaced(ApplyClaim(s, w, now).trace)
  {
    if CanClaim(s, w, now) && ClaimChoice(s, w, now).Some? {
      var j := ClaimChoice(s, w, now).value;
      RecordTracked(s, Claimed(w, j, now));
    }
  }

  lemma PutBackTracked(s: System, w: nat)
    requires Tracked(s) && AllSpaced(s.trace)
    ensures Tracked(ApplyPutBack(s, w)) && AllSpaced(ApplyPutBack(s, w).trace)
  {
    if w in s.workers && s.workers[w].hold.Pacing? {
      RecordTracked(s, PutBackUnsent(s.workers[w].hold.job));
    }
  }

  // A hold that ends unsent leaves the pace alone.
  lemma UnsentTracked(s: System, w: nat, j: nat, target: Status, change: Change)
    requires Tracked(s) && AllSpaced(s.trace) && w in s.workers
    ensures var after := Settle(s, w, j, target, change, s.workers[w].lastFinish);
      Tracked(after) && AllSpaced(after.trace)
  {
    hide Transition;
  }

  lemma BeginSendTracked(s: System, w: nat, mediaExists: bool)
    requires Tracked(s) && AllSpaced(s.trace)
    ensures Tracked(ApplyBeginSend(s, w, mediaExists)) && AllSpaced(ApplyBeginSend(s, w, mediaExists).trace)
  {
    hide Settle;
    if w in s.workers && s.workers[w].hold.Pacing? && Paced(s.workers[w], s.clock) {
      var worker := s.workers[w];
      UnsentTracked(s, w, worker.hold.job, Failed, ErrorChange(DestinationError, None));
      UnsentTracked(s, w, worker.hold.job, Failed, ErrorChange(MediaError, None));
      RecordTracked(s, SendCalled(w, worker.hold.job, ViaLive(worker, worker.hold.claimed), s.clock));
    }
  }

  lemma QuietStepTracked(s: System, step: Step)
    requires Tracked(s) && AllSpaced(s.trace)
    requires step.Create? || step.OperatorRetry? || step.OperatorMarkSent?
    ensures Tracked(Apply(s, step)) && AllSpaced(Apply(s, step).trace)
  {
    if step.Create? {
      RecordTracked(s, Created(|s.jobs|));
    } else if step.OperatorRetry? {
      RecordTracked(s, ManuallyRetried(step.job));
    } else {
      RecordTracked(s, ManuallyMarkedSent(step.job));
    }
  }

  lemma StepTracked(s: System, step: Step)
    requires Tracked(s) && AllSpaced(s.trace)
    ensures Tracked(Apply(s, step)) && AllSpaced(Apply(s, step).trace)
  {
    if step.Claim? || step.PutBack? || step.BeginSend? || step.StartDaemon? || step.StartHelper? {
      WorkerStepTracked(s, step);
    } else if step.FinishSend? {
      FinishTracked(s, step.worker, step.outcome, step.jitter);
    } else if step.Create? || step.OperatorRetry? || step.OperatorMarkSent? {
      QuietStepTracked(s, step);
    } else {
      assert Apply(s, step).trace == s.trace;
    }
  }

  lemma {:induction false} RunTracked(s: System, steps: seq<Step>)
    requires Tracked(s) && AllSpaced(s.trace)
    ensures Tracked(Run(s, steps)) && AllSpaced(Run(s, steps).trace)
  {
    if steps != [] {
      RunTracked(s, steps[..|steps| - 1]);
      StepTracked(Run(s, steps[..|steps| - 1]), steps[|steps| - 1]);
    }
  }

  // An event after which the pace of w is known to be (at, intervalMs) until something else
  // happens to w.
  lemma {:induction false} PaceStays(trace: seq<Event>, w: nat, p: nat, q: nat, at: Instant)
    requires p < q <= |trace| && trace[p] == SendFinished(w, at)
    requires forall r :: p < r < q ==>
      !(trace[r].WorkerStarted? && trace[r].worker == w) && !(trace[r].SendFinished? && trace[r].worker == w)
    ensures PaceOf(trace[..q], w).last == at
  {
    assert trace[..q][..q - 1] == trace[..q - 1];
    if p < q - 1 {
      PaceStays(trace, w, p, q - 1, at);
    }
  }

  // On every run: a worker's send call comes at least its interval after its previous send
  // finished, however many of its claims ended without a send in between.
  lemma SendsAreSpaced(s: System, steps: seq<Step>, w: nat, p: nat, q: nat)
    requires Initial(s) && p < q < |Run(s, steps).trace|
    requires var trace := Run(s, steps).trace;
      && trace[p].SendFinished? && trace[p].worker == w && trace[p].at != 0
      && trace[q].SendCalled? && trace[q].worker == w
      && forall r :: p < r < q ==>
           !(trace[r].WorkerStarted? && trace[r].worker == w) && !(trace[r].SendFinished? && trace[r].worker == w)
    ensures var trace := Run(s, steps).trace;
      var intervalMs := PaceOf(trace[..q], w).intervalMs;
      intervalMs <= 0 || trace[p].at + intervalMs <= trace[q].at
  {
    var trace := Run(s, steps).trace;
    RunTracked(s, steps);
    PaceStays(trace, w, p, q, trace[p].at);
    assert Kept(trace[q], PaceOf(trace[..q], w));
  }
}
