/** Denied, unsendable or failed destinations: nothing queued for them is ever sent again. */
module Denial {
  import opened Prelude
  import opened Jobs
  import opened Statements
  import opened RetryPolicy
  import opened System
  import opened Invariants
  import opened History
  import opened Delivery
  import opened Scenarios
  import opened Resend

  // In every sound state, whatever the step: a send call goes out only while the job's
  // destination is enabled and sendable, even if it was denied while the worker was pacing.
  lemma SendsOnlyWhileAllowed(s: System, step: Step, i: nat)
    requires Sound(s) && |s.trace| <= i < |Apply(s, step).trace| && Apply(s, step).trace[i].SendCalled?
    ensures var j := Apply(s, step).trace[i].job;
      && step.BeginSend? && j < |s.jobs| && Sendable(s.dests, s.jobs[j].destination)
      && HoldOk(s.jobs, s.workers[step.worker])
  {
    var e := Apply(s, step).trace[i];
    NoOtherSends(s, step, i);
    assert HoldOk(s.jobs, s.workers[step.worker]);
  }

  lemma DecisionSendsNothing(s: System, w: nat, errorClass: ErrorClass, decision: Decision, i: nat)
    requires w in s.workers && s.workers[w].hold.Sending?
    requires |s.trace| <= i < |ApplyDecision(s, w, errorClass, decision).trace|
    ensures s.trace <= ApplyDecision(s, w, errorClass, decision).trace
    ensures !ApplyDecision(s, w, errorClass, decision).trace[i].SendCalled?
  {
  }

  lemma FinishSendsNothing(s: System, w: nat, outcome: Outcome, jitter: real, i: nat)
    requires |s.trace| <= i < |ApplyFinishSend(s, w, outcome, jitter).trace|
    ensures !ApplyFinishSend(s, w, outcome, jitter).trace[i].SendCalled?
  {
    var worker := s.workers[w];
    var noted := Record(s, DeliveryAccepted(worker.hold.job));
    var after := ApplyFinishSend(s, w, outcome, jitter);
    var rejected := ViaLive(worker, worker.hold.claimed) && outcome.Rejected?;
    if rejected {
      var errorClass := TransportClass(worker.hold.claimed, outcome.errorClass);
      DecisionSendsNothing(s, w, errorClass, WorkerDecision(worker, errorClass, outcome.retryAfterMs, jitter), i);
    } else if |s.trace| < i {
      var decision := WorkerDecision(worker, UnknownTransient, None, jitter);
      if i < |ApplyDecision(noted, w, UnknownTransient, decision).trace| {
        DecisionSendsNothing(noted, w, UnknownTransient, decision, i);
      }
    } else {
      var decision := WorkerDecision(worker, UnknownTransient, None, jitter);
      DecisionExtends(noted, w, UnknownTransient, decision, 0);
      assert after.trace[i] == DeliveryAccepted(worker.hold.job);
    }
  }

  lemma NoOtherSends(s: System, step: Step, i: nat)
    requires |s.trace| <= i < |Apply(s, step).trace| && Apply(s, step).trace[i].SendCalled?
    ensures step.BeginSend? && step.worker in s.workers && s.workers[step.worker].hold.Pacing?
    ensures !s.workers[step.worker].stopping
    ensures Apply(s, step).trace[i].job == s.workers[step.worker].hold.job
    ensures Sendable(s.dests, s.workers[step.worker].hold.claimed.destination)
  {
    match step
    case FinishSend(w, outcome, jitter) =>
      if 0.0 <= jitter < 1.0 && w in s.workers && s.workers[w].hold.Sending? {
        FinishSendsNothing(s, w, outcome, jitter, i);
      }
    case _ =>
  }

  // ----- A cancelled job is sent exactly when a worker is about to send it -----

  // A worker is pacing before it sends j, and nobody has asked it to stop.
  predicate PacesFor(worker: Worker, j: nat) {
    worker.hold.Pacing? && worker.hold.job == j && !worker.stopping
  }

  ghost predicate PacedBySomebody(s: System, j: nat) {
    exists w: nat :: w in s.workers && PacesFor(s.workers[w], j)
  }

  ghost predicate SentSince(s: System, after: System, j: nat) {
    exists i :: |s.trace| <= i < |after.trace| && after.trace[i].SendCalled? && after.trace[i].job == j
  }

  // A job nobody paces for is not sent by a step that does not claim it, and nobody paces for it then.
  lemma NobodyPacesNow(s: System, step: Step, j: nat)
    requires Sound(s) && j < |s.jobs| && !PacedBySomebody(s, j) && !(step.Claim? && Touches(s, step, j))
    ensures !PacedBySomebody(Apply(s, step), j) && !SentSince(s, Apply(s, step), j)
  {
    var after := Apply(s, step);
    hide Apply, Sound, TallyOf;
    forall w: nat | w in after.workers ensures !PacesFor(after.workers[w], j) {
      if Touches(s, step, j) {
        TouchedNotPacing(s, step, j, w);
      } else {
        HoldsOnlyByClaim(s, step, w, j);
        assert w in s.workers ==> !PacesFor(s.workers[w], j);
      }
    }
    forall i | |s.trace| <= i < |after.trace| ensures !(after.trace[i].SendCalled? && after.trace[i].job == j) {
      if after.trace[i].SendCalled? {
        NoOtherSends(s, step, i);
        assert !PacesFor(s.workers[step.worker], j);
      }
    }
  }

  lemma CancelledStaysUnclaimed(s: System, step: Step, j: nat)
    requires Sound(s) && j < |s.jobs| && s.jobs[j].status.Cancelled? && !PacedBySomebody(s, j)
    ensures j < |Apply(s, step).jobs| && Apply(s, step).jobs[j] == s.jobs[j] && !PacedBySomebody(Apply(s, step), j)
    ensures !SentSince(s, Apply(s, step), j)
  {
    StepGood(s, step);
    assert Follows(s.jobs[j], Apply(s, step).jobs[j]);
    NobodyPacesNow(s, step, j);
  }

  lemma TouchedNotPacing(s: System, step: Step, j: nat, w: nat)
    requires Sound(s) && j < |s.jobs| && !PacedBySomebody(s, j)
    requires Touches(s, step, j) && !step.Claim? && w in Apply(s, step).workers
    ensures !PacesFor(Apply(s, step).workers[w], j)
  {
    assert forall v: nat :: v in s.workers ==> !PacesFor(s.workers[v], j);
    if step.FinishSend? && s.workers[step.worker].hold.Sending? {
      FinishKeepsOthers(s, step.worker, step.outcome, step.jitter);
    }
  }

  lemma {:induction false} CancelledNeverSent(s: System, steps: seq<Step>, j: nat)
    requires Sound(s) && j < |s.jobs| && s.jobs[j].status.Cancelled? && !PacedBySomebody(s, j)
    ensures var after := Run(s, steps);
      && Sound(after) && j < |after.jobs| && after.jobs[j].status.Cancelled? && !PacedBySomebody(after, j)
      && s.trace <= after.trace && !SentSince(s, after, j)
  {
    if steps != [] {
      var n := |steps| - 1;
      var before := Run(s, steps[..n]);
      CancelledNeverSent(s, steps[..n], j);
      StepGood(before, steps[n]);
      CancelledStaysUnclaimed(before, steps[n], j);
      StepExtends(before, steps[n], j);
      NothingSent(s.trace, before.trace, Run(s, steps).trace, j);
    }
  }

  lemma NothingSent(start: seq<Event>, mid: seq<Event>, end: seq<Event>, j: nat)
    requires start <= mid <= end
    requires forall i :: |start| <= i < |mid| ==> !(mid[i].SendCalled? && mid[i].job == j)
    requires forall i :: |mid| <= i < |end| ==> !(end[i].SendCalled? && end[i].job == j)
    ensures forall i :: |start| <= i < |end| ==> !(end[i].SendCalled? && end[i].job == j)
  {
    forall i | |start| <= i < |mid| ensures end[i] == mid[i] {
    }
  }

  // Allow the group again, wait, and the worker sends what it holds.
  function SendAfterAll(s: System, w: nat, j: nat): seq<Step>
    requires j < |s.jobs| && w in s.workers
  {
    MakeWay(s, w, j) + [BeginSend(w, true)]
  }

  lemma PacingWorkerSends(s: System, w: nat, j: nat)
    requires Sound(s) && j < |s.jobs| && w in s.workers && PacesFor(s.workers[w], j)
    ensures SentSince(s, Run(s, SendAfterAll(s, w, j)), j)
  {
    MakeWayWorks(s, w, j);
    assert HoldOk(s.jobs, s.workers[w]);
    var ready := Run(s, MakeWay(s, w, j));
    RunExtend(s, MakeWay(s, w, j), BeginSend(w, true));
    SendsWhenReady(ready, w, j);
    var after := Run(s, SendAfterAll(s, w, j));
    assert after.trace[|s.trace|].SendCalled?;
  }

  lemma SendsWhenReady(s: System, w: nat, j: nat)
    requires w in s.workers && PacesFor(s.workers[w], j) && Paced(s.workers[w], s.clock)
    requires Sendable(s.dests, s.workers[w].hold.claimed.destination)
    ensures var after := Apply(s, BeginSend(w, true));
      && |after.trace| == |s.trace| + 1
      && after.trace[|s.trace|].SendCalled? && after.trace[|s.trace|].job == j
  {
  }

  // Once cancelled, a job is sent in some later run exactly when a worker that has not been asked
  // to stop is pacing for it.
  lemma CancelledIsSentExactlyWhenPaced(s: System, j: nat)
    requires Sound(s) && j < |s.jobs| && s.jobs[j].status.Cancelled?
    ensures (exists later :: SentSince(s, Run(s, later), j)) <==> PacedBySomebody(s, j)
  {
    hide SentSince, Run;
    if PacedBySomebody(s, j) {
      var w: nat :| w in s.workers && PacesFor(s.workers[w], j);
      PacingWorkerSends(s, w, j);
      assert SentSince(s, Run(s, SendAfterAll(s, w, j)), j);
    } else {
      forall later: seq<Step> ensures !SentSince(s, Run(s, later), j) {
        CancelledNeverSent(s, later, j);
      }
    }
  }

  // ----- A job that is queued although its group is out of use -----

  // A manual retry does not look at the group, so such a job can come about; nobody paces for it.
  ghost predicate HeldBack(s: System, j: nat) {
    && j < |s.jobs| && s.jobs[j].status in {Pending, Scheduled, Retry, WaitingRateLimit}
    && OutOfUse(s, s.jobs[j].destination) && !PacedBySomebody(s, j)
  }

  predicate OutOfUse(s: System, jid: Jid) {
    jid in s.dests && (!s.dests[jid].enabled || !s.dests[jid].canSend)
  }

  // After the bulk cancel no queued row belongs to a known group that is out of use, and what it
  // cancelled were exactly such rows.
  lemma PassLeavesNoneHeldBack(s: System, j: nat)
    requires j < |s.jobs|
    ensures var row, after := s.jobs[j], Apply(s, CancelDisabled);
      && after.dests == s.dests && |after.jobs| == |s.jobs|
      && (row.status in {Pending, Scheduled, Retry, WaitingRateLimit} && OutOfUse(s, row.destination) <==>
            after.jobs[j] != row)
      && (after.jobs[j] != row ==>
            after.jobs[j] == row.(status := Cancelled, lastError := Some(Delivery(DestinationError))))
      && !(after.jobs[j].status in {Pending, Scheduled, Retry, WaitingRateLimit}
           && OutOfUse(after, after.jobs[j].destination))
  {
  }

  // The group is out of use in every state of the run, from its beginning to its end.
  ghost predicate OutOfUseThroughout(s: System, steps: seq<Step>, jid: Jid) {
    forall n :: 0 <= n <= |steps| ==> OutOfUse(Run(s, steps[..n]), jid)
  }

  // Until then it is not claimed.
  lemma HeldBackNotClaimed(s: System, step: Step, j: nat)
    requires Sound(s) && HeldBack(s, j)
    ensures var after := Apply(s, step);
      && j < |after.jobs| && after.jobs[j].destination == s.jobs[j].destination
      && (Unsent(after.jobs[j].status) || after.jobs[j].status.Cancelled?)
  {
    StepGood(s, step);
    assert Follows(s.jobs[j], Apply(s, step).jobs[j]);
    if Touches(s, step, j) {
      HeldRowStays(s, step, j);
    } else {
      UntouchedMeanwhile(s, step, j);
      hide Apply, TallyOf;
    }
  }

  lemma HeldRowStays(s: System, step: Step, j: nat)
    requires Sound(s) && HeldBack(s, j) && Touches(s, step, j)
    requires j < |Apply(s, step).jobs| && Follows(s.jobs[j], Apply(s, step).jobs[j])
    ensures !Apply(s, step).jobs[j].status.Processing?
  {
    if step.FinishSend? {
      HeldFinish(s, step.worker, step.outcome, step.jitter, j);
    }
  }

  lemma HeldFinish(s: System, w: nat, outcome: Outcome, jitter: real, j: nat)
    requires Sound(s) && HeldBack(s, j) && Holds(s, w, j)
    ensures j < |ApplyFinishSend(s, w, outcome, jitter).jobs|
    ensures !ApplyFinishSend(s, w, outcome, jitter).jobs[j].status.Processing?
  {
    if s.workers[w].hold.Sending? {
      var noted := Record(s, DeliveryAccepted(j));
      var worker := s.workers[w];
      HeldDecision(noted, w, UnknownTransient, WorkerDecision(worker, UnknownTransient, None, jitter), j);
      if outcome.Rejected? {
        var errorClass := TransportClass(worker.hold.claimed, outcome.errorClass);
        HeldDecision(s, w, errorClass, WorkerDecision(worker, errorClass, outcome.retryAfterMs, jitter), j);
      }
      hide ApplyDecision, Sound, HeldBack;
    }
  }

  // One step of the time before the pass, if the group is still out of use after it.
  lemma HeldBackStays(s: System, step: Step, j: nat)
    requires Sound(s) && HeldBack(s, j) && OutOfUse(Apply(s, step), s.jobs[j].destination)
    ensures Sound(Apply(s, step)) && j < |Apply(s, step).jobs| && !SentSince(s, Apply(s, step), j)
    ensures Apply(s, step).jobs[j].destination == s.jobs[j].destination
    ensures HeldBack(Apply(s, step), j)
      || (Apply(s, step).jobs[j].status.Cancelled? && !PacedBySomebody(Apply(s, step), j))
  {
    StepGood(s, step);
    HeldBackNotClaimed(s, step, j);
    assert !(step.Claim? && Touches(s, step, j)) by { HeldBackNotChosen(s, step, j); }
    NobodyPacesNow(s, step, j);
    hide Apply, Sound, PacedBySomebody, SentSince;
  }

  lemma HeldBackNotChosen(s: System, step: Step, j: nat)
    requires HeldBack(s, j)
    ensures !(step.Claim? && Touches(s, step, j))
  {
  }

  lemma {:induction false} HeldBackUntilPass(s: System, steps: seq<Step>, j: nat)
    requires Sound(s) && HeldBack(s, j) && OutOfUseThroughout(s, steps, s.jobs[j].destination)
    ensures var after := Run(s, steps);
      && Sound(after) && j < |after.jobs| && after.jobs[j].destination == s.jobs[j].destination
      && s.trace <= after.trace && !SentSince(s, after, j)
      && (HeldBack(after, j) || (after.jobs[j].status.Cancelled? && !PacedBySomebody(after, j)))
  {
    if steps != [] {
      var n := |steps| - 1;
      var before := Run(s, steps[..n]);
      assert forall k :: 0 <= k <= n ==> steps[..n][..k] == steps[..k];
      HeldBackUntilPass(s, steps[..n], j);
      assert steps[..|steps|] == steps;
      if HeldBack(before, j) {
        HeldBackStays(before, steps[n], j);
      } else {
        StepGood(before, steps[n]);
        CancelledStaysUnclaimed(before, steps[n], j);
      }
      StepExtends(before, steps[n], j);
      NothingSent(s.trace, before.trace, Run(s, steps).trace, j);
      hide Apply, Sound, HeldBack, PacedBySomebody, OutOfUse;
    }
  }

  // A job put back by an operator's retry although its group is denied is never sent, from the retry
  // on, once a worker has passed while the group was still denied: not even if it is allowed again.
  lemma RetriedUnderDenialNeverSent(s: System, before: seq<Step>, later: seq<Step>, j: nat)
    requires Sound(s) && HeldBack(s, j) && OutOfUseThroughout(s, before, s.jobs[j].destination)
    ensures var end := Run(s, before + [CancelDisabled] + later);
      && j < |end.jobs| && end.jobs[j].status.Cancelled? && s.trace <= end.trace && !SentSince(s, end, j)
  {
    var waited := Run(s, before);
    var passed := Apply(waited, CancelDisabled);
    HeldBackUntilPass(s, before, j);
    PassLeavesNoneHeldBack(waited, j);
    PassTakesNothing(waited, j);
    StepGood(waited, CancelDisabled);
    RunExtend(s, before, CancelDisabled);
    RunConcat(s, before + [CancelDisabled], later);
    hide Apply, Run, Sound;
    assert passed.jobs[j].status.Cancelled?;
    CancelledNeverSent(passed, later, j);
    NothingSent(s.trace, passed.trace, Run(passed, later).trace, j);
  }

  lemma PassTakesNothing(s: System, j: nat)
    ensures var after := Apply(s, CancelDisabled);
      after.trace == s.trace && after.workers == s.workers && (PacedBySomebody(after, j) <==> PacedBySomebody(s, j))
  {
  }

  // The retry of a job whose group is out of use leaves it held back, unless a worker paces for it.
  lemma RetryUnderDenial(s: System, j: nat)
    requires Sound(s) && j < |s.jobs| && ManualRetry(s.jobs, j, s.clock).Ok?
    requires OutOfUse(s, s.jobs[j].destination) && !PacedBySomebody(s, j)
    ensures HeldBack(Apply(s, OperatorRetry(j)), j)
  {
    var after := Apply(s, OperatorRetry(j));
    assert after.workers == s.workers;
  }

  lemma HeldDecision(s: System, w: nat, errorClass: ErrorClass, decision: Decision, j: nat)
    requires w in s.workers && s.workers[w].hold.Sending? && s.workers[w].hold.job == j < |s.jobs|
    requires Unsent(s.jobs[j].status)
    ensures j < |ApplyDecision(s, w, errorClass, decision).jobs|
    ensures !ApplyDecision(s, w, errorClass, decision).jobs[j].status.Processing?
  {
  }

  // ----- Which jobs a denial, a refresh or a permission failure cancels -----

  predicate PermissionFailure(s: System, step: Step, jid: Jid) {
    && step.FinishSend? && 0.0 <= step.jitter < 1.0
    && step.worker in s.workers && s.workers[step.worker].hold.Sending?
    && ViaLive(s.workers[step.worker], s.workers[step.worker].hold.claimed)
    && s.workers[step.worker].hold.claimed.destination == jid
    && s.workers[step.worker].hold.claimed.forwardSource.None?
    && step.outcome.Rejected?
    && BlocksDestination(step.outcome.errorClass)
  }

  // The step takes permission away from a known destination.
  predicate Denies(s: System, step: Step, jid: Jid) {
    && jid in s.dests
    && (|| step == SetEnabled(jid, false)
        || (step.Refresh? && var dests := UpsertAll(s.dests, step.items);
            jid in dests && !dests[jid].canSend)
        || PermissionFailure(s, step, jid))
  }

  lemma {:induction false} UpsertKeepsKnown(dests: Destinations, items: seq<Discovered>, jid: Jid)
    requires jid in dests
    ensures jid in UpsertAll(dests, items)
    ensures UpsertAll(dests, items)[jid].enabled == dests[jid].enabled
    ensures UpsertAll(dests, items)[jid].alias == dests[jid].alias
  {
    if items != [] {
      UpsertKeepsKnown(dests, items[..|items| - 1], jid);
    }
  }

  // Every queued job of the destination is cancelled, and the destination itself is blocked.
  lemma DenialCancelsQueued(s: System, step: Step, jid: Jid, j: nat)
    requires Sound(s) && Denies(s, step, jid)
    requires j < |s.jobs| && s.jobs[j].destination == jid && Unsent(s.jobs[j].status)
    ensures j < |Apply(s, step).jobs| && Apply(s, step).jobs[j].status.Cancelled?
    ensures !Sendable(Apply(s, step).dests, jid)
  {
    if PermissionFailure(s, step, jid) {
      FailureCancelsQueued(s, step, jid, j);
    }
  }

  lemma FailureSettles(s: System, step: Step, jid: Jid)
    requires PermissionFailure(s, step, jid)
    ensures Apply(s, step)
         == ErrorSettled(Blocked(s, jid), step.worker, Failed, ErrorChange(step.outcome.errorClass, None), NoEffect)
  {
    hide Blocked, ErrorSettled;
  }

  lemma FailureCancelsQueued(s: System, step: Step, jid: Jid, j: nat)
    requires Sound(s) && Denies(s, step, jid) && PermissionFailure(s, step, jid)
    requires j < |s.jobs| && s.jobs[j].destination == jid && Unsent(s.jobs[j].status)
    ensures j < |Apply(s, step).jobs| && Apply(s, step).jobs[j].status.Cancelled?
    ensures !Sendable(Apply(s, step).dests, jid)
  {
    hide TallyOf, ApplyFinishSend;
    var w := step.worker;
    var blocked := Blocked(s, jid);
    var change := ErrorChange(step.outcome.errorClass, None);
    FailureSettles(s, step, jid);
    if s.workers[w].hold.job == j {
      assert !Settles(blocked, j, Failed, change);
    } else {
      ErrorSettledElsewhere(blocked, w, Failed, change, NoEffect, j);
    }
  }

  // A denial disturbs no worker that is pacing.
  lemma DenialKeepsPacing(s: System, step: Step, jid: Jid, j: nat)
    requires Sound(s) && Denies(s, step, jid)
    ensures PacedBySomebody(Apply(s, step), j) == PacedBySomebody(s, j)
  {
    hide ApplyFinishSend, Sound;
    var after := Apply(s, step);
    if step.FinishSend? {
      FinishKeepsOthers(s, step.worker, step.outcome, step.jitter);
    }
    forall w: nat ensures
      (w in after.workers && PacesFor(after.workers[w], j)) <==> (w in s.workers && PacesFor(s.workers[w], j))
    {
    }
  }

  // A denial leaves the rows of every other destination exactly as they are.
  lemma DenialSparesOthers(s: System, jid: Jid, j: nat)
    requires j < |s.jobs| && s.jobs[j].destination != jid
    ensures ApplySetEnabled(s, jid, false).jobs[j] == s.jobs[j]
    ensures Blocked(s, jid).jobs[j] == s.jobs[j]
    ensures forall other :: other in s.dests && other != jid ==>
      && other in ApplySetEnabled(s, jid, false).dests && ApplySetEnabled(s, jid, false).dests[other] == s.dests[other]
      && other in Blocked(s, jid).dests && Blocked(s, jid).dests[other] == s.dests[other]
  {
  }

  // A job of any kind that is queued when its destination is denied, found unsendable or fails for
  // permission is sent in some later run exactly when a worker was pacing for it at that moment.
  lemma DeniedJobSentExactlyWhenPaced(s: System, step: Step, jid: Jid, j: nat)
    requires Sound(s) && Denies(s, step, jid)
    requires j < |s.jobs| && s.jobs[j].destination == jid && Unsent(s.jobs[j].status)
    ensures (exists later :: SentSince(Apply(s, step), Run(Apply(s, step), later), j)) <==> PacedBySomebody(s, j)
  {
    DenialCancelsQueued(s, step, jid, j);
    DenialKeepsPacing(s, step, jid, j);
    StepGood(s, step);
    CancelledIsSentExactlyWhenPaced(Apply(s, step), j);
  }

  // So after a careful run a denied live job is never sent, even if it is allowed again.
  lemma DeniedJobNeverSent(start: System, prior: seq<Step>, step: Step, later: seq<Step>, jid: Jid, j: nat)
    requires Initial(start) && CarefulRun(start, prior)
    requires var s := Run(start, prior);
      LiveJob(s, j) && s.jobs[j].destination == jid && Unsent(s.jobs[j].status) && Denies(s, step, jid)
    ensures var denied := Apply(Run(start, prior), step); !SentSince(denied, Run(denied, later), j)
  {
    var s := Run(start, prior);
    CarefulRunGuarded(start, prior, j);
    forall w: nat | w in s.workers ensures !PacesFor(s.workers[w], j) {
      if Holds(s, w, j) {
        DaemonDelivers(s, w, j);
      }
    }
    DeniedJobSentExactlyWhenPaced(s, step, jid, j);
  }

  const DENY := SetEnabled(GROUP, false)

  // The input on which it fails: the daemon claims the job, an operator retries it, and the group
  // is denied and allowed again before the daemon sends.
  const CLAIM_AND_RETRY := [Claim(0, 1), OperatorRetry(0)]

  lemma DeniedJobSentAfterAll()
    ensures var s := Run(Beginning(1), FirstSteps(Message(1, Pending)) + CLAIM_AND_RETRY);
      && Initial(Beginning(1)) && 0 < |s.jobs| && Unsent(s.jobs[0].status) && Denies(s, DENY, GROUP)
      && SentSince(Apply(s, DENY), Run(Apply(s, DENY), [SetEnabled(GROUP, true), BeginSend(0, true)]), 0)
  {
    var job := Message(1, Pending);
    var started := StartedOne(1, job);
    var claimed := Apply(started, Claim(0, 1));
    var s := Apply(claimed, OperatorRetry(0));
    DaemonStarted(1, job);
    ClaimedOne(1, job);
    RunConcat(Beginning(1), FirstSteps(job), CLAIM_AND_RETRY);
    TwoSteps(started, Claim(0, 1), OperatorRetry(0), claimed, s);
    RunSound(Beginning(1), FirstSteps(job));
    StepGood(started, Claim(0, 1));
    RetryTakesEffect(claimed, 0);
    hide Apply, Run, Sound;
    RetriedIsSent(claimed, s);
  }

  lemma RetriedIsSent(claimed: System, s: System)
    requires 0 < |claimed.jobs| && 0 in claimed.workers && PacesFor(claimed.workers[0], 0)
    requires Paced(claimed.workers[0], claimed.clock) && Sendable(claimed.dests, GROUP)
    requires claimed.jobs[0].destination == GROUP && claimed.workers[0].hold.claimed.destination == GROUP
    requires s == Record(
                    claimed.(jobs := claimed.jobs[0 := RetryRow(claimed.jobs[0], claimed.clock)]), ManuallyRetried(0))
    ensures Unsent(s.jobs[0].status) && s.jobs[0].destination == GROUP && Denies(s, DENY, GROUP)
    ensures SentSince(Apply(s, DENY), Run(Apply(s, DENY), [SetEnabled(GROUP, true), BeginSend(0, true)]), 0)
  {
    var denied := Apply(s, DENY);
    var allowed := Apply(denied, SetEnabled(GROUP, true));
    var sent := Apply(allowed, BeginSend(0, true));
    TwoSteps(denied, SetEnabled(GROUP, true), BeginSend(0, true), allowed, sent);
    SendsWhenReady(allowed, 0, 0);
    assert sent.trace[|denied.trace|].SendCalled?;
  }

  // A failed forward never blocks its destination: the transport reports it as a bad payload.
  lemma ForwardNeverBlocks(s: System, w: nat, outcome: Outcome, jitter: real)
    requires w in s.workers && s.workers[w].hold.Sending? && s.workers[w].hold.claimed.forwardSource.Some?
    ensures ApplyFinishSend(s, w, outcome, jitter).dests == s.dests
  {
    var worker := s.workers[w];
    var noted := Record(s, DeliveryAccepted(worker.hold.job));
    DecisionKeepsDests(noted, w, UnknownTransient, WorkerDecision(worker, UnknownTransient, None, jitter));
    if outcome.Rejected? {
      var errorClass := TransportClass(worker.hold.claimed, outcome.errorClass);
      DecisionKeepsDests(s, w, errorClass, WorkerDecision(worker, errorClass, outcome.retryAfterMs, jitter));
    }
  }

  lemma DecisionKeepsDests(s: System, w: nat, errorClass: ErrorClass, decision: Decision)
    requires w in s.workers && s.workers[w].hold.Sending?
    requires !BlocksDestination(errorClass)
    ensures ApplyDecision(s, w, errorClass, decision).dests == s.dests
  {
  }
}
