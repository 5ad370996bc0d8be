/** Dry-run and live work never mix, on runs with live and dry-run workers side by side. */
module Separation {
  import opened Prelude
  import opened Jobs
  import opened System
  import opened Invariants
  import opened History
  import opened Denial
  import Resend

  // Every send call recorded as live was of a live job, made by the daemon.
  ghost predicate LiveSendsAreLive(trace: seq<Event>, jobs: seq<Job>) {
    forall i :: 0 <= i < |trace| && trace[i].SendCalled? && trace[i].live ==>
      trace[i].worker == 0 && trace[i].job < |jobs| && !jobs[trace[i].job].dryRun
  }

  // A worker in dry-run mode claims dry-run jobs only; helpers are always in dry-run mode.
  lemma ClaimsRespectMode(s: System, w: nat, now: Instant, j: nat)
    requires Sound(s) && j < |s.jobs| && Touches(s, Claim(w, now), j)
    ensures s.workers[w].config.dryRun ==> s.jobs[j].dryRun
    ensures !s.jobs[j].dryRun ==> w == 0 && !s.workers[0].config.dryRun
  {
  }

  lemma StepKeepsLiveSends(s: System, step: Step)
    requires Sound(s) && LiveSendsAreLive(s.trace, s.jobs)
    ensures LiveSendsAreLive(Apply(s, step).trace, Apply(s, step).jobs)
  {
    var after := Apply(s, step);
    StepGood(s, step);
    Resend.StepExtends(s, step, 0);
    forall i | 0 <= i < |after.trace| && after.trace[i].SendCalled? && after.trace[i].live
      ensures after.trace[i].worker == 0 && after.trace[i].job < |after.jobs| && !after.jobs[after.trace[i].job].dryRun
    {
      if i < |s.trace| {
        assert after.trace[i] == s.trace[i];
        assert Follows(s.jobs[s.trace[i].job], after.jobs[s.trace[i].job]);
      } else {
        NoOtherSends(s, step, i);
        NewSendIsLive(s, step);
      }
    }
  }

  lemma NewSendIsLive(s: System, step: Step)
    requires Sound(s) && step.BeginSend? && step.worker in s.workers && s.workers[step.worker].hold.Pacing?
    ensures s.trace <= Apply(s, step).trace && |Apply(s, step).trace| <= |s.trace| + 1
    ensures |Apply(s, step).trace| == |s.trace| + 1 && Apply(s, step).trace[|s.trace|].SendCalled?
            && Apply(s, step).trace[|s.trace|].live ==>
      var e := Apply(s, step).trace[|s.trace|];
      && e.worker == 0 && e.job < |s.jobs| && !s.jobs[e.job].dryRun
      && Apply(s, step).jobs == s.jobs
  {
    assert HoldOk(s.jobs, s.workers[step.worker]);
  }

  lemma {:induction false} RunKeepsLiveSends(s: System, steps: seq<Step>)
    requires Sound(s) && LiveSendsAreLive(s.trace, s.jobs)
    ensures Sound(Run(s, steps)) && LiveSendsAreLive(Run(s, steps).trace, Run(s, steps).jobs)
  {
    RunSound(s, steps);
    if steps != [] {
      var n := |steps| - 1;
      RunKeepsLiveSends(s, steps[..n]);
      StepKeepsLiveSends(Run(s, steps[..n]), steps[n]);
    }
  }

  // On every run from an empty queue: a dry-run job is never handed to the live transport and
  // reaches SENT only by an operator's confirmation; a live job never becomes DRY_RUN; and a
  // dry-run job and a live job never share an idempotency key.
  lemma DryRunNeverMixes(s: System, steps: seq<Step>, j: nat, k: nat)
    requires Initial(s)
    requires j < |Run(s, steps).jobs| && k < |Run(s, steps).jobs|
    ensures var after := Run(s, steps);
      && (after.jobs[j].dryRun ==>
            && (forall i :: 0 <= i < |after.trace| ==> !LiveSend(after.trace[i], j))
            && (after.jobs[j].status.Sent? ==> after.jobs[j].remote == Some(OperatorConfirmed)))
      && (!after.jobs[j].dryRun ==> !after.jobs[j].status.DryRun?)
      && (after.jobs[j].dryRun != after.jobs[k].dryRun ==> after.jobs[j].key != after.jobs[k].key)
  {
    RunKeepsLiveSends(s, steps);
    assert Shape(Run(s, steps).jobs[j]) && Shape(Run(s, steps).jobs[k]);
  }
}
