/** The rows of one batch: who can add to them, and what their status counts add up to. */
module Batches {
  import opened Prelude
  import opened Jobs
  import opened System
  import opened Storage
  import opened Invariants
  import Delivery

  function BatchRows(rows: seq<Job>, batch: nat): nat {
    if rows == [] then 0
    else BatchRows(rows[..|rows| - 1], batch) + if rows[|rows| - 1].batch == Some(batch) then 1 else 0
  }

  // What the batch report adds up to over all statuses.
  function ReportTotal(rows: seq<Job>, batch: nat): nat {
    var b := Some(batch);
    StatusCount(rows, Pending, b) + StatusCount(rows, Scheduled, b) + StatusCount(rows, Processing, b)
    + StatusCount(rows, WaitingRateLimit, b) + StatusCount(rows, Retry, b) + StatusCount(rows, Sent, b)
    + StatusCount(rows, Failed, b) + StatusCount(rows, Cancelled, b) + StatusCount(rows, ReviewRequired, b)
    + StatusCount(rows, DryRun, b)
  }

  lemma {:induction false} ReportTotalIsBatchRows(rows: seq<Job>, batch: nat)
    ensures ReportTotal(rows, batch) == BatchRows(rows, batch)
  {
    if rows != [] {
      ReportTotalIsBatchRows(rows[..|rows| - 1], batch);
    }
  }

  // A step that is not somebody enqueueing under this batch id.
  predicate Spares(step: Step, batch: nat) {
    step.Create? ==> step.newJob.batch != Some(batch)
  }

  predicate AllSpare(steps: seq<Step>, batch: nat) {
    forall i :: 0 <= i < |steps| ==> Spares(steps[i], batch)
  }

  // The old rows are the same jobs, and no new row belongs to the batch.
  ghost predicate BatchFrame(before: seq<Job>, after: seq<Job>, batch: nat) {
    && |before| <= |after|
    && (forall j :: 0 <= j < |before| ==> SameIdentity(before[j], after[j]))
    && (forall j :: |before| <= j < |after| ==> after[j].batch != Some(batch))
  }

  lemma StepFrames(s: System, step: Step, batch: nat)
    requires Sound(s) && Spares(step, batch)
    ensures BatchFrame(s.jobs, Apply(s, step).jobs, batch)
  {
    StepGood(s, step);
    Delivery.OnlyCreateAppends(s, step);
    assert forall j :: 0 <= j < |s.jobs| ==> Follows(s.jobs[j], Apply(s, step).jobs[j]);
  }

  lemma {:induction false} RunFrames(s: System, steps: seq<Step>, batch: nat)
    requires Sound(s) && AllSpare(steps, batch)
    ensures BatchFrame(s.jobs, Run(s, steps).jobs, batch)
  {
    if steps != [] {
      var n := |steps| - 1;
      RunFrames(s, steps[..n], batch);
      RunSound(s, steps[..n]);
      StepFrames(Run(s, steps[..n]), steps[n], batch);
    }
  }

  lemma {:induction false} FrameKeepsRows(before: seq<Job>, after: seq<Job>, batch: nat)
    requires BatchFrame(before, after, batch)
    ensures BatchRows(after, batch) == BatchRows(before, batch)
    decreases |after|
  {
    if |before| < |after| {
      FrameKeepsRows(before, after[..|after| - 1], batch);
    } else if before != [] {
      FrameKeepsRows(before[..|before| - 1], after[..|after| - 1], batch);
    }
  }

  lemma BatchRowsAppend(rows: seq<Job>, row: Job, batch: nat)
    ensures BatchRows(rows + [row], batch) == BatchRows(rows, batch) + if row.batch == Some(batch) then 1 else 0
  {
    assert (rows + [row])[..|rows|] == rows;
  }

  // Whatever happens to the jobs of a batch afterwards, its report always adds up to the
  // number of jobs it was queued with.
  lemma ReportAddsUpForever(s: System, steps: seq<Step>, batch: nat)
    requires Sound(s) && AllSpare(steps, batch)
    ensures ReportTotal(Run(s, steps).jobs, batch) == BatchRows(s.jobs, batch)
  {
    RunFrames(s, steps, batch);
    FrameKeepsRows(s.jobs, Run(s, steps).jobs, batch);
    ReportTotalIsBatchRows(Run(s, steps).jobs, batch);
  }
}
