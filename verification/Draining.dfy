/**
 * Attempts as a balance sheet. Each job's room left plus the claims made of it never exceeds what
 * it was given: its budget at creation and at each manual retry, and one attempt for each
 * authentication pause or shutdown put-back. So the queue drains.
 */
module Draining {
  import opened Prelude
  import opened Jobs
  import opened System
  import opened Invariants
  import opened History
  import opened Delivery
  import opened Simulated

  predicate Open(status: Status) { Unsent(status) || status.Processing? }

  // A dry-run row that one of its workers can still put back.
  predicate Recoverable(s: System, j: nat)
    requires j < |s.jobs|
  {
    s.jobs[j].dryRun && Lost(s.jobs[j].status) && (Holds(s, 0, j) || Holds(s, j + 1, j))
  }

  // Attempts a job may still make; 0 for a job that is closed.
  function Room(s: System, j: nat): int
    requires j < |s.jobs|
  {
    var row := s.jobs[j];
    if Open(row.status) || Recoverable(s, j) then row.maxAttempts + Grace(s.trace, j) - row.attempts else 0
  }

  // Given so far, less claims made, less room left.
  function Balance(s: System, j: nat): int
    requires j < |s.jobs|
  {
    var t := TallyOf(s.trace, j);
    s.jobs[j].maxAttempts * t.resets + t.graces - t.claims - Room(s, j)
  }

  lemma ResetGivesBudget(max: nat, resets: nat)
    ensures max * (resets + 1) == max * resets + max
  {
  }

  lemma MeanwhileKeepsBalance(s: System, after: System, j: nat)
    requires Sound(s) && LiveJob(s, j) && InBudget(s, j)
    requires LiveJob(after, j) && SameIdentity(s.jobs[j], after.jobs[j]) && Meanwhile(s, after, j)
    ensures Balance(s, j) <= Balance(after, j)
  {
    hide TallyOf;
    ResetGivesBudget(s.jobs[j].maxAttempts, TallyOf(s.trace, j).resets);
  }

  lemma DeliveredKeepsBalance(s: System, after: System, j: nat)
    requires Sound(s) && LiveJob(s, j) && InBudget(s, j)
    requires LiveJob(after, j) && SameIdentity(s.jobs[j], after.jobs[j]) && Delivered(s, after, j)
    ensures Balance(s, j) <= Balance(after, j)
  {
    hide TallyOf;
  }

  lemma ClaimKeepsBalance(s: System, w: nat, now: Instant, j: nat)
    requires Sound(s) && LiveJob(s, j) && Touches(s, Claim(w, now), j)
    ensures var after := ApplyClaim(s, w, now);
      && j < |after.jobs| && Balance(s, j) == Balance(after, j) && Room(after, j) == Room(s, j) - 1
  {
    hide TallyOf;
    ClaimTouch(s, w, now, j);
  }

  lemma PutBackKeepsBalance(s: System, j: nat)
    requires Sound(s) && LiveJob(s, j) && Owned(s, j) && InBudget(s, j) && Holds(s, 0, j)
    ensures j < |ApplyPutBack(s, 0).jobs| && Balance(s, j) <= Balance(ApplyPutBack(s, 0), j)
  {
    hide TallyOf, ApplyPutBack;
    PutBackTouch(s, j);
  }

  lemma BeginSendKeepsBalance(s: System, mediaExists: bool, j: nat)
    requires Sound(s) && LiveJob(s, j) && Owned(s, j) && InBudget(s, j) && Holds(s, 0, j)
    ensures var after := ApplyBeginSend(s, 0, mediaExists); j < |after.jobs| && Balance(s, j) <= Balance(after, j)
  {
    hide TallyOf, ApplyBeginSend;
    BeginSendTouch(s, mediaExists, j);
    BeginSendGood(s, 0, mediaExists);
    assert Follows(s.jobs[j], ApplyBeginSend(s, 0, mediaExists).jobs[j]);
  }

  lemma FinishKeepsBalance(s: System, outcome: Outcome, jitter: real, j: nat)
    requires Sound(s) && LiveJob(s, j) && Owned(s, j) && InBudget(s, j) && Holds(s, 0, j)
    requires 0.0 <= jitter < 1.0
    ensures var after := ApplyFinishSend(s, 0, outcome, jitter); j < |after.jobs| && Balance(s, j) <= Balance(after, j)
  {
    hide ApplyFinishSend, Delivered, Balance;
    FinishTouch(s, outcome, jitter, j);
    if s.workers[0].hold.Sending? {
      FinishSendGood(s, 0, outcome, jitter);
      assert Follows(s.jobs[j], ApplyFinishSend(s, 0, outcome, jitter).jobs[j]);
      DeliveredKeepsBalance(s, ApplyFinishSend(s, 0, outcome, jitter), j);
    }
  }

  // No step ever gives out more room than it accounts for.
  lemma StepKeepsBalance(s: System, step: Step, j: nat)
    requires Sound(s) && LiveJob(s, j) && Owned(s, j) && InBudget(s, j)
    ensures LiveJob(Apply(s, step), j) && Balance(s, j) <= Balance(Apply(s, step), j)
  {
    hide Balance;
    UntouchedStaysLive(s, step, j);
    if !Touches(s, step, j) {
      UntouchedMeanwhile(s, step, j);
      MeanwhileKeepsBalance(s, Apply(s, step), j);
    } else if step.Claim? {
      ClaimKeepsBalance(s, step.worker, step.now, j);
    } else if step.PutBack? {
      DaemonDelivers(s, step.worker, j);
      PutBackKeepsBalance(s, j);
    } else if step.BeginSend? {
      DaemonDelivers(s, step.worker, j);
      BeginSendKeepsBalance(s, step.mediaExists, j);
    } else if step.FinishSend? {
      DaemonDelivers(s, step.worker, j);
      if 0.0 <= step.jitter < 1.0 { FinishKeepsBalance(s, step.outcome, step.jitter, j); }
    } else {
      RecoveryKeepsBudget(s, step.config, j);
      RecoveryKeepsBalance(s, step.config, j);
    }
  }

  lemma RecoveryKeepsBalance(s: System, config: Config, j: nat)
    requires Sound(s) && LiveJob(s, j) && InBudget(s, j) && 0 !in s.workers
    ensures var after := ApplyStartDaemon(s, config); j < |after.jobs| && Balance(s, j) <= Balance(after, j)
  {
    RecoveryKeepsBudget(s, config, j);
    hide TallyOf;
  }

  // ----- Dry-run jobs -----

  lemma UntouchedKeepsDryBalance(s: System, step: Step, j: nat)
    requires Sound(s) && DryJob(s, j) && InBudget(s, j) && !Touches(s, step, j)
    ensures DryJob(Apply(s, step), j) && Balance(s, j) <= Balance(Apply(s, step), j)
  {
    StaysDry(s, step, j);
    UntouchedMeanwhile(s, step, j);
    HoldsOnlyByClaim(s, step, 0, j);
    HoldsOnlyByClaim(s, step, j + 1, j);
    hide Apply, TallyOf, Sound, Meanwhile, Balance;
    MeanwhileKeepsDryBalance(s, Apply(s, step), j);
  }

  lemma MeanwhileKeepsDryBalance(s: System, after: System, j: nat)
    requires Sound(s) && DryJob(s, j) && InBudget(s, j)
    requires DryJob(after, j) && after.jobs[j].maxAttempts == s.jobs[j].maxAttempts && Meanwhile(s, after, j)
    requires Holds(after, 0, j) ==> Holds(s, 0, j)
    requires Holds(after, j + 1, j) ==> Holds(s, j + 1, j)
    ensures Balance(s, j) <= Balance(after, j)
  {
    hide TallyOf;
    ResetGivesBudget(s.jobs[j].maxAttempts, TallyOf(s.trace, j).resets);
    assert Shape(s.jobs[j]);
    hide Sound;
  }

  lemma DryClaimKeepsBalance(s: System, w: nat, now: Instant, j: nat)
    requires Sound(s) && DryJob(s, j) && Touches(s, Claim(w, now), j)
    ensures var after := ApplyClaim(s, w, now); j < |after.jobs| && Balance(s, j) <= Balance(after, j)
  {
    hide TallyOf, Sound;
    AppendEvent(s.trace, Claimed(w, j, now), j);
  }

  lemma DryPutBackKeepsBalance(s: System, w: nat, j: nat)
    requires Sound(s) && DryJob(s, j) && InBudget(s, j) && Holds(s, w, j)
    ensures var after := ApplyPutBack(s, w); j < |after.jobs| && Balance(s, j) <= Balance(after, j)
  {
    hide TallyOf;
    Simulates(s, w, j);
    AppendEvent(s.trace, PutBackUnsent(j), j);
    hide Sound;
  }

  lemma DryBeginKeepsBalance(s: System, w: nat, mediaExists: bool, j: nat)
    requires Sound(s) && DryJob(s, j) && InBudget(s, j) && Holds(s, w, j)
    ensures var after := ApplyBeginSend(s, w, mediaExists); j < |after.jobs| && Balance(s, j) <= Balance(after, j)
  {
    hide TallyOf, ApplyBeginSend;
    Simulates(s, w, j);
    BeginsOrFails(s, w, mediaExists, j);
    BeginSendGood(s, w, mediaExists);
    assert Follows(s.jobs[j], ApplyBeginSend(s, w, mediaExists).jobs[j]);
    hide Sound;
  }

  lemma DryFinishKeepsBalance(s: System, w: nat, outcome: Outcome, jitter: real, j: nat)
    requires Sound(s) && DryJob(s, j) && InBudget(s, j) && Holds(s, w, j) && 0.0 <= jitter < 1.0
    ensures var after := ApplyFinishSend(s, w, outcome, jitter); j < |after.jobs| && Balance(s, j) <= Balance(after, j)
  {
    Simulates(s, w, j);
    if s.workers[w].hold.Sending? {
      FinishTouchesDry(s, w, outcome, jitter, j);
      FinishKeepsOthers(s, w, outcome, jitter);
      FinishSendGood(s, w, outcome, jitter);
      assert Follows(s.jobs[j], ApplyFinishSend(s, w, outcome, jitter).jobs[j]);
      hide ApplyFinishSend, TallyOf, Sound;
    }
  }

  lemma DryRecoveryKeepsBalance(s: System, config: Config, j: nat)
    requires DryJob(s, j) && InBudget(s, j) && 0 !in s.workers
    ensures var after := ApplyStartDaemon(s, config); j < |after.jobs| && Balance(s, j) <= Balance(after, j)
  {
    hide TallyOf;
    AppendEvent(s.trace, WorkerStarted(0, config.sendIntervalMs), j);
  }

  lemma DryStepKeepsBalance(s: System, step: Step, j: nat)
    requires Sound(s) && DryJob(s, j) && InBudget(s, j)
    ensures DryJob(Apply(s, step), j) && Balance(s, j) <= Balance(Apply(s, step), j)
  {
    hide Balance;
    StaysDry(s, step, j);
    if !Touches(s, step, j) {
      UntouchedKeepsDryBalance(s, step, j);
    } else if step.Claim? {
      DryClaimKeepsBalance(s, step.worker, step.now, j);
    } else if step.PutBack? {
      DryPutBackKeepsBalance(s, step.worker, j);
    } else if step.BeginSend? {
      DryBeginKeepsBalance(s, step.worker, step.mediaExists, j);
    } else if step.FinishSend? {
      if 0.0 <= step.jitter < 1.0 { DryFinishKeepsBalance(s, step.worker, step.outcome, step.jitter, j); }
    } else {
      DryRecoveryKeepsBalance(s, step.config, j);
    }
  }

  // ----- Whole runs -----

  ghost predicate JobOk(s: System, j: nat)
    requires j < |s.jobs|
  {
    if s.jobs[j].dryRun then DryOk(s, j) else Owned(s, j) && InBudget(s, j)
  }

  ghost predicate Healthy(s: System) {
    Sound(s) && forall j: nat :: j < |s.jobs| ==> JobOk(s, j)
  }

  lemma StepKeepsJobOk(s: System, step: Step, j: nat)
    requires Sound(s) && j < |s.jobs| && JobOk(s, j)
    ensures j < |Apply(s, step).jobs| && JobOk(Apply(s, step), j)
    ensures SameIdentity(s.jobs[j], Apply(s, step).jobs[j])
    ensures Balance(s, j) <= Balance(Apply(s, step), j)
  {
    hide Owned, InBudget, Balance, DryOk;
    StepGood(s, step);
    assert Follows(s.jobs[j], Apply(s, step).jobs[j]);
    if s.jobs[j].dryRun {
      DryOkInBudget(s, j);
      StepDryOk(s, step, j);
      DryStepKeepsBalance(s, step, j);
    } else {
      StepKeepsBudget(s, step, j);
      StepKeepsBalance(s, step, j);
    }
  }

  lemma NewJobBalanced(s: System, step: Step, j: nat)
    requires Sound(s) && |s.jobs| <= j < |Apply(s, step).jobs|
    ensures JobOk(Apply(s, step), j) && 0 <= Balance(Apply(s, step), j)
  {
    var after := Apply(s, step);
    hide Owned, InBudget, DryOk;
    if after.jobs[j].dryRun { NewDryJobOk(s, step, j); } else { NewJobStarts(s, step, j); }
    OnlyCreateAppends(s, step);
    NewJobGift(s, step);
  }

  lemma NewJobGift(s: System, step: Step)
    requires Sound(s) && step.Create? && |s.jobs| < |Apply(s, step).jobs|
    ensures 0 <= Balance(Apply(s, step), |s.jobs|)
  {
    UnmentionedTally(s.trace, |s.jobs|, |s.jobs|);
    AppendEvent(s.trace, Created(|s.jobs|), |s.jobs|);
    hide TallyOf;
  }

  lemma StepHealthy(s: System, step: Step)
    requires Healthy(s)
    ensures Healthy(Apply(s, step))
  {
    hide JobOk;
    StepGood(s, step);
    forall j: nat | j < |Apply(s, step).jobs| ensures JobOk(Apply(s, step), j) {
      if j < |s.jobs| {
        StepKeepsJobOk(s, step, j);
      } else {
        NewJobBalanced(s, step, j);
      }
    }
  }

  lemma {:induction false} RunHealthy(s: System, steps: seq<Step>)
    requires Healthy(s)
    ensures Healthy(Run(s, steps))
  {
    if steps != [] {
      RunHealthy(s, steps[..|steps| - 1]);
      StepHealthy(Run(s, steps[..|steps| - 1]), steps[|steps| - 1]);
    }
  }

  function BalanceAt(s: System, j: nat): int {
    if j < |s.jobs| then Balance(s, j) else 0
  }

  function RoomAt(s: System, j: nat): int {
    if j < |s.jobs| then Room(s, j) else 0
  }

  lemma {:induction false} RunKeepsBalance(s: System, steps: seq<Step>, j: nat)
    requires Healthy(s)
    ensures Healthy(Run(s, steps)) && |s.jobs| <= |Run(s, steps).jobs|
    ensures j < |s.jobs| ==> SameIdentity(s.jobs[j], Run(s, steps).jobs[j])
    ensures BalanceAt(s, j) <= BalanceAt(Run(s, steps), j)
  {
    RunSound(s, steps);
    if steps != [] {
      var n := |steps| - 1;
      var before, after := Run(s, steps[..n]), Run(s, steps);
      RunKeepsBalance(s, steps[..n], j);
      StepHealthy(before, steps[n]);
      hide Balance, Run;
      if j < |before.jobs| {
        StepKeepsJobOk(before, steps[n], j);
      } else if j < |after.jobs| {
        NewJobBalanced(before, steps[n], j);
      }
    }
  }

  lemma RoomNonNegative(s: System, j: nat)
    requires Healthy(s) && j < |s.jobs|
    ensures 0 <= Room(s, j)
    ensures Unsent(s.jobs[j].status) ==> 1 <= Room(s, j)
  {
    assert JobOk(s, j);
    if s.jobs[j].dryRun { DryOkInBudget(s, j); }
    hide Sound, DryOk;
    assert InBudget(s, j);
  }

  lemma Distribute(max: int, u: int, t: int)
    ensures max * (u - t) == max * u - max * t
  {
  }

  // What the run gave to job j: its budget at creation and for each manual retry, and one for each
  // authentication pause and put-back.
  function Gift(s: System, after: System, j: nat): int
    requires j < |after.jobs|
  {
    var t, u := TallyOf(s.trace, j), TallyOf(after.trace, j);
    after.jobs[j].maxAttempts * (u.resets - t.resets) + (u.graces - t.graces)
  }

  lemma NoTallyYet(s: System, j: nat)
    requires Healthy(s) && |s.jobs| <= j
    ensures TallyOf(s.trace, j) == Tally(0, 0, 0, 0, 0)
  {
    UnmentionedTally(s.trace, |s.jobs|, j);
  }

  // Over any run, the claims of any job, old or new, are paid for by the room it had and what it
  // was given meanwhile.
  lemma ClaimsArePaidFor(s: System, steps: seq<Step>, j: nat)
    requires Healthy(s) && j < |Run(s, steps).jobs|
    ensures var after := Run(s, steps);
      && 0 <= Room(after, j)
      && TallyOf(after.trace, j).claims - TallyOf(s.trace, j).claims + Room(after, j)
         <= RoomAt(s, j) + Gift(s, after, j)
  {
    hide TallyOf, Room, Healthy, Run;
    RunKeepsBalance(s, steps, j);
    var after := Run(s, steps);
    RoomNonNegative(after, j);
    if |s.jobs| <= j { NoTallyYet(s, j); }
    Distribute(after.jobs[j].maxAttempts, TallyOf(after.trace, j).resets, TallyOf(s.trace, j).resets);
  }

  // ----- The whole queue -----

  // Live jobs only, or all of them.
  predicate Counted(job: Job, liveOnly: bool) { liveOnly ==> !job.dryRun }

  function Rooms(s: System, liveOnly: bool): seq<int> {
    seq(|s.jobs|, j requires 0 <= j < |s.jobs| => if Counted(s.jobs[j], liveOnly) then Room(s, j) else 0)
  }

  function Claims(s: System, liveOnly: bool): seq<int> {
    seq(|s.jobs|, j requires 0 <= j < |s.jobs| =>
      if Counted(s.jobs[j], liveOnly) then TallyOf(s.trace, j).claims else 0)
  }

  function Gifts(s: System, after: System, liveOnly: bool): seq<int> {
    seq(|after.jobs|, j requires 0 <= j < |after.jobs| =>
      if Counted(after.jobs[j], liveOnly) then Gift(s, after, j) else 0)
  }

  function SumOf(a: seq<int>, b: seq<int>): seq<int>
    requires |a| == |b|
  {
    seq(|a|, i requires 0 <= i < |a| => a[i] + b[i])
  }

  lemma {:induction false} SumSplits(a: seq<int>, b: seq<int>)
    requires |a| == |b|
    ensures Sum(SumOf(a, b)) == Sum(a) + Sum(b)
  {
    if a != [] {
      var n := |a| - 1;
      SumSplits(a[..n], b[..n]);
      assert SumOf(a, b)[..n] == SumOf(a[..n], b[..n]);
    }
  }

  function Padded(a: seq<int>, n: nat): seq<int>
    requires |a| <= n
  {
    a + seq(n - |a|, i => 0)
  }

  lemma PaddingAddsNothing(a: seq<int>, n: nat)
    requires |a| <= n
    ensures Sum(Padded(a, n)) == Sum(a)
  {
    SumZeroTail(Padded(a, n), |a|);
    assert Padded(a, n)[..|a|] == a;
  }

  // The claims of a run and the room left after it are covered by the room there was and by what
  // the run gave.
  lemma QueuePays(s: System, steps: seq<Step>, liveOnly: bool)
    requires Healthy(s)
    ensures var after := Run(s, steps);
      Sum(Claims(after, liveOnly)) - Sum(Claims(s, liveOnly)) + Sum(Rooms(after, liveOnly))
      <= Sum(Rooms(s, liveOnly)) + Sum(Gifts(s, after, liveOnly))
  {
    hide TallyOf, Room, Healthy, Run, Gift, Balance, Sum;
    var after := Run(s, steps);
    RunKeepsBalance(s, steps, 0);
    var n := |after.jobs|;
    var had := SumOf(Padded(Claims(s, liveOnly), n), Padded(Rooms(s, liveOnly), n));
    var gifts := Gifts(s, after, liveOnly);
    var have := SumOf(Claims(after, liveOnly), Rooms(after, liveOnly));
    SumSplits(Claims(after, liveOnly), Rooms(after, liveOnly));
    SumSplits(Padded(Claims(s, liveOnly), n), Padded(Rooms(s, liveOnly), n));
    SumSplits(had, gifts);
    PaddingAddsNothing(Claims(s, liveOnly), n);
    PaddingAddsNothing(Rooms(s, liveOnly), n);
    forall j | 0 <= j < n ensures have[j] <= SumOf(had, gifts)[j] {
      JobPays(s, steps, j, liveOnly);
    }
    SumMonotone(SumOf(had, gifts), have);
  }

  lemma JobPays(s: System, steps: seq<Step>, j: nat, liveOnly: bool)
    requires Healthy(s) && |s.jobs| <= |Run(s, steps).jobs| && j < |Run(s, steps).jobs|
    ensures var after := Run(s, steps);
      Claims(after, liveOnly)[j] + Rooms(after, liveOnly)[j]
      <= Padded(Claims(s, liveOnly), |after.jobs|)[j] + Padded(Rooms(s, liveOnly), |after.jobs|)[j]
         + Gifts(s, after, liveOnly)[j]
  {
    hide TallyOf, Room, Healthy, Run, Gift, Balance;
    ClaimsArePaidFor(s, steps, j);
    RunKeepsBalance(s, steps, j);
    if |s.jobs| <= j { NoTallyYet(s, j); }
  }

  // No job that counts was created, manually retried, paused for authentication or put back.
  ghost predicate NothingGiven(s: System, after: System, liveOnly: bool) {
    forall j: nat :: j < |after.jobs| && Counted(after.jobs[j], liveOnly) ==>
      && TallyOf(after.trace, j).resets == TallyOf(s.trace, j).resets
      && TallyOf(after.trace, j).graces == TallyOf(s.trace, j).graces
  }

  // Then the number of claims in any run is at most the fall of the queue's total room: it drains.
  lemma QueueDrains(s: System, steps: seq<Step>, liveOnly: bool)
    requires Healthy(s) && NothingGiven(s, Run(s, steps), liveOnly)
    ensures var after := Run(s, steps);
      && Sum(Claims(after, liveOnly)) - Sum(Claims(s, liveOnly))
         <= Sum(Rooms(s, liveOnly)) - Sum(Rooms(after, liveOnly))
      && Sum(Claims(after, liveOnly)) - Sum(Claims(s, liveOnly)) <= Sum(Rooms(s, liveOnly))
  {
    hide TallyOf, Room, Run, Healthy, Sum;
    var after := Run(s, steps);
    QueuePays(s, steps, liveOnly);
    RunHealthy(s, steps);
    RoomsNonNegative(after, liveOnly);
    SumNonNegative(Rooms(after, liveOnly));
    var gifts := Gifts(s, after, liveOnly);
    SumZeroTail(gifts, 0);
    assert gifts[..0] == [];
    NoSum();
  }

  lemma NoSum()
    ensures Sum([]) == 0
  {
  }

  lemma RoomsNonNegative(s: System, liveOnly: bool)
    requires Healthy(s)
    ensures forall j :: 0 <= j < |Rooms(s, liveOnly)| ==> 0 <= Rooms(s, liveOnly)[j]
  {
    forall j | 0 <= j < |s.jobs| ensures 0 <= Rooms(s, liveOnly)[j] {
      RoomNonNegative(s, j);
      hide Room;
    }
  }
}
