/**
 * What one call of processOnce does when nobody comes between its statements, told from the rows as
 * they were before: which job it takes, whether a send call goes out, and what is recorded.
 */
module Quiet {
  import opened Prelude
  import opened Jobs
  import opened Statements
  import opened System
  import opened Storage
  import opened Outcomes
  import opened Rounds
  import Invariants
  import Scenarios

  const NO_GAPS := Gaps([], [], [], [], [])

  predicate Undisturbed(around: Surroundings) {
    around.gaps == NO_GAPS && NothingSaid(around.naps) && around.whileSending == []
  }

  // Row i can be taken: its group is in use, its time has come, and it is this worker's to do.
  ghost predicate Takeable(s: System, w: nat, i: nat)
    requires w in s.workers
  {
    && i < |s.jobs| && (w == 0 || w == i + 1)
    && var row := s.jobs[i];
       && row.destination in s.dests && s.dests[row.destination].enabled && s.dests[row.destination].canSend
       && (s.workers[w].config.dryRun ==> row.dryRun)
       && (|| row.status.Pending?
           || (row.status.Scheduled? && row.scheduledAt <= s.clock)
           || (row.status in {Retry, WaitingRateLimit}
               && row.nextAttemptAt.Some? && row.nextAttemptAt.value <= s.clock))
  }

  ghost predicate FirstTakeable(s: System, w: nat, i: nat)
    requires w in s.workers
  {
    && Takeable(s, w, i)
    && forall k: nat :: Takeable(s, w, k) && k != i ==> ComesFirst(s.jobs[i], i, s.jobs[k], k)
  }

  // What a call does to every row it does not take: a queued one of a group out of use is cancelled,
  // a scheduled one whose time has come is released.
  ghost function Swept(row: Job, dests: Destinations, now: Instant): Job {
    if row.status in {Pending, Scheduled, Retry, WaitingRateLimit} && row.destination in dests
       && (!dests[row.destination].enabled || !dests[row.destination].canSend)
    then row.(status := Cancelled, lastError := Some(Delivery(DestinationError)))
    else if row.status.Scheduled? && row.scheduledAt <= now then row.(status := Pending)
    else row
  }

  ghost function SweptRows(s: System): seq<Job> {
    seq(|s.jobs|, i requires 0 <= i < |s.jobs| => Swept(s.jobs[i], s.dests, s.clock))
  }

  // An expired pause is removed by a live worker, the rate limit's reason with it.
  ghost function Cleaned(pause: Pause, config: Config): Pause {
    if config.dryRun || pause.until.None? then pause
    else Pause(if pause.reason == Some(PausedRateLimited) then None else pause.reason, None)
  }

  ghost function TakenRow(row: Job, now: Instant): Job {
    row.(status := Processing, attempts := row.attempts + 1, startedAt := Some(now), nextAttemptAt := None)
  }

  // The worker holds row i.
  ghost function Taken(s: System, w: nat, i: nat): System
    requires w in s.workers && i < |s.jobs|
  {
    var worker, row := s.workers[w], TakenRow(s.jobs[i], s.clock);
    s.(jobs := SweptRows(s)[i := row], pause := Cleaned(s.pause, worker.config),
       workers := s.workers[w := worker.(hold := Pacing(i, row), gate := if w == 0 then Ready else Done)],
       trace := s.trace + [Claimed(w, i, s.clock)])
  }

  // It found nothing to take.
  ghost function FoundNone(s: System, w: nat): System
    requires w in s.workers
  {
    s.(jobs := SweptRows(s), pause := Cleaned(s.pause, s.workers[w].config),
       workers := s.workers[w := s.workers[w].(gate := if w == 0 then Ready else Done)])
  }

  // It has waited for its interval.
  ghost function Waited(s: System, w: nat, i: nat): System
    requires w in s.workers && i < |s.jobs|
  {
    Taken(s, w, i).(clock := PacedTo(s.clock, s.workers[w].config.sendIntervalMs, s.workers[w].lastFinish))
  }

  // The call went out.
  ghost function Called(s: System, w: nat, i: nat): System
    requires w in s.workers && i < |s.jobs|
  {
    var waited, row := Waited(s, w, i), TakenRow(s.jobs[i], s.clock);
    waited.(workers := waited.workers[w := waited.workers[w].(hold := Sending(i, row))],
            trace := waited.trace + [SendCalled(w, i, !s.workers[w].config.dryRun && !row.dryRun, waited.clock)])
  }

  // What the transport's answer makes of the row.
  ghost function AnsweredRow(row: Job, config: Config, around: Surroundings, now: Instant): Job {
    if !config.dryRun && !row.dryRun && around.outcome.Rejected?
    then FailedRow(row, ReportedClass(row, around.outcome.errorClass), around.outcome.retryAfterMs, around.jitter,
                   row, config, now)
    else AcceptedRow(row, !config.dryRun && !row.dryRun, around.outcome, now)
  }

  // A call nobody disturbs. It returns false exactly when sending was paused or nothing could be
  // taken. Otherwise it takes the first row in order; the send call goes out exactly when the media
  // is there, and the row then carries the transport's answer.
  ghost predicate QuietCall(s: System, w: nat, around: Surroundings, r: ProcessResult, after: System)
    requires w in s.workers
  {
    var worker := s.workers[w];
    if SeesPause(s, worker.config) then r == Returned(false) && after == s
    else if forall i: nat :: !Takeable(s, w, i) then
      r == Returned(false) && after == FoundNone(s, w)
    else r == Returned(true) && exists i: nat :: FirstTakeable(s, w, i) && QuietDelivery(s, w, i, around, after)
  }

  ghost predicate QuietDelivery(s: System, w: nat, i: nat, around: Surroundings, after: System)
    requires w in s.workers && i < |s.jobs|
  {
    var waited, row := Waited(s, w, i), TakenRow(s.jobs[i], s.clock);
    if row.hasMedia && !around.mediaExists then
      after == waited.(
        jobs := waited.jobs[i := row.(status := Failed, lastError := Some(Delivery(MediaError)))],
        workers := waited.workers[w := waited.workers[w].(hold := Idle)])
    else
      && AnswerRecorded(Called(s, w, i), after, w, around.outcome, around.jitter)
      && i < |after.jobs| && after.jobs[i] == AnsweredRow(row, s.workers[w].config, around, waited.clock)
  }

  // ----- Step by step -----

  predicate AtHead(s: System, w: nat) {
    && w in s.workers && s.workers[w].hold.Idle? && s.workers[w].gate.Ready? && !s.workers[w].stopping
    && (w != 0 ==> s.workers[w].config.dryRun)
  }

  ghost function Looked(s: System, w: nat): System
    requires w in s.workers
  {
    s.(pause := Cleaned(s.pause, s.workers[w].config),
       workers := s.workers[w := s.workers[w].(gate := Checked(s.clock))])
  }

  lemma LooksQuietly(s: System, w: nat, cleared: bool)
    requires AtHead(s, w) && !SeesPause(s, s.workers[w].config)
    requires cleared <==> !s.workers[w].config.dryRun && s.pause.until.Some?
    ensures Run(s, Looking(cleared, NO_GAPS, w)) == Looked(s, w)
  {
    Scenarios.RunOne(s, CheckPause(w));
    if cleared {
      RunExtend(s, [CheckPause(w)], ClearPause(w));
      assert Looking(true, NO_GAPS, w) == [CheckPause(w)] + [ClearPause(w)];
    } else {
      assert Looking(false, NO_GAPS, w) == [CheckPause(w)];
    }
    hide Run;
  }

  lemma SweepsQuietly(s: System, now: Instant)
    requires now == s.clock
    ensures Run(s, Preparing(NO_GAPS, now)) == s.(jobs := SweptRows(s))
  {
    var promoted := s.(jobs := Promoted(s.jobs, now));
    var swept := s.(jobs := DisabledCancelled(promoted.jobs, s.dests));
    assert Preparing(NO_GAPS, now) == [Promote(now), CancelDisabled];
    assert swept.jobs == SweptRows(s) by { hide Run, Apply; }
    hide Promoted, DisabledCancelled, SweptRows;
    Scenarios.TwoSteps(s, Promote(now), CancelDisabled, promoted, swept);
    hide Run;
  }

  // Released or not, a row is claimable after the sweep exactly when it could be taken before.
  lemma SweptClaimable(s: System, w: nat, i: nat)
    requires AtHead(s, w)
    ensures Takeable(s, w, i) <==>
      && i < |s.jobs| && Matches(OwnJob(w), i)
      && Claimable(Swept(s.jobs[i], s.dests, s.clock), s.dests, s.clock, s.workers[w].config.dryRun)
    ensures i < |s.jobs| ==> DueAt(Swept(s.jobs[i], s.dests, s.clock)) == DueAt(s.jobs[i])
    ensures Takeable(s, w, i) ==>
      ClaimedRow(Swept(s.jobs[i], s.dests, s.clock), s.clock) == TakenRow(s.jobs[i], s.clock)
  {
  }

  ghost function Prepared(s: System, w: nat): System
    requires w in s.workers
  {
    Looked(s, w).(jobs := SweptRows(s))
  }

  lemma ChoosesFirst(s: System, w: nat)
    requires AtHead(s, w)
    ensures var choice := ClaimChoice(Prepared(s, w), w, s.clock);
      if choice.None? then forall i: nat :: !Takeable(s, w, i) else FirstTakeable(s, w, choice.value)
  {
    hide Swept, Takeable, Claimable;
    var q := Prepared(s, w);
    forall i: nat
      ensures Takeable(s, w, i) <==>
        && i < |q.jobs| && Matches(OwnJob(w), i) && Claimable(q.jobs[i], q.dests, s.clock, s.workers[w].config.dryRun)
      ensures i < |q.jobs| ==> DueAt(q.jobs[i]) == DueAt(s.jobs[i])
    {
      SweptClaimable(s, w, i);
    }
    var choice := ClaimChoice(q, w, s.clock);
    if choice.Some? {
      forall k: nat | Takeable(s, w, k) && k != choice.value
        ensures ComesFirst(s.jobs[choice.value], choice.value, s.jobs[k], k)
      {
        assert Before(q.jobs, choice.value, k);
      }
    }
  }

  lemma TakesQuietly(s: System, w: nat, cleared: bool)
    requires AtHead(s, w) && !SeesPause(s, s.workers[w].config)
    requires cleared <==> !s.workers[w].config.dryRun && s.pause.until.Some?
    ensures var choice := ClaimChoice(Prepared(s, w), w, s.clock);
      Run(s, Claiming(Taking(cleared, s.clock), NO_GAPS, w))
      == if choice.None? then FoundNone(s, w) else Taken(s, w, choice.value)
  {
    var looking, preparing := Looking(cleared, NO_GAPS, w), Preparing(NO_GAPS, s.clock);
    LooksQuietly(s, w, cleared);
    SweepsQuietly(Looked(s, w), s.clock);
    RunConcat(s, looking, preparing + [Claim(w, s.clock)]);
    RunExtend(Looked(s, w), preparing, Claim(w, s.clock));
    ClaimsQuietly(s, w);
    hide Run, Looking, Preparing, Apply, SweptRows, Cleaned;
    assert SweptRows(Looked(s, w)) == SweptRows(s) by { SameSweep(s, w); }
  }

  lemma SameSweep(s: System, w: nat)
    requires w in s.workers
    ensures SweptRows(Looked(s, w)) == SweptRows(s)
  {
    hide Swept;
  }

  lemma ClaimsQuietly(s: System, w: nat)
    requires AtHead(s, w)
    ensures var choice := ClaimChoice(Prepared(s, w), w, s.clock);
      Apply(Prepared(s, w), Claim(w, s.clock)) == if choice.None? then FoundNone(s, w) else Taken(s, w, choice.value)
  {
    hide NextClaim, Cleaned, Swept;
    var choice := ClaimChoice(Prepared(s, w), w, s.clock);
    ChoosesFirst(s, w);
    assert CanClaim(Prepared(s, w), w, s.clock);
    if choice.Some? {
      SweptClaimable(s, w, choice.value);
      hide Takeable, Claimable;
    }
  }

  lemma {:induction false} SleepsQuietly(s: System, naps: seq<seq<Step>>, ticks: seq<nat>)
    requires NothingSaid(naps)
    ensures Run(s, Sleeping(naps, ticks)) == s.(clock := Run(s, Sleeping(naps, ticks)).clock)
  {
    if ticks != [] {
      var n := |ticks| - 1;
      SleepsQuietly(s, naps, ticks[..n]);
      assert Sleeping(naps, ticks) == Sleeping(naps, ticks[..n]) + [Tick(ticks[n])];
      RunExtend(s, Sleeping(naps, ticks[..n]), Tick(ticks[n]));
    }
  }

  // The media has gone: the job fails without a call.
  lemma FailsQuietly(s: System, w: nat, i: nat)
    requires AtHead(s, w) && Takeable(s, w, i) && s.jobs[i].hasMedia
    ensures var waited, row := Waited(s, w, i), TakenRow(s.jobs[i], s.clock);
      Apply(waited, BeginSend(w, false)) == waited.(
        jobs := waited.jobs[i := row.(status := Failed, lastError := Some(Delivery(MediaError)))],
        workers := waited.workers[w := waited.workers[w].(hold := Idle)])
  {
    var waited := Waited(s, w, i);
    RecordableSettles(waited, i, Failed, ErrorChange(MediaError, None));
    hide Transition, SweptRows, Cleaned;
    assert Paced(waited.workers[w], waited.clock);
    assert waited.jobs[i] == TakenRow(s.jobs[i], s.clock);
  }

  lemma CallsQuietly(s: System, w: nat, i: nat, mediaExists: bool)
    requires AtHead(s, w) && Takeable(s, w, i) && (s.jobs[i].hasMedia ==> mediaExists)
    ensures Apply(Waited(s, w, i), BeginSend(w, mediaExists)) == Called(s, w, i)
  {
    hide SweptRows, Cleaned;
    assert Paced(Waited(s, w, i).workers[w], Waited(s, w, i).clock);
  }

  // The row in hand can be moved wherever the answer takes it.
  lemma AnswersQuietly(s: System, w: nat, i: nat, around: Surroundings)
    requires AtHead(s, w) && Takeable(s, w, i) && WellFormed(Waited(s, w, i).jobs) && 0.0 <= around.jitter < 1.0
    ensures var after := Apply(Called(s, w, i), FinishSend(w, around.outcome, around.jitter));
      && AnswerRecorded(Called(s, w, i), after, w, around.outcome, around.jitter)
      && i < |after.jobs|
      && after.jobs[i] == AnsweredRow(TakenRow(s.jobs[i], s.clock), s.workers[w].config, around, after.clock)
      && after.clock == Waited(s, w, i).clock && w in after.workers
  {
    var called := Called(s, w, i);
    AnswerIsRecorded(called, w, around.outcome, around.jitter);
    assert called.jobs[i] == TakenRow(s.jobs[i], s.clock);
    forall k | 0 <= k < |called.jobs| && k != i && Active(called.jobs[k].status)
      ensures called.jobs[k].key != called.jobs[i].key
    {
      assert Active(called.jobs[i].status);
    }
    assert !Conflicts(called.jobs, called.jobs[i].key, i);
    hide Apply, SweptRows, Cleaned, Conflicts, PauseAfter, EventsAfter, DestsAfter;
  }

  // What ends the call, for the row it has taken.
  lemma DeliversQuietly(s: System, w: nat, i: nat, course: Course, around: Surroundings)
    requires Invariants.Sound(s) && AtHead(s, w) && Takeable(s, w, i)
    requires Undisturbed(around) && 0.0 <= around.jitter < 1.0 && Claims(course) && !course.GaveBack?
    requires Run(s, Lead(course.taking, course.ticks, around, w)) == Waited(s, w, i)
    requires course.Delivered? <==> MaySend(Waited(s, w, i), w, around.mediaExists)
    ensures QuietDelivery(s, w, i, around, Run(s, StepsOf(course, around, w)))
    ensures w in Run(s, StepsOf(course, around, w)).workers
  {
    var lead := Lead(course.taking, course.ticks, around, w);
    var begin := BeginSend(w, around.mediaExists);
    Invariants.RunSound(s, lead);
    RunExtend(s, lead, begin);
    assert course.Delivered? <==> (s.jobs[i].hasMedia ==> around.mediaExists) by { hide Run, Lead; }
    if course.NotCalled? {
      FailsQuietly(s, w, i);
    } else {
      CallsQuietly(s, w, i, around.mediaExists);
      CallEndsQuietly(s, w, i, lead, around);
      assert StepsOf(course, around, w)
        == lead + [begin] + [FinishSend(w, around.outcome, around.jitter)] by { hide Run, Lead; }
    }
    hide Run, Lead, Invariants.Sound, Waited, Apply;
  }

  lemma CallEndsQuietly(s: System, w: nat, i: nat, lead: seq<Step>, around: Surroundings)
    requires AtHead(s, w) && Takeable(s, w, i) && WellFormed(Waited(s, w, i).jobs) && 0.0 <= around.jitter < 1.0
    requires s.jobs[i].hasMedia ==> around.mediaExists
    requires Run(s, lead + [BeginSend(w, around.mediaExists)]) == Called(s, w, i)
    ensures var called := lead + [BeginSend(w, around.mediaExists)];
      var after := Run(s, called + [FinishSend(w, around.outcome, around.jitter)]);
      QuietDelivery(s, w, i, around, after) && w in after.workers
  {
    AnswersQuietly(s, w, i, around);
    RunExtend(s, lead + [BeginSend(w, around.mediaExists)], FinishSend(w, around.outcome, around.jitter));
    hide Run, Waited, Apply, AnswerRecorded, Called;
  }

  lemma StopsQuietly(s: System, w: nat)
    requires AtHead(s, w) && SeesPause(s, s.workers[w].config)
    ensures Run(s, [CheckPause(w)]) == s
  {
    Scenarios.RunOne(s, CheckPause(w));
    hide Run;
  }

  lemma TakesByCourse(s: System, w: nat, course: Course, around: Surroundings) returns (choice: Option<nat>)
    requires AtHead(s, w) && Undisturbed(around) && Fits(s, course, around, w) && !course.SawPause?
    ensures choice.Some? <==> Claims(course)
    ensures choice.None? ==>
      (forall i: nat :: !Takeable(s, w, i)) && Run(s, Claiming(course.taking, around.gaps, w)) == FoundNone(s, w)
    ensures choice.Some? ==>
      && FirstTakeable(s, w, choice.value)
      && Run(s, Claiming(course.taking, around.gaps, w)) == Taken(s, w, choice.value)
  {
    var looking := Looking(course.taking.cleared, NO_GAPS, w);
    assert looking + NO_GAPS.reading == looking;
    LooksQuietly(s, w, course.taking.cleared);
    assert course.taking == Taking(course.taking.cleared, s.clock);
    TakesQuietly(s, w, course.taking.cleared);
    ChoosesFirst(s, w);
    hide Run, Claiming, NextClaim, SweptRows;
    choice := ClaimChoice(Prepared(s, w), w, s.clock);
  }

  lemma {:induction false} NobodyAsks(naps: seq<seq<Step>>, ticks: seq<nat>, w: nat)
    requires NothingSaid(naps)
    ensures RequestStop(w) !in Sleeping(naps, ticks)
  {
    if ticks != [] {
      NobodyAsks(naps, ticks[..|ticks| - 1], w);
    }
  }

  lemma WaitsByCourse(s: System, w: nat, course: Course, around: Surroundings, i: nat)
    requires AtHead(s, w) && Undisturbed(around) && Fits(s, course, around, w) && Claims(course) && i < |s.jobs|
    requires Run(s, Claiming(course.taking, around.gaps, w)) == Taken(s, w, i)
    ensures !course.GaveBack? && Run(s, Lead(course.taking, course.ticks, around, w)) == Waited(s, w, i)
  {
    var claiming, sleeping := Claiming(course.taking, around.gaps, w), Sleeping(around.naps, course.ticks);
    NobodyAsks(around.naps, course.ticks, w);
    assert RequestStop(w) !in claiming by { hide Run; }
    SleepsQuietly(Taken(s, w, i), around.naps, course.ticks);
    RunConcat(s, claiming, sleeping);
    hide Run, Claiming, Sleeping, SweptRows, Cleaned;
  }

  lemma QuietlyDone(s: System, w: nat, course: Course, around: Surroundings, r: ProcessResult, after: System)
    requires w in s.workers && 0.0 <= around.jitter < 1.0
    requires after == Run(s, StepsOf(course, around, w)) && Fits(s, course, around, w)
    requires (r == Returned(false) <==> !Claims(course)) && (r.Threw? ==> w !in after.workers)
    ensures Invariants.Sound(s) && AtHead(s, w) && Undisturbed(around) ==> QuietCall(s, w, around, r, after)
  {
    if Invariants.Sound(s) && AtHead(s, w) && Undisturbed(around) {
      if course.SawPause? {
        StopsQuietly(s, w);
        hide Run;
      } else {
        var choice := TakesByCourse(s, w, course, around);
        if Claims(course) {
          WaitsByCourse(s, w, course, around, choice.value);
          DeliversQuietly(s, w, choice.value, course, around);
        }
        hide Run, StepsOf, Lead, Claiming, Takeable, FoundNone, QuietDelivery, ComesFirst;
      }
    }
  }
}
