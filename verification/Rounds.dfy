/**
 * One call of the worker's processOnce as a run of steps: its own, in the order and with the
 * parameters the code gives them, and between them whatever the others do.
 */
module Rounds {
  import opened Prelude
  import opened Jobs
  import opened Statements
  import opened System
  import Delivery

  // Threw: a refused transition escaped processOnce and ended the process.
  datatype ProcessResult = Returned(processed: bool) | Threw

  // What other processes do between the statements at the head of processOnce: before an expired
  // pause is removed, before the clock is read, and before each of the three transactions.
  datatype Gaps = Gaps(
    clearing: seq<Step>, reading: seq<Step>, promoting: seq<Step>, cancelling: seq<Step>, claiming: seq<Step>)

  // What the environment does to one call of ProcessOnce.
  datatype Surroundings = Surroundings(
    gaps: Gaps, naps: seq<seq<Step>>, mediaExists: bool, whileSending: seq<Step>, outcome: Outcome, jitter: real)

  // One round of the worker loop: one ProcessOnce, and what happens during the poll sleep after
  // a round that found nothing to do.
  datatype Round = Round(around: Surroundings, whileIdle: seq<Step>)

  // ----- What one call does, step by step -----

  // The part up to the claim: whether an expired pause was removed, and what the clock read.
  datatype Taking = Taking(cleared: bool, now: Instant)

  // How a call went. `ticks` are the sleeps of the pacing loop.
  datatype Course =
    | SawPause
    | FoundNothing(taking: Taking)
    | GaveBack(taking: Taking, ticks: seq<nat>)
    | NotCalled(taking: Taking, ticks: seq<nat>)
    | Delivered(taking: Taking, ticks: seq<nat>)

  ghost function Looking(cleared: bool, gaps: Gaps, id: nat): seq<Step> {
    [CheckPause(id)] + if cleared then gaps.clearing + [ClearPause(id)] else []
  }

  ghost function Preparing(gaps: Gaps, now: Instant): seq<Step> {
    gaps.reading + gaps.promoting + [Promote(now)] + gaps.cancelling + [CancelDisabled] + gaps.claiming
  }

  ghost function Claiming(taking: Taking, gaps: Gaps, id: nat): seq<Step> {
    Looking(taking.cleared, gaps, id) + (Preparing(gaps, taking.now) + [Claim(id, taking.now)])
  }

  // The k-th sleep takes ticks[k], and naps[k] is what the others do meanwhile.
  ghost function Sleeping(naps: seq<seq<Step>>, ticks: seq<nat>): seq<Step> {
    if ticks == [] then []
    else
      var n := |ticks| - 1;
      Sleeping(naps, ticks[..n]) + ((if n < |naps| then naps[n] else []) + [Tick(ticks[n])])
  }

  // Everything up to the end of the pacing loop.
  ghost function Lead(taking: Taking, ticks: seq<nat>, around: Surroundings, id: nat): seq<Step> {
    Claiming(taking, around.gaps, id) + Sleeping(around.naps, ticks)
  }

  // What follows the pacing.
  ghost function Tail(course: Course, around: Surroundings, id: nat): seq<Step> {
    match course
    case SawPause => []
    case FoundNothing(_) => []
    case GaveBack(_, _) => [PutBack(id)]
    case NotCalled(_, _) => [BeginSend(id, around.mediaExists)]
    case Delivered(_, _) =>
      [BeginSend(id, around.mediaExists)] + around.whileSending + [FinishSend(id, around.outcome, around.jitter)]
  }

  // The steps of a call: its own, each with the environment's own parameters, and the others'.
  ghost function StepsOf(course: Course, around: Surroundings, id: nat): seq<Step> {
    match course
    case SawPause => [CheckPause(id)]
    case FoundNothing(taking) => Claiming(taking, around.gaps, id)
    case _ => Lead(course.taking, course.ticks, around, id) + Tail(course, around, id)
  }

  predicate Claims(course: Course) { !course.SawPause? && !course.FoundNothing? }

  // The steps of so many rounds of the loop: after a call that claimed nothing it sleeps.
  ghost function LoopSteps(courses: seq<Course>, rounds: seq<Round>, pollMs: nat, id: nat): seq<Step>
    requires |courses| <= |rounds|
  {
    if courses == [] then []
    else
      var n := |courses| - 1;
      LoopSteps(courses[..n], rounds, pollMs, id) + StepsOf(courses[n], rounds[n].around, id)
      + if Claims(courses[n]) then [] else rounds[n].whileIdle + [Tick(pollMs)]
  }

  lemma OneMoreRound(courses: seq<Course>, course: Course, rounds: seq<Round>, pollMs: nat, id: nat)
    requires |courses| < |rounds|
    ensures LoopSteps(courses + [course], rounds, pollMs, id)
      == LoopSteps(courses, rounds, pollMs, id) + StepsOf(course, rounds[|courses|].around, id)
         + if Claims(course) then [] else rounds[|courses|].whileIdle + [Tick(pollMs)]
    ensures forall n :: 0 <= n <= |courses| ==> (courses + [course])[..n] == courses[..n]
  {
    assert (courses + [course])[..|courses|] == courses;
  }

  // After these rounds the worker is at the head of its loop and nobody has asked it to stop.
  ghost predicate GoesOn(start: System, courses: seq<Course>, rounds: seq<Round>, pollMs: nat, id: nat)
    requires |courses| <= |rounds|
  {
    var s := Run(start, LoopSteps(courses, rounds, pollMs, id));
    id in s.workers && s.workers[id].hold.Idle? && s.workers[id].gate.Ready? && !s.workers[id].stopping
  }

  // Every round so far began so, and its call took the course it had to.
  ghost predicate InTurn(start: System, courses: seq<Course>, rounds: seq<Round>, pollMs: nat, id: nat)
    requires |courses| <= |rounds|
  {
    forall n :: 0 <= n < |courses| ==>
      && GoesOn(start, courses[..n], rounds, pollMs, id)
      && Fits(Run(start, LoopSteps(courses[..n], rounds, pollMs, id)), courses[n], rounds[n].around, id)
  }

  lemma InTurnExtend(
    start: System, courses: seq<Course>, course: Course, rounds: seq<Round>, pollMs: nat, id: nat)
    requires |courses| < |rounds| && InTurn(start, courses, rounds, pollMs, id)
    requires GoesOn(start, courses, rounds, pollMs, id)
    requires Fits(Run(start, LoopSteps(courses, rounds, pollMs, id)), course, rounds[|courses|].around, id)
    ensures InTurn(start, courses + [course], rounds, pollMs, id)
  {
    hide LoopSteps, Run, GoesOn, Fits;
    assert forall n :: 0 <= n <= |courses| ==> (courses + [course])[..n] == courses[..n];
    assert courses[..|courses|] == courses;
  }

  // A live worker is held back by any reason but a rate limit, and by an instant still to come.
  ghost predicate SeesPause(s: System, config: Config) {
    && !config.dryRun
    && ((s.pause.reason.Some? && s.pause.reason.value != PausedRateLimited)
        || (s.pause.until.Some? && s.clock < s.pause.until.value))
  }

  ghost predicate Holds(s: System, id: nat) {
    id in s.workers && s.workers[id].hold.Pacing?
  }

  // The checks right before the send call: the group is still in use and the media is there.
  ghost predicate MaySend(s: System, id: nat, mediaExists: bool) {
    && Holds(s, id)
    && var claimed, dests := s.workers[id].hold.claimed, s.dests;
       && claimed.destination in dests && dests[claimed.destination].enabled && dests[claimed.destination].canSend
       && (claimed.hasMedia ==> mediaExists)
  }

  // The course of a call from `start`, exactly: it stops at a pause that is in force, removes one
  // that has expired, and goes on to claim with the clock read then. The job it has claimed goes back
  // exactly when somebody had asked for a stop by the end of the pacing; otherwise the send call goes
  // out exactly when the checks right before it pass. Undisturbed, the pacing ends on time.
  ghost predicate Fits(start: System, course: Course, around: Surroundings, id: nat) {
    && id in start.workers
    && var worker := start.workers[id];
       && (course.SawPause? <==> SeesPause(start, worker.config))
       && (!course.SawPause? ==>
             && (course.taking.cleared <==> !worker.config.dryRun && start.pause.until.Some?)
             && course.taking.now
                == Run(start, Looking(course.taking.cleared, around.gaps, id) + around.gaps.reading).clock
             && (Claims(course) <==> Holds(Run(start, Claiming(course.taking, around.gaps, id)), id)))
       && (Claims(course) ==>
             var lead := Lead(course.taking, course.ticks, around, id);
             && (course.GaveBack? <==> RequestStop(id) in lead)
             && (course.Delivered? <==>
                   RequestStop(id) !in lead && MaySend(Run(start, lead), id, around.mediaExists))
             && (!course.GaveBack? && NothingSaid(around.naps) ==>
                   Run(start, lead).clock
                   == PacedTo(Run(start, Claiming(course.taking, around.gaps, id)).clock,
                              worker.config.sendIntervalMs, worker.lastFinish)))
  }

  // ----- The pacing loop -----

  lemma OneMoreNap(naps: seq<seq<Step>>, ticks: seq<nat>, ms: nat)
    ensures Sleeping(naps, ticks + [ms])
      == Sleeping(naps, ticks) + ((if |ticks| < |naps| then naps[|ticks|] else []) + [Tick(ms)])
  {
    assert (ticks + [ms])[..|ticks|] == ticks;
  }

  predicate NothingSaid(naps: seq<seq<Step>>) {
    forall i :: 0 <= i < |naps| ==> naps[i] == []
  }

  // When an undisturbed worker that has waited for its interval goes on.
  function PacedTo(now: Instant, intervalMs: int, lastFinish: Instant): Instant {
    if intervalMs <= 0 || lastFinish == 0 then now else Max(now, lastFinish + intervalMs)
  }

  predicate RoundOk(round: Round, id: nat) {
    Admissible(round.around, id) && AllForeign(round.whileIdle, id)
  }

  predicate RoundSafe(round: Round) {
    NobodyCrashes(round.around) && NoCrash(round.whileIdle)
  }

  // A step some other process or callback can take; a signal may ask this worker to stop.
  predicate Foreign(step: Step, id: nat) {
    (step.CheckPause? || step.ClearPause? || step.Claim? || step.PutBack? || step.BeginSend? || step.FinishSend?
     || step.Crash? || step.Exit?)
      ==> step.worker != id
  }

  predicate AllForeign(steps: seq<Step>, id: nat) {
    forall i :: 0 <= i < |steps| ==> Foreign(steps[i], id)
  }

  predicate GapsForeign(gaps: Gaps, id: nat) {
    && AllForeign(gaps.clearing, id) && AllForeign(gaps.reading, id) && AllForeign(gaps.promoting, id)
    && AllForeign(gaps.cancelling, id) && AllForeign(gaps.claiming, id)
  }

  predicate Admissible(around: Surroundings, id: nat) {
    && GapsForeign(around.gaps, id)
    && (forall i :: 0 <= i < |around.naps| ==> AllForeign(around.naps[i], id))
    && AllForeign(around.whileSending, id) && 0.0 <= around.jitter < 1.0
  }

  lemma {:induction false} LoopNobodyCrashes(courses: seq<Course>, rounds: seq<Round>, pollMs: nat, id: nat)
    requires |courses| <= |rounds| && forall i :: 0 <= i < |rounds| ==> RoundOk(rounds[i], id) && RoundSafe(rounds[i])
    ensures NoCrash(LoopSteps(courses, rounds, pollMs, id))
  {
    if courses != [] {
      var n := |courses| - 1;
      LoopNobodyCrashes(courses[..n], rounds, pollMs, id);
      NobodyCrashesHere(courses[n], rounds[n].around, id);
      hide StepsOf;
    }
  }

  predicate NoCrash(steps: seq<Step>) {
    forall i :: 0 <= i < |steps| ==> !steps[i].Crash?
  }

  lemma {:induction false} SleepingIsForeign(naps: seq<seq<Step>>, ticks: seq<nat>, id: nat)
    requires forall i :: 0 <= i < |naps| ==> AllForeign(naps[i], id)
    ensures AllForeign(Sleeping(naps, ticks), id)
    ensures (forall i :: 0 <= i < |naps| ==> NoCrash(naps[i])) ==> NoCrash(Sleeping(naps, ticks))
  {
    if ticks != [] {
      SleepingIsForeign(naps, ticks[..|ticks| - 1], id);
    }
  }

  lemma NobodyCrashesHere(course: Course, around: Surroundings, id: nat)
    requires NobodyCrashes(around) && Admissible(around, id)
    ensures NoCrash(StepsOf(course, around, id))
  {
    if Claims(course) { SleepingIsForeign(around.naps, course.ticks, id); }
    if !course.SawPause? { assert NoCrash(Claiming(course.taking, around.gaps, id)); }
    hide Sleeping, Claiming;
  }

  predicate NoGapCrash(gaps: Gaps) {
    && NoCrash(gaps.clearing) && NoCrash(gaps.reading) && NoCrash(gaps.promoting)
    && NoCrash(gaps.cancelling) && NoCrash(gaps.claiming)
  }

  predicate NobodyCrashes(around: Surroundings) {
    && NoGapCrash(around.gaps)
    && (forall i :: 0 <= i < |around.naps| ==> NoCrash(around.naps[i])) && NoCrash(around.whileSending)
  }

  // Other processes leave a worker's record alone, except that they may ask it to stop; an open
  // connection lets a daemon that waits for one begin.
  lemma ForeignKeepsWorker(s: System, step: Step, id: nat)
    requires id in s.workers && Foreign(step, id)
    ensures id in Apply(s, step).workers
    ensures var before, after := s.workers[id], Apply(s, step).workers[id];
      && after == before.(stopping := after.stopping, gate := after.gate)
      && (after.stopping <==> before.stopping || step == Step.RequestStop(id))
      && (after.gate == before.gate || (before.gate.Connecting? && after.gate.Ready?))
  {
    hide ApplyFinishSend, Transition, ManualRetry, Insert;
    if step.FinishSend? {
      if step.worker in s.workers && s.workers[step.worker].hold.Sending? {
        Delivery.FinishKeepsOthers(s, step.worker, step.outcome, step.jitter);
      } else {
        Delivery.NothingToFinish(s, step.worker, step.outcome, step.jitter);
      }
    }
  }

  lemma {:induction false} ForeignRunKeepsWorker(s: System, steps: seq<Step>, id: nat)
    requires id in s.workers && AllForeign(steps, id)
    ensures id in Run(s, steps).workers
    ensures var before, after := s.workers[id], Run(s, steps).workers[id];
      && after == before.(stopping := after.stopping, gate := after.gate)
      && (after.stopping <==> before.stopping || Step.RequestStop(id) in steps)
      && (after.gate == before.gate || (before.gate.Connecting? && after.gate.Ready?))
  {
    if steps != [] {
      var n := |steps| - 1;
      ForeignRunKeepsWorker(s, steps[..n], id);
      ForeignKeepsWorker(Run(s, steps[..n]), steps[n], id);
      assert steps == steps[..n] + [steps[n]];
    }
  }
}
