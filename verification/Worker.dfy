/**
 * The queue worker, run against a database other processes keep changing. What they do at each
 * await, what the transport answers, whether staged media exists and the jitter draw are
 * parameters; every method's effect is a run of System steps.
 */
module Worker {
  import opened Prelude
  import opened Jobs
  import opened Statements
  import opened RetryPolicy
  import opened System
  import opened Storage
  import opened Outcomes
  import opened Rounds
  import opened Quiet
  import Invariants
  import Resend
  import Scenarios
  import Blocking
  import CleanStop
  import Fairness

  lemma Started(s: System, config: Config)
    requires 0 !in s.workers
    ensures Apply(s, StartDaemon(config)) == s.(
      jobs := Recovered(s.jobs), workers := s.workers[0 := FreshDaemon(config)],
      trace := s.trace + [WorkerStarted(0, config.sendIntervalMs)])
  {
  }

  lemma DryDaemon(config: Config)
    requires config.dryRun
    ensures FreshDaemon(config) == Worker(config, false, 0, Idle, Ready)
  {
  }

  lemma ConnectedDaemon(s: System, connecting: seq<Step>, config: Config)
    requires 0 in s.workers && s.workers[0] == FreshDaemon(config) && !config.dryRun && AllForeign(connecting, 0)
    ensures var after := Run(s, connecting + [ConnectionOpened]);
      0 in after.workers && after.workers[0] == Worker(config, after.workers[0].stopping, 0, Idle, Ready)
  {
    ForeignRunKeepsWorker(s, connecting, 0);
    RunExtend(s, connecting, ConnectionOpened);
    hide Run;
  }

  // ----- Claims of one worker -----

  function ClaimsBy(trace: seq<Event>, w: nat): nat {
    if trace == [] then 0
    else
      var last := trace[|trace| - 1];
      ClaimsBy(trace[..|trace| - 1], w) + if last.Claimed? && last.worker == w then 1 else 0
  }

  lemma {:induction false} ClaimsByExtend(before: seq<Event>, after: seq<Event>, w: nat)
    requires before <= after
    requires forall i :: |before| <= i < |after| ==> !(after[i].Claimed? && after[i].worker == w)
    ensures ClaimsBy(after, w) == ClaimsBy(before, w)
  {
    if before == after {
    } else {
      ClaimsByExtend(before, after[..|after| - 1], w);
    }
  }

  predicate ClaimsNothing(steps: seq<Step>, w: nat) {
    forall i :: 0 <= i < |steps| && steps[i].Claim? ==> steps[i].worker != w
  }

  lemma {:induction false} NoClaimNoCount(s: System, steps: seq<Step>, w: nat)
    requires ClaimsNothing(steps, w)
    ensures ClaimsBy(Run(s, steps).trace, w) == ClaimsBy(s.trace, w)
  {
    if steps != [] {
      var n := |steps| - 1;
      var before, after := Run(s, steps[..n]), Run(s, steps);
      NoClaimNoCount(s, steps[..n], w);
      Resend.StepExtends(before, steps[n], 0);
      forall i | |before.trace| <= i < |after.trace| ensures !(after.trace[i].Claimed? && after.trace[i].worker == w) {
        if after.trace[i].Claimed? {
          Blocking.OnlyClaimsClaim(before, steps[n], i);
        }
      }
      ClaimsByExtend(before.trace, after.trace, w);
    }
  }

  lemma {:induction false} NoCrashNobodyDies(s: System, steps: seq<Step>)
    requires NoCrash(steps)
    ensures CleanStop.NobodyDiesBusy(s, steps)
  {
    if steps != [] {
      NoCrashNobodyDies(s, steps[..|steps| - 1]);
    }
  }

  class QueueWorker {
    const id: nat
    const config: Config
    const database: Database
    const jobs: JobRepository
    const destinations: DestinationRepository
    var stopping: bool
    var running: bool
    var lastSendFinishedAt: Instant

    // The system's record of this worker agrees with its fields.
    predicate Registered(hold: Hold, gate: Gate)
      reads this, database
    {
      id in database.workers
      && database.workers[id] == Worker(config, stopping, lastSendFinishedAt, hold, gate)
    }

    // At the head of its loop.
    ghost predicate Valid()
      reads this, database
    {
      Wired() && Registered(Idle, Ready) && (id != 0 ==> config.dryRun)
    }

    // The system's record of this worker at the end of a delivery.
    predicate JustFinished()
      reads this, database
    {
      id in database.workers
      && database.workers[id] == Worker(config, stopping, database.clock, Idle, AfterClaim(id))
    }

    predicate Wired() { jobs.database == database && destinations.database == database }

    // The daemon's worker, created once its process holds the lock, has recovered the queue and,
    // unless it is in dry-run mode, is connected. `connecting` is what the others do until then.
    constructor Daemon(config: Config, database: Database, connecting: seq<Step>)
      requires 0 !in database.workers && AllForeign(connecting, 0)
      modifies database
      ensures Valid() && this.config == config && this.database == database && id == 0
      ensures database.View() == Run(
        Apply(old(database.View()), StartDaemon(config)),
        if config.dryRun then [] else connecting + [ConnectionOpened])
    {
      this.id := 0;
      this.config := config;
      this.database := database;
      var repository := new JobRepository(database);
      this.jobs := repository;
      this.destinations := new DestinationRepository(database);
      this.stopping, this.running, this.lastSendFinishedAt := false, false, 0;
      new;
      Started(database.View(), config);
      hide Run, Apply, Recovered, AllForeign, FreshDaemon;
      var recovered := repository.RecoverStaleProcessing();
      database.workers := database.workers[0 := FreshDaemon(config)];
      database.trace := database.trace + [WorkerStarted(0, config.sendIntervalMs)];
      if !config.dryRun {
        ConnectedDaemon(database.View(), connecting, config);
        database.Meanwhile(connecting + [ConnectionOpened]);
        stopping := database.workers[0].stopping;
      } else {
        Scenarios.RunNone(database.View());
        DryDaemon(config);
      }
    }

    // The worker of the command line's process, for the dry-run job it has just created.
    constructor Helper(job: nat, config: Config, database: Database)
      requires CanHelp(database.View(), job, config)
      modifies database
      ensures Valid() && this.config == config && this.database == database && id == job + 1 && !stopping
      ensures database.View() == Apply(old(database.View()), StartHelper(job, config))
    {
      this.id := job + 1;
      this.config := config;
      this.database := database;
      this.jobs := new JobRepository(database);
      this.destinations := new DestinationRepository(database);
      this.stopping, this.running, this.lastSendFinishedAt := false, false, 0;
      new;
      database.workers := database.workers[job + 1 := Worker(config, false, 0, Idle, Ready)];
      database.helped := database.helped + {job};
      database.trace := database.trace + [WorkerStarted(job + 1, config.sendIntervalMs)];
    }

    method RequestStop()
      requires Valid()
      modifies this`stopping, database`workers
      ensures Valid() && stopping
      ensures database.View() == Apply(old(database.View()), Step.RequestStop(id))
    {
      stopping := true;
      database.workers := database.workers[id := database.workers[id].(stopping := true)];
    }

    // An await: the others run, and may have asked this worker to stop meanwhile.
    method Await(others: seq<Step>, ghost hold: Hold, ghost gate: Gate)
      requires Registered(hold, gate) && !gate.Connecting? && AllForeign(others, id)
      modifies this`stopping, database
      ensures Registered(hold, gate) && database.View() == Run(old(database.View()), others)
      ensures stopping <==> old(stopping) || Step.RequestStop(id) in others
      ensures old(database.clock) <= database.clock
    {
      ForeignRunKeepsWorker(database.View(), others, id);
      Fairness.RunNeverRunsBack(database.View(), others);
      database.Meanwhile(others);
      stopping := database.workers[id].stopping;
    }

    // The same between two statements, as one more piece of a run from `start`.
    method Pass(others: seq<Step>, ghost gate: Gate, ghost start: System, ghost steps: seq<Step>)
      returns (ghost done: seq<Step>)
      requires Registered(Idle, gate) && !gate.Connecting? && AllForeign(others, id)
      requires database.View() == Run(start, steps) && (stopping <==> Step.RequestStop(id) in steps)
      modifies this`stopping, database
      ensures Registered(Idle, gate) && done == steps + others && database.View() == Run(start, done)
      ensures stopping <==> Step.RequestStop(id) in done
      ensures old(database.clock) <= database.clock
    {
      RunConcat(start, steps, others);
      done := steps + others;
      Await(others, Idle, gate);
    }

    // Whether sending is paused; an expired rate-limit pause is removed, by what was read before
    // the others came between.
    method IsGloballyPaused(gaps: Gaps) returns (paused: bool, since: Instant, ghost cleared: bool)
      requires Valid() && !stopping && GapsForeign(gaps, id)
      modifies this`stopping, database
      ensures var before := old(database.pause);
        paused <==>
          && !config.dryRun
          && ((before.reason.Some? && before.reason.value != PausedRateLimited)
              || (before.until.Some? && old(database.clock) < before.until.value))
      ensures cleared <==> !paused && !config.dryRun && old(database.pause).until.Some?
      ensures paused ==> database.View() == old(database.View()) && Registered(Idle, Ready)
      ensures !paused ==> Registered(Idle, Checked(since)) && since == old(database.clock) <= database.clock
      ensures database.View() == Run(old(database.View()), Looking(cleared, gaps, id))
      ensures stopping <==> Step.RequestStop(id) in Looking(cleared, gaps, id)
    {
      ghost var start := database.View();
      since, cleared := database.clock, false;
      Scenarios.RunOne(start, CheckPause(id));
      assert Looking(false, gaps, id) == [CheckPause(id)];
      hide Run;
      var reason := database.pause.reason;
      if !config.dryRun && reason.Some? && !reason.value.PausedRateLimited? {
        return true, since, cleared;
      }
      if config.dryRun || database.pause.until.None? {
        database.workers := database.workers[id := database.workers[id].(gate := Checked(database.clock))];
        return false, since, cleared;
      }
      if database.clock < database.pause.until.value {
        return true, since, cleared;
      }
      database.workers := database.workers[
        id := database.workers[id].(gate := Clearing(reason == Some(PausedRateLimited), database.clock))];
      RemovePause(gaps, reason == Some(PausedRateLimited), since, start);
      return false, since, true;
    }

    // Removes the expired pause, by what was read before the others came between.
    method RemovePause(gaps: Gaps, limited: bool, since: Instant, ghost start: System)
      requires Registered(Idle, Clearing(limited, since)) && !stopping && GapsForeign(gaps, id)
      requires database.View() == Run(start, [CheckPause(id)])
      modifies this`stopping, database
      ensures Registered(Idle, Checked(since)) && old(database.clock) <= database.clock
      ensures database.View() == Run(start, Looking(true, gaps, id))
      ensures stopping <==> Step.RequestStop(id) in Looking(true, gaps, id)
    {
      hide Run;
      ghost var steps := Pass(gaps.clearing, Clearing(limited, since), start, [CheckPause(id)]);
      RunExtend(start, steps, ClearPause(id));
      database.pause := database.pause.(until := None);
      if limited {
        database.pause := database.pause.(reason := None);
      }
      database.workers := database.workers[id := database.workers[id].(gate := Checked(since))];
      assert steps + [ClearPause(id)] == Looking(true, gaps, id);
    }

    // One sleep of the worker, with whatever the others do meanwhile.
    method Nap(others: seq<Step>, ms: nat, ghost hold: Hold, ghost gate: Gate)
      requires Registered(hold, gate) && !gate.Connecting? && AllForeign(others, id)
      modifies this`stopping, database
      ensures Registered(hold, gate) && database.View() == Run(old(database.View()), others + [Tick(ms)])
      ensures stopping <==> old(stopping) || Step.RequestStop(id) in others
      ensures old(database.clock) + ms <= database.clock
      ensures others == [] ==> database.clock == old(database.clock) + ms
    {
      NapPasses(database.View(), others, ms);
      Await(others + [Tick(ms)], hold, gate);
    }

    // One more sleep of the pacing loop.
    method NapOn(naps: seq<seq<Step>>, i: nat, ms: nat, ghost hold: Hold, ghost start: System, ghost ticks: seq<nat>)
      returns (ghost more: seq<nat>)
      requires Registered(hold, AfterClaim(id)) && forall i :: 0 <= i < |naps| ==> AllForeign(naps[i], id)
      requires i == |ticks| && database.View() == Run(start, Sleeping(naps, ticks))
      modifies this`stopping, database
      ensures Registered(hold, AfterClaim(id)) && more == ticks + [ms]
      ensures var others := if i < |naps| then naps[i] else [];
        && Sleeping(naps, more) == Sleeping(naps, ticks) + (others + [Tick(ms)])
        && database.View() == Run(start, Sleeping(naps, more))
        && (stopping <==> old(stopping) || Step.RequestStop(id) in others)
      ensures old(database.clock) + ms <= database.clock
      ensures NothingSaid(naps) ==> database.clock == old(database.clock) + ms
    {
      hide Run;
      var others := if i < |naps| then naps[i] else [];
      RunConcat(start, Sleeping(naps, ticks), others + [Tick(ms)]);
      OneMoreNap(naps, ticks, ms);
      Nap(others, ms, hold, AfterClaim(id));
      more := ticks + [ms];
    }

    // Waits until the interval since the last send has passed, or somebody asks for a stop. Each
    // nap lets others run and takes at least its own length, so the wait ends.
    method Pace(naps: seq<seq<Step>>, ghost hold: Hold) returns (proceed: bool, ghost ticks: seq<nat>)
      requires Registered(hold, AfterClaim(id)) && forall i :: 0 <= i < |naps| ==> AllForeign(naps[i], id)
      modifies this`stopping, database
      ensures Registered(hold, AfterClaim(id))
      ensures database.View() == Run(old(database.View()), Sleeping(naps, ticks))
      ensures proceed <==> !stopping
      ensures stopping <==> old(stopping) || Step.RequestStop(id) in Sleeping(naps, ticks)
      ensures proceed ==>
        config.sendIntervalMs <= 0 || lastSendFinishedAt == 0
        || lastSendFinishedAt + config.sendIntervalMs <= database.clock
      ensures proceed && NothingSaid(naps) ==>
        database.clock == PacedTo(old(database.clock), config.sendIntervalMs, lastSendFinishedAt)
    {
      ticks := [];
      assert Run(database.View(), []) == database.View();
      if config.sendIntervalMs <= 0 || lastSendFinishedAt == 0 {
        return !stopping, ticks;
      }
      var waitMs := Max(0, config.sendIntervalMs - (database.clock - lastSendFinishedAt));
      if waitMs == 0 {
        return !stopping, ticks;
      }
      var deadline := database.clock + waitMs;
      var i := 0;
      hide Run;
      while !stopping && database.clock < deadline
        invariant i == |ticks|
        invariant Registered(hold, AfterClaim(id))
        invariant database.View() == Run(old(database.View()), Sleeping(naps, ticks))
        invariant lastSendFinishedAt == old(lastSendFinishedAt)
        invariant stopping <==> old(stopping) || Step.RequestStop(id) in Sleeping(naps, ticks)
        invariant NothingSaid(naps) ==> database.clock <= deadline
        decreases deadline - database.clock
      {
        ticks := NapOn(naps, i, Min(100, deadline - database.clock), hold, old(database.View()), ticks);
        i := i + 1;
      }
      return !stopping, ticks;
    }

    // Ends a hold with a transition that does not follow a send; false means it threw.
    method SettleUnsent(j: nat, target: Status, change: Change) returns (ok: bool)
      requires jobs.database == database && id in database.workers
      requires database.workers[id].config == config && database.workers[id].stopping == stopping
      requires database.workers[id].lastFinish == lastSendFinishedAt && database.workers[id].gate == AfterClaim(id)
      modifies database`jobs, database`workers
      ensures database.View() == Settle(old(database.View()), id, j, target, change, lastSendFinishedAt)
      ensures ok <==> Settles(old(database.View()), j, target, change)
      ensures if ok then Registered(Idle, AfterClaim(id)) else id !in database.workers
    {
      var r := jobs.Transition(j, target, change);
      if r.Err? {
        database.workers := database.workers - {id};
        return false;
      }
      database.workers := database.workers[id := Worker(config, stopping, lastSendFinishedAt, Idle, AfterClaim(id))];
      return true;
    }

    // Records the failed delivery as the policy decides; false means the transition was refused
    // and the error escaped.
    method HandleError(
      j: nat, claimed: Job, errorClass: ErrorClass, retryAfterMs: Option<nat>, jitter: real) returns (ok: bool)
      requires Wired()
      requires Registered(Sending(j, claimed), AfterClaim(id)) && 0.0 <= jitter < 1.0
      modifies this`stopping, database
      ensures database.View() == ApplyError(old(database.View()), id, errorClass, retryAfterMs, jitter)
      ensures FailureRecorded(old(database.View()), database.View(), id, errorClass, retryAfterMs, jitter)
      ensures ok <==> Recordable(old(database.jobs), j, FailureStatus(errorClass, claimed))
      ensures if ok then JustFinished() else id !in database.workers
    {
      ErrorIsRecorded(database.View(), id, errorClass, retryAfterMs, jitter);
      var decision := DecideRetry(errorClass, claimed.attempts, claimed.maxAttempts,
                                  config.retryBaseMs, config.retryMaxMs, retryAfterMs, jitter);
      assert decision == WorkerDecision(database.workers[id], errorClass, retryAfterMs, jitter);
      hide DecideRetry, WorkerDecision, ApplyDecision, Recordable;
      match decision
      case RetryAfter(delayMs) => ok := RetryLater(j, claimed, errorClass, delayMs, false);
      case RateLimit(delayMs) => ok := RetryLater(j, claimed, errorClass, delayMs, true);
      case PauseAuth(delayMs) => ok := PauseForLogin(j, claimed, errorClass, delayMs);
      case Fail => ok := GiveUp(j, claimed, errorClass);
    }

    method RetryLater(j: nat, claimed: Job, errorClass: ErrorClass, delayMs: int, limited: bool) returns (ok: bool)
      requires jobs.database == database && Registered(Sending(j, claimed), AfterClaim(id))
      modifies database
      ensures database.View() ==
        ApplyDecision(old(database.View()), id, errorClass, if limited then RateLimit(delayMs) else RetryAfter(delayMs))
      ensures if ok then JustFinished() else id !in database.workers
    {
      hide Failure, Settles;
      var next := database.clock + delayMs;
      ok := RecordFailure(j, claimed, if limited then WaitingRateLimit else Status.Retry,
                          ErrorChange(errorClass, Some(next)));
      if ok && limited {
        database.pause := Pause(Some(PausedRateLimited), Some(next));
        database.trace := database.trace + [RateLimitPaused(j, next)];
      }
    }

    method PauseForLogin(j: nat, claimed: Job, errorClass: ErrorClass, delayMs: int) returns (ok: bool)
      requires jobs.database == database && Registered(Sending(j, claimed), AfterClaim(id))
      modifies this`stopping, database
      ensures database.View() == ApplyDecision(old(database.View()), id, errorClass, PauseAuth(delayMs))
      ensures if ok then JustFinished() else id !in database.workers
    {
      hide Failure, Settles;
      ok := RecordFailure(j, claimed, Status.Retry, ErrorChange(errorClass, Some(database.clock + delayMs)));
      if ok {
        database.pause := database.pause.(reason := Some(
          if errorClass.LoggedOut? then PausedLoggedOut else PausedAuthRequired));
        stopping := true;
        database.workers := database.workers[id := database.workers[id].(stopping := true)];
        database.trace := database.trace + [AuthPaused(j)];
      }
    }

    method GiveUp(j: nat, claimed: Job, errorClass: ErrorClass) returns (ok: bool)
      requires Wired() && Registered(Sending(j, claimed), AfterClaim(id))
      modifies database
      ensures database.View() == ApplyDecision(old(database.View()), id, errorClass, Fail)
      ensures if ok then JustFinished() else id !in database.workers
    {
      hide Failure, Settles;
      if errorClass.PermissionError? || errorClass.DestinationError? {
        destinations.SetCanSend(claimed.destination, false);
      }
      ok := RecordFailure(j, claimed, Failed, ErrorChange(errorClass, None));
    }

    method RecordFailure(j: nat, claimed: Job, target: Status, change: Change) returns (ok: bool)
      requires jobs.database == database && Registered(Sending(j, claimed), AfterClaim(id))
      modifies database`jobs, database`workers, database`trace
      ensures ok <==> Settles(old(database.View()), j, target, change)
      ensures ok ==> database.View() == Failure(old(database.View()), id, target, change)
      ensures !ok ==> database.View() == Gone(old(database.View()), id)
      ensures if ok then JustFinished() else id !in database.workers
    {
      var r := jobs.Transition(j, target, change);
      if r.Err? {
        database.workers := database.workers - {id};
        return false;
      }
      database.workers := database.workers[id := Worker(config, stopping, database.clock, Idle, AfterClaim(id))];
      database.trace := database.trace + [ErrorHandled(j)] + [SendFinished(id, database.clock)];
      return true;
    }

    // The transport's answer: the success write, the catch clause and the finally clause.
    method FinishDelivery(j: nat, claimed: Job, outcome: Outcome, jitter: real) returns (ok: bool)
      requires Wired()
      requires Registered(Sending(j, claimed), AfterClaim(id)) && 0.0 <= jitter < 1.0
      modifies this`stopping, this`lastSendFinishedAt, database
      ensures database.View() == Apply(old(database.View()), FinishSend(id, outcome, jitter))
      ensures AnswerRecorded(old(database.View()), database.View(), id, outcome, jitter)
      ensures if ok then Registered(Idle, AfterClaim(id)) else id !in database.workers
    {
      AnswerIsRecorded(database.View(), id, outcome, jitter);
      ok := RecordAnswer(j, claimed, outcome, jitter);
      lastSendFinishedAt := database.clock;
    }

    method RecordAnswer(j: nat, claimed: Job, outcome: Outcome, jitter: real) returns (ok: bool)
      requires Wired()
      requires Registered(Sending(j, claimed), AfterClaim(id)) && 0.0 <= jitter < 1.0
      modifies this`stopping, database
      ensures database.View() == Apply(old(database.View()), FinishSend(id, outcome, jitter))
      ensures if ok then JustFinished() else id !in database.workers
    {
      hide ApplyError, ApplyAccepted;
      var live := !config.dryRun && !claimed.dryRun;
      if live && outcome.Rejected? {
        ok := HandleError(j, claimed, TransportClass(claimed, outcome.errorClass), outcome.retryAfterMs, jitter);
      } else {
        ok := RecordResult(j, claimed, if live then Sent else DryRun,
                           if live then RemoteMessage(outcome.number) else Simulated, jitter);
      }
    }

    // The success write; one that is refused is handled as an unexpected error.
    method RecordResult(j: nat, claimed: Job, target: Status, remote: RemoteId, jitter: real) returns (ok: bool)
      requires Wired()
      requires Registered(Sending(j, claimed), AfterClaim(id)) && 0.0 <= jitter < 1.0
      modifies this`stopping, database
      ensures database.View() == ApplyAccepted(old(database.View()), id, target, remote, jitter)
      ensures if ok then JustFinished() else id !in database.workers
    {
      hide ApplyError, Transition;
      database.trace := database.trace + [DeliveryAccepted(j)];
      var r := jobs.Transition(j, target, Change(Some(remote), None, None));
      if r.Ok? {
        database.workers := database.workers[id := Worker(config, stopping, database.clock, Idle, AfterClaim(id))];
        database.trace := database.trace + [SendFinished(id, database.clock)];
        ok := true;
      } else {
        ok := HandleError(j, claimed, UnknownTransient, None, jitter);
      }
    }

    // Claims the first eligible job, or the referenced one, as of an instant read before.
    method ClaimJob(now: Instant, reference: Option<nat>, ghost since: Instant) returns (taken: Option<nat>)
      requires Wired() && Registered(Idle, Checked(since)) && since <= now <= database.clock
      requires reference == OwnJob(id)
      modifies database`jobs, database`workers, database`trace
      ensures database.View() == Apply(old(database.View()), Step.Claim(id, now))
      ensures taken.None? ==> Registered(Idle, AfterClaim(id)) && database.trace == old(database.trace)
      ensures taken.Some? ==>
        && taken.value < |database.jobs|
        && Registered(Pacing(taken.value, database.jobs[taken.value]), AfterClaim(id))
        && database.trace == old(database.trace) + [Claimed(id, taken.value, now)]
    {
      hide NextClaim;
      taken := jobs.Claim(now, reference, config.dryRun);
      if taken.Some? {
        var j := taken.value;
        database.workers := database.workers[
          id := Worker(config, stopping, lastSendFinishedAt, Pacing(j, database.jobs[j]), AfterClaim(id))];
        database.trace := database.trace + [Claimed(id, j, now)];
      } else {
        database.workers := database.workers[
          id := Worker(config, stopping, lastSendFinishedAt, Idle, AfterClaim(id))];
      }
    }

    // Unless sending is paused: promotes what has come due, cancels what is blocked, and claims.
    // Each is a transaction of its own, and the others run in between.
    method TakeJob(reference: Option<nat>, gaps: Gaps) returns (taken: Option<nat>, ghost taking: Option<Taking>)
      requires Valid() && !stopping && reference == OwnJob(id) && GapsForeign(gaps, id)
      modifies this`stopping, database
      ensures Wired()
      ensures taking.None? ==>
        && taken.None? && database.View() == old(database.View())
        && Run(old(database.View()), [CheckPause(id)]) == database.View()
      ensures taking.Some? ==>
        && database.View() == Run(old(database.View()), Claiming(taking.value, gaps, id))
        && taking.value.now == Run(old(database.View()), Looking(taking.value.cleared, gaps, id) + gaps.reading).clock
        && (stopping <==> Step.RequestStop(id) in Claiming(taking.value, gaps, id))
      ensures taking.None? <==> SeesPause(old(database.View()), config)
      ensures taking.Some? ==>
        (taking.value.cleared <==> !config.dryRun && old(database.pause).until.Some?)
      ensures taken.None? ==> Registered(Idle, AfterClaim(id))
      ensures taken.Some? ==>
        && taken.value < |database.jobs|
        && Registered(Pacing(taken.value, database.jobs[taken.value]), AfterClaim(id))
      ensures ClaimsBy(database.trace, id) == ClaimsBy(old(database.trace), id) + if taken.Some? then 1 else 0
    {
      ghost var start := database.View();
      hide Run, Apply, GloballyPaused, ClaimsBy;
      taken, taking := None, None;
      var paused, since;
      ghost var cleared;
      paused, since, cleared := IsGloballyPaused(gaps);
      assert Looking(false, gaps, id) == [CheckPause(id)];
      if paused {
        return;
      }
      NoClaimNoCount(start, Looking(cleared, gaps, id), id);
      ghost var now;
      taken, now := PromoteAndClaim(reference, gaps, since, start, Looking(cleared, gaps, id));
      taking := Some(Taking(cleared, now));
    }

    method PromoteAndClaim(
      reference: Option<nat>, gaps: Gaps, ghost since: Instant, ghost start: System, ghost looking: seq<Step>)
      returns (taken: Option<nat>, now: Instant)
      requires Wired() && Registered(Idle, Checked(since)) && since <= database.clock
      requires reference == OwnJob(id) && GapsForeign(gaps, id)
      requires database.View() == Run(start, looking) && (stopping <==> Step.RequestStop(id) in looking)
      modifies this`stopping, database
      ensures var steps := looking + (Preparing(gaps, now) + [Step.Claim(id, now)]);
        database.View() == Run(start, steps) && (stopping <==> Step.RequestStop(id) in steps)
      ensures now == Run(start, looking + gaps.reading).clock
      ensures Wired()
      ensures taken.None? ==> Registered(Idle, AfterClaim(id))
      ensures taken.Some? ==>
        && taken.value < |database.jobs|
        && Registered(Pacing(taken.value, database.jobs[taken.value]), AfterClaim(id))
      ensures ClaimsBy(database.trace, id) == ClaimsBy(old(database.trace), id) + if taken.Some? then 1 else 0
    {
      hide Run, Apply, ClaimsBy, Promoted, DisabledCancelled;
      ghost var checked := database.View();
      now := Prepare(gaps, since, start, looking);
      ghost var steps := looking + Preparing(gaps, now);
      NothingClaimed(start, looking, Preparing(gaps, now), id);
      RunExtend(start, steps, Step.Claim(id, now));
      ghost var before := database.trace;
      taken := ClaimJob(now, reference, since);
      assert steps + [Step.Claim(id, now)] == looking + (Preparing(gaps, now) + [Step.Claim(id, now)]);
      if taken.Some? { OneMoreClaim(before, Claimed(id, taken.value, now), id); }
    }

    // Reads the clock, promotes what has come due and cancels what is blocked.
    method Prepare(gaps: Gaps, ghost since: Instant, ghost start: System, ghost looking: seq<Step>)
      returns (now: Instant)
      requires Wired() && Registered(Idle, Checked(since)) && since <= database.clock && GapsForeign(gaps, id)
      requires database.View() == Run(start, looking) && (stopping <==> Step.RequestStop(id) in looking)
      modifies this`stopping, database
      ensures database.View() == Run(start, looking + Preparing(gaps, now))
      ensures stopping <==> Step.RequestStop(id) in looking + Preparing(gaps, now)
      ensures now == Run(start, looking + gaps.reading).clock
      ensures Wired() && Registered(Idle, Checked(since)) && since <= now <= database.clock
    {
      hide Run, Apply, Promoted, DisabledCancelled;
      ghost var steps := Pass(gaps.reading, Checked(since), start, looking);
      now := database.clock;
      steps := Promote(gaps.promoting, now, since, start, steps);
      steps := Cancel(gaps.cancelling, since, start, steps);
      steps := Pass(gaps.claiming, Checked(since), start, steps);
      assert steps == looking + Preparing(gaps, now);
    }

    method Promote(gap: seq<Step>, now: Instant, ghost since: Instant, ghost start: System, ghost steps: seq<Step>)
      returns (ghost done: seq<Step>)
      requires Wired() && Registered(Idle, Checked(since)) && AllForeign(gap, id) && now <= database.clock
      requires database.View() == Run(start, steps) && (stopping <==> Step.RequestStop(id) in steps)
      modifies this`stopping, database
      ensures Wired() && Registered(Idle, Checked(since)) && old(database.clock) <= database.clock
      ensures done == steps + gap + [Step.Promote(now)] && database.View() == Run(start, done)
      ensures stopping <==> Step.RequestStop(id) in done
    {
      hide Run, Apply, Promoted;
      done := Pass(gap, Checked(since), start, steps);
      RunExtend(start, done, Step.Promote(now));
      Promotes(database.View(), now);
      var promoted := jobs.PromoteDueScheduled(now);
      done := done + [Step.Promote(now)];
    }

    method Cancel(gap: seq<Step>, ghost since: Instant, ghost start: System, ghost steps: seq<Step>)
      returns (ghost done: seq<Step>)
      requires Wired() && Registered(Idle, Checked(since)) && AllForeign(gap, id)
      requires database.View() == Run(start, steps) && (stopping <==> Step.RequestStop(id) in steps)
      modifies this`stopping, database
      ensures Wired() && Registered(Idle, Checked(since)) && old(database.clock) <= database.clock
      ensures done == steps + gap + [Step.CancelDisabled] && database.View() == Run(start, done)
      ensures stopping <==> Step.RequestStop(id) in done
    {
      hide Run, Apply, DisabledCancelled;
      done := Pass(gap, Checked(since), start, steps);
      RunExtend(start, done, Step.CancelDisabled);
      Cancels(database.View());
      var cancelled := jobs.CancelDisabled();
      done := done + [Step.CancelDisabled];
    }

    // From the end of pacing to the send call: the checks made right before sending. The call goes
    // out exactly when the group is still in use and the media is there; otherwise the job fails.
    method BeginDelivery(j: nat, claimed: Job, mediaExists: bool) returns (calling: bool, ok: bool)
      requires Wired()
      requires Registered(Pacing(j, claimed), AfterClaim(id)) && !stopping
      requires Paced(database.workers[id], database.clock)
      modifies database
      ensures database.View() == Apply(old(database.View()), BeginSend(id, mediaExists))
      ensures var dests, jid := old(database.dests), claimed.destination;
        calling <==>
          jid in dests && dests[jid].enabled && dests[jid].canSend && (claimed.hasMedia ==> mediaExists)
      ensures calling ==>
        && ok && Registered(Sending(j, claimed), AfterClaim(id)) && database.jobs == old(database.jobs)
        && database.trace
           == old(database.trace) + [SendCalled(id, j, !config.dryRun && !claimed.dryRun, database.clock)]
      ensures !calling ==> database.trace == old(database.trace)
      ensures !calling ==> (ok <==> Recordable(old(database.jobs), j, Failed))
      ensures !calling && ok ==>
        && Registered(Idle, AfterClaim(id))
        && var dests, jid := old(database.dests), claimed.destination;
           database.jobs == old(database.jobs)[j := old(database.jobs)[j].(
             status := Failed, nextAttemptAt := None,
             lastError := Some(Delivery(
               if jid in dests && dests[jid].enabled && dests[jid].canSend then MediaError else DestinationError)))]
      ensures !ok ==> id !in database.workers && database.jobs == old(database.jobs)
    {
      RecordableSettles(database.View(), j, Failed, ErrorChange(DestinationError, None));
      RecordableSettles(database.View(), j, Failed, ErrorChange(MediaError, None));
      hide Recordable;
      var destination := destinations.Resolve(ByJid(claimed.destination));
      if destination.None? || !database.dests[destination.value].enabled || !database.dests[destination.value].canSend {
        assert !Sendable(database.dests, claimed.destination);
        ok := SettleUnsent(j, Failed, ErrorChange(DestinationError, None));
        return false, ok;
      }
      if claimed.hasMedia && !mediaExists {
        ok := SettleUnsent(j, Failed, ErrorChange(MediaError, None));
        return false, ok;
      }
      database.workers := database.workers[
        id := Worker(config, stopping, lastSendFinishedAt, Sending(j, claimed), AfterClaim(id))];
      database.trace := database.trace
        + [SendCalled(id, j, !config.dryRun && !claimed.dryRun, database.clock)];
      return true, true;
    }

    // The row is due again at once, whatever had become of it while the worker paced.
    method PutBackUnsentJob(j: nat, ghost claimed: Job) returns (ok: bool)
      requires jobs.database == database && Registered(Pacing(j, claimed), AfterClaim(id)) && stopping
      modifies database
      ensures database.View() == Apply(old(database.View()), PutBack(id))
      ensures ok <==> Recordable(old(database.jobs), j, Status.Retry)
      ensures ok ==>
        && Registered(Idle, AfterClaim(id))
        && database.jobs == old(database.jobs)[j := old(database.jobs)[j].(
             status := Status.Retry, nextAttemptAt := Some(database.clock), lastError := Some(ShutdownBeforeSend))]
      ensures !ok ==> id !in database.workers && database.jobs == old(database.jobs)
    {
      RecordableSettles(database.View(), j, Status.Retry, PutBackChange(database.clock));
      hide Recordable;
      ok := SettleUnsent(j, Status.Retry, PutBackChange(database.clock));
      if ok {
        database.trace := database.trace + [PutBackUnsent(j)];
      }
    }

    // Processes the next eligible job, or the referenced one. The call is a run of System steps
    // around whatever the others did, each of its own with the environment's own answer; it returns
    // true exactly when it claimed a job, puts the job back exactly when somebody had asked for a
    // stop by the end of the pacing, and unless somebody died busy it leaves no PROCESSING row
    // without a worker. The loop calls it while no stop was asked for, a helper once and for its job.
    method ProcessOnce(reference: Option<nat>, around: Surroundings)
      returns (r: ProcessResult, ghost course: Course)
      requires Valid() && !stopping && reference == OwnJob(id) && Admissible(around, id)
      modifies this`stopping, this`lastSendFinishedAt, database
      ensures database.View() == Run(old(database.View()), StepsOf(course, around, id))
      ensures Fits(old(database.View()), course, around, id)
      ensures old(Invariants.Sound(database.View())) && Undisturbed(around) ==>
        QuietCall(old(database.View()), id, around, r, database.View())
      ensures r == Returned(false) <==> !Claims(course)
      ensures r.Returned? ==> Wired() && Registered(Idle, AfterClaim(id))
      ensures r.Threw? ==> id !in database.workers
      ensures ClaimsBy(database.trace, id)
        == ClaimsBy(old(database.trace), id) + if r == Returned(false) then 0 else 1
      ensures NobodyCrashes(around) ==> NoCrash(StepsOf(course, around, id))
      ensures NobodyCrashes(around)
              && old(Invariants.Sound(database.View())) && old(CleanStop.NoOrphans(database.View()))
        ==> CleanStop.NoOrphans(database.View())
    {
      ghost var start := database.View();
      hide ClaimsBy, Run, QuietCall, SeesPause, MaySend, Lead, Looking, Preparing, StepsOf, Undisturbed;
      var taken;
      ghost var taking;
      taken, taking := TakeJob(reference, around.gaps);
      if taken.None? {
        course := if taking.None? then SawPause else FoundNothing(taking.value);
        r := Returned(false);
        Concludes(start, id, course, around, r, database.View());
        return r, course;
      }
      var j := taken.value;
      var claimed := database.jobs[j];
      ghost var claimedView := database.View();
      r, course := Deliver(j, claimed, around, start, taking.value);
      Concludes(start, id, course, around, r, database.View());
    }

    // Everything after the claim.
    method Deliver(j: nat, claimed: Job, around: Surroundings, ghost start: System, ghost taking: Taking)
      returns (r: ProcessResult, ghost course: Course)
      requires Wired()
      requires Registered(Pacing(j, claimed), AfterClaim(id)) && Admissible(around, id)
      requires database.View() == Run(start, Claiming(taking, around.gaps, id))
      requires stopping <==> Step.RequestStop(id) in Claiming(taking, around.gaps, id)
      modifies this`stopping, this`lastSendFinishedAt, database
      ensures database.View() == Run(start, StepsOf(course, around, id))
      ensures r != Returned(false) && Wired() && Claims(course) && course.taking == taking
      ensures course.GaveBack? <==> Step.RequestStop(id) in Lead(taking, course.ticks, around, id)
      ensures course.Delivered? <==>
        && Step.RequestStop(id) !in Lead(taking, course.ticks, around, id)
        && MaySend(Run(start, Lead(taking, course.ticks, around, id)), id, around.mediaExists)
      ensures !course.GaveBack? && NothingSaid(around.naps) ==>
        Run(start, Lead(taking, course.ticks, around, id)).clock
        == PacedTo(old(database.clock), config.sendIntervalMs, old(lastSendFinishedAt))
      ensures if r.Returned? then Registered(Idle, AfterClaim(id)) else id !in database.workers
      ensures ClaimsBy(database.trace, id) == ClaimsBy(old(database.trace), id)
    {
      hide Run, Apply, Paced, ClaimsBy, Looking, Preparing, Sleeping, AnswerRecorded;
      ghost var claimedView := database.View();
      var proceed;
      ghost var ticks;
      proceed, ticks := Pace(around.naps, Pacing(j, claimed));
      ghost var lead := Lead(taking, ticks, around, id);
      RunConcat(start, Claiming(taking, around.gaps, id), Sleeping(around.naps, ticks));
      if !proceed {
        course := GaveBack(taking, ticks);
        RunExtend(start, lead, PutBack(id));
        var ok := PutBackUnsentJob(j, claimed);
        NoClaimAfterwards(claimedView, start, course, around, id);
        return if ok then Returned(true) else Threw, course;
      }
      RunExtend(start, lead, BeginSend(id, around.mediaExists));
      assert Paced(database.workers[id], database.clock) by { HasPaced(database.workers[id], database.clock); }
      var calling, ok := BeginDelivery(j, claimed, around.mediaExists);
      if !calling {
        course := NotCalled(taking, ticks);
        NoClaimAfterwards(claimedView, start, course, around, id);
        return if ok then Returned(true) else Threw, course;
      }
      course := Delivered(taking, ticks);
      ghost var called := lead + [BeginSend(id, around.mediaExists)];
      RunConcat(start, called, around.whileSending);
      Await(around.whileSending, Sending(j, claimed), AfterClaim(id));
      RunExtend(start, called + around.whileSending, FinishSend(id, around.outcome, around.jitter));
      ok := FinishDelivery(j, claimed, around.outcome, around.jitter);
      assert called + around.whileSending + [FinishSend(id, around.outcome, around.jitter)]
        == StepsOf(course, around, id);
      NoClaimAfterwards(claimedView, start, course, around, id);
      return if ok then Returned(true) else Threw, course;
    }

    // After the rounds so far: the steps are theirs, each has taken its course, and the worker is at the
    // head of its loop, or a call of the last round threw.
    ghost predicate InLoop(start: System, courses: seq<Course>, rounds: seq<Round>, pollMs: nat, threw: bool)
      reads this, database
    {
      && |courses| <= |rounds| && database.View() == Run(start, LoopSteps(courses, rounds, pollMs, id))
      && InTurn(start, courses, rounds, pollMs, id)
      && if threw then id !in database.workers && courses != [] && Claims(courses[|courses| - 1]) else Valid()
    }

    // One round: one call, and a sleep if it found nothing to do.
    method RunRound(rounds: seq<Round>, i: nat, pollMs: nat, ghost start: System, ghost courses: seq<Course>)
      returns (threw: bool, ghost done: seq<Course>)
      requires InLoop(start, courses, rounds, pollMs, false)
      requires !stopping && id == 0 && i == |courses| < |rounds| && RoundOk(rounds[i], id)
      modifies this`stopping, this`lastSendFinishedAt, database
      ensures |done| == i + 1 && InLoop(start, done, rounds, pollMs, threw)
    {
      assert GoesOn(start, courses, rounds, pollMs, id);
      ghost var course;
      threw, course := CallAndSleep(rounds[i], pollMs, start, LoopSteps(courses, rounds, pollMs, id));
      OneMoreRound(courses, course, rounds, pollMs, id);
      InTurnExtend(start, courses, course, rounds, pollMs, id);
      done := courses + [course];
    }

    method CallAndSleep(round: Round, pollMs: nat, ghost start: System, ghost soFar: seq<Step>)
      returns (threw: bool, ghost course: Course)
      requires Valid() && !stopping && id == 0 && RoundOk(round, id) && database.View() == Run(start, soFar)
      modifies this`stopping, this`lastSendFinishedAt, database
      ensures database.View()
        == Run(start, soFar + StepsOf(course, round.around, id)
                      + if Claims(course) then [] else round.whileIdle + [Tick(pollMs)])
      ensures Fits(old(database.View()), course, round.around, id)
      ensures if threw then id !in database.workers && Claims(course) else Valid()
    {
      var r;
      r, course := ProcessOnce(None, round.around);
      ghost var called := soFar + StepsOf(course, round.around, id);
      RunConcat(start, soFar, StepsOf(course, round.around, id));
      threw := r.Threw?;
      if Claims(course) {
        assert called + [] == called;
      }
      if r.Returned? && !r.processed {
        RunConcat(start, called, round.whileIdle + [Tick(pollMs)]);
        Nap(round.whileIdle, pollMs, Idle, Ready);
      }
    }

    // The worker loop over the rounds it gets to run. It runs one call after the other, and sleeps
    // after each that found nothing to do, until a stop is asked for, a call throws, or there are no
    // more rounds. If nobody dies busy, a loop that ends by a stop request leaves nothing for recovery
    // to find once the others are idle too.
    method RunLoop(rounds: seq<Round>, pollMs: nat) returns (threw: bool, ghost courses: seq<Course>)
      requires Valid() && id == 0 && forall i :: 0 <= i < |rounds| ==> RoundOk(rounds[i], id)
      modifies this, database
      ensures |courses| <= |rounds| && !running
      ensures database.View() == Run(old(database.View()), LoopSteps(courses, rounds, pollMs, id))
      ensures !threw ==> Valid() && (stopping || |courses| == |rounds|)
      ensures threw ==> id !in database.workers && courses != [] && Claims(courses[|courses| - 1])
      ensures InTurn(old(database.View()), courses, rounds, pollMs, id)
      ensures (forall i :: 0 <= i < |rounds| ==> RoundSafe(rounds[i]))
              && old(Invariants.Sound(database.View())) && old(CleanStop.NoOrphans(database.View()))
              && CleanStop.AllIdle(database.View()) ==>
        Recovered(database.jobs) == database.jobs
    {
      ghost var start := database.View();
      running := true;
      threw, courses := RunRounds(rounds, pollMs);
      running := false;
      if forall i :: 0 <= i < |rounds| ==> RoundSafe(rounds[i]) {
        LoopNobodyCrashes(courses, rounds, pollMs, id);
      }
      NothingLeft(start, LoopSteps(courses, rounds, pollMs, id));
    }

    method RunRounds(rounds: seq<Round>, pollMs: nat) returns (threw: bool, ghost courses: seq<Course>)
      requires Valid() && id == 0 && forall i :: 0 <= i < |rounds| ==> RoundOk(rounds[i], id)
      modifies this`stopping, this`lastSendFinishedAt, database
      ensures InLoop(old(database.View()), courses, rounds, pollMs, threw)
      ensures !threw ==> stopping || |courses| == |rounds|
    {
      threw := false;
      ghost var start := database.View();
      courses := [];
      assert Run(start, []) == start;
      assert LoopSteps([], rounds, pollMs, id) == [] && InTurn(start, [], rounds, pollMs, id);
      var i := 0;
      while !stopping && i < |rounds| && !threw
        invariant i == |courses| && InLoop(start, courses, rounds, pollMs, threw)
      {
        threw, courses := RunRound(rounds, i, pollMs, start, courses);
        i := i + 1;
      }
    }
  }

  lemma HasPaced(worker: Worker, now: Instant)
    requires worker.config.sendIntervalMs <= 0 || worker.lastFinish == 0
      || worker.lastFinish + worker.config.sendIntervalMs <= now
    ensures Paced(worker, now)
  {
  }

  lemma Concludes(start: System, id: nat, course: Course, around: Surroundings, r: ProcessResult, after: System)
    requires AtHead(start, id) && Admissible(around, id)
    requires after == Run(start, StepsOf(course, around, id)) && Fits(start, course, around, id)
    requires (r == Returned(false) <==> !Claims(course)) && (r.Threw? ==> id !in after.workers)
    ensures Invariants.Sound(start) && Undisturbed(around) ==> QuietCall(start, id, around, r, after)
    ensures NobodyCrashes(around) ==> NoCrash(StepsOf(course, around, id))
    ensures NobodyCrashes(around) && Invariants.Sound(start) && CleanStop.NoOrphans(start)
      ==> CleanStop.NoOrphans(after)
  {
    QuietlyDone(start, id, course, around, r, after);
    NobodyLeft(start, course, around, id);
  }

  // The steps before and after the claim count nothing.
  lemma NothingClaimed(start: System, looking: seq<Step>, more: seq<Step>, id: nat)
    requires ClaimsNothing(more, id)
    ensures ClaimsBy(Run(start, looking + more).trace, id) == ClaimsBy(Run(start, looking).trace, id)
  {
    RunConcat(start, looking, more);
    NoClaimNoCount(Run(start, looking), more, id);
  }

  lemma NoClaimAfterwards(claimed: System, start: System, course: Course, around: Surroundings, id: nat)
    requires Claims(course) && Admissible(around, id)
    requires claimed == Run(start, Claiming(course.taking, around.gaps, id))
    ensures ClaimsBy(Run(start, StepsOf(course, around, id)).trace, id) == ClaimsBy(claimed.trace, id)
  {
    hide Run, ClaimsBy, Claiming;
    SleepingIsForeign(around.naps, course.ticks, id);
    var later := Sleeping(around.naps, course.ticks) + Tail(course, around, id);
    assert ClaimsNothing(Tail(course, around, id), id);
    assert ClaimsNothing(later, id);
    assert StepsOf(course, around, id) == Claiming(course.taking, around.gaps, id) + later;
    NothingClaimed(start, Claiming(course.taking, around.gaps, id), later, id);
  }

  lemma NobodyLeft(start: System, course: Course, around: Surroundings, id: nat)
    requires Admissible(around, id)
    ensures NobodyCrashes(around) ==> NoCrash(StepsOf(course, around, id))
    ensures NobodyCrashes(around) && Invariants.Sound(start) && CleanStop.NoOrphans(start)
      ==> CleanStop.NoOrphans(Run(start, StepsOf(course, around, id)))
  {
    if NobodyCrashes(around) {
      NobodyCrashesHere(course, around, id);
      NoOrphansAfter(start, StepsOf(course, around, id));
    }
  }

  lemma Promotes(s: System, now: Instant)
    requires now <= s.clock
    ensures Apply(s, Step.Promote(now)) == s.(jobs := Promoted(s.jobs, now))
  {
  }

  lemma Cancels(s: System)
    ensures Apply(s, Step.CancelDisabled) == s.(jobs := DisabledCancelled(s.jobs, s.dests))
  {
  }

  lemma OneMoreClaim(trace: seq<Event>, e: Event, w: nat)
    requires e.Claimed? && e.worker == w
    ensures ClaimsBy(trace + [e], w) == ClaimsBy(trace, w) + 1
  {
    assert (trace + [e])[..|trace|] == trace;
  }

  lemma NoOrphansAfter(s: System, steps: seq<Step>)
    requires NoCrash(steps)
    ensures Invariants.Sound(s) && CleanStop.NoOrphans(s) ==> CleanStop.NoOrphans(Run(s, steps))
  {
    if Invariants.Sound(s) && CleanStop.NoOrphans(s) {
      NoCrashNobodyDies(s, steps);
      CleanStop.RunNoOrphans(s, steps);
    }
  }

  lemma NothingLeft(s: System, steps: seq<Step>)
    ensures NoCrash(steps) && Invariants.Sound(s) && CleanStop.NoOrphans(s) && CleanStop.AllIdle(Run(s, steps)) ==>
      Recovered(Run(s, steps).jobs) == Run(s, steps).jobs
  {
    if NoCrash(steps) && Invariants.Sound(s) && CleanStop.NoOrphans(s) && CleanStop.AllIdle(Run(s, steps)) {
      NoCrashNobodyDies(s, steps);
      CleanStop.NormalStopLeavesNothing(s, steps);
    }
  }

  // A nap of positive length moves the clock forward whatever the others do.
  lemma NapPasses(s: System, others: seq<Step>, ms: nat)
    ensures Run(s, others + [Tick(ms)]).clock >= s.clock + ms
    ensures others == [] ==> Run(s, others + [Tick(ms)]).clock == s.clock + ms
  {
    RunExtend(s, others, Tick(ms));
    Fairness.RunNeverRunsBack(s, others);
  }
}
