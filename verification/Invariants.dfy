/** What every step of every run keeps, and that each step moves rows only along the table. */
module Invariants {
  import opened Prelude
  import opened Jobs
  import opened Statements
  import opened RetryPolicy
  import opened System

  // A held job exists, is the claimed row as far as fixed columns go, and suits its worker.
  ghost predicate HoldOk(jobs: seq<Job>, worker: Worker) {
    worker.hold.Idle?
    || (&& worker.hold.job < |jobs|
        && SameIdentity(jobs[worker.hold.job], worker.hold.claimed)
        && 1 <= worker.hold.claimed.attempts
        && (worker.config.dryRun ==> worker.hold.claimed.dryRun))
  }

  predicate Mentions(event: Event, j: nat) {
    match event
    case Created(k) => k == j
    case Claimed(_, k, _) => k == j
    case PutBackUnsent(k) => k == j
    case SendCalled(_, k, _, _) => k == j
    case SendFinished(_, _) => false
    case DeliveryAccepted(k) => k == j
    case ErrorHandled(k) => k == j
    case AuthPaused(k) => k == j
    case RateLimitPaused(k, _) => k == j
    case ManuallyRetried(k) => k == j
    case ManuallyMarkedSent(k) => k == j
    case WorkerStarted(_, _) => false
  }

  // A helper is in dry-run mode and holds no job but its own; a worker with a job is past its gate;
  // only a live worker heeds pauses and connections.
  predicate Placed(w: nat, worker: Worker, helped: set<nat>, clock: Instant) {
    && (w != 0 ==> worker.config.dryRun && w - 1 in helped)
    && (!worker.hold.Idle? ==> worker.gate == AfterClaim(w) && (w != 0 ==> worker.hold.job == w - 1))
    && (worker.gate.Clearing? || worker.gate.Connecting? ==> !worker.config.dryRun)
    && (worker.gate.Clearing? || worker.gate.Checked? ==> worker.gate.since <= clock)
  }

  ghost predicate WorkersOk(s: System) {
    forall w :: w in s.workers ==> Placed(w, s.workers[w], s.helped, s.clock) && HoldOk(s.jobs, s.workers[w])
  }

  ghost predicate TraceBounded(trace: seq<Event>, n: nat) {
    forall i, j: nat :: 0 <= i < |trace| && Mentions(trace[i], j) ==> j < n
  }

  predicate Arrived(row: Job, clock: Instant) {
    row.status.Scheduled? || row.status.Cancelled? || row.scheduledAt <= clock
  }

  // The time of every job that is past SCHEDULED, and was not cancelled, has come.
  ghost predicate NothingEarly(rows: seq<Job>, clock: Instant) {
    forall j :: 0 <= j < |rows| ==> Arrived(rows[j], clock)
  }

  ghost predicate Sound(s: System) {
    && WellFormed(s.jobs)
    && 0 < s.clock
    && WorkersOk(s)
    && TraceBounded(s.trace, |s.jobs|)
    && NothingEarly(s.jobs, s.clock)
  }

  // Rows are only appended, and each old row follows the table.
  ghost predicate RowsFollow(before: seq<Job>, after: seq<Job>) {
    |before| <= |after| && forall j :: 0 <= j < |before| ==> Follows(before[j], after[j])
  }

  ghost predicate Good(s: System, after: System) {
    Sound(after) && RowsFollow(s.jobs, after.jobs)
  }

  // ----- Frames -----

  lemma RecordSound(s: System, event: Event)
    requires Sound(s)
    requires forall j: nat :: Mentions(event, j) ==> j < |s.jobs|
    ensures Sound(Record(s, event))
  {
  }

  // Replacing rows along the table keeps workers and trace sound.
  lemma RowsReplaced(s: System, rows: seq<Job>)
    requires Sound(s) && WellFormed(rows) && RowsFollow(s.jobs, rows)
    requires NothingEarly(rows, s.clock)
    ensures Sound(s.(jobs := rows))
  {
    forall w | w in s.workers ensures HoldOk(rows, s.workers[w]) {
      if !s.workers[w].hold.Idle? {
        assert Follows(s.jobs[s.workers[w].hold.job], rows[s.workers[w].hold.job]);
      }
    }
  }

  lemma BulkGood(s: System, rows: seq<Job>)
    requires Sound(s) && BulkStep(s.jobs, rows)
    requires NothingEarly(rows, s.clock)
    ensures Good(s, s.(jobs := rows))
  {
    BulkKeepsWellFormed(s.jobs, rows);
    RowsReplaced(s, rows);
  }

  lemma SettleGood(s: System, w: nat, j: nat, target: Status, change: Change, finished: Instant)
    requires Sound(s) && w in s.workers && j < |s.jobs|
    requires ChangeFits(s.jobs[j], target, change)
    ensures Good(s, Settle(s, w, j, target, change, finished))
  {
    TransitionKeepsWellFormed(s.jobs, j, target, change, s.clock);
    if Settles(s, j, target, change) {
      var rows := Transition(s.jobs, j, target, change, s.clock).value;
      RowsReplaced(s, rows);
    }
  }

  // ----- Worker steps -----

  lemma GateGood(s: System, w: nat)
    requires Sound(s)
    ensures Good(s, ApplyCheckPause(s, w))
    ensures Good(s, ApplyClearPause(s, w))
    ensures Good(s, ApplyConnectionOpened(s))
  {
  }

  lemma ClaimGood(s: System, w: nat, now: Instant)
    requires Sound(s)
    ensures Good(s, ApplyClaim(s, w, now))
  {
    if CanClaim(s, w, now) && ClaimChoice(s, w, now).Some? {
      var j := ClaimChoice(s, w, now).value;
      var row := ClaimedRow(s.jobs[j], now);
      ClaimKeepsWellFormed(s.jobs, j, now);
      RowsReplaced(s, s.jobs[j := row]);
    }
  }

  lemma PutBackGood(s: System, w: nat)
    requires Sound(s)
    ensures Good(s, ApplyPutBack(s, w))
  {
    if w in s.workers && s.workers[w].hold.Pacing? && s.workers[w].stopping {
      SettleGood(s, w, s.workers[w].hold.job, Retry, PutBackChange(s.clock), s.workers[w].lastFinish);
    }
  }

  lemma BeginSendGood(s: System, w: nat, mediaExists: bool)
    requires Sound(s)
    ensures Good(s, ApplyBeginSend(s, w, mediaExists))
  {
    if w in s.workers && s.workers[w].hold.Pacing? {
      var j := s.workers[w].hold.job;
      SettleGood(s, w, j, Failed, ErrorChange(DestinationError, None), s.workers[w].lastFinish);
      SettleGood(s, w, j, Failed, ErrorChange(MediaError, None), s.workers[w].lastFinish);
    }
  }

  lemma EffectSound(s: System, w: nat, j: nat, effect: Effect)
    requires Sound(s) && w in s.workers && j < |s.jobs|
    ensures Sound(WithEffect(s, w, j, effect)) && WithEffect(s, w, j, effect).jobs == s.jobs
  {
    match effect
    case NoEffect =>
    case LimitRate(until) =>
      RecordSound(s.(pause := Pause(Some(PausedRateLimited), Some(until))), RateLimitPaused(j, until));
    case PauseForAuth(reason) =>
      RecordSound(s.(pause := s.pause.(reason := Some(reason)),
                     workers := s.workers[w := s.workers[w].(stopping := true)]), AuthPaused(j));
  }

  lemma ErrorSettledGood(s: System, w: nat, target: Status, change: Change, effect: Effect)
    requires Sound(s) && w in s.workers && s.workers[w].hold.Sending?
    requires ChangeFits(s.jobs[s.workers[w].hold.job], target, change)
    ensures Good(s, ErrorSettled(s, w, target, change, effect))
  {
    var j := s.workers[w].hold.job;
    SettleGood(s, w, j, target, change, s.clock);
    if Settles(s, j, target, change) {
      var settled := Settle(s, w, j, target, change, s.clock);
      RecordSound(settled, ErrorHandled(j));
      RecordSound(Record(settled, ErrorHandled(j)), SendFinished(w, s.clock));
      EffectSound(Failure(s, w, target, change), w, j, effect);
    }
  }

  lemma BlockedGood(s: System, jid: Jid)
    requires Sound(s)
    ensures Good(s, Blocked(s, jid))
  {
    DenyRefinesTable(s.jobs, jid);
    BulkGood(s, CancelledFor(s.jobs, jid));
  }

  lemma ErrorGood(s: System, w: nat, errorClass: ErrorClass, retryAfterMs: Option<nat>, jitter: real)
    requires Sound(s) && w in s.workers && s.workers[w].hold.Sending?
    ensures Good(s, ApplyError(s, w, errorClass, retryAfterMs, jitter))
  {
    DecisionGood(s, w, errorClass, WorkerDecision(s.workers[w], errorClass, retryAfterMs, jitter));
  }

  lemma DecisionGood(s: System, w: nat, errorClass: ErrorClass, decision: Decision)
    requires Sound(s) && w in s.workers && s.workers[w].hold.Sending?
    ensures Good(s, ApplyDecision(s, w, errorClass, decision))
  {
    hide ErrorSettled, Good;
    match decision
    case RetryAfter(delay) =>
      ErrorSettledGood(s, w, Retry, ErrorChange(errorClass, Some(s.clock + delay)), NoEffect);
    case RateLimit(delay) =>
      var until := s.clock + delay;
      ErrorSettledGood(s, w, WaitingRateLimit, ErrorChange(errorClass, Some(until)), LimitRate(until));
    case PauseAuth(delay) =>
      var change := ErrorChange(errorClass, Some(s.clock + delay));
      ErrorSettledGood(s, w, Retry, change, PauseForAuth(ClassPause(errorClass)));
    case Fail =>
      if BlocksDestination(errorClass) {
        BlockedErrorGood(s, w, ErrorChange(errorClass, None));
      } else {
        ErrorSettledGood(s, w, Failed, ErrorChange(errorClass, None), NoEffect);
      }
  }

  lemma BlockedErrorGood(s: System, w: nat, change: Change)
    requires Sound(s) && w in s.workers && s.workers[w].hold.Sending? && change.nextAttemptAt.None?
    ensures Good(s, ErrorSettled(Blocked(s, s.workers[w].hold.claimed.destination), w, Failed, change, NoEffect))
  {
    var blocked := Blocked(s, s.workers[w].hold.claimed.destination);
    BlockedGood(s, s.workers[w].hold.claimed.destination);
    ErrorSettledGood(blocked, w, Failed, change, NoEffect);
    TwoStepsFollow(s, blocked, w, change);
  }

  // Along a blocked destination a held job is still on at most one edge: only unsent rows moved.
  lemma TwoStepsFollow(s: System, blocked: System, w: nat, change: Change)
    requires Sound(s) && w in s.workers && s.workers[w].hold.Sending?
    requires blocked.workers == s.workers && blocked.clock == s.clock
    requires blocked.jobs == CancelledFor(s.jobs, s.workers[w].hold.claimed.destination)
    requires Good(s, blocked) && change.nextAttemptAt.None?
    requires ChangeFits(blocked.jobs[s.workers[w].hold.job], Failed, change)
    ensures RowsFollow(s.jobs, ErrorSettled(blocked, w, Failed, change, NoEffect).jobs)
  {
    var j := s.workers[w].hold.job;
    if Settles(blocked, j, Failed, change) {
      TransitionKeepsWellFormed(blocked.jobs, j, Failed, change, s.clock);
      assert blocked.jobs[j] == s.jobs[j];
    }
  }

  lemma AcceptedGood(s: System, w: nat, target: Status, remote: RemoteId, jitter: real)
    requires Sound(s) && w in s.workers && s.workers[w].hold.Sending?
    requires ChangeFits(s.jobs[s.workers[w].hold.job], target, Change(Some(remote), None, None))
    ensures Good(s, ApplyAccepted(s, w, target, remote, jitter))
  {
    var j := s.workers[w].hold.job;
    var noted := Record(s, DeliveryAccepted(j));
    var change := Change(Some(remote), None, None);
    RecordSound(s, DeliveryAccepted(j));
    if Settles(noted, j, target, change) {
      SettleGood(noted, w, j, target, change, s.clock);
      RecordSound(Settle(noted, w, j, target, change, s.clock), SendFinished(w, s.clock));
    } else {
      ErrorGood(noted, w, UnknownTransient, None, jitter);
    }
  }

  lemma FinishSendGood(s: System, w: nat, outcome: Outcome, jitter: real)
    requires Sound(s)
    ensures Good(s, ApplyFinishSend(s, w, outcome, jitter))
  {
    if w in s.workers && s.workers[w].hold.Sending? {
      if !ViaLive(s.workers[w], s.workers[w].hold.claimed) {
        AcceptedGood(s, w, DryRun, Simulated, jitter);
      } else {
        match outcome
        case Accepted(number) => AcceptedGood(s, w, Sent, RemoteMessage(number), jitter);
        case Rejected(errorClass, retryAfterMs) =>
          ErrorGood(s, w, TransportClass(s.workers[w].hold.claimed, errorClass), retryAfterMs, jitter);
      }
    }
  }

  // ----- The other writers -----

  lemma CreateGood(s: System, job: NewJob)
    requires Sound(s)
    ensures NewJobOk(job) && (job.status.Pending? ==> job.scheduledAt <= s.clock) ==> Good(s, ApplyCreate(s, job))
  {
    if NewJobOk(job) && (job.status.Pending? ==> job.scheduledAt <= s.clock) && Insert(s.jobs, s.dests, job).Ok? {
      InsertKeepsWellFormed(s.jobs, s.dests, job);
      RowsReplaced(s, s.jobs + [FreshRow(job)]);
    }
  }

  lemma OperatorGood(s: System, j: nat)
    requires Sound(s)
    ensures Good(s, ApplyOperatorRetry(s, j))
    ensures Good(s, ApplyOperatorCancel(s, j))
    ensures Good(s, ApplyOperatorMarkSent(s, j))
  {
    ManualRetryKeepsWellFormed(s.jobs, j, s.clock);
    if ManualRetry(s.jobs, j, s.clock).Ok? {
      RowsReplaced(s, ManualRetry(s.jobs, j, s.clock).value);
    }
    OperatorMoveGood(s, j, Cancelled, CancelChange());
    OperatorMoveGood(s, j, Sent, MarkSentChange());
  }

  lemma OperatorMoveGood(s: System, j: nat, target: Status, change: Change)
    requires Sound(s)
    requires (target.Cancelled? && change == CancelChange()) || (target.Sent? && change == MarkSentChange())
    ensures Good(s, if target.Cancelled? then ApplyOperatorCancel(s, j) else ApplyOperatorMarkSent(s, j))
  {
    TransitionKeepsWellFormed(s.jobs, j, target, change, s.clock);
    if Settles(s, j, target, change) {
      RowsReplaced(s, Transition(s.jobs, j, target, change, s.clock).value);
    }
  }

  lemma ProcessStepsGood(s: System, w: nat, ms: nat)
    requires Sound(s)
    ensures Good(s, s.(clock := s.clock + ms))
    ensures Good(s, Gone(s, w))
    ensures w in s.workers ==> Good(s, s.(workers := s.workers[w := s.workers[w].(stopping := true)]))
  {
  }

  lemma StartHelperGood(s: System, j: nat, config: Config)
    requires Sound(s)
    ensures Good(s, ApplyStartHelper(s, j, config))
  {
    if CanHelp(s, j, config) {
      RecordSound(s.(workers := s.workers[j + 1 := Worker(config, false, 0, Idle, Ready)], helped := s.helped + {j}),
                  WorkerStarted(j + 1, config.sendIntervalMs));
    }
  }

  lemma StartDaemonGood(s: System, config: Config)
    requires Sound(s)
    ensures Good(s, ApplyStartDaemon(s, config))
  {
    if 0 !in s.workers {
      RecoveryRefinesTable(s.jobs);
      BulkGood(s, Recovered(s.jobs));
      var recovered := s.(jobs := Recovered(s.jobs));
      RecordSound(recovered.(workers := s.workers[0 := FreshDaemon(config)]),
                  WorkerStarted(0, config.sendIntervalMs));
    }
  }

  lemma WorkerStepGood(s: System, step: Step)
    requires Sound(s)
    requires step.CheckPause? || step.ClearPause? || step.Claim? || step.PutBack? || step.BeginSend? || step.FinishSend?
    ensures Good(s, Apply(s, step))
  {
    match step
    case CheckPause(w) => GateGood(s, w);
    case ClearPause(w) => GateGood(s, w);
    case Claim(w, now) => ClaimGood(s, w, now);
    case PutBack(w) => PutBackGood(s, w);
    case BeginSend(w, mediaExists) => BeginSendGood(s, w, mediaExists);
    case FinishSend(w, outcome, jitter) => FinishSendGood(s, w, outcome, jitter);
  }

  lemma BulkWriterGood(s: System, step: Step)
    requires Sound(s)
    requires step.Promote? || step.CancelDisabled? || step.SetEnabled? || step.Refresh?
    ensures Good(s, Apply(s, step))
  {
    if step.Promote? {
      if step.now <= s.clock { PromoteRefinesTable(s.jobs, step.now); BulkGood(s, Promoted(s.jobs, step.now)); }
    } else if step.CancelDisabled? {
      CancelDisabledRefinesTable(s.jobs, s.dests);
      BulkGood(s, DisabledCancelled(s.jobs, s.dests));
    } else if step.SetEnabled? {
      if !step.enabled { DenyRefinesTable(s.jobs, step.jid); BulkGood(s, CancelledFor(s.jobs, step.jid)); }
    } else {
      RefreshRefinesTable(s.jobs, UpsertAll(s.dests, step.items));
      BulkGood(s, UnsendableCancelled(s.jobs, UpsertAll(s.dests, step.items)));
    }
  }

  // Every step keeps the queue sound and moves each row along at most one edge of the table.
  lemma StepGood(s: System, step: Step)
    requires Sound(s)
    ensures Good(s, Apply(s, step))
  {
    hide Good;
    if step.CheckPause? || step.ClearPause? || step.Claim? || step.PutBack? || step.BeginSend? || step.FinishSend? {
      WorkerStepGood(s, step);
    } else if step.Promote? || step.CancelDisabled? || step.SetEnabled? || step.Refresh? {
      BulkWriterGood(s, step);
    } else if step.Tick? {
      ProcessStepsGood(s, 0, step.ms);
    } else if step.RequestStop? || step.Crash? || step.Exit? {
      ProcessStepsGood(s, step.worker, 0);
      Unchanged(s);
    } else if step.StartHelper? {
      StartHelperGood(s, step.job, step.config);
    } else if step.StartDaemon? {
      StartDaemonGood(s, step.config);
    } else if step.ConnectionOpened? {
      GateGood(s, 0);
    } else if step.ConnectionEnded? {
      PauseChanged(s, Apply(s, step).pause);
    } else if step.Create? {
      CreateGood(s, step.newJob);
      Unchanged(s);
    } else {
      OperatorGood(s, step.job);
    }
  }

  lemma Unchanged(s: System)
    requires Sound(s)
    ensures Good(s, s)
  {
  }

  lemma PauseChanged(s: System, pause: Pause)
    requires Sound(s)
    ensures Good(s, s.(pause := pause))
  {
  }

  lemma {:induction false} RunSound(s: System, steps: seq<Step>)
    requires Sound(s)
    ensures Sound(Run(s, steps))
    ensures |s.jobs| <= |Run(s, steps).jobs|
  {
    if steps != [] {
      var n := |steps| - 1;
      RunSound(s, steps[..n]);
      StepGood(Run(s, steps[..n]), steps[n]);
    }
  }

  // From an empty queue, on every run: at most one row per idempotency key is active, hence
  // at most one is SENT, and every row has the shape of its status.
  lemma KeysStayUnique(s: System, steps: seq<Step>, i: nat, j: nat)
    requires Initial(s)
    requires i < |Run(s, steps).jobs| && j < |Run(s, steps).jobs|
    ensures var jobs := Run(s, steps).jobs;
      && Shape(jobs[i])
      && (i != j && Active(jobs[i].status) && Active(jobs[j].status) ==> jobs[i].key != jobs[j].key)
      && (i != j && jobs[i].status.Sent? && jobs[j].status.Sent? ==> jobs[i].key != jobs[j].key)
  {
    RunSound(s, steps);
  }

  // SENT, CANCELLED and DRY_RUN rows are never changed again, whatever happens.
  lemma {:induction false} FinalRowsFrozen(s: System, steps: seq<Step>, j: nat)
    requires Sound(s) && j < |s.jobs| && Final(s.jobs[j].status)
    ensures j < |Run(s, steps).jobs| && Run(s, steps).jobs[j] == s.jobs[j]
  {
    if steps != [] {
      var n := |steps| - 1;
      FinalRowsFrozen(s, steps[..n], j);
      RunSound(s, steps[..n]);
      StepGood(Run(s, steps[..n]), steps[n]);
      assert Follows(Run(s, steps[..n]).jobs[j], Run(s, steps).jobs[j]);
    }
  }
}
