/** What the end of a delivery leaves behind: every column, flag and pause key, class by class. */
module Outcomes {
  import opened Prelude
  import opened Jobs
  import opened Statements
  import opened RetryPolicy
  import opened System

  // Where a failure takes the job: back into the queue only for a class that may pass, and, unless
  // it is the account's own login, only within the budget.
  ghost function FailureStatus(errorClass: ErrorClass, claimed: Job): Status {
    if errorClass in {AuthRequired, LoggedOut} then Retry
    else if claimed.maxAttempts <= claimed.attempts then Failed
    else if errorClass.RateLimited? then WaitingRateLimit
    else if errorClass in {TemporaryNetwork, ConnectionClosed, SessionError, UnknownTransient} then Retry
    else Failed
  }

  // How long until it may be tried again: what the server asked for, or the backoff.
  ghost function WaitMs(
    errorClass: ErrorClass, retryAfterMs: Option<nat>, claimed: Job, config: Config, jitter: real): int
  {
    if errorClass.RateLimited? && retryAfterMs.Some? then retryAfterMs.value
    else RetryDelayMs(claimed.attempts, config.retryBaseMs, config.retryMaxMs, jitter)
  }

  ghost function FailedRow(
    row: Job, errorClass: ErrorClass, retryAfterMs: Option<nat>, jitter: real, claimed: Job, config: Config,
    now: Instant): Job
  {
    var status := FailureStatus(errorClass, claimed);
    row.(status := status, lastError := Some(Delivery(errorClass)),
         nextAttemptAt := if status.Failed? then None
                          else Some(now + WaitMs(errorClass, retryAfterMs, claimed, config, jitter)))
  }

  // Whether the row can be moved there: the table allows it and no other active row has the key.
  ghost predicate Recordable(rows: seq<Job>, j: nat, status: Status): (r: bool)
    ensures r ==> j < |rows|
  {
    && j < |rows|
    && (rows[j].status.Processing?
        || (rows[j].status.ReviewRequired? && status in {Retry, Failed, Sent})
        || (rows[j].status.Failed? && status.Retry?))
    && (status.Failed? || !Conflicts(rows, rows[j].key, j))
  }

  // A failure for good that is the group's own takes the group out of use.
  ghost predicate BlocksGroup(errorClass: ErrorClass, claimed: Job) {
    errorClass in {PermissionError, DestinationError} && FailureStatus(errorClass, claimed).Failed?
  }

  ghost function DestsAfter(dests: Destinations, blocked: bool, jid: Jid): Destinations {
    if blocked && jid in dests then dests[jid := dests[jid].(canSend := false)] else dests
  }

  ghost function RowAfter(row: Job, jid: Jid): Job {
    if row.destination == jid && row.status in {Pending, Scheduled, Retry, WaitingRateLimit}
    then row.(status := Cancelled, lastError := Some(Delivery(DestinationError))) else row
  }

  ghost function RowsAfter(rows: seq<Job>, blocked: bool, jid: Jid): seq<Job> {
    if blocked then seq(|rows|, i requires 0 <= i < |rows| => RowAfter(rows[i], jid)) else rows
  }

  ghost function PauseAfter(pause: Pause, errorClass: ErrorClass, status: Status, next: Instant): Pause {
    if status.WaitingRateLimit? then Pause(Some(PausedRateLimited), Some(next))
    else if errorClass.AuthRequired? then pause.(reason := Some(PausedAuthRequired))
    else if errorClass.LoggedOut? then pause.(reason := Some(PausedLoggedOut))
    else pause
  }

  ghost function EventsAfter(errorClass: ErrorClass, status: Status, j: nat, w: nat, now: Instant, next: Instant)
    : seq<Event>
  {
    [ErrorHandled(j), SendFinished(w, now)]
    + if status.WaitingRateLimit? then [RateLimitPaused(j, next)]
      else if errorClass in {AuthRequired, LoggedOut} then [AuthPaused(j)] else []
  }

  // Worker w's delivery failed, and that is recorded; where the row cannot be moved, the worker's
  // process has ended with the row as it was.
  ghost predicate FailureRecorded(
    s: System, after: System, w: nat, errorClass: ErrorClass, retryAfterMs: Option<nat>, jitter: real)
    requires w in s.workers && s.workers[w].hold.Sending?
  {
    var worker := s.workers[w];
    var j, claimed := worker.hold.job, worker.hold.claimed;
    var status := FailureStatus(errorClass, claimed);
    var blocked := BlocksGroup(errorClass, claimed);
    var next := s.clock + WaitMs(errorClass, retryAfterMs, claimed, worker.config, jitter);
    var others := s.(dests := DestsAfter(s.dests, blocked, claimed.destination),
                     jobs := RowsAfter(s.jobs, blocked, claimed.destination));
    after ==
      if Recordable(s.jobs, j, status) then others.(
        jobs := others.jobs[
          j := FailedRow(s.jobs[j], errorClass, retryAfterMs, jitter, claimed, worker.config, s.clock)],
        pause := PauseAfter(s.pause, errorClass, status, next),
        workers := s.workers[
          w := worker.(hold := Idle, lastFinish := s.clock,
                       stopping := worker.stopping || errorClass in {AuthRequired, LoggedOut})],
        trace := s.trace + EventsAfter(errorClass, status, j, w, s.clock, next))
      else others.(workers := s.workers - {w})
  }

  // The transport has answered worker w. What was accepted is recorded as sent, under the transport's
  // own id, or as simulated; what was not, and what cannot be recorded, as a failure.
  ghost predicate AnswerRecorded(s: System, after: System, w: nat, outcome: Outcome, jitter: real)
    requires w in s.workers && s.workers[w].hold.Sending?
  {
    var worker := s.workers[w];
    var j, claimed := worker.hold.job, worker.hold.claimed;
    var live := !worker.config.dryRun && !claimed.dryRun;
    if live && outcome.Rejected? then
      FailureRecorded(s, after, w, ReportedClass(claimed, outcome.errorClass), outcome.retryAfterMs, jitter)
    else if Recordable(s.jobs, j, if live then Sent else DryRun) then
      after == s.(
        jobs := s.jobs[j := AcceptedRow(s.jobs[j], live, outcome, s.clock)],
        workers := s.workers[w := worker.(hold := Idle, lastFinish := s.clock)],
        trace := s.trace + [DeliveryAccepted(j), SendFinished(w, s.clock)])
    else
      FailureRecorded(s.(trace := s.trace + [DeliveryAccepted(j)]), after, w, UnknownTransient, None, jitter)
  }

  ghost function AcceptedRow(row: Job, live: bool, outcome: Outcome, now: Instant): Job
    requires live ==> outcome.Accepted?
  {
    if live
    then row.(status := Sent, remote := Some(RemoteMessage(outcome.number)), nextAttemptAt := None,
              lastError := None, sentAt := Some(now))
    else row.(status := DryRun, remote := Some(Simulated), nextAttemptAt := None, lastError := None)
  }

  // A stored message its group refuses is an unusable payload; the group stays in use.
  ghost function ReportedClass(claimed: Job, errorClass: ErrorClass): ErrorClass {
    if claimed.forwardSource.Some? && errorClass in {DestinationError, PermissionError}
    then InvalidPayload else errorClass
  }

  // ----- The machine's steps record exactly this -----

  lemma RecordableSettles(s: System, j: nat, status: Status, change: Change)
    requires status in {Retry, WaitingRateLimit, Failed, Sent, DryRun}
    ensures Settles(s, j, status, change) <==> Recordable(s.jobs, j, status)
    ensures Settles(s, j, status, change) ==>
      Transition(s.jobs, j, status, change, s.clock)
      == Ok(s.jobs[j := s.jobs[j].(
              status := status, remote := if change.remote.Some? then change.remote else s.jobs[j].remote,
              nextAttemptAt := change.nextAttemptAt, lastError := change.lastError,
              sentAt := if status.Sent? then Some(s.clock) else s.jobs[j].sentAt)])
  {
    if j < |s.jobs| { TableReadBackwards(s.jobs[j].status, status); }
    hide Conflicts;
  }

  lemma ErrorIsRecorded(
    s: System, w: nat, errorClass: ErrorClass, retryAfterMs: Option<nat>, jitter: real)
    requires w in s.workers && s.workers[w].hold.Sending? && 0.0 <= jitter < 1.0
    ensures FailureRecorded(s, ApplyError(s, w, errorClass, retryAfterMs, jitter), w, errorClass, retryAfterMs, jitter)
  {
    var worker := s.workers[w];
    var decision := WorkerDecision(worker, errorClass, retryAfterMs, jitter);
    RetryOnlyWithinBudget(errorClass, worker.hold.claimed.attempts, worker.hold.claimed.maxAttempts,
                          worker.config.retryBaseMs, worker.config.retryMaxMs, retryAfterMs, jitter);
    hide DecideRetry, RetryDelayMs, Round;
    if decision.Fail? {
      GivenUp(s, w, errorClass, retryAfterMs, jitter);
    } else {
      PutOff(s, w, errorClass, retryAfterMs, jitter, decision);
    }
  }

  // The failure on the job's own row and on the worker, before what goes with it.
  ghost function Noted(s: System, w: nat, row: Job): System
    requires w in s.workers && s.workers[w].hold.Sending? && s.workers[w].hold.job < |s.jobs|
  {
    var j := s.workers[w].hold.job;
    s.(jobs := s.jobs[j := row], workers := s.workers[w := s.workers[w].(hold := Idle, lastFinish := s.clock)],
       trace := s.trace + [ErrorHandled(j), SendFinished(w, s.clock)])
  }

  lemma SettledError(s: System, w: nat, target: Status, change: Change, effect: Effect)
    requires w in s.workers && s.workers[w].hold.Sending? && target in {Retry, WaitingRateLimit, Failed}
    requires change.remote.None?
    ensures var j := s.workers[w].hold.job;
      if Recordable(s.jobs, j, target)
      then ErrorSettled(s, w, target, change, effect)
        == WithEffect(Noted(s, w, s.jobs[j].(status := target, nextAttemptAt := change.nextAttemptAt,
                                             lastError := change.lastError)), w, j, effect)
      else ErrorSettled(s, w, target, change, effect) == s.(workers := s.workers - {w})
  {
    var j := s.workers[w].hold.job;
    RecordableSettles(s, j, target, change);
    hide Transition, Recordable, WithEffect;
    if Settles(s, j, target, change) {
      assert s.trace + [ErrorHandled(j)] + [SendFinished(w, s.clock)]
        == s.trace + [ErrorHandled(j), SendFinished(w, s.clock)];
    }
  }

  ghost function EffectOf(errorClass: ErrorClass, decision: Decision, now: Instant): Effect {
    if decision.RateLimit? then LimitRate(now + decision.delayMs)
    else if decision.PauseAuth? then PauseForAuth(ClassPause(errorClass)) else NoEffect
  }

  lemma PuttingOff(s: System, w: nat, errorClass: ErrorClass, decision: Decision)
    requires w in s.workers && s.workers[w].hold.Sending? && !decision.Fail?
    ensures ApplyDecision(s, w, errorClass, decision)
      == ErrorSettled(s, w, if decision.RateLimit? then WaitingRateLimit else Retry,
                      ErrorChange(errorClass, Some(s.clock + decision.delayMs)),
                      EffectOf(errorClass, decision, s.clock))
  {
    hide ErrorSettled;
  }

  lemma PutOff(
    s: System, w: nat, errorClass: ErrorClass, retryAfterMs: Option<nat>, jitter: real, decision: Decision)
    requires w in s.workers && s.workers[w].hold.Sending?
    requires !decision.Fail? && !FailureStatus(errorClass, s.workers[w].hold.claimed).Failed?
    requires decision.delayMs
      == WaitMs(errorClass, retryAfterMs, s.workers[w].hold.claimed, s.workers[w].config, jitter)
    requires decision.RateLimit? <==> FailureStatus(errorClass, s.workers[w].hold.claimed).WaitingRateLimit?
    requires decision.PauseAuth? <==> errorClass in {AuthRequired, LoggedOut}
    ensures FailureRecorded(s, ApplyDecision(s, w, errorClass, decision), w, errorClass, retryAfterMs, jitter)
  {
    var claimed := s.workers[w].hold.claimed;
    var status := if decision.RateLimit? then WaitingRateLimit else Retry;
    var next := s.clock + decision.delayMs;
    assert status == FailureStatus(errorClass, claimed);
    var effect := EffectOf(errorClass, decision, s.clock);
    PuttingOff(s, w, errorClass, decision);
    SettledError(s, w, status, ErrorChange(errorClass, Some(next)), effect);
    PutOffAsTold(s, w, errorClass, retryAfterMs, jitter, effect);
    hide ErrorSettled, ApplyDecision, WithEffect, Recordable, FailureRecorded, FailureStatus, WaitMs, EffectOf, Noted;
  }

  lemma PutOffAsTold(
    s: System, w: nat, errorClass: ErrorClass, retryAfterMs: Option<nat>, jitter: real, effect: Effect)
    requires w in s.workers && s.workers[w].hold.Sending?
    requires !FailureStatus(errorClass, s.workers[w].hold.claimed).Failed?
    requires var worker := s.workers[w];
      var status := FailureStatus(errorClass, worker.hold.claimed);
      var next := s.clock + WaitMs(errorClass, retryAfterMs, worker.hold.claimed, worker.config, jitter);
      effect == if status.WaitingRateLimit? then LimitRate(next)
                else if errorClass in {AuthRequired, LoggedOut} then PauseForAuth(ClassPause(errorClass)) else NoEffect
    ensures var worker, j := s.workers[w], s.workers[w].hold.job;
      var status := FailureStatus(errorClass, worker.hold.claimed);
      var next := s.clock + WaitMs(errorClass, retryAfterMs, worker.hold.claimed, worker.config, jitter);
      var after :=
        if Recordable(s.jobs, j, status)
        then WithEffect(Noted(s, w, s.jobs[j].(status := status, nextAttemptAt := Some(next),
                                               lastError := Some(Delivery(errorClass)))), w, j, effect)
        else s.(workers := s.workers - {w});
      FailureRecorded(s, after, w, errorClass, retryAfterMs, jitter)
  {
    var j, claimed := s.workers[w].hold.job, s.workers[w].hold.claimed;
    var status := FailureStatus(errorClass, claimed);
    var next := s.clock + WaitMs(errorClass, retryAfterMs, claimed, s.workers[w].config, jitter);
    assert !BlocksGroup(errorClass, claimed);
    assert status.WaitingRateLimit? ==> errorClass !in {AuthRequired, LoggedOut};
    hide FailureStatus, WaitMs, BlocksGroup, Recordable, PauseAfter, EventsAfter, WithEffect;
    if Recordable(s.jobs, j, status) {
      RowPutOff(s.jobs[j], errorClass, retryAfterMs, jitter, claimed, s.workers[w].config, s.clock);
      WithItsEffect(s, w, errorClass, status, next, effect,
                    FailedRow(s.jobs[j], errorClass, retryAfterMs, jitter, claimed, s.workers[w].config, s.clock));
      hide FailedRow, Noted;
    }
  }

  lemma RowPutOff(
    row: Job, errorClass: ErrorClass, retryAfterMs: Option<nat>, jitter: real, claimed: Job, config: Config,
    now: Instant)
    requires !FailureStatus(errorClass, claimed).Failed?
    ensures FailedRow(row, errorClass, retryAfterMs, jitter, claimed, config, now) == row.(
      status := FailureStatus(errorClass, claimed), lastError := Some(Delivery(errorClass)),
      nextAttemptAt := Some(now + WaitMs(errorClass, retryAfterMs, claimed, config, jitter)))
  {
  }

  // The pause that goes with the failure.
  lemma WithItsEffect(
    s: System, w: nat, errorClass: ErrorClass, status: Status, next: Instant, effect: Effect, row: Job)
    requires w in s.workers && s.workers[w].hold.Sending? && s.workers[w].hold.job < |s.jobs|
    requires effect == if status.WaitingRateLimit? then LimitRate(next)
      else if errorClass in {AuthRequired, LoggedOut} then PauseForAuth(ClassPause(errorClass)) else NoEffect
    requires status.WaitingRateLimit? ==> errorClass !in {AuthRequired, LoggedOut}
    ensures var worker, j := s.workers[w], s.workers[w].hold.job;
      WithEffect(Noted(s, w, row), w, j, effect) == s.(
        jobs := s.jobs[j := row], pause := PauseAfter(s.pause, errorClass, status, next),
        workers := s.workers[
          w := worker.(hold := Idle, lastFinish := s.clock,
                       stopping := worker.stopping || errorClass in {AuthRequired, LoggedOut})],
        trace := s.trace + EventsAfter(errorClass, status, j, w, s.clock, next))
  {
    var j := s.workers[w].hold.job;
    assert s.trace + EventsAfter(errorClass, status, j, w, s.clock, next)
      == Noted(s, w, row).trace + EventsAfter(errorClass, status, j, w, s.clock, next)[2..];
  }

  lemma GivingUp(s: System, w: nat, errorClass: ErrorClass)
    requires w in s.workers && s.workers[w].hold.Sending?
    ensures ApplyDecision(s, w, errorClass, Fail)
      == ErrorSettled(
           if errorClass in {PermissionError, DestinationError} then Blocked(s, s.workers[w].hold.claimed.destination)
           else s, w, Failed, ErrorChange(errorClass, None), NoEffect)
  {
    hide ErrorSettled, CancelledFor, WithCanSend;
  }

  lemma GivenUp(s: System, w: nat, errorClass: ErrorClass, retryAfterMs: Option<nat>, jitter: real)
    requires w in s.workers && s.workers[w].hold.Sending?
    requires FailureStatus(errorClass, s.workers[w].hold.claimed).Failed?
    ensures FailureRecorded(s, ApplyDecision(s, w, errorClass, Fail), w, errorClass, retryAfterMs, jitter)
  {
    var j, claimed := s.workers[w].hold.job, s.workers[w].hold.claimed;
    var blocks := errorClass in {PermissionError, DestinationError};
    assert BlocksGroup(errorClass, claimed) <==> blocks;
    var others := s.(dests := DestsAfter(s.dests, blocks, claimed.destination),
                     jobs := RowsAfter(s.jobs, blocks, claimed.destination));
    if blocks { BlocksRows(s, claimed.destination); }
    GivingUp(s, w, errorClass);
    SettledError(others, w, Failed, ErrorChange(errorClass, None), NoEffect);
    SameRecordable(s.jobs, blocks, claimed.destination, j);
    hide ErrorSettled, Recordable, WaitMs, ApplyDecision, Blocked, RowsAfter, DestsAfter, BlocksGroup, FailureStatus;
  }

  // Taking a group out of use moves no row that a worker has in hand.
  lemma SameRecordable(rows: seq<Job>, blocked: bool, jid: Jid, j: nat)
    ensures Recordable(RowsAfter(rows, blocked, jid), j, Failed) <==> Recordable(rows, j, Failed)
    ensures Recordable(rows, j, Failed) ==> RowsAfter(rows, blocked, jid)[j] == rows[j]
  {
    hide Conflicts;
  }

  lemma BlocksRows(s: System, jid: Jid)
    ensures Blocked(s, jid) == s.(dests := DestsAfter(s.dests, true, jid), jobs := RowsAfter(s.jobs, true, jid))
  {
    assert CancelledFor(s.jobs, jid) == RowsAfter(s.jobs, true, jid);
  }

  lemma AnswerIsRecorded(s: System, w: nat, outcome: Outcome, jitter: real)
    requires w in s.workers && s.workers[w].hold.Sending? && 0.0 <= jitter < 1.0
    ensures AnswerRecorded(s, Apply(s, FinishSend(w, outcome, jitter)), w, outcome, jitter)
  {
    var worker := s.workers[w];
    var j, claimed := worker.hold.job, worker.hold.claimed;
    var live := ViaLive(worker, claimed);
    if live && outcome.Rejected? {
      ErrorIsRecorded(s, w, TransportClass(claimed, outcome.errorClass), outcome.retryAfterMs, jitter);
      hide FailureRecorded, ApplyError;
      assert ReportedClass(claimed, outcome.errorClass) == TransportClass(claimed, outcome.errorClass);
    } else {
      var noted := Record(s, DeliveryAccepted(j));
      RecordableSettles(noted, j, if live then Sent else DryRun,
                        Change(Some(if live then RemoteMessage(outcome.number) else Simulated), None, None));
      ErrorIsRecorded(noted, w, UnknownTransient, None, jitter);
      hide FailureRecorded, ApplyError, Transition, Recordable, Conflicts;
    }
  }
}
