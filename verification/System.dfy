/**
 * The whole queue as a state machine. One step is one transaction, or one synchronous
 * stretch of a worker between two awaits; any process may take the next step.
 *
 * Worker 0 is the daemon, which holds the process lock. Worker j + 1 is the helper of the
 * dry-run job j: the command-line process that created it and goes on to run it once. What
 * the environment decides (the transport's answer, the jitter draw, whether staged media still
 * exists, the instant a caller read) is a parameter of the step.
 */
module System {
  import opened Prelude
  import opened Jobs
  import opened Statements
  import opened RetryPolicy

  datatype Config = Config(dryRun: bool, retryBaseMs: nat, retryMaxMs: nat, sendIntervalMs: int)

  datatype Hold =
    | Idle
    | Pacing(job: nat, claimed: Job)
    | Sending(job: nat, claimed: Job)

  // Where an idle worker stands before its next claim.
  //  Connecting: the live daemon has no connection yet, so its loop has not begun
  //  Clearing:   it has found a pause expired and is about to remove it
  //  Checked:    it has found no pause in force, and goes on to claim
  //  Done:       the helper has had its one claim
  datatype Gate =
    | Connecting
    | Ready
    | Clearing(limited: bool, since: Instant)
    | Checked(since: Instant)
    | Done

  // lastFinish is 0 until the first send of this worker has finished.
  datatype Worker = Worker(config: Config, stopping: bool, lastFinish: Instant, hold: Hold, gate: Gate)

  datatype Outcome = Accepted(number: nat) | Rejected(errorClass: ErrorClass, retryAfterMs: Option<nat>)

  datatype PauseReason = PausedRateLimited | PausedAuthRequired | PausedLoggedOut | PausedFatal

  // The state keys outgoing_pause_reason and outgoing_pause_until.
  datatype Pause = Pause(reason: Option<PauseReason>, until: Option<Instant>)

  datatype Event =
    | Created(job: nat)
    | Claimed(worker: nat, job: nat, at: Instant)
    | PutBackUnsent(job: nat)
    | SendCalled(worker: nat, job: nat, live: bool, at: Instant)
    | SendFinished(worker: nat, at: Instant)
    | DeliveryAccepted(job: nat)
    | ErrorHandled(job: nat)
    | AuthPaused(job: nat)
    | RateLimitPaused(job: nat, until: Instant)
    | ManuallyRetried(job: nat)
    | ManuallyMarkedSent(job: nat)
    | WorkerStarted(worker: nat, intervalMs: int)

  // helped: the jobs whose creator has gone on as their helper.
  datatype System = System(
    jobs: seq<Job>, dests: Destinations, pause: Pause, clock: Instant,
    workers: map<nat, Worker>, helped: set<nat>, trace: seq<Event>)

  datatype Step =
    | Tick(ms: nat)
    | Create(newJob: NewJob)
    | Promote(now: Instant)
    | CancelDisabled
    | CheckPause(worker: nat)
    | ClearPause(worker: nat)
    | Claim(worker: nat, now: Instant)
    | PutBack(worker: nat)
    | BeginSend(worker: nat, mediaExists: bool)
    | FinishSend(worker: nat, outcome: Outcome, jitter: real)
    | RequestStop(worker: nat)
    | Crash(worker: nat)
    | Exit(worker: nat)
    | StartDaemon(config: Config)
    | StartHelper(job: nat, config: Config)
    | SetEnabled(jid: Jid, enabled: bool)
    | Refresh(items: seq<Discovered>)
    | OperatorCancel(job: nat)
    | OperatorRetry(job: nat)
    | OperatorMarkSent(job: nat)
    | ConnectionOpened
    | ConnectionEnded(reason: PauseReason)

  // ----- Worker steps -----

  function SetHold(s: System, w: nat, hold: Hold): System
    requires w in s.workers
  {
    s.(workers := s.workers[w := s.workers[w].(hold := hold)])
  }

  function Record(s: System, event: Event): System {
    s.(trace := s.trace + [event])
  }

  // A dry-run transport ignores the pause keys.
  predicate GloballyPaused(pause: Pause, config: Config, now: Instant) {
    !config.dryRun
    && (|| (pause.reason.Some? && !pause.reason.value.PausedRateLimited?)
        || (pause.until.Some? && now < pause.until.value))
  }

  function SetGate(s: System, w: nat, gate: Gate): System
    requires w in s.workers
  {
    s.(workers := s.workers[w := s.workers[w].(gate := gate)])
  }

  // A worker at the head of its loop, not asked to stop, looks at the pause keys.
  predicate Looks(s: System, w: nat) {
    && w in s.workers && s.workers[w].hold.Idle? && s.workers[w].gate.Ready? && !s.workers[w].stopping
    && !GloballyPaused(s.pause, s.workers[w].config, s.clock)
  }

  function GateAfterLook(pause: Pause, config: Config, now: Instant): Gate {
    if config.dryRun || pause.until.None? then Checked(now)
    else Clearing(pause.reason == Some(PausedRateLimited), now)
  }

  function ApplyCheckPause(s: System, w: nat): System {
    if !Looks(s, w) then s else SetGate(s, w, GateAfterLook(s.pause, s.workers[w].config, s.clock))
  }

  // The expired pause is removed, by what the worker read before.
  function ApplyClearPause(s: System, w: nat): System {
    if w !in s.workers || !s.workers[w].gate.Clearing? then s
    else
      var gate := s.workers[w].gate;
      SetGate(s.(pause := Pause(if gate.limited then None else s.pause.reason, None)), w, Checked(gate.since))
  }

  // The instant the claimer read lies between its check and now.
  predicate CanClaim(s: System, w: nat, now: Instant) {
    && w in s.workers && s.workers[w].hold.Idle? && s.workers[w].gate.Checked?
    && s.workers[w].gate.since <= now <= s.clock
  }

  // The daemon claims any job, a helper the one it created.
  function OwnJob(w: nat): Option<nat> {
    if w == 0 then None else Some(w - 1)
  }

  function ClaimChoice(s: System, w: nat, now: Instant): Option<nat>
    requires w in s.workers
  {
    NextClaim(s.jobs, s.dests, now, OwnJob(w), s.workers[w].config.dryRun, |s.jobs|)
  }

  // The daemon loops, a helper claims once.
  function AfterClaim(w: nat): Gate {
    if w == 0 then Ready else Done
  }

  function ApplyClaim(s: System, w: nat, now: Instant): System {
    if !CanClaim(s, w, now) then s
    else
      var claiming := SetGate(s, w, AfterClaim(w));
      match ClaimChoice(s, w, now)
      case None => claiming
      case Some(j) =>
        var row := ClaimedRow(s.jobs[j], now);
        Record(SetHold(claiming.(jobs := s.jobs[j := row]), w, Pacing(j, row)), Claimed(w, j, now))
  }

  // The process of worker w ends: what it was doing is forgotten, the rows stay.
  function Gone(s: System, w: nat): System {
    s.(workers := s.workers - {w})
  }

  // A transition that ends the worker's hold. An illegal transition or a conflict is thrown
  // out of processOnce and ends the worker's process.
  function Settle(s: System, w: nat, j: nat, target: Status, change: Change, finished: Instant): System
    requires w in s.workers
  {
    match Transition(s.jobs, j, target, change, s.clock)
    case Err(_) => Gone(s, w)
    case Ok(rows) =>
      s.(jobs := rows, workers := s.workers[w := s.workers[w].(hold := Idle, lastFinish := finished)])
  }

  predicate Settles(s: System, j: nat, target: Status, change: Change) {
    Transition(s.jobs, j, target, change, s.clock).Ok?
  }

  function PutBackChange(now: Instant): Change { Change(None, Some(now), Some(ShutdownBeforeSend)) }

  function ErrorChange(errorClass: ErrorClass, next: Option<Instant>): Change {
    Change(None, next, Some(Delivery(errorClass)))
  }

  function ApplyPutBack(s: System, w: nat): System {
    if w !in s.workers || !s.workers[w].hold.Pacing? || !s.workers[w].stopping then s
    else
      var j := s.workers[w].hold.job;
      var after := Settle(s, w, j, Retry, PutBackChange(s.clock), s.workers[w].lastFinish);
      if Settles(s, j, Retry, PutBackChange(s.clock)) then Record(after, PutBackUnsent(j)) else after
  }

  // The pacing loop has run out for this worker.
  predicate Paced(worker: Worker, now: Instant) {
    worker.config.sendIntervalMs <= 0 || worker.lastFinish == 0
    || worker.lastFinish + worker.config.sendIntervalMs <= now
  }

  predicate ViaLive(worker: Worker, claimed: Job) {
    !worker.config.dryRun && !claimed.dryRun
  }

  function ApplyBeginSend(s: System, w: nat, mediaExists: bool): System {
    if w !in s.workers || !s.workers[w].hold.Pacing? || s.workers[w].stopping || !Paced(s.workers[w], s.clock) then s
    else
      var worker := s.workers[w];
      var j, claimed := worker.hold.job, worker.hold.claimed;
      if !Sendable(s.dests, claimed.destination) then
        Settle(s, w, j, Failed, ErrorChange(DestinationError, None), worker.lastFinish)
      else if claimed.hasMedia && !mediaExists then
        Settle(s, w, j, Failed, ErrorChange(MediaError, None), worker.lastFinish)
      else
        Record(SetHold(s, w, Sending(j, claimed)), SendCalled(w, j, ViaLive(worker, claimed), s.clock))
  }

  function ClassPause(errorClass: ErrorClass): PauseReason {
    if errorClass.LoggedOut? then PausedLoggedOut else PausedAuthRequired
  }

  // handleError; an error whose transition is refused ends the worker's process.
  function ApplyError(
    s: System, w: nat, errorClass: ErrorClass, retryAfterMs: Option<nat>, jitter: real): System
    requires w in s.workers && s.workers[w].hold.Sending?
  {
    ApplyDecision(s, w, errorClass, WorkerDecision(s.workers[w], errorClass, retryAfterMs, jitter))
  }

  function WorkerDecision(
    worker: Worker, errorClass: ErrorClass, retryAfterMs: Option<nat>, jitter: real): Decision
    requires worker.hold.Sending?
  {
    DecideRetry(errorClass, worker.hold.claimed.attempts, worker.hold.claimed.maxAttempts,
                worker.config.retryBaseMs, worker.config.retryMaxMs, retryAfterMs, jitter)
  }

  function ApplyDecision(s: System, w: nat, errorClass: ErrorClass, decision: Decision): System
    requires w in s.workers && s.workers[w].hold.Sending?
  {
    var claimed := s.workers[w].hold.claimed;
    match decision
    case RetryAfter(delay) =>
      ErrorSettled(s, w, Retry, ErrorChange(errorClass, Some(s.clock + delay)), NoEffect)
    case RateLimit(delay) =>
      ErrorSettled(s, w, WaitingRateLimit, ErrorChange(errorClass, Some(s.clock + delay)), LimitRate(s.clock + delay))
    case PauseAuth(delay) =>
      ErrorSettled(s, w, Retry, ErrorChange(errorClass, Some(s.clock + delay)), PauseForAuth(ClassPause(errorClass)))
    case Fail =>
      ErrorSettled(if BlocksDestination(errorClass) then Blocked(s, claimed.destination) else s,
                   w, Failed, ErrorChange(errorClass, None), NoEffect)
  }

  // What handleError does besides the job's own transition.
  datatype Effect = NoEffect | LimitRate(until: Instant) | PauseForAuth(reason: PauseReason)

  function WithEffect(s: System, w: nat, j: nat, effect: Effect): System
    requires w in s.workers
  {
    match effect
    case NoEffect => s
    case LimitRate(until) =>
      Record(s.(pause := Pause(Some(PausedRateLimited), Some(until))), RateLimitPaused(j, until))
    case PauseForAuth(reason) =>
      Record(s.(pause := s.pause.(reason := Some(reason)),
                workers := s.workers[w := s.workers[w].(stopping := true)]), AuthPaused(j))
  }

  predicate BlocksDestination(errorClass: ErrorClass) {
    errorClass.PermissionError? || errorClass.DestinationError?
  }

  // setCanSend(jid, false)
  function Blocked(s: System, jid: Jid): System {
    s.(dests := WithCanSend(s.dests, jid, false), jobs := CancelledFor(s.jobs, jid))
  }

  function ErrorSettled(s: System, w: nat, target: Status, change: Change, effect: Effect): System
    requires w in s.workers && s.workers[w].hold.Sending?
  {
    if Settles(s, s.workers[w].hold.job, target, change)
    then WithEffect(Failure(s, w, target, change), w, s.workers[w].hold.job, effect)
    else Gone(s, w)
  }

  // The failed delivery as recorded on the job's row.
  function Failure(s: System, w: nat, target: Status, change: Change): (after: System)
    requires w in s.workers && s.workers[w].hold.Sending?
    requires Settles(s, s.workers[w].hold.job, target, change)
    ensures w in after.workers
  {
    var j := s.workers[w].hold.job;
    Record(Record(Settle(s, w, j, target, change, s.clock), ErrorHandled(j)), SendFinished(w, s.clock))
  }

  // The transport accepted: record the result, or treat a refused write as a transient error.
  function ApplyAccepted(s: System, w: nat, target: Status, remote: RemoteId, jitter: real): System
    requires w in s.workers && s.workers[w].hold.Sending?
  {
    var j := s.workers[w].hold.job;
    var noted := Record(s, DeliveryAccepted(j));
    var change := Change(Some(remote), None, None);
    if Settles(noted, j, target, change)
    then Record(Settle(noted, w, j, target, change, s.clock), SendFinished(w, s.clock))
    else ApplyError(noted, w, UnknownTransient, None, jitter)
  }

  function ApplyFinishSend(s: System, w: nat, outcome: Outcome, jitter: real): System {
    if w !in s.workers || !s.workers[w].hold.Sending? then s
    else if !ViaLive(s.workers[w], s.workers[w].hold.claimed) then
      ApplyAccepted(s, w, DryRun, Simulated, jitter)
    else match outcome
      case Accepted(number) => ApplyAccepted(s, w, Sent, RemoteMessage(number), jitter)
      case Rejected(errorClass, retryAfterMs) =>
        ApplyError(s, w, TransportClass(s.workers[w].hold.claimed, errorClass), retryAfterMs, jitter)
  }

  // The live transport reports a forward refused by its destination as an unusable payload.
  function TransportClass(claimed: Job, errorClass: ErrorClass): ErrorClass {
    if claimed.forwardSource.Some? && (errorClass.DestinationError? || errorClass.PermissionError?)
    then InvalidPayload else errorClass
  }

  // ----- Everybody else's steps -----

  function ApplyCreate(s: System, job: NewJob): System {
    match Insert(s.jobs, s.dests, job)
    case Err(_) => s
    case Ok(rows) => Record(s.(jobs := rows), Created(|s.jobs|))
  }

  // The daemon's process takes the lock and recovers the queue. A live one has to connect first.
  function FreshDaemon(config: Config): Worker {
    Worker(config, false, 0, Idle, if config.dryRun then Ready else Connecting)
  }

  function ApplyStartDaemon(s: System, config: Config): System {
    if 0 in s.workers then s
    else Record(
      s.(jobs := Recovered(s.jobs), workers := s.workers[0 := FreshDaemon(config)]),
      WorkerStarted(0, config.sendIntervalMs))
  }

  // The process that created the dry-run job j goes on as its helper, once.
  predicate CanHelp(s: System, j: nat, config: Config) {
    j < |s.jobs| && s.jobs[j].dryRun && j !in s.helped && j + 1 !in s.workers && config.dryRun
  }

  function ApplyStartHelper(s: System, j: nat, config: Config): System {
    if !CanHelp(s, j, config) then s
    else Record(
      s.(workers := s.workers[j + 1 := Worker(config, false, 0, Idle, Ready)], helped := s.helped + {j}),
      WorkerStarted(j + 1, config.sendIntervalMs))
  }

  // An open connection lifts every pause, and lets a daemon that waited for it begin.
  function ApplyConnectionOpened(s: System): System {
    var lifted := s.(pause := Pause(None, None));
    if 0 in s.workers && s.workers[0].gate.Connecting? then SetGate(lifted, 0, Ready) else lifted
  }

  function ApplySetEnabled(s: System, jid: Jid, enabled: bool): System {
    if jid !in s.dests then s
    else s.(dests := WithEnabled(s.dests, jid, enabled),
            jobs := if enabled then s.jobs else CancelledFor(s.jobs, jid))
  }

  function ApplyRefresh(s: System, items: seq<Discovered>): System {
    var dests := UpsertAll(s.dests, items);
    s.(dests := dests, jobs := UnsendableCancelled(s.jobs, dests))
  }

  function ApplyOperatorRetry(s: System, j: nat): System {
    match ManualRetry(s.jobs, j, s.clock)
    case Err(_) => s
    case Ok(rows) => Record(s.(jobs := rows), ManuallyRetried(j))
  }

  function ApplyOperatorCancel(s: System, j: nat): System {
    match Transition(s.jobs, j, Cancelled, CancelChange(), s.clock)
    case Err(_) => s
    case Ok(rows) => s.(jobs := rows)
  }

  function ApplyOperatorMarkSent(s: System, j: nat): System {
    match Transition(s.jobs, j, Sent, MarkSentChange(), s.clock)
    case Err(_) => s
    case Ok(rows) => Record(s.(jobs := rows), ManuallyMarkedSent(j))
  }

  // A step that is not possible, or whose transaction is rolled back, changes nothing.
  function Apply(s: System, step: Step): System {
    match step
    case Tick(ms) => s.(clock := s.clock + ms)
    case Create(job) => if NewJobOk(job) && (job.status.Pending? ==> job.scheduledAt <= s.clock)
                        then ApplyCreate(s, job) else s
    case Promote(now) => if now <= s.clock then s.(jobs := Promoted(s.jobs, now)) else s
    case CancelDisabled => s.(jobs := DisabledCancelled(s.jobs, s.dests))
    case CheckPause(w) => ApplyCheckPause(s, w)
    case ClearPause(w) => ApplyClearPause(s, w)
    case Claim(w, now) => ApplyClaim(s, w, now)
    case PutBack(w) => ApplyPutBack(s, w)
    case BeginSend(w, mediaExists) => ApplyBeginSend(s, w, mediaExists)
    case FinishSend(w, outcome, jitter) =>
      if 0.0 <= jitter < 1.0 then ApplyFinishSend(s, w, outcome, jitter) else s
    case RequestStop(w) =>
      if w in s.workers then s.(workers := s.workers[w := s.workers[w].(stopping := true)]) else s
    case Crash(w) => Gone(s, w)
    case Exit(w) => if w in s.workers && s.workers[w].hold.Idle? then Gone(s, w) else s
    case StartDaemon(config) => ApplyStartDaemon(s, config)
    case StartHelper(j, config) => ApplyStartHelper(s, j, config)
    case SetEnabled(jid, enabled) => ApplySetEnabled(s, jid, enabled)
    case Refresh(items) => ApplyRefresh(s, items)
    case OperatorCancel(j) => ApplyOperatorCancel(s, j)
    case OperatorRetry(j) => ApplyOperatorRetry(s, j)
    case OperatorMarkSent(j) => ApplyOperatorMarkSent(s, j)
    case ConnectionOpened => ApplyConnectionOpened(s)
    case ConnectionEnded(reason) =>
      if reason.PausedRateLimited? then s else s.(pause := s.pause.(reason := Some(reason)))
  }

  function Run(s: System, steps: seq<Step>): System {
    if steps == [] then s else Apply(Run(s, steps[..|steps| - 1]), steps[|steps| - 1])
  }

  lemma RunExtend(s: System, steps: seq<Step>, step: Step)
    ensures Run(s, steps + [step]) == Apply(Run(s, steps), step)
  {
    assert (steps + [step])[..|steps|] == steps;
  }

  lemma {:induction false} RunConcat(s: System, first: seq<Step>, second: seq<Step>)
    ensures Run(s, first + second) == Run(Run(s, first), second)
  {
    if second == [] {
      assert first + second == first;
    } else {
      var n := |second| - 1;
      RunConcat(s, first, second[..n]);
      assert first + second == (first + second[..n]) + [second[n]];
      RunExtend(s, first + second[..n], second[n]);
    }
  }

  // An empty queue with no process running.
  predicate Initial(s: System) {
    s.jobs == [] && s.workers == map[] && s.helped == {} && s.trace == [] && 0 < s.clock
    && s.pause.until.None?
  }
}
