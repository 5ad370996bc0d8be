/** The durable job record, its status table and the shape every stored row keeps. */
module Jobs {
  import opened Prelude

  // Milliseconds since the epoch. The database stores them as fixed-width UTC
  // text; module IsoTime proves that text order is order on instants.
  type Instant = int

  datatype Server = GroupServer | UserServer | LidServer | OtherServer

  datatype Jid = Jid(user: string, server: Server)

  datatype Status =
    | Pending | Scheduled | Processing | WaitingRateLimit | Retry
    | Sent | Failed | Cancelled | ReviewRequired | DryRun

  datatype ErrorClass =
    | TemporaryNetwork | ConnectionClosed | RateLimited | AuthRequired | LoggedOut
    | PermissionError | DestinationError | InvalidPayload | MediaError | SessionError
    | UnknownTransient | UnknownPermanent

  datatype ErrorLabel =
    | Delivery(errorClass: ErrorClass)
    | ShutdownBeforeSend
    | OperatorCancelled
    | UncertainAfterRestart

  datatype RemoteId = RemoteMessage(number: nat) | Simulated | OperatorConfirmed

  datatype PayloadType = Text | Image | Video | Document | Audio

  // The idempotency hash is taken as an injective function of the fields it covers.
  datatype IdempotencyKey = IdempotencyKey(
    destination: Jid, payloadType: PayloadType, text: string, mediaHash: Option<string>,
    schedule: Option<Instant>, filename: Option<string>, options: string,
    forceNonce: Option<nat>, dryRun: bool)

  datatype Job = Job(
    destination: Jid,
    hasMedia: bool,
    scheduledAt: Instant,
    status: Status,
    attempts: nat,
    maxAttempts: nat,
    nextAttemptAt: Option<Instant>,
    lastError: Option<ErrorLabel>,
    key: IdempotencyKey,
    startedAt: Option<Instant>,
    sentAt: Option<Instant>,
    remote: Option<RemoteId>,
    batch: Option<nat>,
    dryRun: bool,
    forwardSource: Option<string>)

  datatype NewJob = NewJob(
    destination: Jid, hasMedia: bool, scheduledAt: Instant, status: Status, maxAttempts: nat,
    key: IdempotencyKey, batch: Option<nat>, dryRun: bool, forwardSource: Option<string>)

  // The transition table.
  function Successors(current: Status): set<Status> {
    match current
    case Pending => {Processing, Cancelled}
    case Scheduled => {Pending, Cancelled}
    case Processing => {Sent, DryRun, Retry, WaitingRateLimit, Failed, ReviewRequired}
    case WaitingRateLimit => {Processing, Cancelled}
    case Retry => {Processing, Cancelled}
    case Failed => {Retry, Cancelled}
    case ReviewRequired => {Retry, Sent, Failed, Cancelled}
    case Sent => {}
    case Cancelled => {}
    case DryRun => {}
  }

  predicate CanMove(current: Status, target: Status) {
    target in Successors(current)
  }

  // The same table read backwards: where each status can be entered from.
  function Origins(target: Status): set<Status> {
    match target
    case Pending => {Scheduled}
    case Scheduled => {}
    case Processing => {Pending, WaitingRateLimit, Retry}
    case WaitingRateLimit => {Processing}
    case Retry => {Processing, Failed, ReviewRequired}
    case Sent => {Processing, ReviewRequired}
    case Failed => {Processing, ReviewRequired}
    case Cancelled => {Pending, Scheduled, WaitingRateLimit, Retry, Failed, ReviewRequired}
    case ReviewRequired => {Processing}
    case DryRun => {Processing}
  }

  lemma TableReadBackwards(current: Status, target: Status)
    ensures CanMove(current, target) <==> current in Origins(target)
    ensures Final(current) <==> forall other :: !CanMove(current, other)
  {
    assert Successors(current) != {} ==> exists other :: other in Successors(current) && CanMove(current, other);
  }

  predicate Unsent(status: Status) {
    status.Pending? || status.Scheduled? || status.Retry? || status.WaitingRateLimit?
  }

  // The statuses covered by the partial unique index on idempotency_key.
  predicate Active(status: Status) {
    Unsent(status) || status.Processing? || status.Sent? || status.DryRun?
  }

  predicate Final(status: Status) {
    status.Sent? || status.Cancelled? || status.DryRun?
  }

  // COALESCE(next_attempt_at, scheduled_at): when a job is due and how due jobs are ordered.
  function DueAt(job: Job): Instant {
    if job.nextAttemptAt.Some? then job.nextAttemptAt.value else job.scheduledAt
  }

  // What every stored row looks like in each status.
  predicate Shape(job: Job) {
    && 0 < job.maxAttempts
    && job.key.dryRun == job.dryRun
    && job.key.destination == job.destination
    && (job.status.Retry? || job.status.WaitingRateLimit? ==> job.nextAttemptAt.Some?)
    && (job.status.Pending? || job.status.Scheduled? || job.status.Processing? ==> job.nextAttemptAt.None?)
    && (job.status.Pending? || job.status.Scheduled? ==> job.attempts == 0)
    && (job.status.Processing? ==> 0 < job.attempts && job.startedAt.Some?)
    && (job.sentAt.Some? <==> job.status.Sent?)
    && (job.status.DryRun? ==> job.dryRun && job.remote == Some(Simulated))
    && (job.status.Sent? ==> job.remote.Some? && job.remote != Some(Simulated))
    && (job.status.Sent? && job.dryRun ==> job.remote == Some(OperatorConfirmed))
  }

  // The columns no statement ever rewrites.
  predicate SameIdentity(a: Job, b: Job) {
    && a.destination == b.destination && a.hasMedia == b.hasMedia && a.scheduledAt == b.scheduledAt
    && a.maxAttempts == b.maxAttempts && a.key == b.key && a.batch == b.batch
    && a.dryRun == b.dryRun && a.forwardSource == b.forwardSource
  }

  // One row change: nothing, or one edge of the table.
  predicate Follows(before: Job, after: Job) {
    before == after || (CanMove(before.status, after.status) && SameIdentity(before, after))
  }
}
