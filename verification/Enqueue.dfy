/** Queueing one message, or one message to many groups, while other processes keep working. */
module Enqueue {
  import opened Prelude
  import opened Jobs
  import opened Statements
  import opened System
  import opened Storage
  import opened Invariants
  import opened RetryPolicy
  import Denial
  import Fairness

  datatype Staged = Staged(payloadType: PayloadType, hash: string, safeFilename: string)

  // Staging reads the file named in the request; it awaits, and it may fail.
  datatype Media = NoMedia | Unreadable | Stageable(staged: Staged)

  // Text is already normalised; `renamed` says whether the request names the file itself.
  datatype Request = Request(
    destination: Reference, text: string, media: Media, renamed: bool, scheduledAt: Option<Instant>,
    force: bool, options: string, batch: Option<nat>, dryRun: Option<bool>)

  datatype Limits = Limits(maxAttempts: nat, dryRun: bool)

  datatype EnqueueError =
    | UnknownTarget | NotAllowed | StagingFailed | EmptyMessage | TooLong(limit: nat) | NotInFuture
    | NotStored(error: DbError)

  datatype Queued = Queued(job: nat, duplicate: bool)

  const CAPTION_LIMIT: nat := 1024
  const MESSAGE_LIMIT: nat := 65536

  function TextLimit(media: Media): nat {
    if media.Stageable? then CAPTION_LIMIT else MESSAGE_LIMIT
  }

  function KeyOf(request: Request, jid: Jid, limits: Limits, nonce: nat): IdempotencyKey {
    var staged := request.media.Stageable?;
    IdempotencyKey(
      jid,
      if staged then request.media.staged.payloadType else Text,
      request.text,
      if staged then Some(request.media.staged.hash) else None,
      request.scheduledAt,
      if staged && request.renamed then Some(request.media.staged.safeFilename) else None,
      request.options,
      if request.force then Some(nonce) else None,
      DryRunOf(request, limits))
  }

  function DryRunOf(request: Request, limits: Limits): bool {
    if request.dryRun.Some? then request.dryRun.value else limits.dryRun
  }

  function NewJobOf(request: Request, jid: Jid, limits: Limits, nonce: nat, now: Instant): NewJob {
    NewJob(jid, request.media.Stageable?,
           if request.scheduledAt.Some? then request.scheduledAt.value else now,
           if request.scheduledAt.Some? then Scheduled else Pending,
           limits.maxAttempts, KeyOf(request, jid, limits, nonce), request.batch, DryRunOf(request, limits), None)
  }

  // A forward's content is the stored source it points to.
  function ForwardJobOf(
    jid: Jid, source: string, scheduledAt: Option<Instant>, batch: Option<nat>, limits: Limits, now: Instant): NewJob
  {
    NewJob(jid, false, if scheduledAt.Some? then scheduledAt.value else now,
           if scheduledAt.Some? then Scheduled else Pending, limits.maxAttempts,
           IdempotencyKey(jid, Text, "", None, scheduledAt, None, "forwardSourceKey=" + source, None, limits.dryRun),
           batch, limits.dryRun, Some(source))
  }

  // ----- What a stored message looks like, from the request alone -----

  ghost predicate KeyAsked(key: IdempotencyKey, request: Request, jid: Jid, limits: Limits, nonce: nat) {
    && key.destination == jid && key.text == request.text && key.schedule == request.scheduledAt
    && key.options == request.options
    && (match request.media
        case Stageable(file) =>
          key.payloadType == file.payloadType && key.mediaHash == Some(file.hash)
          && key.filename == if request.renamed then Some(file.safeFilename) else None
        case _ => key.payloadType == Text && key.mediaHash.None? && key.filename.None?)
    && key.forceNonce == (if request.force then Some(nonce) else None)
    && key.dryRun == if request.dryRun.Some? then request.dryRun.value else limits.dryRun
  }

  // A scheduled message waits for the time asked for; any other is due at the instant `now`.
  ghost predicate RowAsked(row: Job, request: Request, jid: Jid, limits: Limits, nonce: nat, now: Instant) {
    && KeyAsked(row.key, request, jid, limits, nonce) && row.destination == jid
    && (match request.scheduledAt
        case Some(time) => row.status == Scheduled && row.scheduledAt == time
        case None => row.status == Pending && row.scheduledAt == now)
    && row.hasMedia == request.media.Stageable? && row.maxAttempts == limits.maxAttempts
    && row.batch == request.batch && row.forwardSource.None? && row.dryRun == row.key.dryRun && Untried(row)
  }

  predicate Untried(row: Job) {
    row.attempts == 0 && row.nextAttemptAt.None? && row.lastError.None? && row.startedAt.None? && row.sentAt.None?
    && row.remote.None?
  }

  // The job a caller gets: its own, as asked for, or a standing one with the same key.
  ghost predicate ResultAsked(
    rows: seq<Job>, queued: Queued, request: Request, jid: Jid, limits: Limits, nonce: nat, now: Instant)
  {
    && queued.job < |rows| && KeyAsked(rows[queued.job].key, request, jid, limits, nonce)
    && if queued.duplicate
       then rows[queued.job].status in {Pending, Scheduled, Processing, WaitingRateLimit, Retry, Sent, DryRun}
       else RowAsked(rows[queued.job], request, jid, limits, nonce, now)
  }

  // A forward: the text is the stored source's, whose key is part of the idempotency key.
  ghost predicate ForwardKeyAsked(
    key: IdempotencyKey, jid: Jid, source: string, scheduledAt: Option<Instant>, limits: Limits)
  {
    key == IdempotencyKey(
      jid, Text, "", None, scheduledAt, None, "forwardSourceKey=" + source, None, limits.dryRun)
  }

  ghost predicate ForwardRowAsked(
    row: Job, jid: Jid, source: string, scheduledAt: Option<Instant>, batch: Option<nat>, limits: Limits, now: Instant)
  {
    && ForwardKeyAsked(row.key, jid, source, scheduledAt, limits) && row.destination == jid
    && (match scheduledAt
        case Some(time) => row.status == Scheduled && row.scheduledAt == time
        case None => row.status == Pending && row.scheduledAt == now)
    && !row.hasMedia && row.maxAttempts == limits.maxAttempts && row.batch == batch
    && row.forwardSource == Some(source) && row.dryRun == limits.dryRun && Untried(row)
  }

  // Two forwards are the same to the queue exactly when they bring one stored message to one group
  // for one time in one mode.
  lemma SameForwardKeyMeansSameForward(
    a: IdempotencyKey, b: IdempotencyKey, jidA: Jid, jidB: Jid, sourceA: string, sourceB: string,
    timeA: Option<Instant>, timeB: Option<Instant>, limitsA: Limits, limitsB: Limits)
    requires ForwardKeyAsked(a, jidA, sourceA, timeA, limitsA) && ForwardKeyAsked(b, jidB, sourceB, timeB, limitsB)
    ensures a == b <==>
      jidA == jidB && sourceA == sourceB && timeA == timeB && limitsA.dryRun == limitsB.dryRun
  {
    var prefix := "forwardSourceKey=";
    if a == b {
      assert (prefix + sourceA)[|prefix|..] == sourceA && (prefix + sourceB)[|prefix|..] == sourceB;
    }
  }

  ghost predicate Nameless(dests: Destinations, reference: Reference) {
    forall jid :: jid in dests ==> !Names(dests, reference, jid)
  }

  ghost predicate NamesBlocked(dests: Destinations, reference: Reference) {
    exists jid :: jid in dests && Names(dests, reference, jid) && !Sendable(dests, jid)
  }

  // What the key covers besides the group: of a media file its kind and content, and its name
  // only when the request names it.
  predicate SameContent(a: Request, b: Request) {
    && a.text == b.text && a.scheduledAt == b.scheduledAt && a.options == b.options
    && a.media.Stageable? == b.media.Stageable?
    && (a.media.Stageable? ==>
          && a.media.staged.payloadType == b.media.staged.payloadType && a.media.staged.hash == b.media.staged.hash
          && a.renamed == b.renamed && (a.renamed ==> a.media.staged.safeFilename == b.media.staged.safeFilename))
  }

  // Staged files are never of the kind a text message has.
  predicate StagedKind(request: Request) {
    request.media.Stageable? ==> !request.media.staged.payloadType.Text?
  }

  // Two messages are the same to the queue exactly when they go to one group in one mode with the
  // same content, and are both unforced or forced with one nonce.
  lemma SameKeyMeansSameMessage(a: Request, b: Request, jidA: Jid, jidB: Jid, limits: Limits, nonceA: nat, nonceB: nat)
    requires StagedKind(a) && StagedKind(b)
    ensures KeyOf(a, jidA, limits, nonceA) == KeyOf(b, jidB, limits, nonceB) <==>
      && jidA == jidB && SameContent(a, b) && DryRunOf(a, limits) == DryRunOf(b, limits)
      && a.force == b.force && (a.force ==> nonceA == nonceB)
  {
  }

  // ----- The race between equal enqueues -----

  // However the system ran in between, a second enqueue with the same key creates a row exactly
  // when no row holding the key is active any more, so racing equal enqueues share one row.
  lemma EqualEnqueuesShareOneRow(s: System, first: NewJob, between: seq<Step>, second: NewJob)
    requires Sound(s) && NewJobOk(first) && NewJobOk(second) && first.key == second.key
    requires first.status.Pending? ==> first.scheduledAt <= s.clock
    requires second.status.Pending? ==> second.scheduledAt <= Run(Apply(s, Create(first)), between).clock
    requires Insert(s.jobs, s.dests, first).Ok? && 0 < second.maxAttempts
    requires second.destination in Run(Apply(s, Create(first)), between).dests
    ensures var mid := Run(Apply(s, Create(first)), between);
      var after := Apply(mid, Create(second));
      && |s.jobs| < |mid.jobs| && mid.jobs[|s.jobs|].key == first.key
      && (|after.jobs| > |mid.jobs| <==> !Conflicts(mid.jobs, first.key, -1))
      && (Active(mid.jobs[|s.jobs|].status) ==> after.jobs == mid.jobs)
      && UniqueActive(after.jobs)
  {
    var created := Apply(s, Create(first));
    StepGood(s, Create(first));
    RunSound(created, between);
    RunKeepsIdentity(created, between, |s.jobs|);
    StepGood(Run(created, between), Create(second));
  }

  lemma {:induction false} RunKeepsIdentity(s: System, steps: seq<Step>, j: nat)
    requires Sound(s) && j < |s.jobs|
    ensures j < |Run(s, steps).jobs| && SameIdentity(s.jobs[j], Run(s, steps).jobs[j])
  {
    if steps != [] {
      var n := |steps| - 1;
      RunKeepsIdentity(s, steps[..n], j);
      RunSound(s, steps[..n]);
      StepGood(Run(s, steps[..n]), steps[n]);
      assert Follows(Run(s, steps[..n]).jobs[j], Run(s, steps).jobs[j]);
    }
  }

  // Destinations are never deleted.
  lemma {:induction false} DestinationsStay(s: System, steps: seq<Step>, jid: Jid)
    requires jid in s.dests
    ensures jid in Run(s, steps).dests
  {
    if steps != [] {
      var n := |steps| - 1;
      DestinationsStay(s, steps[..n], jid);
      DestinationStays(Run(s, steps[..n]), steps[n], jid);
    }
  }

  lemma DestinationStays(s: System, step: Step, jid: Jid)
    requires jid in s.dests
    ensures jid in Apply(s, step).dests
  {
    hide Transition, DecideRetry, NextClaim;
    if step.Refresh? {
      Denial.UpsertKeepsKnown(s.dests, step.items, jid);
    } else if step.FinishSend? && step.worker in s.workers && s.workers[step.worker].hold.Sending? {
      FinishKeepsDestination(s, step.worker, step.outcome, step.jitter, jid);
    }
  }

  lemma FinishKeepsDestination(s: System, w: nat, outcome: Outcome, jitter: real, jid: Jid)
    requires w in s.workers && s.workers[w].hold.Sending? && jid in s.dests
    ensures jid in ApplyFinishSend(s, w, outcome, jitter).dests
  {
    hide ApplyDecision;
    var worker := s.workers[w];
    var noted := Record(s, DeliveryAccepted(worker.hold.job));
    assert noted.workers == s.workers && noted.dests == s.dests;
    DecisionKeepsDestination(noted, w, UnknownTransient, WorkerDecision(worker, UnknownTransient, None, jitter), jid);
    if outcome.Rejected? {
      var errorClass := TransportClass(worker.hold.claimed, outcome.errorClass);
      DecisionKeepsDestination(s, w, errorClass, WorkerDecision(worker, errorClass, outcome.retryAfterMs, jitter), jid);
    }
  }

  lemma DecisionKeepsDestination(s: System, w: nat, errorClass: ErrorClass, decision: Decision, jid: Jid)
    requires w in s.workers && s.workers[w].hold.Sending? && jid in s.dests
    ensures jid in ApplyDecision(s, w, errorClass, decision).dests
  {
    hide Transition;
  }

  // ----- Storing a job while others go on -----

  // What other processes do between the reading of the clock and the insert, and between a
  // refused insert and the lookup of the job that stood in its way.
  datatype Delays = Delays(insert: seq<Step>, lookup: seq<Step>)

  // A job is stored exactly when no active row has its key at the insert. Otherwise the result
  // is an active row with the key or, when there is none any more at the lookup, an error.
  ghost predicate StoreOutcome(
    before: System, delays: Delays, job: NewJob, r: Result<Queued, EnqueueError>, after: System)
  {
    var inserting := Run(before, delays.insert);
    if !Conflicts(inserting.jobs, job.key, -1) then
      && r == Ok(Queued(|inserting.jobs|, false)) && after == Apply(inserting, Create(job))
      && after.jobs == inserting.jobs + [FreshRow(job)]
    else
      && after == Run(inserting, delays.lookup)
      && if Conflicts(after.jobs, job.key, -1)
         then && r.Ok? && r.value.duplicate && r.value.job < |after.jobs|
              && Active(after.jobs[r.value.job].status) && after.jobs[r.value.job].key == job.key
         else r == Err(NotStored(UniqueViolation))
  }

  // The reason a request is refused before anything is stored.
  ghost predicate Refusal(request: Request, dests: Destinations, now: Instant, error: EnqueueError) {
    match error
    case UnknownTarget => Nameless(dests, request.destination)
    case NotAllowed => NamesBlocked(dests, request.destination)
    case StagingFailed => request.media.Unreadable?
    case EmptyMessage => request.text == "" && request.media.NoMedia?
    case TooLong(limit) => limit == (if request.media.Stageable? then 1024 else 65536) < |request.text|
    case NotInFuture => request.scheduledAt.Some? && request.scheduledAt.value <= now
    case NotStored(_) => false
  }

  // The steps of storing a job.
  ghost function StoringSteps(before: System, delays: Delays, job: NewJob): seq<Step> {
    delays.insert
    + if Conflicts(Run(before, delays.insert).jobs, job.key, -1) then delays.lookup else [Create(job)]
  }

  lemma OutcomeIsARun(
    before: System, delays: Delays, job: NewJob, r: Result<Queued, EnqueueError>, after: System)
    requires StoreOutcome(before, delays, job, r, after)
    ensures after == Run(before, StoringSteps(before, delays, job))
  {
    if Conflicts(Run(before, delays.insert).jobs, job.key, -1) {
      RunConcat(before, delays.insert, delays.lookup);
    } else {
      RunExtend(before, delays.insert, Create(job));
    }
  }

  // The job the caller gets is active, has the key asked for and goes to that key's group.
  lemma OutcomeIsForTheKey(
    before: System, delays: Delays, job: NewJob, r: Result<Queued, EnqueueError>, after: System)
    requires Sound(before) && NewJobOk(job) && StoreOutcome(before, delays, job, r, after) && r.Ok?
    ensures Sound(after) && r.value.job < |after.jobs|
    ensures var row := after.jobs[r.value.job];
      Active(row.status) && row.key == job.key && row.destination == job.destination && row.dryRun == job.dryRun
  {
    OutcomeIsARun(before, delays, job, r, after);
    RunSound(before, StoringSteps(before, delays, job));
    assert Shape(after.jobs[r.value.job]);
  }

  lemma StoredAsAsked(
    before: System, delays: Delays, job: NewJob, r: Result<Queued, EnqueueError>, after: System)
    requires StoreOutcome(before, delays, job, r, after) && r.Ok?
    ensures r.value.job < |after.jobs| && after.jobs[r.value.job].key == job.key
    ensures if r.value.duplicate then Active(after.jobs[r.value.job].status)
            else after.jobs[r.value.job] == FreshRow(job)
  {
    hide Run, Apply, Conflicts;
  }

  lemma RequestStored(
    request: Request, jid: Jid, limits: Limits, nonce: nat, before: System, delays: Delays,
    r: Result<Queued, EnqueueError>, after: System)
    requires StoreOutcome(before, delays, NewJobOf(request, jid, limits, nonce, before.clock), r, after)
    ensures r.Ok? ==> ResultAsked(after.jobs, r.value, request, jid, limits, nonce, before.clock)
  {
    if r.Ok? {
      StoredAsAsked(before, delays, NewJobOf(request, jid, limits, nonce, before.clock), r, after);
    }
    hide StoreOutcome;
  }

  // ----- The services -----

  class MessageService {
    const database: Database
    const destinations: DestinationRepository
    const jobs: JobRepository
    const limits: Limits

    predicate Wired() {
      destinations.database == database && jobs.database == database && 0 < limits.maxAttempts
    }

    constructor (database: Database, limits: Limits)
      requires 0 < limits.maxAttempts
      ensures Wired() && this.database == database && this.limits == limits
    {
      this.database, this.limits := database, limits;
      this.destinations := new DestinationRepository(database);
      this.jobs := new JobRepository(database);
    }

    // Queues a message, or finds the active job that already has its key. `staging` is what the
    // others do while the media file is copied. The result is a target that passed every check and
    // the outcome of storing its job, or a refusal that wrote nothing.
    method Enqueue(request: Request, nonce: nat, staging: seq<Step>, delays: Delays)
      returns (r: Result<Queued, EnqueueError>, ghost target: Option<Jid>, ghost mid: System)
      requires Wired() && Sound(database.View())
      modifies database
      ensures mid == Run(old(database.View()), if request.media.Stageable? then staging else [])
      ensures target.Some? ==>
        && target.value in old(database.dests) && Sendable(old(database.dests), target.value)
        && Names(old(database.dests), request.destination, target.value)
        && !request.media.Unreadable? && (request.text != "" || request.media.Stageable?)
        && |request.text| <= (if request.media.Stageable? then 1024 else 65536)
        && (request.scheduledAt.Some? ==> mid.clock < request.scheduledAt.value)
        && var job := NewJobOf(request, target.value, limits, nonce, mid.clock);
           NewJobOk(job) && job.key == KeyOf(request, target.value, limits, nonce)
           && StoreOutcome(mid, delays, job, r, database.View())
      ensures r.Ok? ==>
        target.Some? && ResultAsked(database.jobs, r.value, request, target.value, limits, nonce, mid.clock)
      ensures target.None? ==>
        && r.Err? && !r.error.NotStored? && (database.View() == old(database.View()) || database.View() == mid)
        && Refusal(request, old(database.dests), mid.clock, r.error)
    {
      mid := Run(database.View(), if request.media.Stageable? then staging else []);
      assert !request.media.Stageable? ==> mid == database.View();
      hide Run, Apply, Names, Sendable, Conflicts, StoreOutcome;
      target := None;
      var resolved := ResolveAllowed(request.destination);
      if resolved.Err? {
        return Err(resolved.error), target, mid;
      }
      var jid := resolved.value;
      if request.media.Unreadable? {
        return Err(StagingFailed), target, mid;
      }
      if request.media.Stageable? {
        DestinationsStay(database.View(), staging, jid);
        database.Meanwhile(staging);
      }
      if request.text == "" && request.media.NoMedia? {
        return Err(EmptyMessage), target, mid;
      }
      if |request.text| > TextLimit(request.media) {
        return Err(TooLong(TextLimit(request.media))), target, mid;
      }
      var now := database.clock;
      if request.scheduledAt.Some? && request.scheduledAt.value <= now {
        return Err(NotInFuture), target, mid;
      }
      target := Some(jid);
      assert now == mid.clock;
      r := Store(NewJobOf(request, jid, limits, nonce, now), delays);
      RequestStored(request, jid, limits, nonce, mid, delays, r, database.View());
    }

    // The group a reference names, if messages may be sent to it.
    method ResolveAllowed(reference: Reference) returns (r: Result<Jid, EnqueueError>)
      requires Wired()
      ensures r.Ok? ==>
        r.value in database.dests && Names(database.dests, reference, r.value) && Sendable(database.dests, r.value)
      ensures r.Err? ==>
        || (r.error.UnknownTarget? && Nameless(database.dests, reference))
        || (r.error.NotAllowed? && NamesBlocked(database.dests, reference))
    {
      var target := destinations.Resolve(reference);
      if target.None? {
        return Err(UnknownTarget);
      }
      var jid := target.value;
      if !database.dests[jid].enabled || !database.dests[jid].canSend {
        assert Names(database.dests, reference, jid) && !Sendable(database.dests, jid);
        return Err(NotAllowed);
      }
      return Ok(jid);
    }

    // create-or-return-existing
    method Store(job: NewJob, delays: Delays) returns (r: Result<Queued, EnqueueError>)
      requires Wired() && NewJobOk(job) && 0 < job.maxAttempts && job.destination in database.dests
      requires job.status.Pending? ==> job.scheduledAt <= database.clock
      modifies database
      ensures StoreOutcome(old(database.View()), delays, job, r, database.View())
    {
      DestinationsStay(database.View(), delays.insert, job.destination);
      Fairness.RunNeverRunsBack(database.View(), delays.insert);
      database.Meanwhile(delays.insert);
      hide Run;
      var created := jobs.Create(job, delays.lookup);
      if created.Ok? {
        return Ok(Queued(created.value, false));
      }
      if created.error.Duplicate? {
        return Ok(Queued(created.error.existing, true));
      }
      return Err(NotStored(created.error.error));
    }

    // Queues a stored message for forwarding, or finds the active job that already does.
    method EnqueueForward(
      destination: Reference, source: string, scheduledAt: Option<Instant>, batch: Option<nat>, delays: Delays)
      returns (r: Result<Queued, EnqueueError>, ghost target: Option<Jid>)
      requires Wired() && Sound(database.View())
      modifies database
      ensures target.Some? ==>
        && target.value in old(database.dests) && Sendable(old(database.dests), target.value)
        && Names(old(database.dests), destination, target.value)
        && (scheduledAt.Some? ==> old(database.clock) < scheduledAt.value)
        && var job := ForwardJobOf(target.value, source, scheduledAt, batch, limits, old(database.clock));
           NewJobOk(job) && StoreOutcome(old(database.View()), delays, job, r, database.View())
      ensures r.Ok? ==>
        && target.Some? && r.value.job < |database.jobs|
        && ForwardKeyAsked(database.jobs[r.value.job].key, target.value, source, scheduledAt, limits)
        && if r.value.duplicate
           then database.jobs[r.value.job].status
                in {Pending, Scheduled, Processing, WaitingRateLimit, Retry, Sent, DryRun}
           else ForwardRowAsked(database.jobs[r.value.job], target.value, source, scheduledAt, batch, limits,
                                old(database.clock))
      ensures target.None? ==>
        && r.Err? && database.View() == old(database.View())
        && (|| (r.error.UnknownTarget? && Nameless(database.dests, destination))
            || (r.error.NotAllowed? && NamesBlocked(database.dests, destination))
            || (r.error.NotInFuture? && scheduledAt.Some? && scheduledAt.value <= database.clock))
    {
      hide StoreOutcome;
      target := None;
      var resolved := ResolveAllowed(destination);
      if resolved.Err? {
        return Err(resolved.error), target;
      }
      var jid := resolved.value;
      if scheduledAt.Some? && scheduledAt.value <= database.clock {
        return Err(NotInFuture), target;
      }
      target := Some(jid);
      ghost var before := database.View();
      r := Store(ForwardJobOf(jid, source, scheduledAt, batch, limits, database.clock), delays);
      if r.Ok? {
        StoredAsAsked(before, delays, ForwardJobOf(jid, source, scheduledAt, batch, limits, before.clock), r,
                      database.View());
      }
    }
  }
}
