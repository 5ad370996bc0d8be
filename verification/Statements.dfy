/**
 * The statements run against message_jobs and destinations, as functions on row values.
 * A row's id is its position: rows are only ever appended, never deleted.
 */
module Statements {
  import opened Prelude
  import opened Jobs

  datatype Destination = Destination(subject: string, alias: Option<string>, enabled: bool, canSend: bool)

  type Destinations = map<Jid, Destination>

  datatype Discovered = Discovered(jid: Jid, subject: string, canSend: Option<bool>)

  datatype DbError =
    | NotFound
    | IllegalTransition(current: Status, target: Status)
    | UniqueViolation
    | ForeignKeyViolation
    | CheckViolation

  datatype Change = Change(remote: Option<RemoteId>, nextAttemptAt: Option<Instant>, lastError: Option<ErrorLabel>)

  // ----- Row shape and the partial unique index -----

  predicate Conflicts(rows: seq<Job>, key: IdempotencyKey, except: int) {
    exists i :: 0 <= i < |rows| && i != except && Active(rows[i].status) && rows[i].key == key
  }

  ghost predicate UniqueActive(rows: seq<Job>) {
    forall i, j :: 0 <= i < j < |rows| && Active(rows[i].status) && Active(rows[j].status)
      ==> rows[i].key != rows[j].key
  }

  ghost predicate WellFormed(rows: seq<Job>) {
    && (forall i :: 0 <= i < |rows| ==> Shape(rows[i]))
    && UniqueActive(rows)
  }

  // ----- INSERT -----

  function FreshRow(job: NewJob): Job {
    Job(job.destination, job.hasMedia, job.scheduledAt, job.status, 0, job.maxAttempts, None, None,
        job.key, None, None, None, job.batch, job.dryRun, job.forwardSource)
  }

  function Insert(rows: seq<Job>, dests: Destinations, job: NewJob): Result<seq<Job>, DbError> {
    if job.maxAttempts == 0 then Err(CheckViolation)
    else if Conflicts(rows, job.key, -1) then Err(UniqueViolation)
    else if job.destination !in dests then Err(ForeignKeyViolation)
    else Ok(rows + [FreshRow(job)])
  }

  // What the callers of create guarantee about a new job.
  predicate NewJobOk(job: NewJob) {
    && (job.status.Pending? || job.status.Scheduled?)
    && job.key.dryRun == job.dryRun
    && job.key.destination == job.destination
  }

  // ----- Single-row UPDATEs -----

  function Store(rows: seq<Job>, j: nat, row: Job): Result<seq<Job>, DbError>
    requires j < |rows|
  {
    if Active(row.status) && Conflicts(rows, row.key, j) then Err(UniqueViolation) else Ok(rows[j := row])
  }

  function TransitionRow(row: Job, target: Status, change: Change, now: Instant): Job {
    row.(status := target,
         remote := if change.remote.Some? then change.remote else row.remote,
         nextAttemptAt := change.nextAttemptAt,
         lastError := change.lastError,
         sentAt := if target.Sent? then Some(now) else row.sentAt)
  }

  function Transition(rows: seq<Job>, j: nat, target: Status, change: Change, now: Instant): Result<seq<Job>, DbError> {
    if |rows| <= j then Err(NotFound)
    else if !CanMove(rows[j].status, target) then Err(IllegalTransition(rows[j].status, target))
    else Store(rows, j, TransitionRow(rows[j], target, change, now))
  }

  function RetryRow(row: Job, now: Instant): Job {
    row.(status := Retry, attempts := 0, nextAttemptAt := Some(now), lastError := None)
  }

  function ManualRetry(rows: seq<Job>, j: nat, now: Instant): Result<seq<Job>, DbError> {
    if |rows| <= j then Err(NotFound)
    else if !CanMove(rows[j].status, Retry) then Err(IllegalTransition(rows[j].status, Retry))
    else Store(rows, j, RetryRow(rows[j], now))
  }

  function CancelChange(): Change { Change(None, None, Some(OperatorCancelled)) }

  function MarkSentChange(): Change { Change(Some(OperatorConfirmed), None, None) }

  function ClaimedRow(row: Job, now: Instant): Job {
    row.(status := Processing, attempts := row.attempts + 1, startedAt := Some(now), nextAttemptAt := None)
  }

  // ----- Choosing the next job -----

  predicate Sendable(dests: Destinations, jid: Jid) {
    jid in dests && dests[jid].enabled && dests[jid].canSend
  }

  predicate Due(row: Job, now: Instant) {
    || row.status.Pending?
    || ((row.status.Retry? || row.status.WaitingRateLimit?)
        && row.nextAttemptAt.Some? && row.nextAttemptAt.value <= now)
  }

  predicate Claimable(row: Job, dests: Destinations, now: Instant, dryRunOnly: bool) {
    Sendable(dests, row.destination) && Due(row, now) && (dryRunOnly ==> row.dryRun)
  }

  // ORDER BY COALESCE(next_attempt_at, scheduled_at), id
  predicate Before(rows: seq<Job>, i: nat, j: nat)
    requires i < |rows| && j < |rows|
  {
    DueAt(rows[i]) < DueAt(rows[j]) || (DueAt(rows[i]) == DueAt(rows[j]) && i < j)
  }

  predicate Matches(reference: Option<nat>, j: nat) {
    reference.None? || reference.value == j
  }

  // The first claimable row among the first n, in claim order.
  function NextClaim(
    rows: seq<Job>, dests: Destinations, now: Instant, reference: Option<nat>, dryRunOnly: bool, n: nat)
    : (r: Option<nat>)
    requires n <= |rows|
    ensures r.Some? ==> r.value < n && Claimable(rows[r.value], dests, now, dryRunOnly) && Matches(reference, r.value)
    ensures r.None? ==>
      forall k: nat :: k < n && Matches(reference, k) ==> !Claimable(rows[k], dests, now, dryRunOnly)
    ensures r.Some? ==>
      forall k: nat :: k < n && k != r.value && Matches(reference, k) && Claimable(rows[k], dests, now, dryRunOnly)
        ==> Before(rows, r.value, k)
  {
    if n == 0 then None
    else
      var best := NextClaim(rows, dests, now, reference, dryRunOnly, n - 1);
      if Matches(reference, n - 1) && Claimable(rows[n - 1], dests, now, dryRunOnly)
         && (best.None? || Before(rows, n - 1, best.value))
      then Some(n - 1) else best
  }

  // ----- Bulk UPDATEs, one row at a time -----

  function PromotedRow(row: Job, now: Instant): Job {
    if row.status.Scheduled? && row.scheduledAt <= now then row.(status := Pending) else row
  }

  function BlockedRow(row: Job): Job {
    row.(status := Cancelled, lastError := Some(Delivery(DestinationError)))
  }

  function CancelDisabledRow(row: Job, dests: Destinations): Job {
    if Unsent(row.status) && row.destination in dests && !Sendable(dests, row.destination)
    then BlockedRow(row) else row
  }

  function CancelUnsendableRow(row: Job, dests: Destinations): Job {
    if Unsent(row.status) && row.destination in dests && !dests[row.destination].canSend
    then BlockedRow(row) else row
  }

  function CancelForRow(row: Job, jid: Jid): Job {
    if row.destination == jid && Unsent(row.status) then BlockedRow(row) else row
  }

  function RecoveredRow(row: Job): Job {
    if row.status.Processing?
    then row.(status := ReviewRequired, lastError := Some(UncertainAfterRestart)) else row
  }

  function Promoted(rows: seq<Job>, now: Instant): seq<Job> {
    seq(|rows|, i requires 0 <= i < |rows| => PromotedRow(rows[i], now))
  }

  function DisabledCancelled(rows: seq<Job>, dests: Destinations): seq<Job> {
    seq(|rows|, i requires 0 <= i < |rows| => CancelDisabledRow(rows[i], dests))
  }

  function UnsendableCancelled(rows: seq<Job>, dests: Destinations): seq<Job> {
    seq(|rows|, i requires 0 <= i < |rows| => CancelUnsendableRow(rows[i], dests))
  }

  function CancelledFor(rows: seq<Job>, jid: Jid): seq<Job> {
    seq(|rows|, i requires 0 <= i < |rows| => CancelForRow(rows[i], jid))
  }

  function Recovered(rows: seq<Job>): seq<Job> {
    seq(|rows|, i requires 0 <= i < |rows| => RecoveredRow(rows[i]))
  }

  // ----- Destinations -----

  function UpsertOne(dests: Destinations, item: Discovered): Destinations {
    var sendable := item.canSend != Some(false);
    if item.jid in dests
    then dests[item.jid := dests[item.jid].(subject := item.subject, canSend := sendable)]
    else dests[item.jid := Destination(item.subject, None, false, sendable)]
  }

  function UpsertAll(dests: Destinations, items: seq<Discovered>): Destinations {
    if items == [] then dests
    else UpsertOne(UpsertAll(dests, items[..|items| - 1]), items[|items| - 1])
  }

  function WithEnabled(dests: Destinations, jid: Jid, enabled: bool): Destinations {
    if jid in dests then dests[jid := dests[jid].(enabled := enabled)] else dests
  }

  function WithCanSend(dests: Destinations, jid: Jid, canSend: bool): Destinations {
    if jid in dests then dests[jid := dests[jid].(canSend := canSend)] else dests
  }

  // ----- What every statement keeps -----

  // A bulk UPDATE moves each row along at most one edge and never brings a row into the index.
  ghost predicate BulkStep(rows: seq<Job>, after: seq<Job>) {
    && |after| == |rows|
    && forall i :: 0 <= i < |rows| ==>
         after[i] == rows[i]
         || (&& Follows(rows[i], after[i]) && Shape(after[i])
             && (Active(after[i].status) ==> Active(rows[i].status)))
  }

  lemma BulkKeepsWellFormed(rows: seq<Job>, after: seq<Job>)
    requires WellFormed(rows) && BulkStep(rows, after)
    ensures WellFormed(after)
  {
    forall i, j | 0 <= i < j < |after| && Active(after[i].status) && Active(after[j].status)
      ensures after[i].key != after[j].key
    {
      assert Active(rows[i].status) && Active(rows[j].status);
    }
  }

  // Each bulk writer moves rows along table edges only and keeps shape and index.

  // promoteDueScheduled
  lemma PromoteRefinesTable(rows: seq<Job>, now: Instant)
    requires WellFormed(rows)
    ensures BulkStep(rows, Promoted(rows, now)) && WellFormed(Promoted(rows, now))
  {
    BulkKeepsWellFormed(rows, Promoted(rows, now));
  }

  // cancelDisabled
  lemma CancelDisabledRefinesTable(rows: seq<Job>, dests: Destinations)
    requires WellFormed(rows)
    ensures BulkStep(rows, DisabledCancelled(rows, dests)) && WellFormed(DisabledCancelled(rows, dests))
  {
    BulkKeepsWellFormed(rows, DisabledCancelled(rows, dests));
  }

  // synchronize
  lemma RefreshRefinesTable(rows: seq<Job>, dests: Destinations)
    requires WellFormed(rows)
    ensures BulkStep(rows, UnsendableCancelled(rows, dests)) && WellFormed(UnsendableCancelled(rows, dests))
  {
    BulkKeepsWellFormed(rows, UnsendableCancelled(rows, dests));
  }

  // setEnabled(false) and setCanSend(false)
  lemma DenyRefinesTable(rows: seq<Job>, jid: Jid)
    requires WellFormed(rows)
    ensures BulkStep(rows, CancelledFor(rows, jid)) && WellFormed(CancelledFor(rows, jid))
  {
    BulkKeepsWellFormed(rows, CancelledFor(rows, jid));
  }

  // recoverStaleProcessing
  lemma RecoveryRefinesTable(rows: seq<Job>)
    requires WellFormed(rows)
    ensures BulkStep(rows, Recovered(rows)) && WellFormed(Recovered(rows))
  {
    BulkKeepsWellFormed(rows, Recovered(rows));
  }

  // Storing one row either fails with nothing written or keeps the index unique.
  lemma StoreKeepsWellFormed(rows: seq<Job>, j: nat, row: Job)
    requires WellFormed(rows) && j < |rows| && Shape(row) && row.key == rows[j].key
    ensures Store(rows, j, row).Ok? ==> WellFormed(Store(rows, j, row).value)
    ensures Active(rows[j].status) ==> Store(rows, j, row) == Ok(rows[j := row])
  {
    var after := rows[j := row];
    if Store(rows, j, row).Ok? {
      forall a, b | 0 <= a < b < |after| && Active(after[a].status) && Active(after[b].status)
        ensures after[a].key != after[b].key
      {
        if a == j {
          assert !Conflicts(rows, row.key, j);
          assert rows[b] == after[b];
        } else if b == j {
          assert !Conflicts(rows, row.key, j);
          assert rows[a] == after[a];
        }
      }
    }
  }

  lemma InsertKeepsWellFormed(rows: seq<Job>, dests: Destinations, job: NewJob)
    requires WellFormed(rows) && NewJobOk(job)
    ensures Insert(rows, dests, job).Ok? ==> WellFormed(Insert(rows, dests, job).value)
  {
    if Insert(rows, dests, job).Ok? {
      var after := rows + [FreshRow(job)];
      forall a, b | 0 <= a < b < |after| && Active(after[a].status) && Active(after[b].status)
        ensures after[a].key != after[b].key
      {
        if b == |rows| {
          assert rows[a] == after[a];
        }
      }
    }
  }

  // Claiming is an edge of the table, keeps the shape and the index, and never conflicts.
  lemma ClaimKeepsWellFormed(rows: seq<Job>, j: nat, now: Instant)
    requires WellFormed(rows) && j < |rows| && CanMove(rows[j].status, Processing)
    ensures Store(rows, j, ClaimedRow(rows[j], now)) == Ok(rows[j := ClaimedRow(rows[j], now)])
    ensures WellFormed(rows[j := ClaimedRow(rows[j], now)])
    ensures Follows(rows[j], ClaimedRow(rows[j], now))
  {
    StoreKeepsWellFormed(rows, j, ClaimedRow(rows[j], now));
  }

  // The options each caller of transition passes for its target.
  predicate ChangeFits(row: Job, target: Status, change: Change) {
    && (target.Retry? || target.WaitingRateLimit? ==> change.nextAttemptAt.Some?)
    && (target.Sent? ==> change.remote.Some? && change.remote != Some(Simulated)
                         && (row.dryRun ==> change.remote == Some(OperatorConfirmed)))
    && (target.DryRun? ==> row.dryRun && change.remote == Some(Simulated))
    && !target.Processing? && !target.Pending? && !target.Scheduled?
  }

  // transition is an edge of the table or an error with nothing written.
  lemma TransitionKeepsWellFormed(rows: seq<Job>, j: nat, target: Status, change: Change, now: Instant)
    requires WellFormed(rows)
    requires j < |rows| ==> ChangeFits(rows[j], target, change)
    ensures var r := Transition(rows, j, target, change, now);
      r.Ok? ==> && WellFormed(r.value) && |r.value| == |rows| && j < |rows|
                && Follows(rows[j], r.value[j]) && r.value == rows[j := r.value[j]]
    ensures j < |rows| && Active(rows[j].status) && CanMove(rows[j].status, target) ==>
      Transition(rows, j, target, change, now) == Ok(rows[j := TransitionRow(rows[j], target, change, now)])
  {
    if j < |rows| && CanMove(rows[j].status, target) {
      StoreKeepsWellFormed(rows, j, TransitionRow(rows[j], target, change, now));
    }
  }

  // A manual retry keeps everything, succeeds exactly from the three statuses the table
  // lets into RETRY, and from an inactive one only if no other active row holds the key.
  lemma ManualRetryKeepsWellFormed(rows: seq<Job>, j: nat, now: Instant)
    requires WellFormed(rows)
    ensures var r := ManualRetry(rows, j, now);
      r.Ok? ==> && WellFormed(r.value) && |r.value| == |rows| && j < |rows|
                && Follows(rows[j], r.value[j]) && r.value == rows[j := r.value[j]]
    ensures ManualRetry(rows, j, now).Ok? <==>
      && j < |rows|
      && (rows[j].status.Processing?
          || ((rows[j].status.Failed? || rows[j].status.ReviewRequired?) && !Conflicts(rows, rows[j].key, j)))
  {
    if j < |rows| && CanMove(rows[j].status, Retry) {
      StoreKeepsWellFormed(rows, j, RetryRow(rows[j], now));
    }
  }
}
