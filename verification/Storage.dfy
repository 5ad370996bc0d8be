/** The database and the repositories over it: each statement as a loop over the rows it visits. */
module Storage {
  import opened Prelude
  import opened Jobs
  import opened Statements
  import opened System

  /**
   * The tables, together with what the rest of the system is doing: the clock, the other
   * workers and the events so far. Every transaction of a repository is one method call.
   */
  class Database {
    var jobs: seq<Job>
    var dests: Destinations
    var pause: Pause
    var clock: Instant
    var workers: map<nat, Worker>
    var helped: set<nat>
    var trace: seq<Event>

    function View(): System
      reads this
    {
      System(jobs, dests, pause, clock, workers, helped, trace)
    }

    // What other processes and callbacks do while a worker awaits.
    method Meanwhile(steps: seq<Step>)
      modifies this
      ensures View() == Run(old(View()), steps)
    {
      var i := 0;
      while i < |steps|
        invariant 0 <= i <= |steps|
        invariant View() == Run(old(View()), steps[..i])
      {
        var after := Apply(View(), steps[i]);
        RunExtend(old(View()), steps[..i], steps[i]);
        assert steps[..i + 1] == steps[..i] + [steps[i]];
        jobs, dests, pause := after.jobs, after.dests, after.pause;
        clock, workers, helped, trace := after.clock, after.workers, after.helped, after.trace;
        i := i + 1;
      }
      assert steps[..i] == steps;
    }
  }

  // How many rows an UPDATE changed.
  function ChangedRows(before: seq<Job>, after: seq<Job>): nat
    requires |before| == |after|
  {
    if before == [] then 0
    else ChangedRows(before[..|before| - 1], after[..|after| - 1])
         + if before[|before| - 1] != after[|after| - 1] then 1 else 0
  }

  lemma ChangedRowsExtend(before: seq<Job>, after: seq<Job>, i: nat)
    requires |before| == |after| && i < |before|
    ensures ChangedRows(before[..i + 1], after[..i + 1])
      == ChangedRows(before[..i], after[..i]) + if before[i] != after[i] then 1 else 0
  {
    assert before[..i + 1][..i] == before[..i] && after[..i + 1][..i] == after[..i];
  }

  function StatusCount(rows: seq<Job>, status: Status, batch: Option<nat>): nat {
    if rows == [] then 0
    else StatusCount(rows[..|rows| - 1], status, batch)
         + if InCount(rows[|rows| - 1], status, batch) then 1 else 0
  }

  // Both counts are the number of positions they count.
  lemma {:induction false} ChangedRowsCounts(before: seq<Job>, after: seq<Job>)
    requires |before| == |after|
    ensures ChangedRows(before, after) == |set i | 0 <= i < |before| && before[i] != after[i]|
  {
    if before != [] {
      var n := |before| - 1;
      ChangedRowsCounts(before[..n], after[..n]);
      var fewer := set i | 0 <= i < n && before[..n][i] != after[..n][i];
      assert (set i | 0 <= i < |before| && before[i] != after[i])
        == if before[n] != after[n] then fewer + {n} else fewer;
    }
  }

  predicate InCount(row: Job, status: Status, batch: Option<nat>) {
    row.status == status && (batch.None? || row.batch == batch)
  }

  ghost function Positions(rows: seq<Job>, status: Status, batch: Option<nat>): set<int> {
    set i | 0 <= i < |rows| && rows[i].status == status && (batch.None? || rows[i].batch == batch)
  }

  lemma {:induction false} StatusCountCounts(rows: seq<Job>, status: Status, batch: Option<nat>)
    ensures StatusCount(rows, status, batch) == |Positions(rows, status, batch)|
  {
    if rows != [] {
      var n := |rows| - 1;
      StatusCountCounts(rows[..n], status, batch);
      OneMorePosition(rows, status, batch);
    }
  }

  lemma OneMorePosition(rows: seq<Job>, status: Status, batch: Option<nat>)
    requires rows != []
    ensures var n := |rows| - 1;
      |Positions(rows, status, batch)|
      == |Positions(rows[..n], status, batch)| + if InCount(rows[n], status, batch) then 1 else 0
  {
    var n := |rows| - 1;
    var fewer, all := Positions(rows[..n], status, batch), Positions(rows, status, batch);
    assert all - {n} == fewer by {
      forall i ensures i in all && i != n <==> i in fewer {
        if 0 <= i < n { assert rows[..n][i] == rows[i]; }
      }
    }
    assert n in all <==> InCount(rows[n], status, batch);
    assert all == if n in all then fewer + {n} else fewer;
  }

  datatype CreateError = Duplicate(existing: nat) | Refused(error: DbError)

  // The claim's conditions on a row, column by column, and its order.
  ghost predicate MayBeClaimed(row: Job, dests: Destinations, now: Instant, dryRunOnly: bool) {
    && row.destination in dests && dests[row.destination].enabled && dests[row.destination].canSend
    && (row.status.Pending?
        || (row.status in {Status.Retry, WaitingRateLimit}
            && row.nextAttemptAt.Some? && row.nextAttemptAt.value <= now))
    && (dryRunOnly ==> row.dryRun)
  }

  ghost predicate ComesFirst(a: Job, i: nat, b: Job, j: nat) {
    var dueA := if a.nextAttemptAt.Some? then a.nextAttemptAt.value else a.scheduledAt;
    var dueB := if b.nextAttemptAt.Some? then b.nextAttemptAt.value else b.scheduledAt;
    dueA < dueB || (dueA == dueB && i < j)
  }

  class JobRepository {
    const database: Database

    constructor (database: Database)
      ensures this.database == database
    {
      this.database := database;
    }

    // The newest active row with the key, if any.
    method FindByIdempotencyKey(key: IdempotencyKey) returns (r: Option<nat>)
      ensures r.Some? ==>
        && r.value < |database.jobs| && Active(database.jobs[r.value].status) && database.jobs[r.value].key == key
        && forall k :: r.value < k < |database.jobs| && Active(database.jobs[k].status) ==> database.jobs[k].key != key
      ensures r.None? <==> !Conflicts(database.jobs, key, -1)
    {
      var i := |database.jobs|;
      while 0 < i
        invariant 0 <= i <= |database.jobs|
        invariant forall k :: i <= k < |database.jobs| && Active(database.jobs[k].status) ==>
          database.jobs[k].key != key
      {
        i := i - 1;
        if Active(database.jobs[i].status) && database.jobs[i].key == key {
          return Some(i);
        }
      }
      return None;
    }

    // Whether storing an active row with this key at position `except` breaks the unique index.
    method IndexRefuses(key: IdempotencyKey, except: int) returns (refused: bool)
      ensures refused <==> Conflicts(database.jobs, key, except)
      ensures refused <==> exists i ::
        && 0 <= i < |database.jobs| && i != except && database.jobs[i].key == key
        && database.jobs[i].status in {Pending, Scheduled, Processing, WaitingRateLimit, Status.Retry, Sent, DryRun}
    {
      for i := 0 to |database.jobs|
        invariant forall k :: 0 <= k < i && k != except && Active(database.jobs[k].status) ==>
          database.jobs[k].key != key
      {
        if i != except && Active(database.jobs[i].status) && database.jobs[i].key == key {
          return true;
        }
      }
      return false;
    }

    // Creates the row, or reports the active row that already has its key. The lookup is a
    // statement of its own: `lookup` is what other processes do before it, and the row that stood
    // in the way may be gone by then. Nothing is written unless the row is.
    method Create(job: NewJob, lookup: seq<Step>) returns (r: Result<nat, CreateError>)
      modifies database
      ensures var before, inserted := old(database.View()), Insert(old(database.jobs), old(database.dests), job);
        if inserted.Ok? then
          && r == Ok(|before.jobs|) && database.View() == ApplyCreate(before, job)
          && database.jobs == before.jobs
             + [Job(job.destination, job.hasMedia, job.scheduledAt, job.status, 0, job.maxAttempts, None, None,
                    job.key, None, None, None, job.batch, job.dryRun, job.forwardSource)]
        else if !inserted.error.UniqueViolation? then
          r == Err(Refused(inserted.error)) && database.View() == before
        else
          && database.View() == Run(before, lookup) && r.Err?
          && (r.error.Duplicate? <==> Conflicts(database.jobs, job.key, -1))
          && (r.error.Duplicate? ==>
                && r.error.existing < |database.jobs| && database.jobs[r.error.existing].key == job.key
                && Active(database.jobs[r.error.existing].status))
          && (r.error.Refused? ==> r.error.error == UniqueViolation)
    {
      if job.maxAttempts == 0 {
        return Err(Refused(CheckViolation));
      }
      var refused := IndexRefuses(job.key, -1);
      if refused {
        database.Meanwhile(lookup);
        var existing := FindByIdempotencyKey(job.key);
        if existing.Some? {
          return Err(Duplicate(existing.value));
        }
        return Err(Refused(UniqueViolation));
      }
      if job.destination !in database.dests {
        return Err(Refused(ForeignKeyViolation));
      }
      database.jobs := database.jobs + [FreshRow(job)];
      database.trace := database.trace + [Created(|database.jobs| - 1)];
      return Ok(|database.jobs| - 1);
    }

    method PromoteDueScheduled(now: Instant) returns (changes: nat)
      modifies database`jobs
      ensures database.jobs == Promoted(old(database.jobs), now)
      ensures |database.jobs| == |old(database.jobs)|
      ensures forall i :: 0 <= i < |database.jobs| ==>
        database.jobs[i] == if old(database.jobs)[i].status.Scheduled? && old(database.jobs)[i].scheduledAt <= now
                            then old(database.jobs)[i].(status := Pending) else old(database.jobs)[i]
      ensures changes == ChangedRows(old(database.jobs), database.jobs)
    {
      changes := 0;
      ghost var before := database.jobs;
      for i := 0 to |database.jobs|
        invariant |database.jobs| == |before|
        invariant forall k :: 0 <= k < i ==> database.jobs[k] == PromotedRow(before[k], now)
        invariant forall k :: i <= k < |before| ==> database.jobs[k] == before[k]
        invariant changes == ChangedRows(before[..i], database.jobs[..i])
      {
        ghost var prefix := database.jobs[..i];
        if database.jobs[i].status.Scheduled? && database.jobs[i].scheduledAt <= now {
          database.jobs := database.jobs[i := database.jobs[i].(status := Pending)];
          changes := changes + 1;
        }
        assert database.jobs[..i] == prefix;
        ChangedRowsExtend(before, database.jobs, i);
      }
      assert database.jobs == Promoted(before, now);
      assert before[..|before|] == before && database.jobs[..|before|] == database.jobs;
    }

    method CancelDisabled() returns (changes: nat)
      modifies database`jobs
      ensures database.jobs == DisabledCancelled(old(database.jobs), database.dests)
      ensures |database.jobs| == |old(database.jobs)|
      ensures forall i :: 0 <= i < |database.jobs| ==>
        var row, dests := old(database.jobs)[i], database.dests;
        database.jobs[i] ==
          if row.status in {Pending, Scheduled, Status.Retry, WaitingRateLimit} && row.destination in dests
             && (!dests[row.destination].enabled || !dests[row.destination].canSend)
          then row.(status := Cancelled, lastError := Some(Delivery(DestinationError))) else row
      ensures changes == ChangedRows(old(database.jobs), database.jobs)
    {
      changes := 0;
      ghost var before := database.jobs;
      for i := 0 to |database.jobs|
        invariant |database.jobs| == |before|
        invariant forall k :: 0 <= k < i ==> database.jobs[k] == CancelDisabledRow(before[k], database.dests)
        invariant forall k :: i <= k < |before| ==> database.jobs[k] == before[k]
        invariant changes == ChangedRows(before[..i], database.jobs[..i])
      {
        ghost var prefix := database.jobs[..i];
        var row := database.jobs[i];
        if Unsent(row.status) && row.destination in database.dests
           && (!database.dests[row.destination].enabled || !database.dests[row.destination].canSend) {
          database.jobs := database.jobs[i := BlockedRow(row)];
          changes := changes + 1;
        }
        assert database.jobs[..i] == prefix;
        ChangedRowsExtend(before, database.jobs, i);
      }
      assert database.jobs == DisabledCancelled(before, database.dests);
      assert before[..|before|] == before && database.jobs[..|before|] == database.jobs;
    }

    method RecoverStaleProcessing() returns (changes: nat)
      modifies database`jobs
      ensures database.jobs == Recovered(old(database.jobs))
      ensures |database.jobs| == |old(database.jobs)|
      ensures forall i :: 0 <= i < |database.jobs| ==>
        database.jobs[i] == if old(database.jobs)[i].status.Processing?
          then old(database.jobs)[i].(status := ReviewRequired, lastError := Some(UncertainAfterRestart))
          else old(database.jobs)[i]
      ensures changes == ChangedRows(old(database.jobs), database.jobs)
      ensures changes == StatusCount(old(database.jobs), Processing, None)
    {
      changes := 0;
      ghost var before := database.jobs;
      for i := 0 to |database.jobs|
        invariant |database.jobs| == |before|
        invariant forall k :: 0 <= k < i ==> database.jobs[k] == RecoveredRow(before[k])
        invariant forall k :: i <= k < |before| ==> database.jobs[k] == before[k]
        invariant changes == ChangedRows(before[..i], database.jobs[..i]) == StatusCount(before[..i], Processing, None)
      {
        ghost var prefix := database.jobs[..i];
        var row := database.jobs[i];
        if row.status.Processing? {
          database.jobs := database.jobs[i := row.(status := ReviewRequired, lastError := Some(UncertainAfterRestart))];
          changes := changes + 1;
        }
        assert database.jobs[..i] == prefix;
        ChangedRowsExtend(before, database.jobs, i);
        assert before[..i + 1][..i] == before[..i];
      }
      assert database.jobs == Recovered(before);
      assert before[..|before|] == before && database.jobs[..|before|] == database.jobs;
    }

    // Selects the first claimable row in claim order and moves it to PROCESSING.
    method Claim(now: Instant, reference: Option<nat>, dryRunOnly: bool) returns (r: Option<nat>)
      modifies database`jobs
      ensures r == NextClaim(old(database.jobs), database.dests, now, reference, dryRunOnly, |old(database.jobs)|)
      ensures r.None? ==> database.jobs == old(database.jobs)
      ensures r.Some? ==>
        && r.value < |old(database.jobs)| && (reference.None? || reference == r)
        && MayBeClaimed(old(database.jobs)[r.value], database.dests, now, dryRunOnly)
        && var row := old(database.jobs)[r.value];
           database.jobs == old(database.jobs)[
             r.value := row.(status := Processing, attempts := row.attempts + 1, startedAt := Some(now),
                             nextAttemptAt := None)]
      ensures forall i: nat ::
        && i < |old(database.jobs)| && (reference.None? || reference == Some(i))
        && MayBeClaimed(old(database.jobs)[i], database.dests, now, dryRunOnly)
        ==>
        && r.Some? && r.value < |old(database.jobs)|
        && (r.value == i || ComesFirst(old(database.jobs)[r.value], r.value, old(database.jobs)[i], i))
    {
      r := None;
      for i := 0 to |database.jobs|
        invariant database.jobs == old(database.jobs)
        invariant r == NextClaim(database.jobs, database.dests, now, reference, dryRunOnly, i)
      {
        if Matches(reference, i) && Claimable(database.jobs[i], database.dests, now, dryRunOnly)
           && (r.None? || Before(database.jobs, i, r.value)) {
          r := Some(i);
        }
      }
      if r.Some? {
        database.jobs := database.jobs[r.value := ClaimedRow(database.jobs[r.value], now)];
      }
    }

    // Moves one row along the table, or throws and writes nothing.
    method Transition(j: nat, target: Status, change: Change) returns (r: Result<Job, DbError>)
      modifies database`jobs
      ensures r.Ok? <==> Statements.Transition(old(database.jobs), j, target, change, database.clock).Ok?
      ensures r.Ok? <==>
        && j < |old(database.jobs)| && old(database.jobs)[j].status in Origins(target)
        && !(Active(target) && Conflicts(old(database.jobs), old(database.jobs)[j].key, j))
      ensures r.Ok? ==>
        && database.jobs == Statements.Transition(old(database.jobs), j, target, change, database.clock).value
        && var row := old(database.jobs)[j];
           r.value == row.(
             status := target, remote := if change.remote.Some? then change.remote else row.remote,
             nextAttemptAt := change.nextAttemptAt, lastError := change.lastError,
             sentAt := if target.Sent? then Some(database.clock) else row.sentAt)
           && database.jobs == old(database.jobs)[j := r.value]
      ensures r.Err? ==>
        && database.jobs == old(database.jobs)
        && r.error == Statements.Transition(old(database.jobs), j, target, change, database.clock).error
    {
      if |database.jobs| <= j {
        return Err(NotFound);
      }
      var row := database.jobs[j];
      TableReadBackwards(row.status, target);
      if !CanMove(row.status, target) {
        return Err(IllegalTransition(row.status, target));
      }
      var updated := row.(
        status := target, remote := if change.remote.Some? then change.remote else row.remote,
        nextAttemptAt := change.nextAttemptAt, lastError := change.lastError,
        sentAt := if target.Sent? then Some(database.clock) else row.sentAt);
      if Active(target) {
        var refused := IndexRefuses(row.key, j);
        if refused {
          return Err(UniqueViolation);
        }
      }
      database.jobs := database.jobs[j := updated];
      return Ok(updated);
    }

    method Cancel(j: nat) returns (r: Result<Job, DbError>)
      modifies database`jobs
      ensures database.View() == ApplyOperatorCancel(old(database.View()), j)
      ensures r.Ok? <==>
        && j < |old(database.jobs)|
        && old(database.jobs)[j].status
           in {Pending, Scheduled, WaitingRateLimit, Status.Retry, Failed, ReviewRequired}
      ensures r.Ok? ==> database.jobs == old(database.jobs)[
        j := old(database.jobs)[j].(status := Cancelled, nextAttemptAt := None, lastError := Some(OperatorCancelled))]
      ensures r.Err? ==> database.jobs == old(database.jobs)
    {
      if |database.jobs| <= j {
        return Err(NotFound);
      }
      r := Transition(j, Cancelled, CancelChange());
    }

    // Resets the attempts and makes the row due at once; refused, with nothing written, from any
    // status the table does not let into RETRY and when another active row holds the key.
    method Retry(j: nat) returns (r: Result<Job, DbError>)
      modifies database`jobs, database`trace
      ensures database.View() == ApplyOperatorRetry(old(database.View()), j)
      ensures r.Ok? <==>
        && j < |old(database.jobs)| && old(database.jobs)[j].status in {Processing, Failed, ReviewRequired}
        && !Conflicts(old(database.jobs), old(database.jobs)[j].key, j)
      ensures r.Ok? ==> database.jobs == old(database.jobs)[
        j := old(database.jobs)[j].(
          status := Status.Retry, attempts := 0, nextAttemptAt := Some(database.clock), lastError := None)]
      ensures r.Err? ==> database.View() == old(database.View())
    {
      if |database.jobs| <= j {
        return Err(NotFound);
      }
      var row := database.jobs[j];
      if !CanMove(row.status, Status.Retry) {
        return Err(IllegalTransition(row.status, Status.Retry));
      }
      var refused := IndexRefuses(row.key, j);
      if refused {
        return Err(UniqueViolation);
      }
      var updated := row.(
        status := Status.Retry, attempts := 0, nextAttemptAt := Some(database.clock), lastError := None);
      database.jobs := database.jobs[j := updated];
      database.trace := database.trace + [ManuallyRetried(j)];
      return Ok(updated);
    }

    method MarkSent(j: nat) returns (r: Result<Job, DbError>)
      modifies database`jobs, database`trace
      ensures database.View() == ApplyOperatorMarkSent(old(database.View()), j)
      ensures r.Ok? <==>
        && j < |old(database.jobs)| && old(database.jobs)[j].status in {Processing, ReviewRequired}
        && !Conflicts(old(database.jobs), old(database.jobs)[j].key, j)
      ensures r.Ok? ==> database.jobs == old(database.jobs)[
        j := old(database.jobs)[j].(
          status := Sent, remote := Some(OperatorConfirmed), nextAttemptAt := None, lastError := None,
          sentAt := Some(database.clock))]
      ensures r.Err? ==> database.View() == old(database.View())
    {
      r := Transition(j, Sent, MarkSentChange());
      if r.Ok? {
        database.trace := database.trace + [ManuallyMarkedSent(j)];
      }
    }

    // SELECT status, COUNT(*) ... GROUP BY status, over all rows or one batch.
    method Counts(batch: Option<nat>) returns (counts: map<Status, nat>)
      ensures forall status :: status in counts <==> Positions(database.jobs, status, batch) != {}
      ensures forall status :: status in counts ==> counts[status] == |Positions(database.jobs, status, batch)|
    {
      counts := map[];
      for i := 0 to |database.jobs|
        invariant forall status :: status in counts <==> 0 < StatusCount(database.jobs[..i], status, batch)
        invariant forall status :: status in counts ==> counts[status] == StatusCount(database.jobs[..i], status, batch)
      {
        var row := database.jobs[i];
        assert database.jobs[..i + 1][..i] == database.jobs[..i];
        if batch.None? || row.batch == batch {
          counts := counts[row.status := if row.status in counts then counts[row.status] + 1 else 1];
        }
      }
      assert database.jobs[..|database.jobs|] == database.jobs;
      forall status
        ensures StatusCount(database.jobs, status, batch) == |Positions(database.jobs, status, batch)|
      {
        StatusCountCounts(database.jobs, status, batch);
      }
    }
  }

  // ----- Destinations -----

  // Any text is either a JID, which contains '@', or a name.
  datatype Reference = ByJid(jid: Jid) | ByName(name: string)

  function LowerChar(c: char): char {
    if 'A' <= c <= 'Z' then (c as int + 32) as char else c
  }

  // COLLATE NOCASE folds ASCII letters.
  function Fold(s: string): string {
    seq(|s|, i requires 0 <= i < |s| => LowerChar(s[i]))
  }

  predicate AliasIs(destination: Destination, name: string) {
    destination.alias.Some? && Fold(destination.alias.value) == Fold(name)
  }

  predicate Names(dests: Destinations, reference: Reference, jid: Jid)
    requires jid in dests
  {
    match reference
    case ByJid(other) => jid == other
    case ByName(name) => AliasIs(dests[jid], name)
  }

  // alias TEXT UNIQUE COLLATE NOCASE
  ghost predicate AliasesUnique(dests: Destinations) {
    forall a, b :: a in dests && b in dests && a != b && dests[a].alias.Some? && dests[b].alias.Some?
      ==> Fold(dests[a].alias.value) != Fold(dests[b].alias.value)
  }

  // The same text but for the case of ASCII letters.
  ghost predicate SameLetters(a: string, b: string) {
    && |a| == |b|
    && forall i :: 0 <= i < |a| ==>
         || a[i] == b[i]
         || ('A' <= a[i] <= 'Z' && b[i] as int == a[i] as int + 32)
         || ('A' <= b[i] <= 'Z' && a[i] as int == b[i] as int + 32)
  }

  lemma FoldedIsSameLetters(a: string, b: string)
    ensures Fold(a) == Fold(b) <==> SameLetters(a, b)
  {
    if Fold(a) == Fold(b) {
      assert |Fold(a)| == |a| && |Fold(b)| == |b|;
      forall i | 0 <= i < |a| ensures LowerChar(a[i]) == LowerChar(b[i]) {
        assert Fold(a)[i] == LowerChar(a[i]) && Fold(b)[i] == LowerChar(b[i]);
      }
    }
  }

  predicate AliasChar(c: char) {
    'a' <= c <= 'z' || 'A' <= c <= 'Z' || '0' <= c <= '9' || c == '.' || c == '_' || c == '-'
  }

  // ^[a-zA-Z0-9][a-zA-Z0-9._-]{0,63}$
  predicate AliasWellFormed(alias: string) {
    && 1 <= |alias| <= 64
    && AliasChar(alias[0]) && alias[0] !in {'.', '_', '-'}
    && forall i :: 0 <= i < |alias| ==> AliasChar(alias[i])
  }

  datatype AliasError = UnknownDestination | BadAlias | AliasTaken

  // A refresh as one group sees it. The last report decides; the operator's permission and alias
  // survive, a new group has neither, and a group that is not reported stays as it is.
  ghost predicate Refreshed(before: Destinations, items: seq<Discovered>, after: Destinations, jid: Jid) {
    || (jid !in Reported(items) && (if jid in before then jid in after && after[jid] == before[jid] else jid !in after))
    || (exists i :: LastReport(items, i, jid) && jid in after && after[jid] == Destination(
          items[i].subject, if jid in before then before[jid].alias else None,
          jid in before && before[jid].enabled, items[i].canSend != Some(false)))
  }

  ghost function Reported(items: seq<Discovered>): set<Jid> { set item | item in items :: item.jid }

  ghost predicate LastReport(items: seq<Discovered>, i: int, jid: Jid) {
    0 <= i < |items| && items[i].jid == jid && jid !in Reported(items[i + 1..])
  }

  lemma {:induction false} LastReportWins(dests: Destinations, items: seq<Discovered>, jid: Jid)
    ensures Refreshed(dests, items, UpsertAll(dests, items), jid)
  {
    if items != [] {
      var n := |items| - 1;
      LastReportWins(dests, items[..n], jid);
      OneMoreReport(dests, items, UpsertAll(dests, items[..n]), jid);
    }
  }

  lemma OneMoreReport(dests: Destinations, items: seq<Discovered>, before: Destinations, jid: Jid)
    requires items != [] && Refreshed(dests, items[..|items| - 1], before, jid)
    ensures Refreshed(dests, items, UpsertOne(before, items[|items| - 1]), jid)
  {
    var last, front := items[|items| - 1], items[..|items| - 1];
    assert items == front + [last];
    if last.jid == jid {
      KnownFromBefore(dests, front, before, jid);
      hide Refreshed;
      ReportedNow(dests, front, last, before);
    } else {
      assert UpsertOne(before, last).Keys == before.Keys + {last.jid};
      NotReportedNow(dests, front, last, before, UpsertOne(before, last), jid);
    }
  }

  lemma KnownFromBefore(dests: Destinations, items: seq<Discovered>, before: Destinations, jid: Jid)
    requires Refreshed(dests, items, before, jid)
    ensures jid in before ==>
      && before[jid].alias == (if jid in dests then dests[jid].alias else None)
      && before[jid].enabled == (jid in dests && dests[jid].enabled)
    ensures jid in dests ==> jid in before
  {
  }

  lemma ReportedNow(dests: Destinations, front: seq<Discovered>, last: Discovered, before: Destinations)
    requires last.jid in before ==>
      && before[last.jid].alias == (if last.jid in dests then dests[last.jid].alias else None)
      && before[last.jid].enabled == (last.jid in dests && dests[last.jid].enabled)
    requires last.jid in dests ==> last.jid in before
    ensures Refreshed(dests, front + [last], UpsertOne(before, last), last.jid)
  {
    assert (front + [last])[|front| + 1..] == [];
    assert LastReport(front + [last], |front|, last.jid);
  }

  lemma NotReportedNow(
    dests: Destinations, front: seq<Discovered>, last: Discovered, before: Destinations, after: Destinations, jid: Jid)
    requires last.jid != jid && Refreshed(dests, front, before, jid)
    requires (jid in after <==> jid in before) && (jid in after ==> after[jid] == before[jid])
    ensures Refreshed(dests, front + [last], after, jid)
  {
    var items := front + [last];
    assert Reported(items) == Reported(front) + {last.jid} by { hide LastReport; }
    if jid in Reported(front) {
      var i :| LastReport(front, i, jid) && jid in before && before[jid] == Destination(
          front[i].subject, if jid in dests then dests[jid].alias else None,
          jid in dests && dests[jid].enabled, front[i].canSend != Some(false));
      assert items[i + 1..] == front[i + 1..] + [last];
      assert LastReport(items, i, jid);
      assert items[i] == front[i];
    }
  }

  class DestinationRepository {
    const database: Database

    constructor (database: Database)
      ensures this.database == database
    {
      this.database := database;
    }

    method Resolve(reference: Reference) returns (r: Option<Jid>)
      ensures r.Some? ==> r.value in database.dests && Names(database.dests, reference, r.value)
      ensures r.Some? && reference.ByJid? ==> r.value == reference.jid
      ensures r.Some? && reference.ByName? ==>
        && database.dests[r.value].alias.Some?
        && SameLetters(database.dests[r.value].alias.value, reference.name)
      ensures r.None? ==> !(reference.ByJid? && reference.jid in database.dests)
      ensures r.None? && reference.ByName? ==>
        forall jid :: jid in database.dests && database.dests[jid].alias.Some? ==>
          !SameLetters(database.dests[jid].alias.value, reference.name)
      ensures r.None? ==> forall jid :: jid in database.dests ==> !Names(database.dests, reference, jid)
      ensures AliasesUnique(database.dests) ==>
        forall jid :: jid in database.dests && Names(database.dests, reference, jid) ==> r == Some(jid)
    {
      var left := database.dests.Keys;
      while left != {}
        invariant left <= database.dests.Keys
        invariant forall jid :: jid in database.dests && jid !in left ==> !Names(database.dests, reference, jid)
      {
        var jid :| jid in left;
        if Names(database.dests, reference, jid) {
          if reference.ByName? { FoldedIsSameLetters(database.dests[jid].alias.value, reference.name); }
          return Some(jid);
        }
        left := left - {jid};
      }
      forall jid | reference.ByName? && jid in database.dests && database.dests[jid].alias.Some?
        ensures !SameLetters(database.dests[jid].alias.value, reference.name)
      {
        assert !Names(database.dests, reference, jid);
        FoldedIsSameLetters(database.dests[jid].alias.value, reference.name);
      }
      return None;
    }

    method CancelFor(jid: Jid)
      modifies database`jobs
      ensures database.jobs == CancelledFor(old(database.jobs), jid)
      ensures |database.jobs| == |old(database.jobs)|
      ensures forall i :: 0 <= i < |database.jobs| ==>
        var row := old(database.jobs)[i];
        database.jobs[i] ==
          if row.destination == jid && row.status in {Pending, Scheduled, Status.Retry, WaitingRateLimit}
          then row.(status := Cancelled, lastError := Some(Delivery(DestinationError))) else row
    {
      ghost var before := database.jobs;
      for i := 0 to |database.jobs|
        invariant |database.jobs| == |before|
        invariant forall k :: 0 <= k < i ==> database.jobs[k] == CancelForRow(before[k], jid)
        invariant forall k :: i <= k < |before| ==> database.jobs[k] == before[k]
      {
        var row := database.jobs[i];
        if row.destination == jid && Unsent(row.status) {
          database.jobs := database.jobs[i := BlockedRow(row)];
        }
      }
      assert database.jobs == CancelledFor(before, jid);
    }

    method SetEnabled(reference: Reference, enabled: bool) returns (r: Option<Jid>)
      modifies database`jobs, database`dests
      ensures r.None? ==> database.View() == old(database.View())
      ensures r.Some? ==>
        && r.value in old(database.dests) && Names(old(database.dests), reference, r.value)
        && database.View() == ApplySetEnabled(old(database.View()), r.value, enabled)
        && database.dests == old(database.dests)[r.value := old(database.dests)[r.value].(enabled := enabled)]
        && |database.jobs| == |old(database.jobs)|
        && forall i :: 0 <= i < |database.jobs| ==>
             var row := old(database.jobs)[i];
             database.jobs[i] ==
               if !enabled && row.destination == r.value
                  && row.status in {Pending, Scheduled, Status.Retry, WaitingRateLimit}
               then row.(status := Cancelled, lastError := Some(Delivery(DestinationError))) else row
    {
      r := Resolve(reference);
      if r.Some? {
        var jid := r.value;
        database.dests := database.dests[jid := database.dests[jid].(enabled := enabled)];
        if !enabled {
          CancelFor(jid);
        }
      }
    }

    method SetCanSend(jid: Jid, canSend: bool)
      modifies database`jobs, database`dests
      ensures database.dests == WithCanSend(old(database.dests), jid, canSend)
      ensures database.jobs == if canSend then old(database.jobs) else CancelledFor(old(database.jobs), jid)
      ensures database.dests == if jid in old(database.dests)
        then old(database.dests)[jid := old(database.dests)[jid].(canSend := canSend)] else old(database.dests)
      ensures |database.jobs| == |old(database.jobs)|
      ensures forall i :: 0 <= i < |database.jobs| ==>
        var row := old(database.jobs)[i];
        database.jobs[i] ==
          if !canSend && row.destination == jid
             && row.status in {Pending, Scheduled, Status.Retry, WaitingRateLimit}
          then row.(status := Cancelled, lastError := Some(Delivery(DestinationError))) else row
    {
      if jid in database.dests {
        database.dests := database.dests[jid := database.dests[jid].(canSend := canSend)];
      }
      if !canSend {
        CancelFor(jid);
      }
    }

    // Inserts or updates each discovered group, then cancels what can no longer be sent.
    method Synchronize(items: seq<Discovered>) returns (discovered: nat)
      modifies database`jobs, database`dests
      ensures database.View() == ApplyRefresh(old(database.View()), items)
      ensures discovered == |items|
      ensures forall jid :: Refreshed(old(database.dests), items, database.dests, jid)
      ensures |database.jobs| == |old(database.jobs)|
      ensures forall i :: 0 <= i < |database.jobs| ==>
        var row, dests := old(database.jobs)[i], database.dests;
        database.jobs[i] ==
          if row.status in {Pending, Scheduled, Status.Retry, WaitingRateLimit} && row.destination in dests
             && !dests[row.destination].canSend
          then row.(status := Cancelled, lastError := Some(Delivery(DestinationError))) else row
    {
      ghost var dests := database.dests;
      for i := 0 to |items|
        invariant database.dests == UpsertAll(dests, items[..i]) && database.jobs == old(database.jobs)
      {
        var item := items[i];
        var sendable := item.canSend != Some(false);
        assert items[..i + 1][..i] == items[..i];
        if item.jid in database.dests {
          database.dests := database.dests[
            item.jid := database.dests[item.jid].(subject := item.subject, canSend := sendable)];
        } else {
          database.dests := database.dests[item.jid := Destination(item.subject, None, false, sendable)];
        }
      }
      assert items[..|items|] == items;
      forall jid ensures Refreshed(dests, items, database.dests, jid) { LastReportWins(dests, items, jid); }
      hide Refreshed;
      CancelUnsendable();
      discovered := |items|;
    }

    method CancelUnsendable()
      modifies database`jobs
      ensures database.jobs == UnsendableCancelled(old(database.jobs), database.dests)
      ensures |database.jobs| == |old(database.jobs)|
      ensures forall i :: 0 <= i < |database.jobs| ==>
        var row, dests := old(database.jobs)[i], database.dests;
        database.jobs[i] ==
          if row.status in {Pending, Scheduled, Status.Retry, WaitingRateLimit} && row.destination in dests
             && !dests[row.destination].canSend
          then row.(status := Cancelled, lastError := Some(Delivery(DestinationError))) else row
    {
      ghost var before := database.jobs;
      for i := 0 to |database.jobs|
        invariant |database.jobs| == |before|
        invariant forall k :: 0 <= k < i ==> database.jobs[k] == CancelUnsendableRow(before[k], database.dests)
        invariant forall k :: i <= k < |before| ==> database.jobs[k] == before[k]
      {
        var row := database.jobs[i];
        if Unsent(row.status) && row.destination in database.dests && !database.dests[row.destination].canSend {
          database.jobs := database.jobs[i := BlockedRow(row)];
        }
      }
      assert database.jobs == UnsendableCancelled(before, database.dests);
    }

    // `alias` is already trimmed; the empty text removes the alias.
    method SetAlias(reference: Reference, alias: string) returns (r: Result<Jid, AliasError>)
      requires AliasesUnique(database.dests)
      modifies database`dests
      ensures AliasesUnique(database.dests)
      ensures r.Err? ==> database.dests == old(database.dests)
      ensures r.Ok? ==>
        && r.value in old(database.dests) && Names(old(database.dests), reference, r.value)
        && database.dests == old(database.dests)[
             r.value := old(database.dests)[r.value].(alias := if alias == "" then None else Some(alias))]
        && (alias != "" ==> AliasWellFormed(alias) && '@' !in alias)
    {
      var target := Resolve(reference);
      if target.None? {
        return Err(UnknownDestination);
      }
      var jid := target.value;
      if alias != "" {
        if !AliasWellFormed(alias) {
          return Err(BadAlias);
        }
        var holder := Resolve(ByName(alias));
        if holder.Some? && holder.value != jid {
          return Err(AliasTaken);
        }
        assert forall other :: other in database.dests && other != jid ==> !AliasIs(database.dests[other], alias) by {
          forall other | other in database.dests && other != jid ensures !AliasIs(database.dests[other], alias) {
            assert Names(database.dests, ByName(alias), other) <==> AliasIs(database.dests[other], alias);
          }
        }
        database.dests := database.dests[jid := database.dests[jid].(alias := Some(alias))];
      } else {
        database.dests := database.dests[jid := database.dests[jid].(alias := None)];
      }
      return Ok(jid);
    }
  }
}
