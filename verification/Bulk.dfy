/** Queueing one message for many groups, one after the other, while other processes keep working. */
module Bulk {
  import opened Prelude
  import opened Jobs
  import opened Statements
  import opened System
  import opened Storage
  import opened Invariants
  import opened Batches
  import opened Enqueue

  // A schedule is used for forwards only; `duplicateTargets` were already removed by the caller.
  datatype BulkRequest = BulkRequest(
    destinations: seq<Jid>, forwardSource: Option<string>, text: string, scheduledAt: Option<Instant>,
    force: bool, duplicateTargets: nat)

  datatype BulkResult = BulkResult(
    batch: nat, targets: nat, queued: nat, duplicateJobs: nat, duplicateTargets: nat, failed: nat)

  // Queueing for this target must fail: the group is not allowed, the text is empty or too
  // long, or the forward's time has come.
  ghost predicate MustRefuse(request: BulkRequest, s: System, jid: Jid) {
    || !(jid in s.dests && s.dests[jid].enabled && s.dests[jid].canSend)
    || if IsForward(request)
       then request.scheduledAt.Some? && request.scheduledAt.value <= s.clock
       else request.text == "" || 65536 < |request.text|
  }

  ghost predicate IsForward(request: BulkRequest) {
    request.forwardSource.Some? && request.forwardSource.value != ""
  }

  // The job asked for: a forward carries its source and its time; a text carries neither, and a nonce
  // of its own exactly when it is forced.
  ghost function AskedJob(
    request: BulkRequest, jid: Jid, batch: nat, limits: Limits, nonce: nat, now: Instant): NewJob
  {
    if IsForward(request) then
      NewJob(jid, false, if request.scheduledAt.Some? then request.scheduledAt.value else now,
             if request.scheduledAt.Some? then Scheduled else Pending, limits.maxAttempts,
             IdempotencyKey(jid, Text, "", None, request.scheduledAt, None,
                            "forwardSourceKey=" + request.forwardSource.value, None, limits.dryRun),
             Some(batch), limits.dryRun, request.forwardSource)
    else
      NewJob(jid, false, now, Pending, limits.maxAttempts,
             IdempotencyKey(jid, Text, request.text, None, None, None, "",
                            if request.force then Some(nonce) else None, limits.dryRun),
             Some(batch), limits.dryRun, None)
  }

  // What the others do during one target's turn and after it.
  datatype Turn = Turn(delays: Delays, after: seq<Step>)

  predicate TurnSpares(turn: Turn, batch: nat) {
    AllSpare(turn.delays.insert, batch) && AllSpare(turn.delays.lookup, batch) && AllSpare(turn.after, batch)
  }

  ghost function TurnAt(turns: seq<Turn>, i: nat): Turn {
    if i < |turns| then turns[i] else Turn(Delays([], []), [])
  }

  ghost function NonceAt(nonces: seq<nat>, i: nat): nat {
    if i < |nonces| then nonces[i] else 0
  }

  // One target's turn: the state it came in, its result, and the state in which that was known.
  datatype Fate = Fate(before: System, result: Result<Queued, EnqueueError>, after: System)

  datatype Kind = NewlyQueued | Standing | Failure

  function KindOf(fate: Fate): Kind {
    if fate.result.Err? then Failure else if fate.result.value.duplicate then Standing else NewlyQueued
  }

  function CountKind(fates: seq<Fate>, kind: Kind): nat {
    if fates == [] then 0
    else CountKind(fates[..|fates| - 1], kind) + if KindOf(fates[|fates| - 1]) == kind then 1 else 0
  }

  lemma {:induction false} KindsAddUp(fates: seq<Fate>)
    ensures CountKind(fates, NewlyQueued) + CountKind(fates, Standing) + CountKind(fates, Failure) == |fates|
  {
    if fates != [] {
      KindsAddUp(fates[..|fates| - 1]);
    }
  }

  lemma OneMoreFate(fates: seq<Fate>, fate: Fate, kind: Kind)
    ensures CountKind(fates + [fate], kind) == CountKind(fates, kind) + if KindOf(fate) == kind then 1 else 0
  {
    assert (fates + [fate])[..|fates|] == fates;
  }

  // A target that must be refused in the state its turn comes in fails with nothing written. For any
  // other the job asked for is stored, or the job that stands in its way is found, or has vanished.
  ghost predicate TurnTaken(
    request: BulkRequest, jid: Jid, batch: nat, limits: Limits, nonce: nat, delays: Delays, fate: Fate)
  {
    if MustRefuse(request, fate.before, jid) then fate.result.Err? && fate.after == fate.before
    else StoreOutcome(fate.before, delays, AskedJob(request, jid, batch, limits, nonce, fate.before.clock),
                      fate.result, fate.after)
  }

  // The state after so many turns and what the others did after the last of them.
  ghost function StateAfter(start: System, fates: seq<Fate>, turns: seq<Turn>): System {
    if fates == [] then start else Run(fates[|fates| - 1].after, TurnAt(turns, |fates| - 1).after)
  }

  // The targets have had their turns, one after the other.
  ghost predicate TurnsTaken(
    request: BulkRequest, start: System, targets: seq<Jid>, batch: nat, limits: Limits, nonces: seq<nat>,
    turns: seq<Turn>, fates: seq<Fate>)
  {
    && |fates| <= |targets|
    && forall i :: 0 <= i < |fates| ==>
         && fates[i].before == StateAfter(start, fates[..i], turns)
         && TurnTaken(request, targets[i], batch, limits, NonceAt(nonces, i), TurnAt(turns, i).delays, fates[i])
  }

  lemma OneMoreTurn(
    request: BulkRequest, start: System, targets: seq<Jid>, batch: nat, limits: Limits, nonces: seq<nat>,
    turns: seq<Turn>, fates: seq<Fate>, fate: Fate)
    requires |fates| < |targets| && TurnsTaken(request, start, targets, batch, limits, nonces, turns, fates)
    requires fate.before == StateAfter(start, fates, turns)
    requires TurnTaken(request, targets[|fates|], batch, limits, NonceAt(nonces, |fates|),
                       TurnAt(turns, |fates|).delays, fate)
    ensures TurnsTaken(request, start, targets, batch, limits, nonces, turns, fates + [fate])
    ensures StateAfter(start, fates + [fate], turns) == Run(fate.after, TurnAt(turns, |fates|).after)
  {
    hide TurnTaken, StateAfter, TurnAt, NonceAt, Run;
    assert forall i :: 0 <= i <= |fates| ==> (fates + [fate])[..i] == fates[..i];
    assert fates[..|fates|] == fates;
    assert StateAfter(start, fates + [fate], turns) == Run(fate.after, TurnAt(turns, |fates|).after) by {
      LastState(start, fates, fate, turns);
    }
  }

  lemma LastState(start: System, fates: seq<Fate>, fate: Fate, turns: seq<Turn>)
    ensures StateAfter(start, fates + [fate], turns) == Run(fate.after, TurnAt(turns, |fates|).after)
  {
  }

  // The columns that stay with a row for ever are those of the job asked for.
  ghost predicate Carries(row: Job, job: NewJob) {
    && row.destination == job.destination && row.hasMedia == job.hasMedia && row.scheduledAt == job.scheduledAt
    && row.maxAttempts == job.maxAttempts && row.key == job.key && row.batch == job.batch
    && row.dryRun == job.dryRun && row.forwardSource == job.forwardSource
  }

  ghost predicate FateCarried(
    request: BulkRequest, jid: Jid, batch: nat, limits: Limits, nonce: nat, fate: Fate, rows: seq<Job>)
  {
    KindOf(fate).NewlyQueued? ==>
      && fate.result.value.job < |rows|
      && Carries(rows[fate.result.value.job], AskedJob(request, jid, batch, limits, nonce, fate.before.clock))
  }

  ghost predicate QueuedAs(fates: seq<Fate>, j: nat) {
    exists i :: 0 <= i < |fates| && KindOf(fates[i]).NewlyQueued? && fates[i].result.value.job == j
  }

  // Every target newly queued has its row as asked for, and the batch has no other rows.
  ghost predicate RowsMatch(
    request: BulkRequest, targets: seq<Jid>, batch: nat, limits: Limits, nonces: seq<nat>, fates: seq<Fate>,
    rows: seq<Job>)
  {
    && |fates| <= |targets|
    && (forall i :: 0 <= i < |fates| ==>
          FateCarried(request, targets[i], batch, limits, NonceAt(nonces, i), fates[i], rows))
    && (forall j: nat :: j < |rows| && rows[j].batch == Some(batch) ==> QueuedAs(fates, j))
  }

  lemma FrameKeepsMatch(
    request: BulkRequest, targets: seq<Jid>, batch: nat, limits: Limits, nonces: seq<nat>, fates: seq<Fate>,
    rows: seq<Job>, after: seq<Job>)
    requires BatchFrame(rows, after, batch) && RowsMatch(request, targets, batch, limits, nonces, fates, rows)
    ensures RowsMatch(request, targets, batch, limits, nonces, fates, after)
  {
    hide AskedJob, QueuedAs;
    forall i | 0 <= i < |fates|
      ensures FateCarried(request, targets[i], batch, limits, NonceAt(nonces, i), fates[i], after)
    {
      assert FateCarried(request, targets[i], batch, limits, NonceAt(nonces, i), fates[i], rows);
      if KindOf(fates[i]).NewlyQueued? {
        assert SameIdentity(rows[fates[i].result.value.job], after[fates[i].result.value.job]);
      }
    }
    forall j: nat | j < |after| && after[j].batch == Some(batch) ensures QueuedAs(fates, j) {
      assert j < |rows| && SameIdentity(rows[j], after[j]);
    }
  }

  lemma MeanwhileKeepsMatch(
    request: BulkRequest, targets: seq<Jid>, batch: nat, limits: Limits, nonces: seq<nat>, fates: seq<Fate>,
    s: System, steps: seq<Step>)
    requires Sound(s) && AllSpare(steps, batch) && RowsMatch(request, targets, batch, limits, nonces, fates, s.jobs)
    ensures RowsMatch(request, targets, batch, limits, nonces, fates, Run(s, steps).jobs)
  {
    RunFrames(s, steps, batch);
    FrameKeepsMatch(request, targets, batch, limits, nonces, fates, s.jobs, Run(s, steps).jobs);
  }

  lemma FateAdded(
    request: BulkRequest, targets: seq<Jid>, batch: nat, limits: Limits, nonces: seq<nat>, fates: seq<Fate>,
    fate: Fate, rows: seq<Job>, after: seq<Job>)
    requires |fates| < |targets| && RowsMatch(request, targets, batch, limits, nonces, fates, rows)
    requires after == if KindOf(fate).NewlyQueued?
      then rows + [FreshRow(AskedJob(request, targets[|fates|], batch, limits, NonceAt(nonces, |fates|),
                                     fate.before.clock))]
      else rows
    requires KindOf(fate).NewlyQueued? ==> fate.result.value.job == |rows|
    ensures RowsMatch(request, targets, batch, limits, nonces, fates + [fate], after)
  {
    hide AskedJob, NonceAt, QueuedAs;
    var all := fates + [fate];
    forall i | 0 <= i < |all|
      ensures FateCarried(request, targets[i], batch, limits, NonceAt(nonces, i), all[i], after)
    {
      if i < |fates| {
        assert FateCarried(request, targets[i], batch, limits, NonceAt(nonces, i), fates[i], rows);
      }
    }
    forall j: nat | j < |after| && after[j].batch == Some(batch) ensures QueuedAs(all, j) {
      FateFound(fates, fate, j, j < |rows|);
    }
  }

  lemma FateFound(fates: seq<Fate>, fate: Fate, j: nat, earlier: bool)
    requires if earlier then QueuedAs(fates, j) else KindOf(fate).NewlyQueued? && fate.result.value.job == j
    ensures QueuedAs(fates + [fate], j)
  {
    if earlier {
      var i :| 0 <= i < |fates| && KindOf(fates[i]).NewlyQueued? && fates[i].result.value.job == j;
      assert (fates + [fate])[i] == fates[i];
    } else {
      assert (fates + [fate])[|fates|] == fate;
    }
  }

  lemma TurnMatches(
    request: BulkRequest, targets: seq<Jid>, batch: nat, limits: Limits, nonces: seq<nat>, fates: seq<Fate>,
    fate: Fate, delays: Delays)
    requires |fates| < |targets| && Sound(fate.before)
    requires AllSpare(delays.insert, batch) && AllSpare(delays.lookup, batch)
    requires RowsMatch(request, targets, batch, limits, nonces, fates, fate.before.jobs)
    requires TurnTaken(request, targets[|fates|], batch, limits, NonceAt(nonces, |fates|), delays, fate)
    ensures RowsMatch(request, targets, batch, limits, nonces, fates + [fate], fate.after.jobs)
  {
    var inserting := Run(fate.before, delays.insert);
    RunSound(fate.before, delays.insert);
    MeanwhileKeepsMatch(request, targets, batch, limits, nonces, fates, fate.before, delays.insert);
    MeanwhileKeepsMatch(request, targets, batch, limits, nonces, fates, inserting, delays.lookup);
    var rows := if KindOf(fate).NewlyQueued? then inserting.jobs else fate.after.jobs;
    hide Run, Sound, Conflicts, RowsMatch, AskedJob, MustRefuse, Apply;
    FateAdded(request, targets, batch, limits, nonces, fates, fate, rows, fate.after.jobs);
  }

  // The content of the batch, row by row.
  lemma BatchContent(
    request: BulkRequest, targets: seq<Jid>, batch: nat, limits: Limits, nonces: seq<nat>, fates: seq<Fate>,
    rows: seq<Job>, j: nat)
    requires RowsMatch(request, targets, batch, limits, nonces, fates, rows)
    requires j < |rows| && rows[j].batch == Some(batch)
    ensures ContentAsked(request, rows[j])
  {
    var i :| 0 <= i < |fates| && KindOf(fates[i]).NewlyQueued? && fates[i].result.value.job == j;
    assert FateCarried(request, targets[i], batch, limits, NonceAt(nonces, i), fates[i], rows);
  }

  ghost predicate ContentAsked(request: BulkRequest, row: Job) {
    if request.forwardSource.Some? && request.forwardSource.value != "" then
      && row.forwardSource == request.forwardSource && row.key.schedule == request.scheduledAt
      && row.key.options == "forwardSourceKey=" + request.forwardSource.value
      && (request.scheduledAt.Some? ==> row.scheduledAt == request.scheduledAt.value)
    else
      && row.forwardSource.None? && row.key.text == request.text && row.key.schedule.None?
      && (row.key.forceNonce.Some? <==> request.force)
  }

  // The rows of the batch go to different groups among the targets.
  ghost predicate OnePerTarget(rows: seq<Job>, batch: nat, targets: seq<Jid>) {
    && (forall j :: 0 <= j < |rows| && rows[j].batch == Some(batch) ==> rows[j].destination in targets)
    && (forall j, k :: 0 <= j < k < |rows| && rows[j].batch == rows[k].batch == Some(batch)
          ==> rows[j].destination != rows[k].destination)
  }

  lemma FrameKeepsTargets(before: seq<Job>, after: seq<Job>, batch: nat, targets: seq<Jid>)
    requires BatchFrame(before, after, batch) && OnePerTarget(before, batch, targets)
    ensures OnePerTarget(after, batch, targets)
  {
    forall j | 0 <= j < |after| && after[j].batch == Some(batch)
      ensures j < |before| && before[j].batch == Some(batch) && after[j].destination == before[j].destination
    {
      if j < |before| {
        assert SameIdentity(before[j], after[j]);
      }
    }
  }

  lemma MeanwhileKeepsBatch(s: System, steps: seq<Step>, batch: nat, targets: seq<Jid>)
    requires Sound(s) && AllSpare(steps, batch) && OnePerTarget(s.jobs, batch, targets)
    ensures Sound(Run(s, steps)) && OnePerTarget(Run(s, steps).jobs, batch, targets)
    ensures BatchRows(Run(s, steps).jobs, batch) == BatchRows(s.jobs, batch)
  {
    RunSound(s, steps);
    RunFrames(s, steps, batch);
    FrameKeepsRows(s.jobs, Run(s, steps).jobs, batch);
    FrameKeepsTargets(s.jobs, Run(s, steps).jobs, batch, targets);
  }

  class BulkMessageService {
    const database: Database
    const messages: MessageService

    predicate Wired() {
      messages.database == database && messages.Wired()
    }

    constructor (messages: MessageService)
      requires messages.Wired()
      ensures Wired() && this.messages == messages && database == messages.database
    {
      this.messages, this.database := messages, messages.database;
    }

    // Queues the message for every different target in turn; what fails for one target does not
    // stop the next. `turns[i]` is what the others do during and after the i-th target. Every
    // target is counted once, and the batch has exactly the queued rows, one per target.
    method Enqueue(request: BulkRequest, batch: nat, nonces: seq<nat>, turns: seq<Turn>)
      returns (r: BulkResult, ghost steps: seq<Step>, ghost fates: seq<Fate>)
      requires Wired() && Sound(database.View()) && BatchRows(database.jobs, batch) == 0
      requires forall i :: 0 <= i < |turns| ==> TurnSpares(turns[i], batch)
      modifies database
      ensures database.View() == Run(old(database.View()), steps) && Sound(database.View())
      ensures r.batch == batch && r.targets == |Distinct(request.destinations)| == |fates|
      ensures TurnsTaken(request, old(database.View()), Distinct(request.destinations), batch, messages.limits, nonces,
                         turns, fates)
      ensures database.View() == StateAfter(old(database.View()), fates, turns)
      ensures r.queued == CountKind(fates, NewlyQueued) && r.duplicateJobs == CountKind(fates, Standing)
      ensures r.failed == CountKind(fates, Failure)
      ensures r.queued + r.duplicateJobs + r.failed == r.targets
      ensures r.targets + r.duplicateTargets == |request.destinations| + request.duplicateTargets
      ensures BatchRows(database.jobs, batch) == r.queued
      ensures ReportTotal(database.jobs, batch) == r.queued
      ensures OnePerTarget(database.jobs, batch, request.destinations)
      ensures RowsMatch(request, Distinct(request.destinations), batch, messages.limits, nonces, fates, database.jobs)
      ensures forall j: nat :: j < |database.jobs| && database.jobs[j].batch == Some(batch) ==>
        ContentAsked(request, database.jobs[j])
    {
      hide Run, Apply, Sound, ReportTotal, BatchRows, OnePerTarget, Distinct, AllDifferent, TurnsTaken, RowsMatch;
      var targets := RemoveDuplicates(request.destinations);
      DistinctIsExact(request.destinations);
      ghost var start := database.View();
      steps, fates := [], [];
      NothingYet(request, start, targets, batch, messages.limits, nonces, turns);
      assert targets[..0] == [];
      var queued, duplicateJobs, failed := 0, 0, 0;
      for i := 0 to |targets|
        invariant i == |fates| && database.View() == Run(start, steps) && Sound(database.View())
        invariant TurnsTaken(request, start, targets, batch, messages.limits, nonces, turns, fates)
        invariant database.View() == StateAfter(start, fates, turns)
        invariant queued == CountKind(fates, NewlyQueued) == BatchRows(database.jobs, batch)
        invariant duplicateJobs == CountKind(fates, Standing) && failed == CountKind(fates, Failure)
        invariant OnePerTarget(database.jobs, batch, targets[..i])
        invariant RowsMatch(request, targets, batch, messages.limits, nonces, fates, database.jobs)
      {
        var turn := if i < |turns| then turns[i] else Turn(Delays([], []), []);
        ghost var more, fate;
        var result;
        result, more, fate := TakeTurn(
          request, targets, i, batch, if i < |nonces| then nonces[i] else 0, turn, nonces, turns, fates, start, steps);
        if result.Err? {
          failed := failed + 1;
        } else if result.value.duplicate {
          duplicateJobs := duplicateJobs + 1;
        } else {
          queued := queued + 1;
        }
        steps := steps + more;
        fates := fates + [fate];
      }
      assert targets[..|targets|] == targets;
      SameTargets(database.jobs, batch, targets[..|targets|], request.destinations);
      ReportTotalIsBatchRows(database.jobs, batch);
      KindsAddUp(fates);
      forall j: nat | j < |database.jobs| && database.jobs[j].batch == Some(batch)
        ensures ContentAsked(request, database.jobs[j])
      {
        BatchContent(request, targets, batch, messages.limits, nonces, fates, database.jobs, j);
      }
      r := BulkResult(batch, |targets|, queued, duplicateJobs,
                      request.duplicateTargets + |request.destinations| - |targets|, failed);
    }

    // One target's turn, and what the others do after it.
    method TakeTurn(
      request: BulkRequest, targets: seq<Jid>, i: nat, batch: nat, nonce: nat, turn: Turn, ghost nonces: seq<nat>,
      ghost turns: seq<Turn>, ghost fates: seq<Fate>, ghost start: System, ghost steps: seq<Step>)
      returns (result: Result<Queued, EnqueueError>, ghost more: seq<Step>, ghost fate: Fate)
      requires Wired() && Sound(database.View()) && TurnSpares(turn, batch)
      requires i == |fates| < |targets| && nonce == NonceAt(nonces, i) && turn == TurnAt(turns, i)
      requires AllDifferent(targets) && OnePerTarget(database.jobs, batch, targets[..i])
      requires database.View() == Run(start, steps) == StateAfter(start, fates, turns)
      requires TurnsTaken(request, start, targets, batch, messages.limits, nonces, turns, fates)
      requires RowsMatch(request, targets, batch, messages.limits, nonces, fates, database.jobs)
      modifies database
      ensures database.View() == Run(start, steps + more) == StateAfter(start, fates + [fate], turns)
      ensures Sound(database.View()) && fate.result == result
      ensures TurnsTaken(request, start, targets, batch, messages.limits, nonces, turns, fates + [fate])
      ensures RowsMatch(request, targets, batch, messages.limits, nonces, fates + [fate], database.jobs)
      ensures OnePerTarget(database.jobs, batch, targets[..i + 1])
      ensures BatchRows(database.jobs, batch)
        == BatchRows(old(database.jobs), batch) + if KindOf(fate).NewlyQueued? then 1 else 0
      ensures forall kind ::
        CountKind(fates + [fate], kind) == CountKind(fates, kind) + if KindOf(fate) == kind then 1 else 0
    {
      ghost var before := database.View();
      result, more := EnqueueTarget(request, targets, i, batch, nonce, turn.delays);
      fate := Fate(before, result, database.View());
      TurnEnds(request, start, targets, batch, messages.limits, nonces, turns, fates, fate, steps, more);
      database.Meanwhile(turn.after);
      more := more + turn.after;
      forall kind ensures
        CountKind(fates + [fate], kind) == CountKind(fates, kind) + if KindOf(fate) == kind then 1 else 0
      {
        OneMoreFate(fates, fate, kind);
      }
    }

    // One target: it fails when it must be refused, or when the job standing in its way vanishes.
    method EnqueueTarget(request: BulkRequest, targets: seq<Jid>, i: nat, batch: nat, nonce: nat, delays: Delays)
      returns (r: Result<Queued, EnqueueError>, ghost steps: seq<Step>)
      requires Wired() && Sound(database.View())
      requires AllSpare(delays.insert, batch) && AllSpare(delays.lookup, batch)
      requires i < |targets| && AllDifferent(targets) && OnePerTarget(database.jobs, batch, targets[..i])
      modifies database
      ensures database.View() == Run(old(database.View()), steps) && Sound(database.View())
      ensures TurnTaken(request, targets[i], batch, messages.limits, nonce, delays,
                        Fate(old(database.View()), r, database.View()))
      ensures OnePerTarget(database.jobs, batch, targets[..i + 1])
      ensures BatchRows(database.jobs, batch)
        == BatchRows(old(database.jobs), batch) + if r.Ok? && !r.value.duplicate then 1 else 0
    {
      ghost var before := database.View();
      ghost var target;
      var jid := targets[i];
      steps := [];
      EmptyRun(before);
      hide Run, Apply, Sound, StoreOutcome;
      ghost var job := AskedJob(request, jid, batch, messages.limits, nonce, before.clock);
      if request.forwardSource.Some? && request.forwardSource.value != "" {
        r, target := messages.EnqueueForward(
          ByJid(jid), request.forwardSource.value, request.scheduledAt, Some(batch), delays);
      } else {
        var message := Request(ByJid(jid), request.text, NoMedia, false, None, request.force, "", Some(batch), None);
        ghost var mid;
        r, target, mid := messages.Enqueue(message, nonce, [], delays);
      }
      if target.None? {
        RefusedTarget(before, batch, targets, i);
      } else {
        steps := StoringSteps(before, delays, job);
        StoredTarget(before, database.View(), delays, job, r, batch, targets, i);
      }
    }
  }

  lemma TurnEnds(
    request: BulkRequest, start: System, targets: seq<Jid>, batch: nat, limits: Limits, nonces: seq<nat>,
    turns: seq<Turn>, fates: seq<Fate>, fate: Fate, steps: seq<Step>, more: seq<Step>)
    requires |fates| < |targets| && TurnSpares(TurnAt(turns, |fates|), batch)
    requires Sound(fate.before) && Sound(fate.after) && fate.after == Run(fate.before, more)
    requires fate.before == Run(start, steps) == StateAfter(start, fates, turns)
    requires TurnsTaken(request, start, targets, batch, limits, nonces, turns, fates)
    requires RowsMatch(request, targets, batch, limits, nonces, fates, fate.before.jobs)
    requires TurnTaken(request, targets[|fates|], batch, limits, NonceAt(nonces, |fates|),
                       TurnAt(turns, |fates|).delays, fate)
    requires OnePerTarget(fate.after.jobs, batch, targets[..|fates| + 1])
    ensures var others := TurnAt(turns, |fates|).after;
      var end := Run(fate.after, others);
      && end == Run(start, steps + (more + others)) == StateAfter(start, fates + [fate], turns) && Sound(end)
      && TurnsTaken(request, start, targets, batch, limits, nonces, turns, fates + [fate])
      && RowsMatch(request, targets, batch, limits, nonces, fates + [fate], end.jobs)
      && OnePerTarget(end.jobs, batch, targets[..|fates| + 1])
      && BatchRows(end.jobs, batch) == BatchRows(fate.after.jobs, batch)
  {
    var turn := TurnAt(turns, |fates|);
    OneMoreTurn(request, start, targets, batch, limits, nonces, turns, fates, fate);
    TurnMatches(request, targets, batch, limits, nonces, fates, fate, turn.delays);
    RunConcat(start, steps, more + turn.after);
    RunConcat(Run(start, steps), more, turn.after);
    MeanwhileKeepsBatch(fate.after, turn.after, batch, targets[..|fates| + 1]);
    MeanwhileKeepsMatch(request, targets, batch, limits, nonces, fates + [fate], fate.after, turn.after);
    hide Run, Sound, TurnsTaken, RowsMatch, TurnTaken, OnePerTarget, BatchRows, StateAfter;
  }

  lemma NothingYet(
    request: BulkRequest, start: System, targets: seq<Jid>, batch: nat, limits: Limits, nonces: seq<nat>,
    turns: seq<Turn>)
    requires BatchRows(start.jobs, batch) == 0
    ensures TurnsTaken(request, start, targets, batch, limits, nonces, turns, [])
    ensures StateAfter(start, [], turns) == start
    ensures RowsMatch(request, targets, batch, limits, nonces, [], start.jobs)
    ensures OnePerTarget(start.jobs, batch, []) && Run(start, []) == start
    ensures forall kind :: CountKind([], kind) == 0
  {
    NoneOfBatch(start.jobs, batch);
  }

  lemma EmptyRun(s: System)
    ensures Run(s, []) == s
  {
  }

  lemma SameTargets(rows: seq<Job>, batch: nat, targets: seq<Jid>, others: seq<Jid>)
    requires OnePerTarget(rows, batch, targets) && forall jid :: jid in targets ==> jid in others
    ensures OnePerTarget(rows, batch, others)
  {
  }

  lemma {:induction false} NoneOfBatch(rows: seq<Job>, batch: nat)
    requires BatchRows(rows, batch) == 0
    ensures forall j :: 0 <= j < |rows| ==> rows[j].batch != Some(batch)
    ensures OnePerTarget(rows, batch, [])
  {
    if rows != [] {
      NoneOfBatch(rows[..|rows| - 1], batch);
    }
  }

  // One target handled: at most its own row joins the batch.
  lemma TargetQueued(
    before: seq<Job>, after: seq<Job>, created: bool, job: NewJob, batch: nat, targets: seq<Jid>, i: nat)
    requires i < |targets| && AllDifferent(targets) && OnePerTarget(before, batch, targets[..i])
    requires job.batch == Some(batch) && job.destination == targets[i]
    requires after == if created then before + [FreshRow(job)] else before
    ensures OnePerTarget(after, batch, targets[..i + 1])
    ensures BatchRows(after, batch) == BatchRows(before, batch) + if created then 1 else 0
  {
    assert targets[..i + 1] == targets[..i] + [targets[i]];
    assert targets[i] !in targets[..i];
    BatchRowsAppend(before, FreshRow(job), batch);
  }

  lemma RefusedTarget(s: System, batch: nat, targets: seq<Jid>, i: nat)
    requires i < |targets| && OnePerTarget(s.jobs, batch, targets[..i])
    ensures OnePerTarget(s.jobs, batch, targets[..i + 1])
  {
    assert targets[..i + 1] == targets[..i] + [targets[i]];
  }

  // The batch after a target's job was stored, or found, or vanished.
  lemma StoredTarget(
    before: System, after: System, delays: Delays, job: NewJob, r: Result<Queued, EnqueueError>, batch: nat,
    targets: seq<Jid>, i: nat)
    requires Sound(before) && i < |targets| && AllDifferent(targets) && OnePerTarget(before.jobs, batch, targets[..i])
    requires AllSpare(delays.insert, batch) && AllSpare(delays.lookup, batch)
    requires job.batch == Some(batch) && job.destination == targets[i]
    requires StoreOutcome(before, delays, job, r, after)
    ensures after == Run(before, StoringSteps(before, delays, job)) && Sound(after)
    ensures OnePerTarget(after.jobs, batch, targets[..i + 1])
    ensures BatchRows(after.jobs, batch) == BatchRows(before.jobs, batch) + if r.Ok? && !r.value.duplicate then 1 else 0
  {
    OutcomeIsARun(before, delays, job, r, after);
    RunSound(before, StoringSteps(before, delays, job));
    MeanwhileKeepsBatch(before, delays.insert, batch, targets[..i]);
    var inserting := Run(before, delays.insert);
    hide Run, Sound, BatchRows, AllDifferent;
    if Conflicts(inserting.jobs, job.key, -1) {
      MeanwhileKeepsBatch(inserting, delays.lookup, batch, targets[..i]);
      TargetQueued(after.jobs, after.jobs, false, job, batch, targets, i);
    } else {
      TargetQueued(inserting.jobs, after.jobs, true, job, batch, targets, i);
    }
  }
}
