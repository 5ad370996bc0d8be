/** Turning what the user typed into groups, and the forward commands that report on all of them. */
module Targets {
  import opened Prelude
  import opened Jobs
  import opened Statements
  import opened System
  import opened Storage
  import opened Enqueue
  import opened Bulk
  import opened Batches
  import Invariants

  // One target as typed: text with an '@' is a JID, well-formed or not; other text is a name.
  datatype Input = Blank | BadJid | JidInput(jid: Jid) | NameInput(name: string)

  datatype Reason = NoSuchTarget | InvalidJid | NotAGroup | Disabled | NotSendable

  datatype Issue = Issue(input: Input, reason: Reason)

  datatype Resolution = Resolution(destinations: seq<Jid>, issues: seq<Issue>, duplicates: nat)

  datatype Snapshot = Snapshot(destinations: seq<Jid>, requested: nat, skipped: nat, duplicates: nat)

  predicate IsGroup(jid: Jid) { jid.server.GroupServer? }

  function NonBlank(inputs: seq<Input>): nat {
    if inputs == [] then 0
    else NonBlank(inputs[..|inputs| - 1]) + if inputs[|inputs| - 1].Blank? then 0 else 1
  }

  predicate Refers(dests: Destinations, input: Input, jid: Jid)
    requires jid in dests
  {
    match input
    case JidInput(typed) => Names(dests, ByJid(typed), jid)
    case NameInput(name) => Names(dests, ByName(name), jid)
    case _ => false
  }

  // A group the caller may use.
  predicate Usable(dests: Destinations, requireAllowed: bool, jid: Jid) {
    jid in dests && jid.server.GroupServer? && (requireAllowed ==> dests[jid].enabled && dests[jid].canSend)
  }

  // The reason given for rejecting an input is true of it.
  ghost predicate Justified(dests: Destinations, requireAllowed: bool, issue: Issue) {
    match issue.reason
    case InvalidJid => issue.input.BadJid?
    case NoSuchTarget =>
      !issue.input.BadJid? && forall jid :: jid in dests ==> !Refers(dests, issue.input, jid)
    case NotAGroup =>
      || (issue.input.JidInput? && !IsGroup(issue.input.jid))
      || exists jid :: jid in dests && Refers(dests, issue.input, jid) && !IsGroup(jid)
    case Disabled =>
      requireAllowed && exists jid :: Blocks(dests, issue.input, jid) && !dests[jid].enabled
    case NotSendable =>
      requireAllowed && exists jid :: Blocks(dests, issue.input, jid) && dests[jid].enabled && !dests[jid].canSend
  }

  predicate Blocks(dests: Destinations, input: Input, jid: Jid) {
    jid in dests && Refers(dests, input, jid) && IsGroup(jid)
  }

  // Every input is blank, rejected, or stands for one of the resolved groups.
  ghost predicate Handled(dests: Destinations, input: Input, destinations: seq<Jid>, issues: seq<Issue>) {
    || input.Blank?
    || (exists reason :: Issue(input, reason) in issues)
    || (exists jid :: jid in destinations && jid in dests && Refers(dests, input, jid))
  }

  ghost predicate AskedFor(dests: Destinations, inputs: seq<Input>, jid: Jid)
    requires jid in dests
  {
    exists input :: input in inputs && Refers(dests, input, jid)
  }

  ghost predicate NoneTwice(dests: Destinations, inputs: seq<Input>) {
    forall i, j, jid :: 0 <= i < j < |inputs| && jid in dests && Refers(dests, inputs[i], jid)
      ==> !Refers(dests, inputs[j], jid)
  }

  class TargetResolver {
    const database: Database
    const destinations: DestinationRepository

    constructor (database: Database)
      ensures this.database == database && destinations.database == database
    {
      this.database := database;
      this.destinations := new DestinationRepository(database);
    }

    // What one input stands for, or why it is rejected.
    method ResolveOne(input: Input, requireAllowed: bool) returns (r: Result<Jid, Reason>)
      requires destinations.database == database && !input.Blank?
      ensures r.Ok? ==>
        r.value in database.dests && Usable(database.dests, requireAllowed, r.value)
        && Refers(database.dests, input, r.value)
      ensures r.Err? ==> Justified(database.dests, requireAllowed, Issue(input, r.error))
    {
      if input.BadJid? {
        return Err(InvalidJid);
      }
      if input.JidInput? && !IsGroup(input.jid) {
        return Err(NotAGroup);
      }
      var found := destinations.Resolve(if input.JidInput? then ByJid(input.jid) else ByName(input.name));
      if found.None? {
        return Err(NoSuchTarget);
      }
      var jid := found.value;
      assert Refers(database.dests, input, jid);
      if !IsGroup(jid) {
        return Err(NotAGroup);
      }
      assert Blocks(database.dests, input, jid);
      if requireAllowed && !database.dests[jid].enabled {
        return Err(Disabled);
      }
      if requireAllowed && !database.dests[jid].canSend {
        return Err(NotSendable);
      }
      return Ok(jid);
    }

    // Resolves every input. Nothing typed is lost: each non-blank input is a resolved group, a
    // rejected input with a true reason, or a repetition of a group already resolved.
    method ResolveTargets(inputs: seq<Input>, requireAllowed: bool) returns (r: Resolution)
      requires destinations.database == database
      ensures |r.destinations| + |r.issues| + r.duplicates == NonBlank(inputs)
      ensures AllDifferent(r.destinations)
      ensures forall jid :: jid in r.destinations ==> Usable(database.dests, requireAllowed, jid)
      ensures forall jid :: jid in r.destinations && jid in database.dests ==> AskedFor(database.dests, inputs, jid)
      ensures forall issue :: issue in r.issues ==>
        issue.input in inputs && Justified(database.dests, requireAllowed, issue)
      ensures forall input :: input in inputs ==> Handled(database.dests, input, r.destinations, r.issues)
      ensures NoneTwice(database.dests, inputs) ==> r.duplicates == 0
      ensures r.destinations == [] ==> r.duplicates == 0
    {
      hide Refers, Usable, Justified, Handled, NoneTwice;
      var resolved: seq<Jid>, issues: seq<Issue>, duplicates := [], [], 0;
      ghost var dests := database.dests;
      for i := 0 to |inputs|
        invariant |resolved| + |issues| + duplicates == NonBlank(inputs[..i])
        invariant AllDifferent(resolved)
        invariant forall jid :: jid in resolved ==> jid in dests && Usable(dests, requireAllowed, jid)
        invariant forall issue :: issue in issues ==> issue.input in inputs && Justified(dests, requireAllowed, issue)
        invariant forall k :: 0 <= k < i ==> Handled(dests, inputs[k], resolved, issues)
        invariant forall jid :: jid in resolved ==> exists k :: 0 <= k < i && Refers(dests, inputs[k], jid)
        invariant NoneTwice(dests, inputs) ==> duplicates == 0
        invariant resolved == [] ==> duplicates == 0
      {
        assert inputs[..i + 1][..i] == inputs[..i];
        ghost var before := resolved;
        ghost var rejected := issues;
        if !inputs[i].Blank? {
          var one := ResolveOne(inputs[i], requireAllowed);
          if one.Err? {
            issues := issues + [Issue(inputs[i], one.error)];
          } else if one.value in resolved {
            ghost var k :| 0 <= k < i && Refers(dests, inputs[k], one.value);
            Repeated(dests, inputs, k, i, one.value);
            duplicates := duplicates + 1;
          } else {
            resolved := resolved + [one.value];
          }
          HandledNow(dests, inputs[i], requireAllowed, one, resolved, issues);
        } else {
          BlankHandled(dests, inputs[i], resolved, issues);
        }
        forall k | 0 <= k < i ensures Handled(dests, inputs[k], resolved, issues) {
          HandledExtend(dests, inputs[k], before, rejected, resolved, issues);
        }
      }
      assert inputs[..|inputs|] == inputs;
      forall jid | jid in resolved ensures jid in dests && AskedFor(dests, inputs, jid) {
        var k :| 0 <= k < |inputs| && Refers(dests, inputs[k], jid);
        assert inputs[k] in inputs;
      }
      r := Resolution(resolved, issues, duplicates);
    }

    // Every known destination, and those messages may be sent to.
    method ListEligible() returns (known: nat, eligible: seq<Input>)
      ensures known == |database.dests|
      ensures |eligible| <= known && NonBlank(eligible) == |eligible| && AllDifferent(eligible)
      ensures forall input :: input in eligible <==>
        input.JidInput? && input.jid in database.dests && Sendable(database.dests, input.jid)
    {
      var left := database.dests.Keys;
      known, eligible := 0, [];
      while left != {}
        invariant left <= database.dests.Keys && known + |left| == |database.dests.Keys|
        invariant |eligible| <= known && NonBlank(eligible) == |eligible| && AllDifferent(eligible)
        invariant forall input :: input in eligible <==>
          input.JidInput? && input.jid in database.dests && input.jid !in left && Sendable(database.dests, input.jid)
      {
        var jid :| jid in left;
        left := left - {jid};
        known := known + 1;
        if database.dests[jid].enabled && database.dests[jid].canSend {
          assert (eligible + [JidInput(jid)])[..|eligible|] == eligible;
          eligible := eligible + [JidInput(jid)];
        }
      }
    }

    // Every group messages may be sent to, once each.
    method SnapshotAllowed() returns (r: Snapshot)
      requires destinations.database == database
      ensures AllDifferent(r.destinations) && r.duplicates == 0
      ensures forall jid :: jid in r.destinations <==> Usable(database.dests, true, jid)
      ensures r.requested == |database.dests| == |r.destinations| + r.skipped + r.duplicates
    {
      var known, eligible := ListEligible();
      var resolved := ResolveTargets(eligible, true);
      assert NoneTwice(database.dests, eligible);
      r := Snapshot(resolved.destinations, known, known - |eligible| + |resolved.issues|, resolved.duplicates);
      forall jid | Usable(database.dests, true, jid) ensures jid in r.destinations {
        assert Handled(database.dests, JidInput(jid), resolved.destinations, resolved.issues);
      }
    }
  }

  lemma Repeated(dests: Destinations, inputs: seq<Input>, i: int, j: int, jid: Jid)
    requires 0 <= i < j < |inputs| && jid in dests && Refers(dests, inputs[i], jid) && Refers(dests, inputs[j], jid)
    ensures !NoneTwice(dests, inputs)
  {
  }

  lemma HandledNow(
    dests: Destinations, input: Input, requireAllowed: bool, one: Result<Jid, Reason>, resolved: seq<Jid>,
    issues: seq<Issue>)
    requires one.Ok? ==>
      one.value in resolved && Usable(dests, requireAllowed, one.value) && Refers(dests, input, one.value)
    requires one.Err? ==> Issue(input, one.error) in issues
    ensures Handled(dests, input, resolved, issues)
  {
  }

  lemma BlankHandled(dests: Destinations, input: Input, resolved: seq<Jid>, issues: seq<Issue>)
    requires input.Blank?
    ensures Handled(dests, input, resolved, issues)
  {
  }

  lemma HandledExtend(
    dests: Destinations, input: Input, before: seq<Jid>, rejected: seq<Issue>, resolved: seq<Jid>, issues: seq<Issue>)
    requires Handled(dests, input, before, rejected)
    requires before <= resolved && rejected <= issues
    ensures Handled(dests, input, resolved, issues)
  {
    if reason :| Issue(input, reason) in rejected {
      assert Issue(input, reason) in issues;
    } else if jid :| jid in before && jid in dests && Refers(dests, input, jid) {
      assert jid in resolved;
    }
  }

  // ----- The forward commands -----

  datatype Report = Report(queued: nat, skipped: int, failed: nat)

  datatype CommandError = NoTargets | InvalidTargets(issues: seq<Issue>)

  class ForwardCommands {
    const database: Database
    const resolver: TargetResolver
    const bulk: BulkMessageService

    predicate Wired() {
      resolver.database == database && resolver.destinations.database == database
      && bulk.database == database && bulk.Wired()
    }

    constructor (bulk: BulkMessageService)
      requires bulk.Wired()
      ensures Wired() && this.bulk == bulk
    {
      this.bulk, this.database := bulk, bulk.database;
      this.resolver := new TargetResolver(bulk.database);
    }

    // The common end of the forward commands: every requested target is queued, skipped or failed.
    method QueueForward(
      source: string, scheduledAt: Option<Instant>, destinations: seq<Jid>, ghost requested: nat, skipped: int,
      duplicateTargets: nat, batch: nat, turns: seq<Turn>)
      returns (r: Report, ghost fates: seq<Fate>)
      requires Wired() && Invariants.Sound(database.View()) && BatchRows(database.jobs, batch) == 0
      requires forall i :: 0 <= i < |turns| ==> TurnSpares(turns[i], batch)
      requires requested == skipped + |destinations| + duplicateTargets && AllDifferent(destinations)
      requires destinations == [] ==> duplicateTargets == 0
      modifies database
      ensures Forwarded(source, scheduledAt, destinations, batch, bulk.messages.limits, turns, old(database.View()),
                        fates, r, database.View())
      ensures r.queued + r.skipped + r.failed == requested
      ensures BatchRows(database.jobs, batch) == ReportTotal(database.jobs, batch) == r.queued
      ensures OnePerTarget(database.jobs, batch, destinations)
    {
      fates := [];
      if destinations == [] {
        NoneOfBatch(database.jobs, batch);
        ReportTotalIsBatchRows(database.jobs, batch);
        return Report(0, skipped, 0), fates;
      }
      ghost var before := database.View();
      var request := BulkRequest(destinations, Some(source), "", scheduledAt, false, duplicateTargets);
      DistinctOfDifferent(destinations);
      ghost var steps;
      var result;
      result, steps, fates := bulk.Enqueue(request, batch, [], turns);
      SameTurns(request, before, destinations, batch, bulk.messages.limits, turns, fates);
      r := Report(result.queued, skipped + result.duplicateJobs + result.duplicateTargets, result.failed);
    }

    // forwardall: every allowed group.
    method ForwardAll(source: string, scheduledAt: Option<Instant>, batch: nat, turns: seq<Turn>)
      returns (r: Report, ghost targets: seq<Jid>, ghost fates: seq<Fate>)
      requires Wired() && Invariants.Sound(database.View()) && BatchRows(database.jobs, batch) == 0
      requires forall i :: 0 <= i < |turns| ==> TurnSpares(turns[i], batch)
      modifies database
      ensures AllDifferent(targets) && forall jid :: jid in targets <==> Usable(old(database.dests), true, jid)
      ensures Forwarded(source, scheduledAt, targets, batch, bulk.messages.limits, turns, old(database.View()),
                        fates, r, database.View())
      ensures r.queued + r.skipped + r.failed == |old(database.dests)|
      ensures BatchRows(database.jobs, batch) == r.queued
    {
      var snapshot := resolver.SnapshotAllowed();
      targets := snapshot.destinations;
      r, fates := QueueForward(source, scheduledAt, snapshot.destinations, snapshot.requested, snapshot.skipped,
                               snapshot.duplicates, batch, turns);
    }

    // forwardmulti: the groups named, or nothing at all when one of them is not usable.
    method ForwardMulti(
      source: string, scheduledAt: Option<Instant>, typed: seq<Input>, batch: nat, turns: seq<Turn>)
      returns (r: Result<Report, CommandError>, ghost targets: seq<Jid>, ghost fates: seq<Fate>)
      requires Wired() && Invariants.Sound(database.View()) && BatchRows(database.jobs, batch) == 0
      requires forall i :: 0 <= i < |turns| ==> TurnSpares(turns[i], batch)
      modifies database
      ensures r.Ok? ==>
        && NamedExactly(old(database.dests), typed, targets)
        && Forwarded(source, scheduledAt, targets, batch, bulk.messages.limits, turns, old(database.View()),
                     fates, r.value, database.View())
        && r.value.queued + r.value.skipped + r.value.failed == NonBlank(typed)
        && BatchRows(database.jobs, batch) == r.value.queued
      ensures r.Err? ==> database.View() == old(database.View())
      ensures r.Err? ==> if r.error.NoTargets?
        then NonBlank(typed) == 0
        else r.error.issues != []
             && forall issue :: issue in r.error.issues ==>
                  issue.input in typed && Justified(database.dests, true, issue)
    {
      targets, fates := [], [];
      var inputs := KeepNonBlank(typed);
      if inputs == [] {
        return Err(NoTargets), targets, fates;
      }
      var resolved := resolver.ResolveTargets(inputs, true);
      if resolved.issues != [] {
        assert resolved.issues[0] in resolved.issues;
        return Err(InvalidTargets(resolved.issues)), targets, fates;
      }
      targets := resolved.destinations;
      NamesAll(database.dests, typed, inputs, targets);
      var report;
      report, fates := QueueForward(source, scheduledAt, resolved.destinations, |inputs|, 0, resolved.duplicates,
                                    batch, turns);
      return Ok(report), targets, fates;
    }

    // forwardset: the members of a saved set that are still known.
    method ForwardSet(
      source: string, scheduledAt: Option<Instant>, members: seq<Jid>, batch: nat, turns: seq<Turn>)
      returns (r: Report, ghost targets: seq<Jid>, ghost fates: seq<Fate>)
      requires Wired() && Invariants.Sound(database.View()) && BatchRows(database.jobs, batch) == 0
      requires forall i :: 0 <= i < |turns| ==> TurnSpares(turns[i], batch)
      modifies database
      ensures AllDifferent(targets)
      ensures forall jid :: jid in targets <==> jid in members && Usable(old(database.dests), true, jid)
      ensures Forwarded(source, scheduledAt, targets, batch, bulk.messages.limits, turns, old(database.View()),
                        fates, r, database.View())
      ensures r.queued + r.skipped + r.failed == |members|
      ensures BatchRows(database.jobs, batch) == r.queued
    {
      var present: seq<Input> := [];
      for i := 0 to |members|
        invariant forall input :: input in present <==>
          input.JidInput? && input.jid in members[..i] && input.jid in database.dests
      {
        assert members[..i + 1] == members[..i] + [members[i]];
        if members[i] in database.dests {
          present := present + [JidInput(members[i])];
        }
      }
      assert members[..|members|] == members;
      var resolved := resolver.ResolveTargets(present, true);
      targets := resolved.destinations;
      MembersFound(database.dests, members, present, resolved);
      var skipped := |members| - |resolved.destinations| - resolved.duplicates;
      r, fates := QueueForward(source, scheduledAt, resolved.destinations, |members|, skipped, resolved.duplicates,
                               batch, turns);
    }
  }

  // The targets have had their turns with this source and time, and the report counts what came of
  // them; the batch's rows forward nothing else.
  ghost predicate Forwarded(
    source: string, scheduledAt: Option<Instant>, targets: seq<Jid>, batch: nat, limits: Limits, turns: seq<Turn>,
    before: System, fates: seq<Fate>, r: Report, after: System)
  {
    var request := BulkRequest(targets, Some(source), "", scheduledAt, false, 0);
    && |fates| == |targets| && TurnsTaken(request, before, targets, batch, limits, [], turns, fates)
    && after == StateAfter(before, fates, turns)
    && r.queued == CountKind(fates, NewlyQueued) && r.failed == CountKind(fates, Failure)
    && (forall j: nat :: j < |after.jobs| && after.jobs[j].batch == Some(batch) ==>
          && after.jobs[j].destination in targets
          && (source != "" ==>
                after.jobs[j].forwardSource == Some(source) && after.jobs[j].key.schedule == scheduledAt))
  }

  lemma SameTurns(
    request: BulkRequest, start: System, targets: seq<Jid>, batch: nat, limits: Limits, turns: seq<Turn>,
    fates: seq<Fate>)
    requires TurnsTaken(request, start, targets, batch, limits, [], turns, fates)
    ensures TurnsTaken(request.(duplicateTargets := 0), start, targets, batch, limits, [], turns, fates)
  {
    hide StoreOutcome, StateAfter, TurnAt;
    forall i | 0 <= i < |fates|
      ensures TurnTaken(request.(duplicateTargets := 0), targets[i], batch, limits, NonceAt([], i),
                        TurnAt(turns, i).delays, fates[i])
    {
      assert TurnTaken(request, targets[i], batch, limits, NonceAt([], i), TurnAt(turns, i).delays, fates[i]);
    }
  }

  // The usable groups that the inputs stand for: every input one of them, every one of them an input.
  ghost predicate NamedExactly(dests: Destinations, typed: seq<Input>, targets: seq<Jid>) {
    && AllDifferent(targets)
    && (forall jid :: jid in targets ==> Usable(dests, true, jid) && AskedFor(dests, typed, jid))
    && (forall input :: input in typed && !input.Blank? ==>
          exists jid :: jid in targets && jid in dests && Refers(dests, input, jid))
  }

  lemma NamesAll(dests: Destinations, typed: seq<Input>, inputs: seq<Input>, targets: seq<Jid>)
    requires AllDifferent(targets) && forall input :: input in inputs <==> input in typed && !input.Blank?
    requires forall jid :: jid in targets ==> Usable(dests, true, jid) && AskedFor(dests, inputs, jid)
    requires forall input :: input in inputs ==> Handled(dests, input, targets, [])
    ensures NamedExactly(dests, typed, targets)
  {
    hide Refers;
    forall jid | jid in targets ensures AskedFor(dests, typed, jid) {
      var input :| input in inputs && Refers(dests, input, jid);
      assert input in typed;
    }
    forall input | input in typed && !input.Blank?
      ensures exists jid :: jid in targets && jid in dests && Refers(dests, input, jid)
    {
      assert Handled(dests, input, targets, []);
    }
  }

  lemma MembersFound(dests: Destinations, members: seq<Jid>, present: seq<Input>, resolved: Resolution)
    requires forall input :: input in present <==>
      input.JidInput? && input.jid in members && input.jid in dests
    requires forall jid :: jid in resolved.destinations ==> Usable(dests, true, jid) && AskedFor(dests, present, jid)
    requires forall issue :: issue in resolved.issues ==> Justified(dests, true, issue)
    requires forall input :: input in present ==> Handled(dests, input, resolved.destinations, resolved.issues)
    ensures forall jid :: jid in resolved.destinations <==> jid in members && Usable(dests, true, jid)
  {
    forall jid | jid in resolved.destinations ensures jid in members {
      var input :| input in present && Refers(dests, input, jid);
      assert input.jid == jid;
    }
    forall jid | jid in members && Usable(dests, true, jid) ensures jid in resolved.destinations {
      assert Handled(dests, JidInput(jid), resolved.destinations, resolved.issues);
      if reason :| Issue(JidInput(jid), reason) in resolved.issues {
        assert Justified(dests, true, Issue(JidInput(jid), reason));
        assert Refers(dests, JidInput(jid), jid);
        assert false;
      }
    }
  }

  method KeepNonBlank(typed: seq<Input>) returns (inputs: seq<Input>)
    ensures |inputs| == NonBlank(inputs) == NonBlank(typed)
    ensures forall input :: input in inputs <==> input in typed && !input.Blank?
  {
    inputs := [];
    for i := 0 to |typed|
      invariant |inputs| == NonBlank(inputs) == NonBlank(typed[..i])
      invariant forall input :: input in inputs <==> input in typed[..i] && !input.Blank?
    {
      assert typed[..i + 1][..i] == typed[..i] && typed[..i + 1] == typed[..i] + [typed[i]];
      if !typed[i].Blank? {
        assert (inputs + [typed[i]])[..|inputs|] == inputs;
        inputs := inputs + [typed[i]];
      }
    }
    assert typed[..|typed|] == typed;
  }
}
