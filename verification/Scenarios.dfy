/**
 * Runs the environment can always choose: allow a group, wait, cancel every other job; and the
 * first steps from an empty queue. They show that the conditions of the main results are needed.
 */
module Scenarios {
  import opened Prelude
  import opened Jobs
  import opened Statements
  import opened System

  // ----- A few steps at a time -----

  lemma RunFirst(s: System, step: Step, rest: seq<Step>)
    ensures Run(s, [step] + rest) == Run(Apply(s, step), rest)
  {
    RunConcat(s, [step], rest);
    RunExtend(s, [], step);
    assert [] + [step] == [step];
  }

  lemma RunNone(s: System)
    ensures Run(s, []) == s
  {
  }

  lemma RunOne(s: System, step: Step)
    ensures Run(s, [step]) == Apply(s, step)
  {
    RunFirst(s, step, []);
    assert [step] + [] == [step];
  }

  lemma TwoSteps(s: System, a: Step, b: Step, s1: System, s2: System)
    requires s1 == Apply(s, a) && s2 == Apply(s1, b)
    ensures Run(s, [a, b]) == s2
  {
    assert [a, b] == [a] + [b];
    RunFirst(s, a, [b]);
    RunOne(s1, b);
  }

  lemma ThreeSteps(s: System, a: Step, b: Step, c: Step, s1: System, s2: System, s3: System)
    requires s1 == Apply(s, a) && s2 == Apply(s1, b) && s3 == Apply(s2, c)
    ensures Run(s, [a, b, c]) == s3
  {
    assert [a, b, c] == [a] + [b, c];
    RunFirst(s, a, [b, c]);
    TwoSteps(s1, b, c, s2, s3);
  }

  lemma FourSteps(
    s: System, a: Step, b: Step, c: Step, d: Step, s1: System, s2: System, s3: System, s4: System)
    requires s1 == Apply(s, a) && s2 == Apply(s1, b) && s3 == Apply(s2, c) && s4 == Apply(s3, d)
    ensures Run(s, [a, b, c, d]) == s4
  {
    assert [a, b, c, d] == [a] + [b, c, d];
    RunFirst(s, a, [b, c, d]);
    ThreeSteps(s1, b, c, d, s2, s3, s4);
  }

  // ----- What the environment can always do -----

  // Steps that only change rows other than j, permissions and the clock.
  predicate Preparation(step: Step, j: nat) {
    step.Refresh? || step.SetEnabled? || step.Tick? || (step.OperatorCancel? && step.job != j)
  }

  predicate AllPreparation(steps: seq<Step>, j: nat) {
    forall i :: 0 <= i < |steps| ==> Preparation(steps[i], j)
  }

  // Row j, the workers, the pause keys and the trace are as before.
  ghost predicate Prepared(s: System, after: System, j: nat)
    requires j < |s.jobs|
  {
    && |after.jobs| == |s.jobs| && after.jobs[j] == s.jobs[j]
    && after.workers == s.workers && after.pause == s.pause && after.trace == s.trace
    && s.clock <= after.clock
  }

  function Allow(jid: Jid): seq<Step> {
    [Refresh([Discovered(jid, "", Some(true))]), SetEnabled(jid, true)]
  }

  lemma OneUpsert(dests: Destinations, item: Discovered)
    ensures UpsertAll(dests, [item]) == UpsertOne(dests, item)
  {
    assert [item][..0] == [];
  }

  lemma GroupRefound(s: System, j: nat)
    requires j < |s.jobs|
    ensures var jid := s.jobs[j].destination;
      var after := Apply(s, Refresh([Discovered(jid, "", Some(true))]));
      && Prepared(s, after, j) && after.clock == s.clock && jid in after.dests && after.dests[jid].canSend
  {
    OneUpsert(s.dests, Discovered(s.jobs[j].destination, "", Some(true)));
  }

  lemma GroupEnabled(s: System, j: nat)
    requires j < |s.jobs|
    ensures var jid := s.jobs[j].destination;
      var after := Apply(s, SetEnabled(jid, true));
      && Prepared(s, after, j) && after.clock == s.clock
      && (jid in s.dests && s.dests[jid].canSend ==> Sendable(after.dests, jid))
  {
  }

  // A group can always be discovered again and allowed, which never costs its own jobs.
  lemma AllowWorks(s: System, j: nat)
    requires j < |s.jobs|
    ensures var after := Run(s, Allow(s.jobs[j].destination));
      Prepared(s, after, j) && after.clock == s.clock && Sendable(after.dests, s.jobs[j].destination)
    ensures AllPreparation(Allow(s.jobs[j].destination), j)
  {
    var jid := s.jobs[j].destination;
    var refound := Refresh([Discovered(jid, "", Some(true))]);
    var found := Apply(s, refound);
    GroupRefound(s, j);
    GroupEnabled(found, j);
    hide Apply, Run;
    TwoSteps(s, refound, SetEnabled(jid, true), found, Apply(found, SetEnabled(jid, true)));
  }

  function CancelOthers(j: nat, n: nat): seq<Step> {
    if n == 0 then [] else CancelOthers(j, n - 1) + if n - 1 == j then [] else [OperatorCancel(n - 1)]
  }

  ghost predicate OnlyQueued(jobs: seq<Job>, j: nat, n: nat) {
    forall k :: 0 <= k < |jobs| && k < n && k != j ==> !Unsent(jobs[k].status)
  }

  lemma CancelOne(s: System, k: nat)
    ensures var after := Apply(s, OperatorCancel(k));
      && after == s.(jobs := after.jobs) && |after.jobs| == |s.jobs|
      && (k < |s.jobs| ==> !Unsent(after.jobs[k].status))
      && forall i :: 0 <= i < |s.jobs| && i != k ==> after.jobs[i] == s.jobs[i]
  {
  }

  // Every other queued job can always be cancelled.
  lemma {:induction false} CancelOthersWorks(s: System, j: nat, n: nat)
    requires j < |s.jobs|
    ensures var after := Run(s, CancelOthers(j, n));
      && Prepared(s, after, j) && after.clock == s.clock && after.dests == s.dests && OnlyQueued(after.jobs, j, n)
    ensures AllPreparation(CancelOthers(j, n), j)
  {
    hide Run, Apply;
    if n == 0 {
      RunNone(s);
    } else {
      CancelOthersWorks(s, j, n - 1);
      var before := Run(s, CancelOthers(j, n - 1));
      if n - 1 == j {
        assert CancelOthers(j, n) == CancelOthers(j, n - 1);
      } else {
        RunExtend(s, CancelOthers(j, n - 1), OperatorCancel(n - 1));
        CancelOne(before, n - 1);
      }
    }
  }

  // Long enough for any pacing to be over.
  function WaitFor(worker: Worker, clock: Instant): nat {
    Max(0, worker.lastFinish + worker.config.sendIntervalMs - clock)
  }

  // Allow j's group, wait until worker w has paced, and cancel every other job.
  function MakeWay(s: System, w: nat, j: nat): seq<Step>
    requires j < |s.jobs| && w in s.workers
  {
    Allow(s.jobs[j].destination) + [Tick(WaitFor(s.workers[w], s.clock))] + CancelOthers(j, |s.jobs|)
  }

  lemma MakeWayWorks(s: System, w: nat, j: nat)
    requires j < |s.jobs| && w in s.workers
    ensures var after := Run(s, MakeWay(s, w, j));
      && Prepared(s, after, j) && Sendable(after.dests, s.jobs[j].destination)
      && Paced(s.workers[w], after.clock) && OnlyQueued(after.jobs, j, |s.jobs|)
    ensures AllPreparation(MakeWay(s, w, j), j)
  {
    hide Run, Apply, CancelOthers, Allow, OnlyQueued;
    var jid, wait := s.jobs[j].destination, Tick(WaitFor(s.workers[w], s.clock));
    AllowWorks(s, j);
    var allowed := Run(s, Allow(jid));
    RunExtend(s, Allow(jid), wait);
    Waited(allowed, wait.ms);
    var waited := Apply(allowed, wait);
    CancelOthersWorks(waited, j, |s.jobs|);
    RunConcat(s, Allow(jid) + [wait], CancelOthers(j, |s.jobs|));
  }

  lemma Waited(s: System, ms: nat)
    ensures Apply(s, Tick(ms)) == s.(clock := s.clock + ms)
  {
  }

  // ----- The first steps from an empty queue -----

  const GROUP := Jid("120363", GroupServer)

  const LIVE_CONFIG := Config(false, 100, 1000, 0)

  const GROUP_FOUND := Discovered(GROUP, "group", None)

  // A message for the group, at once or at an instant of its own.
  function Message(at: Instant, status: Status): NewJob {
    NewJob(GROUP, false, at, status, 3, IdempotencyKey(GROUP, Text, "hello", None, None, None, "", None, false),
           None, false, None)
  }

  function Beginning(clock: Instant): System { System([], map[], Pause(None, None), clock, map[], {}, []) }

  function Known(clock: Instant): System {
    Beginning(clock).(dests := map[GROUP := Destination("group", None, false, true)])
  }

  function Allowed(clock: Instant): System {
    Beginning(clock).(dests := map[GROUP := Destination("group", None, true, true)])
  }

  function QueuedOne(clock: Instant, job: NewJob): System {
    Allowed(clock).(jobs := [FreshRow(job)], trace := [Created(0)])
  }

  // The live daemon, connected and past its look at the pause keys.
  function StartedOne(clock: Instant, job: NewJob): System {
    QueuedOne(clock, job).(
      workers := map[0 := Worker(LIVE_CONFIG, false, 0, Idle, Checked(clock))],
      trace := [Created(0), WorkerStarted(0, 0)])
  }

  // A live daemon starts, connects, and looks at the pause keys.
  function ComesUp(config: Config): seq<Step> { [StartDaemon(config), ConnectionOpened, CheckPause(0)] }

  lemma Connects(s: System)
    requires 0 in s.workers && s.workers[0].gate.Connecting?
    ensures Apply(s, ConnectionOpened)
      == s.(pause := Pause(None, None), workers := s.workers[0 := s.workers[0].(gate := Ready)])
  {
  }

  lemma Checks(s: System)
    requires 0 in s.workers && s.workers[0].hold.Idle? && s.workers[0].gate.Ready? && !s.workers[0].stopping
    requires s.pause == Pause(None, None)
    ensures Apply(s, CheckPause(0)) == s.(workers := s.workers[0 := s.workers[0].(gate := Checked(s.clock))])
  {
  }

  lemma DaemonComesUp(s: System, config: Config)
    requires 0 !in s.workers && !config.dryRun
    ensures Run(s, ComesUp(config)) ==
      s.(jobs := Recovered(s.jobs), pause := Pause(None, None),
         workers := s.workers[0 := Worker(config, false, 0, Idle, Checked(s.clock))],
         trace := s.trace + [WorkerStarted(0, config.sendIntervalMs)])
  {
    hide Recovered, Run;
    var started := Apply(s, StartDaemon(config));
    var connected := Apply(started, ConnectionOpened);
    var checked := Apply(connected, CheckPause(0));
    Connects(started);
    Checks(connected);
    hide Apply;
    ThreeSteps(s, StartDaemon(config), ConnectionOpened, CheckPause(0), started, connected, checked);
  }

  function FirstSteps(job: NewJob): seq<Step> {
    [Refresh([GROUP_FOUND]), SetEnabled(GROUP, true), Create(job)] + ComesUp(LIVE_CONFIG)
  }

  lemma GroupFound(clock: Instant)
    ensures Apply(Beginning(clock), Refresh([GROUP_FOUND])) == Known(clock)
    ensures Apply(Known(clock), SetEnabled(GROUP, true)) == Allowed(clock)
  {
    OneUpsert(map[], GROUP_FOUND);
    assert UpsertOne(map[], GROUP_FOUND) == Known(clock).dests;
    assert UnsendableCancelled([], Known(clock).dests) == [];
  }

  lemma JobTaken(clock: Instant, job: NewJob)
    requires NewJobOk(job) && job.destination == GROUP && 0 < job.maxAttempts
    requires job.status.Pending? ==> job.scheduledAt <= clock
    ensures Apply(Allowed(clock), Create(job)) == QueuedOne(clock, job)
  {
    var allowed, queued := Allowed(clock), QueuedOne(clock, job);
    assert allowed.jobs + [FreshRow(job)] == queued.jobs && allowed.trace + [Created(0)] == queued.trace;
    assert !Conflicts(allowed.jobs, job.key, -1);
  }

  lemma DaemonReady(clock: Instant, job: NewJob)
    requires NewJobOk(job)
    ensures Run(QueuedOne(clock, job), ComesUp(LIVE_CONFIG)) == StartedOne(clock, job)
  {
    var queued := QueuedOne(clock, job);
    assert Recovered(queued.jobs) == queued.jobs;
    assert queued.trace + [WorkerStarted(0, 0)] == [Created(0), WorkerStarted(0, 0)];
    DaemonComesUp(queued, LIVE_CONFIG);
    hide Run, ComesUp;
  }

  // One allowed group, one job, and an idle live daemon.
  lemma DaemonStarted(clock: Instant, job: NewJob)
    requires NewJobOk(job) && job.destination == GROUP && 0 < job.maxAttempts
    requires job.status.Pending? ==> job.scheduledAt <= clock
    ensures Run(Beginning(clock), FirstSteps(job)) == StartedOne(clock, job)
  {
    GroupFound(clock);
    JobTaken(clock, job);
    DaemonReady(clock, job);
    hide Apply, Run;
    var steps := [Refresh([GROUP_FOUND]), SetEnabled(GROUP, true), Create(job)];
    ThreeSteps(Beginning(clock), steps[0], steps[1], steps[2], Known(clock), Allowed(clock), QueuedOne(clock, job));
    RunConcat(Beginning(clock), steps, ComesUp(LIVE_CONFIG));
  }

  // ----- A message with a key of its own -----

  // A nonce larger than every one in use.
  function FreshNonce(jobs: seq<Job>): nat {
    if jobs == [] then 0
    else
      var last, rest := jobs[|jobs| - 1].key.forceNonce, FreshNonce(jobs[..|jobs| - 1]);
      if last.Some? && rest <= last.value then last.value + 1 else rest
  }

  lemma {:induction false} FreshNonceIsFresh(jobs: seq<Job>)
    ensures forall i :: 0 <= i < |jobs| && jobs[i].key.forceNonce.Some? ==>
      jobs[i].key.forceNonce.value < FreshNonce(jobs)
  {
    if jobs != [] {
      FreshNonceIsFresh(jobs[..|jobs| - 1]);
    }
  }

  // Another message for the group, forced.
  function NewMessage(s: System): NewJob {
    var job := Message(s.clock, Pending);
    job.(key := job.key.(forceNonce := Some(FreshNonce(s.jobs))))
  }

  lemma NewMessageIsNew(s: System)
    ensures !Conflicts(s.jobs, NewMessage(s).key, -1) && NewJobOk(NewMessage(s))
  {
    FreshNonceIsFresh(s.jobs);
  }
}
