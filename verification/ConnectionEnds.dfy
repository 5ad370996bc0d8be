/**
 * What is left of a connection after it is stopped or closed for good: when a stopped manager can
 * still get a socket, when it can never connect again, and when a final close is followed by
 * another reconnect attempt.
 */
module ConnectionEnds {
  import opened Prelude
  import opened Connection

  lemma Then(start: Manager, steps: seq<Step>, mid: Manager, step: Step) returns (after: Manager)
    requires Run(start, steps) == mid
    ensures after == Apply(mid, step) && Run(start, steps + [step]) == after
  {
    RunExtend(start, steps, step);
    after := Apply(mid, step);
  }

  // ----- What the connection writes to the pause reason -----

  // Of the manager's own writes, only those for the current socket touch the pause reason, and
  // only an open connection removes it. The worker writes the same key: see module Blocking.
  lemma OnlyCurrentSocketBlocks(m: Manager, step: Step)
    ensures Apply(m, step).blocked != m.blocked ==>
      && step.Deliver? && step.socket < |m.book.sockets|
      && m.book.sockets[step.socket].generation == m.book.generation
      && (step.update.Opened? <==> Apply(m, step).blocked == NotBlocked)
  {
    hide Answer;
  }

  // Without an open connection the manager itself never removes the reason, however often it
  // reconnects.
  lemma {:induction false} OwnWritesKeepTheBlock(m: Manager, steps: seq<Step>)
    requires m.blocked != NotBlocked
    requires forall i :: 0 <= i < |steps| && steps[i].Deliver? ==> !steps[i].update.Opened?
    ensures Run(m, steps).blocked != NotBlocked
  {
    if steps != [] {
      var n := |steps| - 1;
      OwnWritesKeepTheBlock(m, steps[..n]);
      OnlyCurrentSocketBlocks(Run(m, steps[..n]), steps[n]);
    }
  }

  // ----- Which tasks can still end a connect call -----

  // Every task refers to a socket that exists, and nothing is newer than the generation.
  ghost predicate BookOk(book: Book) {
    && (forall k :: 0 <= k < |book.sockets| ==> book.sockets[k].generation <= book.generation)
    && (forall task :: task in book.tasks && task.Build? ==>
          && task.generation <= book.generation
          && (task.parent.Some? ==> task.parent.value < |book.sockets|))
    && (forall task :: task in book.tasks && task.Resume? ==> task.socket < |book.sockets|)
  }

  lemma StepKeepsBook(m: Manager, step: Step)
    requires BookOk(m.book)
    ensures BookOk(Apply(m, step).book)
  {
    hide Answer;
    if step.RunTask? && step.task in m.book.tasks {
      var rest := Done(m.book, step.task);
      if step.task.Build? && step.task.parent.Some? {
        AnswerFrame(rest, step.task.parent.value, false);
      } else if step.task.Resume? {
        AnswerFrame(rest, step.task.socket, false);
      }
    } else if step.Deliver? && step.socket < |m.book.sockets| {
      AnswerFrame(Settle(m.book, step.socket), step.socket, step.update.Opened?);
    }
  }

  lemma {:induction false} RunKeepsBook(m: Manager, steps: seq<Step>)
    requires BookOk(m.book)
    ensures BookOk(Run(m, steps).book)
  {
    if steps != [] {
      RunKeepsBook(m, steps[..|steps| - 1]);
      StepKeepsBook(Run(m, steps[..|steps| - 1]), steps[|steps| - 1]);
    }
  }

  // Settling the promise of socket k settles a whole connect call: nothing on the way up is settled.
  predicate Roots(sockets: seq<Socket>, k: nat)
    decreases k
  {
    && k < |sockets| && !sockets[k].answered
    && (sockets[k].parent.None? || (sockets[k].parent.value < k && Roots(sockets, sockets[k].parent.value)))
  }

  // The task can end its connect call with a failure.
  predicate CanFail(book: Book, task: Task) {
    match task
    case Finish(_, good) => !good
    case Build(_, _, _, parent) => parent.None? || Roots(book.sockets, parent.value)
    case Resume(k) => Roots(book.sockets, k)
  }

  predicate CanEnd(book: Book, task: Task) { CanFail(book, task) || task.Finish? }

  ghost predicate SomeCanFail(book: Book) { exists task :: task in book.tasks && CanFail(book, task) }

  ghost predicate SomeCanEnd(book: Book) { exists task :: task in book.tasks && CanEnd(book, task) }

  // Roots looks only at older sockets, and only at their promises.
  lemma {:induction false} RootsLocal(sockets: seq<Socket>, others: seq<Socket>, k: nat)
    requires k < |sockets| <= |others|
    requires forall i :: 0 <= i <= k ==>
      others[i].answered == sockets[i].answered && others[i].parent == sockets[i].parent
    ensures Roots(others, k) == Roots(sockets, k)
    decreases k
  {
    if sockets[k].parent.Some? && sockets[k].parent.value < k {
      RootsLocal(sockets, others, sockets[k].parent.value);
    }
  }

  // Settling a socket that does not root changes nobody else's root.
  lemma {:induction false} MarkKeepsRoots(sockets: seq<Socket>, k: nat, x: nat)
    requires k < |sockets| && !Roots(sockets, k)
    ensures Roots(sockets[k := sockets[k].(answered := true)], x) == Roots(sockets, x)
    decreases x
  {
    if x < |sockets| && sockets[x].parent.Some? && sockets[x].parent.value < x {
      MarkKeepsRoots(sockets, k, sockets[x].parent.value);
    }
  }

  // A promise that does not root settles without ending a connect call.
  lemma {:induction false} AnswerWithoutRoot(book: Book, k: nat, ok: bool)
    requires !Roots(book.sockets, k)
    ensures Answer(book, k, ok).tasks == book.tasks && |Answer(book, k, ok).sockets| == |book.sockets|
    ensures forall x: nat :: Roots(Answer(book, k, ok).sockets, x) == Roots(book.sockets, x)
    decreases k
  {
    if k < |book.sockets| && !book.sockets[k].answered && book.sockets[k].parent.Some? {
      var marked := book.(sockets := book.sockets[k := book.sockets[k].(answered := true)]);
      forall x: nat ensures Roots(marked.sockets, x) == Roots(book.sockets, x) {
        MarkKeepsRoots(book.sockets, k, x);
      }
      if book.sockets[k].parent.value < k {
        AnswerWithoutRoot(marked, book.sockets[k].parent.value, ok);
      }
    }
  }

  // A promise that roots ends its connect call.
  lemma {:induction false} AnswerWithRoot(book: Book, k: nat, ok: bool) returns (chain: nat)
    requires Roots(book.sockets, k)
    ensures Finish(chain, ok) in Answer(book, k, ok).tasks
    decreases k
  {
    var parent := book.sockets[k].parent;
    if parent.None? {
      chain := book.sockets[k].chain;
    } else {
      var marked := book.(sockets := book.sockets[k := book.sockets[k].(answered := true)]);
      RootsLocal(book.sockets, marked.sockets, parent.value);
      chain := AnswerWithRoot(marked, parent.value, ok);
    }
  }

  // A new socket is nobody's root.
  lemma AddedSocketKeepsTask(book: Book, task: Task, other: Task)
    requires BookOk(book) && task.Build? && other in book.tasks
    ensures CanFail(AddSocket(book, task), other) == CanFail(book, other)
  {
    if other.Build? && other.parent.Some? {
      RootsLocal(book.sockets, AddSocket(book, task).sockets, other.parent.value);
    } else if other.Resume? {
      RootsLocal(book.sockets, AddSocket(book, task).sockets, other.socket);
    }
  }

  // When no task can fail, running one that is not a Finish leaves none that can.
  lemma HopelessTask(m: Manager, task: Task, ok: bool)
    requires BookOk(m.book) && !SomeCanFail(m.book) && task in m.book.tasks && !task.Finish?
    ensures !SomeCanFail(ApplyTask(m, task, ok).book)
    ensures forall other: Task :: other in ApplyTask(m, task, ok).book.tasks && other.Finish? ==> other in m.book.tasks
  {
    var rest := Done(m.book, task);
    var after := ApplyTask(m, task, ok).book;
    assert !CanFail(m.book, task);
    assert forall other :: other in rest.tasks ==> !CanFail(m.book, other);
    if task.Build? && ok {
      forall other | other in after.tasks ensures !CanFail(after, other) {
        AddedSocketKeepsTask(rest, task, other);
      }
    } else if task.Build? {
      AnswerWithoutRoot(rest, task.parent.value, false);
    } else if m.stopped {
      AnswerWithoutRoot(rest, task.socket, false);
    }
  }

  // ----- A stopped manager's socket -----

  ghost predicate HasBuild(book: Book) { exists task :: task in book.tasks && task.Build? }

  predicate NoConnect(steps: seq<Step>) {
    forall i :: 0 <= i < |steps| ==> !steps[i].Connect?
  }

  ghost predicate AtRest(m: Manager) {
    TimersOk(m) && m.stopped && !HasBuild(m.book) && m.link.socket.None?
  }

  lemma StaysAtRest(m: Manager, step: Step)
    requires AtRest(m) && !step.Connect?
    ensures AtRest(Apply(m, step))
  {
    hide Answer;
    if step.RunTask? && step.task in m.book.tasks {
      AnswerFrame(Done(m.book, step.task), if step.task.Resume? then step.task.socket else 0, false);
    } else if step.Deliver? && step.socket < |m.book.sockets| {
      AnswerFrame(Settle(m.book, step.socket), step.socket, step.update.Opened?);
    }
  }

  lemma {:induction false} RunStaysAtRest(m: Manager, steps: seq<Step>)
    requires AtRest(m) && NoConnect(steps)
    ensures AtRest(Run(m, steps))
  {
    if steps != [] {
      RunStaysAtRest(m, steps[..|steps| - 1]);
      StaysAtRest(Run(m, steps[..|steps| - 1]), steps[|steps| - 1]);
    }
  }

  // After a stop, and without another connect, the manager never gets a socket again exactly when
  // no createSocket was waiting at that moment.
  lemma StopIsFinalExactlyWithoutBuild(m: Manager)
    requires TimersOk(m)
    ensures (forall steps :: NoConnect(steps) ==> Run(Apply(m, Disconnect), steps).link.socket.None?)
      <==> !HasBuild(m.book)
  {
    var stopped := Apply(m, Disconnect);
    if HasBuild(m.book) {
      var task :| task in m.book.tasks && task.Build?;
      var late := RunTask(task, true);
      assert Run(stopped, []) == stopped;
      var after := Then(stopped, [], stopped, late);
      assert [] + [late] == [late] && NoConnect([late]);
      assert Run(stopped, [late]).link.socket.Some?;
    } else {
      forall steps | NoConnect(steps) ensures Run(stopped, steps).link.socket.None? {
        RunStaysAtRest(stopped, steps);
      }
    }
  }

  const STOP_WHILE_CONNECTING := [Connect, Disconnect, RunTask(Build(1, 0, 0, None), true)]

  // A stop during the await of createSocket: the socket is installed afterwards all the same,
  // nothing it reports is ever heard, and no later connect opens another.
  lemma StopWhileConnecting(later: seq<Step>, update: Update)
    ensures var m := Run(START, STOP_WHILE_CONNECTING);
      && m.stopped && m.link.socket == Some(0)
      && Apply(Run(m, later), Deliver(0, update)) == Run(m, later)
      && Run(m, later).connecting && Apply(Run(m, later), Connect) == Run(m, later)
  {
    var m := Then(START, [], START, Connect);
    m := Then(START, [Connect], m, Disconnect);
    m := Then(START, [Connect] + [Disconnect], m, RunTask(Build(1, 0, 0, None), true));
    assert [Connect] + [Disconnect] + [RunTask(Build(1, 0, 0, None), true)] == STOP_WHILE_CONNECTING;
    OldSocketsAreDeaf(m, later, 0, update);
    StopDuringBuildWedges(Apply(START, Connect), Build(1, 0, 0, None), later);
  }

  // ----- A manager that can never connect again -----

  // A connect call is pending that nothing can end any more.
  ghost predicate Wedged(m: Manager) {
    && m.connecting && m.stopped && BookOk(m.book) && !SomeCanEnd(m.book)
    && (forall k :: 0 <= k < |m.book.sockets| ==> m.book.sockets[k].generation < m.book.generation)
    && (forall task :: task in m.book.tasks && task.Build? ==> task.generation < m.book.generation)
  }

  lemma StaysWedged(m: Manager, step: Step)
    requires Wedged(m)
    ensures Wedged(Apply(m, step)) && Apply(m, step).book.chains == m.book.chains
  {
    StepKeepsBook(m, step);
    if step.RunTask? && step.task in m.book.tasks {
      assert !CanEnd(m.book, step.task);
      WedgedTask(m, step.task, step.ok);
    }
  }

  lemma WedgedTask(m: Manager, task: Task, ok: bool)
    requires Wedged(m) && task in m.book.tasks
    ensures var after := ApplyTask(m, task, ok);
      && after.connecting && after.stopped && !SomeCanEnd(after.book)
      && after.book.chains == m.book.chains && after.book.generation == m.book.generation
      && (forall k :: 0 <= k < |after.book.sockets| ==> after.book.sockets[k].generation < after.book.generation)
      && (forall other :: other in after.book.tasks && other.Build? ==> other.generation < after.book.generation)
  {
    assert !CanEnd(m.book, task);
    assert forall other :: other in m.book.tasks ==> !CanEnd(m.book, other);
    assert !SomeCanFail(m.book);
    HopelessTask(m, task, ok);
    var rest := Done(m.book, task);
    var k := if task.Resume? then task.socket else if task.Build? && task.parent.Some? then task.parent.value else 0;
    AnswerFrame(rest, k, false);
    hide Answer, SomeCanFail, CanFail, Roots;
  }

  lemma {:induction false} RunStaysWedged(m: Manager, steps: seq<Step>)
    requires Wedged(m)
    ensures Wedged(Run(m, steps)) && Run(m, steps).book.chains == m.book.chains
  {
    if steps != [] {
      RunStaysWedged(m, steps[..|steps| - 1]);
      StaysWedged(Run(m, steps[..|steps| - 1]), steps[|steps| - 1]);
    }
  }

  // A pending connect call that some task can end is ended by running it.
  lemma TaskEndsConnect(m: Manager, task: Task) returns (steps: seq<Step>)
    requires BookOk(m.book) && m.stopped && task in m.book.tasks && CanEnd(m.book, task)
    ensures !Run(m, steps).connecting
  {
    var first := RunTask(task, false);
    assert Run(m, []) == m;
    var after := Then(m, [], m, first);
    assert [] + [first] == [first];
    steps := [first];
    if !task.Finish? {
      var rest := Done(m.book, task);
      var chain: nat;
      if task.Resume? {
        chain := AnswerWithRoot(rest, task.socket, false);
      } else if task.parent.Some? {
        chain := AnswerWithRoot(rest, task.parent.value, false);
      } else {
        chain := task.chain;
      }
      assert Finish(chain, false) in after.book.tasks;
      var last := Then(m, [first], after, RunTask(Finish(chain, false), true));
      steps := [first] + [RunTask(Finish(chain, false), true)];
    }
  }

  // A stop leaves the manager unable ever to connect again exactly when a connect call is pending
  // that no pending task can end: `connecting` then stays true, and every later connect waits for
  // a promise that never settles.
  lemma StopWedgesExactlyWhen(m: Manager)
    requires BookOk(m.book)
    ensures (forall steps :: Run(Apply(m, Disconnect), steps).connecting)
      <==> m.connecting && !SomeCanEnd(m.book)
  {
    var stopped := Apply(m, Disconnect);
    StepKeepsBook(m, Disconnect);
    StopKeepsTasks(m);
    hide Run, SomeCanEnd, Apply;
    if m.connecting && !SomeCanEnd(m.book) {
      forall steps ensures Run(stopped, steps).connecting {
        RunStaysWedged(stopped, steps);
      }
    } else if m.connecting {
      var steps := SomeTaskEndsConnect(stopped);
      assert !Run(stopped, steps).connecting;
    } else {
      var steps := NotConnecting(stopped);
      assert !Run(stopped, steps).connecting;
    }
  }

  lemma NotConnecting(m: Manager) returns (steps: seq<Step>)
    requires !m.connecting
    ensures !Run(m, steps).connecting
  {
    steps := [];
    assert Run(m, steps) == m;
  }

  lemma StopKeepsTasks(m: Manager)
    requires BookOk(m.book)
    ensures var stopped := Apply(m, Disconnect);
      && stopped.stopped && stopped.connecting == m.connecting
      && SomeCanEnd(stopped.book) == SomeCanEnd(m.book)
      && (m.connecting && !SomeCanEnd(m.book) ==> Wedged(stopped))
  {
    var stopped := Apply(m, Disconnect);
    StepKeepsBook(m, Disconnect);
    assert forall task :: CanEnd(stopped.book, task) == CanEnd(m.book, task);
  }

  lemma SomeTaskEndsConnect(m: Manager) returns (steps: seq<Step>)
    requires BookOk(m.book) && m.stopped && SomeCanEnd(m.book)
    ensures !Run(m, steps).connecting
  {
    var task :| task in m.book.tasks && CanEnd(m.book, task);
    steps := TaskEndsConnect(m, task);
  }

  // A stop during the await of a connect's createSocket, which then succeeds, has that end.
  lemma StopDuringBuildWedges(m: Manager, task: Task, later: seq<Step>)
    requires BookOk(m.book) && m.connecting && task in m.book.tasks && task.Build?
    requires forall other :: other in m.book.tasks && other != task ==> !CanEnd(m.book, other)
    ensures var after := Run(Apply(Apply(m, Disconnect), RunTask(task, true)), later);
      after.connecting && Apply(after, Connect) == after && after.book.chains == m.book.chains
  {
    var stopped := Apply(m, Disconnect);
    var built := Apply(stopped, RunTask(task, true));
    StepKeepsBook(m, Disconnect);
    StepKeepsBook(stopped, RunTask(task, true));
    var rest := Done(stopped.book, task);
    forall other | other in rest.tasks ensures !CanEnd(built.book, other) {
      assert !CanEnd(m.book, other);
      AddedSocketKeepsTask(rest, task, other);
    }
    RunStaysWedged(built, later);
    var after := Run(built, later);
    assert !Ready(after) || after.connecting;
  }

  // ----- When a final close is followed by another attempt -----

  // Steps without another connect and without further news from any socket.
  predicate Undisturbed(steps: seq<Step>) {
    forall i :: 0 <= i < |steps| ==> !steps[i].Connect? && !steps[i].Deliver?
  }

  lemma UndisturbedThen(steps: seq<Step>, step: Step)
    requires Undisturbed(steps) && !step.Connect? && !step.Deliver?
    ensures Undisturbed(steps + [step])
  {
  }

  // The reconnect timer is armed, or can still come to be.
  ghost predicate CanRearm(m: Manager) {
    m.timers.field
    || (!m.stopped && (m.timers.retries > 0 || (m.timers.waiting > 0 && SomeCanFail(m.book))))
  }

  lemma StaysUnarmed(m: Manager, step: Step)
    requires TimersOk(m) && BookOk(m.book) && !CanRearm(m) && !step.Connect? && !step.Deliver?
    ensures !CanRearm(Apply(m, step))
  {
    if step.RunTask? && step.task in m.book.tasks {
      if m.timers.waiting > 0 && !m.stopped {
        assert !CanFail(m.book, step.task);
        if !step.task.Finish? {
          HopelessTask(m, step.task, step.ok);
        }
      }
      TaskKeepsTimers(m, step.task, step.ok);
    }
  }

  lemma TaskKeepsTimers(m: Manager, task: Task, ok: bool)
    requires task in m.book.tasks
    ensures var after := ApplyTask(m, task, ok);
      && after.stopped == m.stopped && after.timers.field == m.timers.field
      && (!task.Finish? ==> after.timers == m.timers)
      && (task.Finish? ==>
            && after.timers.waiting == 0
            && after.timers.retries == m.timers.retries + if task.good then 0 else m.timers.waiting)
  {
    hide Answer;
  }

  lemma {:induction false} RunStaysUnarmed(m: Manager, steps: seq<Step>)
    requires TimersOk(m) && LinkOk(m.link) && BookOk(m.book) && !CanRearm(m) && Undisturbed(steps)
    ensures !CanRearm(Run(m, steps))
  {
    if steps != [] {
      var n := |steps| - 1;
      RunStaysUnarmed(m, steps[..n]);
      RunKeepsTimers(m, steps[..n]);
      RunKeepsBook(m, steps[..n]);
      StaysUnarmed(Run(m, steps[..n]), steps[n]);
    }
  }

  lemma {:induction false} RunKeepsTimers(m: Manager, steps: seq<Step>)
    requires TimersOk(m) && LinkOk(m.link)
    ensures TimersOk(Run(m, steps)) && LinkOk(Run(m, steps).link)
  {
    if steps != [] {
      RunKeepsTimers(m, steps[..|steps| - 1]);
      StepKeepsTimers(Run(m, steps[..|steps| - 1]), steps[|steps| - 1]);
    }
  }

  // Every manager the program can reach meets what the results of this module ask for.
  lemma ReachedManagersAreOk(steps: seq<Step>)
    ensures var m := Run(START, steps); TimersOk(m) && LinkOk(m.link) && BookOk(m.book)
  {
    RunKeepsTimers(START, steps);
    RunKeepsBook(START, steps);
  }

  // A createSocket that fails.
  lemma BuildFails(m: Manager, task: Task) returns (chain: nat)
    requires task in m.book.tasks && task.Build? && CanFail(m.book, task)
    ensures var after := Apply(m, RunTask(task, false));
      Finish(chain, false) in after.book.tasks && after.stopped == m.stopped && after.timers == m.timers
  {
    var rest := Done(m.book, task);
    TaskKeepsTimers(m, task, false);
    if task.parent.Some? {
      chain := AnswerWithRoot(rest, task.parent.value, false);
    } else {
      chain := task.chain;
    }
    hide Answer;
  }

  // A failing task is brought to its Finish.
  lemma FailureFinishes(m: Manager, task: Task) returns (steps: seq<Step>, chain: nat)
    requires BookOk(m.book) && !m.stopped && task in m.book.tasks && CanFail(m.book, task)
    ensures Undisturbed(steps)
    ensures var after := Run(m, steps);
      Finish(chain, false) in after.book.tasks && after.stopped == m.stopped && after.timers == m.timers
  {
    steps := [];
    assert Run(m, steps) == m;
    hide Run, Apply, Answer, Roots, CanFail, Undisturbed;
    assert Undisturbed(steps) by { NothingDisturbs(); }
    if task.Finish? {
      chain := task.chain;
      FailingFinish(m, task);
    } else if task.Build? {
      chain := BuildFails(m, task);
      var after := Then(m, steps, m, RunTask(task, false));
      UndisturbedThen(steps, RunTask(task, false));
      steps := steps + [RunTask(task, false)];
    } else {
      var build := ResumedBuild(m, task);
      var after := Then(m, steps, m, RunTask(task, false));
      UndisturbedThen(steps, RunTask(task, false));
      steps := steps + [RunTask(task, false)];
      chain := BuildFails(after, build);
      var last := Then(m, steps, after, RunTask(build, false));
      UndisturbedThen(steps, RunTask(build, false));
      steps := steps + [RunTask(build, false)];
    }
  }

  lemma NothingDisturbs()
    ensures Undisturbed([])
  {
  }

  lemma FailingFinish(m: Manager, task: Task)
    requires task in m.book.tasks && task.Finish? && CanFail(m.book, task)
    ensures Finish(task.chain, false) in m.book.tasks
  {
  }

  // A protocol restart that can fail leads to a createSocket that can.
  lemma ResumedBuild(m: Manager, task: Task) returns (build: Task)
    requires !m.stopped && task in m.book.tasks && task.Resume? && CanFail(m.book, task)
    ensures var after := Apply(m, RunTask(task, false));
      && build in after.book.tasks && build.Build? && CanFail(after.book, build)
      && after.stopped == m.stopped && after.timers == m.timers
  {
    var socket := m.book.sockets[task.socket];
    build := Build(m.book.generation + 1, socket.chain, socket.restarts + 1, Some(task.socket));
  }

  lemma RetryArms(m: Manager)
    requires !m.stopped && m.timers.retries > 0
    ensures Apply(m, Retry).timers.field
  {
  }

  lemma FailedWaitIsRetried(m: Manager, chain: nat)
    requires Finish(chain, false) in m.book.tasks && m.timers.waiting > 0
    ensures var after := Apply(m, RunTask(Finish(chain, false), true));
      after.timers.retries > 0 && after.stopped == m.stopped
  {
  }

  lemma RearmHappens(m: Manager) returns (steps: seq<Step>)
    requires TimersOk(m) && BookOk(m.book) && CanRearm(m)
    ensures Undisturbed(steps) && Run(m, steps).timers.field
  {
    steps := [];
    assert Run(m, steps) == m;
    NothingDisturbs();
    hide Run, Apply, Answer, Roots, CanFail, Undisturbed;
    if m.timers.field {
      return;
    }
    if m.timers.retries == 0 {
      var task :| task in m.book.tasks && CanFail(m.book, task);
      var chain;
      steps, chain := FailureFinishes(m, task);
      FailedWaitIsRetried(Run(m, steps), chain);
      var finished := Then(m, steps, Run(m, steps), RunTask(Finish(chain, false), true));
      UndisturbedThen(steps, RunTask(Finish(chain, false), true));
      steps := steps + [RunTask(Finish(chain, false), true)];
    }
    RetryArms(Run(m, steps));
    var last := Then(m, steps, Run(m, steps), Retry);
    UndisturbedThen(steps, Retry);
    steps := steps + [Retry];
  }

  // Left undisturbed, the timer comes to be armed exactly when it is, or the manager is not
  // stopped and a rejected timer callback is left to retry, or one waits for a connect call that
  // can still fail.
  lemma RearmsExactlyWhen(m: Manager)
    requires TimersOk(m) && LinkOk(m.link) && BookOk(m.book)
    ensures (exists steps :: Undisturbed(steps) && Run(m, steps).timers.field) <==> CanRearm(m)
  {
    if CanRearm(m) {
      var steps := RearmHappens(m);
      assert Undisturbed(steps) && Run(m, steps).timers.field;
    } else {
      forall steps | Undisturbed(steps) ensures !Run(m, steps).timers.field {
        RunStaysUnarmed(m, steps);
      }
    }
  }

  // The book after a close for good of socket k.
  lemma FinalCloseBook(m: Manager, k: nat, reason: Closing)
    requires BookOk(m.book) && k < |m.book.sockets| && m.book.sockets[k].generation == m.book.generation
    requires reason.ClosedLoggedOut? || reason.ClosedFatal?
    ensures var after := Apply(m, Deliver(k, Closed(reason)));
      && after.stopped == m.stopped && after.timers == m.timers
      && (SomeCanFail(after.book)
          <==> SomeCanFail(m.book) || (!m.book.sockets[k].settled && Roots(m.book.sockets, k)))
  {
    var settled := Settle(m.book, k);
    var after := Apply(m, Deliver(k, Closed(reason)));
    forall x: nat ensures Roots(settled.sockets, x) == Roots(m.book.sockets, x) {
      if x < |m.book.sockets| {
        RootsLocal(m.book.sockets, settled.sockets, x);
      }
    }
    if m.book.sockets[k].settled {
      assert after.book == m.book;
    } else if Roots(m.book.sockets, k) {
      var chain := AnswerWithRoot(settled, k, false);
      assert Finish(chain, false) in after.book.tasks && CanFail(after.book, Finish(chain, false));
    } else {
      AnswerWithoutRoot(settled, k, false);
      assert forall task :: CanFail(after.book, task) == CanFail(m.book, task);
    }
  }

  // A close of the current socket for a fatal reason or a logout is followed, with no connect and
  // no further news, by an armed reconnect timer exactly when the timer is armed already, or the
  // manager is not stopped and a rejected timer callback is left, or one waits for a connect call
  // that this close or a pending task fails. The pause it sets stays all the while.
  lemma FinalCloseRearmsExactlyWhen(m: Manager, k: nat, reason: Closing)
    requires TimersOk(m) && LinkOk(m.link) && BookOk(m.book)
    requires k < |m.book.sockets| && m.book.sockets[k].generation == m.book.generation
    requires reason.ClosedLoggedOut? || reason.ClosedFatal?
    ensures var after := Apply(m, Deliver(k, Closed(reason)));
      && after.blocked != NotBlocked
      && ((exists steps :: Undisturbed(steps) && Run(after, steps).timers.field)
          <==> || m.timers.field
               || (!m.stopped
                   && (|| m.timers.retries > 0
                       || (m.timers.waiting > 0
                           && (SomeCanFail(m.book)
                               || (!m.book.sockets[k].settled && Roots(m.book.sockets, k)))))))
  {
    var close := Deliver(k, Closed(reason));
    StepKeepsTimers(m, close);
    StepKeepsBook(m, close);
    FinalCloseBook(m, k, reason);
    RearmsExactlyWhen(Apply(m, close));
    OnlyBlocks(m, k, reason);
    hide Run, Apply, SomeCanFail, Roots, Undisturbed;
  }

  lemma OnlyBlocks(m: Manager, k: nat, reason: Closing)
    requires k < |m.book.sockets| && m.book.sockets[k].generation == m.book.generation
    requires reason.ClosedLoggedOut? || reason.ClosedFatal?
    ensures Apply(m, Deliver(k, Closed(reason))).blocked != NotBlocked
  {
    hide Answer;
  }

  // A manager whose reconnect attempt is under way, its new socket not yet open.
  predicate Reattempting(m: Manager, k: nat) {
    && !m.stopped && !m.timers.field && m.connecting && m.timers.waiting == 1 && m.timers.retries == 0
    && k < |m.book.sockets| && m.book.sockets[k].generation == m.book.generation
    && !m.book.sockets[k].settled && !m.book.sockets[k].answered && m.book.sockets[k].parent.None?
  }

  // Such an attempt meets the condition.
  lemma ReattemptIsRetried(m: Manager, k: nat, reason: Closing)
    requires TimersOk(m) && LinkOk(m.link) && BookOk(m.book) && Reattempting(m, k)
    requires reason.ClosedLoggedOut? || reason.ClosedFatal?
    ensures var after := Apply(m, Deliver(k, Closed(reason)));
      exists steps :: Undisturbed(steps) && Run(after, steps).timers.field
  {
    FinalCloseRearmsExactlyWhen(m, k, reason);
  }

  // Such an attempt is reached: connected once, lost, and the timer's new socket is not open yet.
  lemma ReattemptingHappens()
    ensures exists steps, k :: Reattempting(Run(START, steps), k)
  {
    var connect, open := [Connect], RunTask(Build(1, 0, 0, None), true);
    var m := Then(START, [], START, Connect);
    m := Then(START, connect, m, open);
    m := Then(START, connect + [open], m, Deliver(0, Opened));
    var ready := connect + [open] + [Deliver(0, Opened)];
    m := Then(START, ready, m, RunTask(Finish(0, true), true));
    m := Then(START, ready + [RunTask(Finish(0, true), true)], m, Deliver(0, Closed(ClosedOtherwise)));
    var lost := ready + [RunTask(Finish(0, true), true)] + [Deliver(0, Closed(ClosedOtherwise))];
    m := Then(START, lost, m, TimerFires);
    m := Then(START, lost + [TimerFires], m, RunTask(Build(2, 1, 0, None), true));
    assert Reattempting(m, 1);
  }
}
