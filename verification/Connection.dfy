/**
 * The connection manager's protocol: connect, reconnect timer, protocol restarts and socket
 * updates, with every await as a task that may run at any later time.
 */
module Connection {
  import opened Prelude

  datatype Phase = Connecting | Connected | Disconnected | Reconnecting | LoggedOut | Fatal

  datatype Closing = RestartRequired | ClosedLoggedOut | ClosedFatal | ClosedOtherwise

  datatype Update = Opened | Closed(reason: Closing)

  // A socket and the state its update handler closes over. `answered` says its promise is settled;
  // `parent` is the socket whose protocol restart created it.
  datatype Socket = Socket(
    generation: nat, chain: nat, restarts: nat, parent: Option<nat>, settled: bool, answered: bool)

  // Build: createSocket after its await. Resume: a protocol restart after its awaits.
  // Finish: the promise of one connect call has settled.
  datatype Task =
    | Build(generation: nat, chain: nat, restarts: nat, parent: Option<nat>)
    | Resume(socket: nat)
    | Finish(chain: nat, good: bool)

  // Every socket made so far, the tasks still to run, and how many connect calls made sockets.
  datatype Book = Book(generation: nat, chains: nat, sockets: seq<Socket>, tasks: set<Task>)

  // `field` is the manager's reconnectTimer, `armed` the timers the event loop really holds;
  // `waiting` counts timer callbacks awaiting the connection, `retries` those that were rejected.
  datatype Timers = Timers(field: bool, armed: nat, attempts: nat, waiting: nat, retries: nat)

  // The current socket, and the sockets that carry the controller's listener.
  datatype Link = Link(socket: Option<nat>, registered: bool, listening: set<nat>)

  // The reason under which the worker is paused by the connection.
  datatype Blocked = NotBlocked | BlockedLoggedOut | BlockedFatal

  datatype Manager = Manager(
    stopped: bool, phase: Phase, connecting: bool, closing: nat, blocked: Blocked,
    timers: Timers, link: Link, book: Book)

  datatype Step =
    | Connect
    | Disconnect
    | TimerFires
    | RunTask(task: Task, ok: bool)
    | Retry
    | Close
    | Deliver(socket: nat, update: Update)
    | Register
    | Unregister

  const MAX_RESTARTS: nat := 2

  // ----- Sockets and tasks -----

  function BeginSocket(book: Book, chain: nat, restarts: nat, parent: Option<nat>): Book {
    book.(generation := book.generation + 1,
          tasks := book.tasks + {Build(book.generation + 1, chain, restarts, parent)})
  }

  function BeginChain(book: Book): Book {
    BeginSocket(book.(chains := book.chains + 1), book.chains, 0, None)
  }

  function Done(book: Book, task: Task): Book { book.(tasks := book.tasks - {task}) }

  function AddSocket(book: Book, task: Task): Book
    requires task.Build?
  {
    book.(sockets := book.sockets + [Socket(task.generation, task.chain, task.restarts, task.parent, false, false)])
  }

  function Settle(book: Book, k: nat): Book
    requires k < |book.sockets|
  {
    book.(sockets := book.sockets[k := book.sockets[k].(settled := true)])
  }

  function AskRestart(book: Book, k: nat): Book
    requires k < |book.sockets|
  {
    Settle(book, k).(tasks := book.tasks + {Resume(k)})
  }

  // Settles a socket's promise, and with it those of the sockets it replaced.
  function Answer(book: Book, k: nat, ok: bool): Book
    decreases k
  {
    if k >= |book.sockets| || book.sockets[k].answered then book
    else
      var socket := book.sockets[k];
      var marked := book.(sockets := book.sockets[k := socket.(answered := true)]);
      if socket.parent.None? then marked.(tasks := marked.tasks + {Finish(socket.chain, ok)})
      else if socket.parent.value < k then Answer(marked, socket.parent.value, ok)
      else marked
  }

  function Fail(book: Book, task: Task): Book
    requires task.Build?
  {
    if task.parent.None? then book.(tasks := book.tasks + {Finish(task.chain, false)})
    else Answer(book, task.parent.value, false)
  }

  // ----- Timers and listener -----

  function Rearmed(timers: Timers): Timers {
    timers.(attempts := timers.attempts + 1, field := true, armed := timers.armed + 1)
  }

  function Cleared(timers: Timers): Timers {
    timers.(field := false, armed := if timers.field && timers.armed > 0 then timers.armed - 1 else timers.armed)
  }

  function ListeningTo(socket: Option<nat>): set<nat> {
    if socket.Some? then {socket.value} else {}
  }

  function SetSocket(link: Link, socket: Option<nat>): Link {
    link.(socket := socket, listening := if link.registered then ListeningTo(socket) else link.listening)
  }

  // ----- The manager's methods -----

  predicate Ready(m: Manager) { m.phase.Connected? && m.link.socket.Some? }

  function StartingPhase(m: Manager): Phase { if m.timers.attempts > 0 then Reconnecting else Connecting }

  function ApplyConnect(m: Manager): Manager {
    if Ready(m) || m.connecting then m
    else m.(stopped := false, connecting := true, phase := StartingPhase(m), book := BeginChain(m.book))
  }

  function ApplyDisconnect(m: Manager): Manager {
    m.(stopped := true, timers := Cleared(m.timers), link := SetSocket(m.link, None),
       book := m.book.(generation := m.book.generation + 1),
       closing := if m.link.socket.Some? then m.closing + 1 else m.closing,
       phase := if m.link.socket.Some? then m.phase else Disconnected)
  }

  function ScheduleReconnect(m: Manager): Manager {
    if m.timers.field || m.stopped then m else m.(phase := Reconnecting, timers := Rearmed(m.timers))
  }

  function ApplyTimer(m: Manager): Manager {
    if m.timers.armed == 0 then m
    else
      var fired := m.(timers := m.timers.(field := false, armed := m.timers.armed - 1));
      if Ready(m) then fired
      else ApplyConnect(fired.(timers := fired.timers.(waiting := fired.timers.waiting + 1)))
  }

  // createSocket goes on without asking whether it is still wanted.
  function Built(m: Manager, task: Task, ok: bool): Manager
    requires task.Build?
  {
    if ok
    then m.(link := SetSocket(m.link, Some(|m.book.sockets|)), book := AddSocket(m.book, task))
    else m.(book := Fail(m.book, task))
  }

  function Resumed(m: Manager, k: nat): Manager {
    if k >= |m.book.sockets| then m
    else if m.stopped then m.(book := Answer(m.book, k, false))
    else
      m.(phase := StartingPhase(m),
         book := BeginSocket(m.book, m.book.sockets[k].chain, m.book.sockets[k].restarts + 1, Some(k)))
  }

  function Finished(m: Manager, good: bool): Manager {
    m.(connecting := false,
       timers := m.timers.(
         waiting := 0, retries := if good then m.timers.retries else m.timers.retries + m.timers.waiting))
  }

  function ApplyTask(m: Manager, task: Task, ok: bool): Manager {
    if task !in m.book.tasks then m
    else
      var rest := m.(book := Done(m.book, task));
      match task
      case Build(_, _, _, _) => Built(rest, task, ok)
      case Resume(k) => Resumed(rest, k)
      case Finish(_, good) => Finished(rest, good)
  }

  function OnOpen(m: Manager, k: nat): Manager
    requires k < |m.book.sockets|
  {
    m.(phase := Connected, blocked := NotBlocked, timers := m.timers.(attempts := 0),
       book := Answer(Settle(m.book, k), k, true))
  }

  predicate RestartsProtocol(m: Manager, k: nat, reason: Closing)
    requires k < |m.book.sockets|
  {
    reason.RestartRequired? && !m.book.sockets[k].settled && !m.stopped && m.book.sockets[k].restarts < MAX_RESTARTS
  }

  function OnClose(m: Manager, k: nat, reason: Closing): Manager
    requires k < |m.book.sockets|
  {
    var detached := m.(link := SetSocket(m.link, None));
    if RestartsProtocol(m, k, reason) then detached.(phase := Reconnecting, book := AskRestart(m.book, k))
    else
      var ended := Ended(detached, reason);
      if m.book.sockets[k].settled then ended else ended.(book := Answer(Settle(m.book, k), k, false))
  }

  function Ended(m: Manager, reason: Closing): Manager {
    if reason.ClosedLoggedOut? then m.(phase := LoggedOut, blocked := BlockedLoggedOut)
    else if reason.ClosedFatal? then m.(phase := Fatal, blocked := BlockedFatal)
    else ScheduleReconnect(m.(phase := Disconnected))
  }

  function OnUpdate(m: Manager, k: nat, update: Update): Manager {
    if k >= |m.book.sockets| || m.book.sockets[k].generation != m.book.generation then m
    else if update.Opened? then OnOpen(m, k)
    else OnClose(m, k, update.reason)
  }

  function Apply(m: Manager, step: Step): Manager {
    match step
    case Connect => ApplyConnect(m)
    case Disconnect => ApplyDisconnect(m)
    case TimerFires => ApplyTimer(m)
    case RunTask(task, ok) => ApplyTask(m, task, ok)
    case Retry =>
      if m.timers.retries == 0 then m
      else ScheduleReconnect(m.(timers := m.timers.(retries := m.timers.retries - 1)))
    case Close => if m.closing == 0 then m else m.(closing := m.closing - 1, phase := Disconnected)
    case Deliver(k, update) => OnUpdate(m, k, update)
    case Register => m.(link := m.link.(registered := true, listening := ListeningTo(m.link.socket)))
    case Unregister => m.(link := m.link.(registered := false, listening := {}))
  }

  function Run(m: Manager, steps: seq<Step>): Manager {
    if steps == [] then m else Apply(Run(m, steps[..|steps| - 1]), steps[|steps| - 1])
  }

  lemma RunExtend(m: Manager, steps: seq<Step>, step: Step)
    ensures Run(m, steps + [step]) == Apply(Run(m, steps), step)
  {
    assert (steps + [step])[..|steps|] == steps;
  }

  const START := Manager(
    false, Disconnected, false, 0, NotBlocked, Timers(false, 0, 0, 0, 0), Link(None, false, {}), Book(0, 0, [], {}))

  // ----- Timers and listener -----

  ghost predicate TimersOk(m: Manager) {
    && m.timers.armed == (if m.timers.field then 1 else 0)
    && (m.stopped ==> !m.timers.field)
  }

  ghost predicate LinkOk(link: Link) {
    link.listening == if link.registered then ListeningTo(link.socket) else {}
  }

  lemma StepKeepsTimers(m: Manager, step: Step)
    requires TimersOk(m) && LinkOk(m.link)
    ensures TimersOk(Apply(m, step)) && LinkOk(Apply(m, step).link)
  {
    hide Answer;
  }

  // ----- Generations -----

  lemma {:induction false} AnswerFrame(book: Book, k: nat, ok: bool)
    ensures var after := Answer(book, k, ok);
      && after.generation == book.generation && after.chains == book.chains && |after.sockets| == |book.sockets|
      && (forall j :: 0 <= j < |book.sockets| ==>
            after.sockets[j] == book.sockets[j].(answered := after.sockets[j].answered))
      && (forall task: Task :: !task.Finish? ==> (task in after.tasks <==> task in book.tasks))
    decreases k
  {
    if k < |book.sockets| && !book.sockets[k].answered && book.sockets[k].parent.Some? {
      var marked := book.(sockets := book.sockets[k := book.sockets[k].(answered := true)]);
      if book.sockets[k].parent.value < k {
        AnswerFrame(marked, book.sockets[k].parent.value, ok);
      }
    }
  }

  // Sockets keep their generation, chain and level; the generation never falls.
  ghost predicate BookGrows(book: Book, after: Book) {
    && book.generation <= after.generation && |book.sockets| <= |after.sockets|
    && forall k :: 0 <= k < |book.sockets| ==>
         && after.sockets[k].generation == book.sockets[k].generation
         && after.sockets[k].chain == book.sockets[k].chain
         && after.sockets[k].restarts == book.sockets[k].restarts
  }

  lemma StepGrowsBook(m: Manager, step: Step)
    ensures BookGrows(m.book, Apply(m, step).book)
  {
    hide Answer;
    if step.RunTask? && step.task in m.book.tasks {
      var rest := Done(m.book, step.task);
      if step.task.Build? && step.task.parent.Some? {
        AnswerFrame(rest, step.task.parent.value, false);
      } else if step.task.Resume? {
        AnswerFrame(rest, step.task.socket, false);
      }
    } else if step.Deliver? && step.socket < |m.book.sockets| {
      AnswerFrame(Settle(m.book, step.socket), step.socket, step.update.Opened?);
    }
  }

  // Once a socket's generation has passed, its updates change nothing, now or after any run.
  lemma {:induction false} OldSocketsAreDeaf(m: Manager, steps: seq<Step>, k: nat, update: Update)
    requires k < |m.book.sockets| && m.book.sockets[k].generation < m.book.generation
    ensures BookGrows(m.book, Run(m, steps).book)
    ensures Apply(Run(m, steps), Deliver(k, update)) == Run(m, steps)
  {
    if steps != [] {
      var n := |steps| - 1;
      OldSocketsAreDeaf(m, steps[..n], k, update);
      StepGrowsBook(Run(m, steps[..n]), steps[n]);
    }
  }

  // ----- Three sockets a connect -----

  ghost predicate SocketAt(book: Book, chain: nat, restarts: nat) {
    exists k :: 0 <= k < |book.sockets| && book.sockets[k].chain == chain && book.sockets[k].restarts == restarts
  }

  ghost predicate BuildAt(book: Book, chain: nat, restarts: nat) {
    exists task :: task in book.tasks && task.Build? && task.chain == chain && task.restarts == restarts
  }

  // The chain has got this far: the socket exists or is being built.
  ghost predicate Reached(book: Book, chain: nat, restarts: nat) {
    SocketAt(book, chain, restarts) || BuildAt(book, chain, restarts)
  }

  ghost predicate SocketsOk(book: Book) {
    && (forall k :: 0 <= k < |book.sockets| ==>
          book.sockets[k].restarts <= MAX_RESTARTS && book.sockets[k].chain < book.chains)
    && (forall j, k :: 0 <= j < k < |book.sockets| && book.sockets[j].chain == book.sockets[k].chain
          ==> book.sockets[j].restarts != book.sockets[k].restarts)
    && (forall k :: 0 <= k < |book.sockets| ==> Rooted(book, book.sockets[k].chain, book.sockets[k].restarts))
    && (forall k :: 0 <= k < |book.sockets| && !book.sockets[k].settled ==>
          !Reached(book, book.sockets[k].chain, book.sockets[k].restarts + 1))
  }

  // A level above the first has the socket before it.
  ghost predicate Rooted(book: Book, chain: nat, restarts: nat) {
    restarts > 0 ==> SocketAt(book, chain, restarts - 1)
  }

  ghost predicate TaskOk(book: Book, task: Task) {
    match task
    case Build(_, chain, restarts, _) =>
      restarts <= MAX_RESTARTS && chain < book.chains && !SocketAt(book, chain, restarts)
      && !Reached(book, chain, restarts + 1) && Rooted(book, chain, restarts)
    case Resume(k) =>
      && k < |book.sockets| && book.sockets[k].settled && book.sockets[k].restarts < MAX_RESTARTS
      && !Reached(book, book.sockets[k].chain, book.sockets[k].restarts + 1)
    case Finish(_, _) => true
  }

  // Only a settled socket that asked for a restart is followed by another one of its chain.
  ghost predicate ChainsOk(book: Book) {
    && SocketsOk(book)
    && (forall task :: task in book.tasks ==> TaskOk(book, task))
    && (forall a, b :: a in book.tasks && b in book.tasks && a.Build? && b.Build? && a != b ==>
          a.chain != b.chain || a.restarts != b.restarts)
  }

  // Nothing in the book is about to be followed by this level of this chain.
  ghost predicate NobodyPrecedes(book: Book, chain: nat, restarts: nat) {
    && (forall k :: 0 <= k < |book.sockets| && !book.sockets[k].settled ==>
          book.sockets[k].chain != chain || book.sockets[k].restarts + 1 != restarts)
    && (forall task :: task in book.tasks && task.Build? ==> task.chain != chain || task.restarts + 1 != restarts)
    && (forall task :: task in book.tasks && task.Resume? && task.socket < |book.sockets| ==>
          book.sockets[task.socket].chain != chain || book.sockets[task.socket].restarts + 1 != restarts)
  }

  lemma BeginKeeps(book: Book, chain: nat, restarts: nat, parent: Option<nat>)
    requires ChainsOk(book) && chain < book.chains && restarts <= MAX_RESTARTS
    requires !Reached(book, chain, restarts) && !Reached(book, chain, restarts + 1) && Rooted(book, chain, restarts)
    requires NobodyPrecedes(book, chain, restarts)
    ensures ChainsOk(BeginSocket(book, chain, restarts, parent))
  {
    var after := BeginSocket(book, chain, restarts, parent);
    var added := Build(book.generation + 1, chain, restarts, parent);
    forall k | 0 <= k < |book.sockets| && !book.sockets[k].settled
      ensures !Reached(after, book.sockets[k].chain, book.sockets[k].restarts + 1)
    {
      BeginReaches(book, chain, restarts, parent, book.sockets[k].chain, book.sockets[k].restarts + 1);
    }
    forall task | task in after.tasks ensures TaskOk(after, task) {
      BeginKeepsTask(book, chain, restarts, parent, task);
    }
    forall task | task in book.tasks && task.Build? ensures task.chain != chain || task.restarts != restarts {
      assert BuildAt(book, task.chain, task.restarts);
    }
    hide Reached, SocketAt, BuildAt, TaskOk;
    assert forall task :: task in after.tasks ==> task in book.tasks || task == added;
  }

  lemma BeginKeepsTask(book: Book, chain: nat, restarts: nat, parent: Option<nat>, task: Task)
    requires ChainsOk(book) && chain < book.chains && restarts <= MAX_RESTARTS
    requires !Reached(book, chain, restarts) && !Reached(book, chain, restarts + 1) && Rooted(book, chain, restarts)
    requires NobodyPrecedes(book, chain, restarts) && task in BeginSocket(book, chain, restarts, parent).tasks
    ensures TaskOk(BeginSocket(book, chain, restarts, parent), task)
  {
    hide BuildAt, SocketAt;
    assert task in book.tasks || task == Build(book.generation + 1, chain, restarts, parent);
    assert task in book.tasks ==> TaskOk(book, task);
    if task.Build? {
      BeginReaches(book, chain, restarts, parent, task.chain, task.restarts);
      BeginReaches(book, chain, restarts, parent, task.chain, task.restarts + 1);
      BeginReaches(book, chain, restarts, parent, task.chain, if task.restarts > 0 then task.restarts - 1 else 0);
    } else if task.Resume? {
      var socket := book.sockets[task.socket];
      BeginReaches(book, chain, restarts, parent, socket.chain, socket.restarts + 1);
    }
  }

  lemma BeginReaches(book: Book, chain: nat, restarts: nat, parent: Option<nat>, c: nat, r: nat)
    ensures Reached(BeginSocket(book, chain, restarts, parent), c, r)
      == (Reached(book, c, r) || (c == chain && r == restarts))
    ensures SocketAt(BeginSocket(book, chain, restarts, parent), c, r) == SocketAt(book, c, r)
  {
    var after := BeginSocket(book, chain, restarts, parent);
    assert Build(book.generation + 1, chain, restarts, parent) in after.tasks;
    if BuildAt(book, c, r) {
      var task :| task in book.tasks && task.Build? && task.chain == c && task.restarts == r;
      assert task in after.tasks;
    }
  }

  // Sockets may become settled or answered and tasks may go; nothing new is begun.
  ghost predicate Shrinks(book: Book, after: Book) {
    && after.chains == book.chains && |after.sockets| == |book.sockets|
    && (forall k :: 0 <= k < |book.sockets| ==>
          && after.sockets[k].chain == book.sockets[k].chain && after.sockets[k].restarts == book.sockets[k].restarts
          && (book.sockets[k].settled ==> after.sockets[k].settled))
    && (forall task :: task in after.tasks && !task.Finish? ==> task in book.tasks)
  }

  lemma ShrinkReaches(book: Book, after: Book, c: nat, r: nat)
    requires Shrinks(book, after)
    ensures Reached(after, c, r) ==> Reached(book, c, r)
    ensures SocketAt(after, c, r) == SocketAt(book, c, r)
  {
    if SocketAt(book, c, r) {
      var k :| 0 <= k < |book.sockets| && book.sockets[k].chain == c && book.sockets[k].restarts == r;
      assert after.sockets[k].chain == c && after.sockets[k].restarts == r;
    }
  }

  lemma ShrinkKeeps(book: Book, after: Book)
    requires ChainsOk(book) && Shrinks(book, after)
    ensures ChainsOk(after)
  {
    forall k | 0 <= k < |after.sockets| && !after.sockets[k].settled
      ensures !Reached(after, after.sockets[k].chain, after.sockets[k].restarts + 1)
    {
      ShrinkReaches(book, after, after.sockets[k].chain, after.sockets[k].restarts + 1);
    }
    forall task | task in after.tasks ensures TaskOk(after, task) {
      if task.Build? {
        assert TaskOk(book, task);
        ShrinkReaches(book, after, task.chain, task.restarts);
        ShrinkReaches(book, after, task.chain, task.restarts + 1);
      } else if task.Resume? {
        assert TaskOk(book, task);
        ShrinkReaches(book, after, after.sockets[task.socket].chain, after.sockets[task.socket].restarts + 1);
      }
    }
    hide Reached, SocketAt, TaskOk;
  }

  lemma BuiltKeepsSockets(book: Book, task: Task)
    requires ChainsOk(book) && task in book.tasks && task.Build?
    ensures SocketsOk(AddSocket(Done(book, task), task))
  {
    var after := AddSocket(Done(book, task), task);
    forall c: nat, r: nat
      ensures Reached(after, c, r) == Reached(book, c, r)
      ensures SocketAt(after, c, r) == (SocketAt(book, c, r) || (c == task.chain && r == task.restarts))
    {
      BuiltReaches(book, task, c, r);
    }
    assert TaskOk(book, task);
    forall k | 0 <= k < |book.sockets| && book.sockets[k].chain == task.chain
      ensures book.sockets[k].restarts != task.restarts
    {
      assert !SocketAt(book, task.chain, task.restarts);
    }
    hide Reached, SocketAt;
  }

  // The socket of a build takes its place.
  lemma BuiltKeeps(book: Book, task: Task)
    requires ChainsOk(book) && task in book.tasks && task.Build?
    ensures ChainsOk(AddSocket(Done(book, task), task))
  {
    BuiltKeepsSockets(book, task);
    var after := AddSocket(Done(book, task), task);
    hide Reached, SocketAt, SocketsOk, TaskOk;
    forall other | other in after.tasks ensures TaskOk(after, other) {
      BuiltKeepsTask(book, task, other);
    }
  }

  lemma BuiltKeepsTask(book: Book, task: Task, other: Task)
    requires ChainsOk(book) && task in book.tasks && task.Build? && other in book.tasks && other != task
    ensures TaskOk(AddSocket(Done(book, task), task), other)
  {
    hide SocketAt, BuildAt;
    assert TaskOk(book, other);
    if other.Build? {
      BuiltReaches(book, task, other.chain, other.restarts);
      BuiltReaches(book, task, other.chain, other.restarts + 1);
      BuiltReaches(book, task, other.chain, if other.restarts > 0 then other.restarts - 1 else 0);
    } else if other.Resume? {
      BuiltReaches(book, task, book.sockets[other.socket].chain, book.sockets[other.socket].restarts + 1);
    }
  }

  lemma BuiltReaches(book: Book, task: Task, c: nat, r: nat)
    requires task in book.tasks && task.Build?
    ensures Reached(AddSocket(Done(book, task), task), c, r) == Reached(book, c, r)
    ensures SocketAt(AddSocket(Done(book, task), task), c, r)
      == (SocketAt(book, c, r) || (c == task.chain && r == task.restarts))
  {
    var after := AddSocket(Done(book, task), task);
    var n := |book.sockets|;
    assert after.sockets[n].chain == task.chain && after.sockets[n].restarts == task.restarts;
    if SocketAt(book, c, r) {
      var k :| 0 <= k < n && book.sockets[k].chain == c && book.sockets[k].restarts == r;
      assert after.sockets[k].chain == c && after.sockets[k].restarts == r;
    }
    if BuildAt(book, c, r) {
      var other :| other in book.tasks && other.Build? && other.chain == c && other.restarts == r;
      assert other == task || other in after.tasks;
    }
  }

  lemma AskRestartKeeps(book: Book, k: nat)
    requires ChainsOk(book) && k < |book.sockets| && !book.sockets[k].settled && book.sockets[k].restarts < MAX_RESTARTS
    ensures ChainsOk(AskRestart(book, k))
  {
    hide Rooted;
    var settled := Settle(book, k);
    ShrinkKeeps(book, settled);
    ShrinkReaches(book, settled, book.sockets[k].chain, book.sockets[k].restarts + 1);
    var after := AskRestart(book, k);
    forall c: nat, r: nat
      ensures Reached(after, c, r) == Reached(settled, c, r) && SocketAt(after, c, r) == SocketAt(settled, c, r)
      ensures Rooted(after, c, r) == Rooted(settled, c, r)
    {
      SameReaches(settled, after, c, r);
    }
    hide Reached, SocketAt, Rooted;
    assert forall task :: task in after.tasks ==> task in settled.tasks || task == Resume(k);
    forall task | task in after.tasks ensures TaskOk(after, task) {
      assert task in settled.tasks ==> TaskOk(settled, task);
    }
  }

  lemma SameReaches(book: Book, after: Book, c: nat, r: nat)
    requires after.sockets == book.sockets
    requires forall task: Task :: task.Build? ==> (task in after.tasks <==> task in book.tasks)
    ensures Reached(after, c, r) == Reached(book, c, r) && SocketAt(after, c, r) == SocketAt(book, c, r)
    ensures Rooted(after, c, r) == Rooted(book, c, r)
  {
    if BuildAt(book, c, r) {
      var task :| task in book.tasks && task.Build? && task.chain == c && task.restarts == r;
      assert task in after.tasks;
    }
  }

  lemma NothingBeyond(book: Book, chain: nat, restarts: nat)
    requires ChainsOk(book) && !Reached(book, chain, restarts)
    ensures !Reached(book, chain, restarts + 1)
  {
    forall k | 0 <= k < |book.sockets| && book.sockets[k].chain == chain
      ensures book.sockets[k].restarts != restarts + 1
    {
      assert Rooted(book, book.sockets[k].chain, book.sockets[k].restarts);
    }
    forall task | task in book.tasks && task.Build? && task.chain == chain ensures task.restarts != restarts + 1 {
      assert TaskOk(book, task);
    }
  }

  // A protocol restart resumes: it is the only thing that can lead to its level of the chain.
  lemma ResumeKeeps(book: Book, k: nat)
    requires ChainsOk(book) && Resume(k) in book.tasks
    ensures k < |book.sockets|
    ensures ChainsOk(BeginSocket(Done(book, Resume(k)), book.sockets[k].chain, book.sockets[k].restarts + 1, Some(k)))
  {
    assert TaskOk(book, Resume(k));
    var rest := Done(book, Resume(k));
    var chain, level := book.sockets[k].chain, book.sockets[k].restarts;
    ShrinkKeeps(book, rest);
    ShrinkReaches(book, rest, chain, level + 1);
    assert !Reached(rest, chain, level + 2) by {
      NothingBeyond(book, chain, level + 1);
      ShrinkReaches(book, rest, chain, level + 2);
    }
    assert SocketAt(book, chain, level) && SocketAt(rest, chain, level) by {
      ShrinkReaches(book, rest, chain, level);
    }
    assert NobodyPrecedes(rest, chain, level + 1) by {
      forall task | task in rest.tasks && task.Build? ensures task.chain != chain || task.restarts != level {
        assert TaskOk(book, task);
      }
      forall task | task in rest.tasks && task.Resume? && task.socket < |rest.sockets|
        ensures rest.sockets[task.socket].chain != chain || rest.sockets[task.socket].restarts != level
      {
        assert task.socket != k;
      }
    }
    BeginKeeps(rest, chain, level + 1, Some(k));
  }

  // ----- Every run -----

  ghost predicate Sound(m: Manager) { TimersOk(m) && LinkOk(m.link) && ChainsOk(m.book) }

  lemma TaskKeepsChains(m: Manager, task: Task, ok: bool)
    requires ChainsOk(m.book) && task in m.book.tasks
    ensures ChainsOk(ApplyTask(m, task, ok).book)
  {
    hide Answer, ChainsOk;
    var rest := Done(m.book, task);
    ShrinkKeeps(m.book, rest);
    if task.Build? {
      if ok {
        BuiltKeeps(m.book, task);
      } else {
        AnswerFrame(rest, if task.parent.Some? then task.parent.value else 0, false);
        ShrinkKeeps(rest, Fail(rest, task));
      }
    } else if task.Resume? {
      ResumeKeeps(m.book, task.socket);
      AnswerFrame(rest, task.socket, false);
      ShrinkKeeps(rest, Answer(rest, task.socket, false));
    }
  }

  lemma UpdateKeepsChains(m: Manager, k: nat, update: Update)
    requires ChainsOk(m.book) && k < |m.book.sockets|
    ensures ChainsOk(OnUpdate(m, k, update).book)
  {
    hide Answer, ChainsOk;
    if update.Closed? && RestartsProtocol(m, k, update.reason) {
      AskRestartKeeps(m.book, k);
    }
    AnswerFrame(Settle(m.book, k), k, update.Opened?);
    ShrinkKeeps(m.book, Answer(Settle(m.book, k), k, update.Opened?));
  }

  // The other steps touch the book in two ways only.
  lemma OtherStepsBook(m: Manager, step: Step)
    requires !step.RunTask? && !step.Deliver?
    ensures Apply(m, step).book in {m.book, BeginChain(m.book), m.book.(generation := m.book.generation + 1)}
  {
  }

  lemma StepSound(m: Manager, step: Step)
    requires Sound(m)
    ensures Sound(Apply(m, step))
  {
    StepKeepsTimers(m, step);
    assert ChainsOk(Apply(m, step).book) by {
      hide *;
      StepKeepsChains(m, step);
    }
  }

  lemma StepKeepsChains(m: Manager, step: Step)
    requires ChainsOk(m.book)
    ensures ChainsOk(Apply(m, step).book)
  {
    hide ChainsOk, OnUpdate, ApplyTask, ApplyConnect, ApplyDisconnect, ApplyTimer, ScheduleReconnect, BeginChain;
    if step.RunTask? && step.task in m.book.tasks {
      TaskKeepsChains(m, step.task, step.ok);
    } else if step.RunTask? {
      MissingTask(m, step.task, step.ok);
    } else if step.Deliver? && step.socket < |m.book.sockets| {
      UpdateKeepsChains(m, step.socket, step.update);
    } else if step.Deliver? {
      MissingSocket(m, step.socket, step.update);
    } else {
      OtherStepsBook(m, step);
      BeginChainKeeps(m.book);
      ShrinkKeeps(m.book, m.book.(generation := m.book.generation + 1));
    }
  }

  lemma MissingTask(m: Manager, task: Task, ok: bool)
    requires task !in m.book.tasks
    ensures ApplyTask(m, task, ok) == m
  {
  }

  lemma MissingSocket(m: Manager, k: nat, update: Update)
    requires k >= |m.book.sockets|
    ensures OnUpdate(m, k, update) == m
  {
  }

  lemma LargerKeeps(book: Book, larger: Book)
    requires ChainsOk(book) && larger == book.(chains := book.chains + 1)
    ensures ChainsOk(larger)
  {
    forall c: nat, r: nat
      ensures Reached(larger, c, r) == Reached(book, c, r) && SocketAt(larger, c, r) == SocketAt(book, c, r)
    {
      SameReaches(book, larger, c, r);
    }
    hide Reached, SocketAt;
    forall task | task in book.tasks ensures TaskOk(larger, task) {
      assert TaskOk(book, task);
    }
  }

  lemma FreshChain(book: Book, chain: nat, restarts: nat)
    requires ChainsOk(book) && book.chains <= chain
    ensures !Reached(book, chain, restarts)
  {
    assert forall task :: task in book.tasks && task.Build? ==> TaskOk(book, task);
  }

  lemma BeginChainKeeps(book: Book)
    requires ChainsOk(book)
    ensures ChainsOk(BeginChain(book))
  {
    hide SocketsOk, TaskOk;
    var larger := book.(chains := book.chains + 1);
    LargerKeeps(book, larger);
    FreshChain(book, book.chains, 0);
    FreshChain(book, book.chains, 1);
    SameReaches(book, larger, book.chains, 0);
    SameReaches(book, larger, book.chains, 1);
    assert Rooted(larger, book.chains, 0) && NobodyPrecedes(larger, book.chains, 0);
    hide ChainsOk, Reached, NobodyPrecedes, Rooted;
    BeginKeeps(larger, book.chains, 0, None);
  }

  lemma {:induction false} RunSound(m: Manager, steps: seq<Step>)
    requires Sound(m)
    ensures Sound(Run(m, steps))
  {
    if steps != [] {
      RunSound(m, steps[..|steps| - 1]);
      StepSound(Run(m, steps[..|steps| - 1]), steps[|steps| - 1]);
    }
  }

  lemma StartSound()
    ensures Sound(START)
  {
  }

  // In every interleaving: at most one reconnect timer is armed, it is the manager's own, and none
  // is while stopped; a registered controller listens to exactly the current socket.
  lemma OneTimerAndOneListener(steps: seq<Step>)
    ensures var m := Run(START, steps);
      && m.timers.armed <= 1 && (m.timers.armed == 1 <==> m.timers.field)
      && (m.stopped ==> m.timers.armed == 0)
      && (m.link.registered ==> m.link.listening == ListeningTo(m.link.socket))
      && (!m.link.registered ==> m.link.listening == {})
  {
    StartSound();
    RunSound(START, steps);
  }

  function SocketsOf(book: Book, chain: nat): set<nat> {
    set k | 0 <= k < |book.sockets| && book.sockets[k].chain == chain
  }

  function SocketsAt(book: Book, chain: nat, restarts: nat): set<nat> {
    set k | 0 <= k < |book.sockets| && book.sockets[k].chain == chain && book.sockets[k].restarts == restarts
  }

  lemma OneSocketALevel(book: Book, chain: nat, restarts: nat)
    requires SocketsOk(book)
    ensures |SocketsAt(book, chain, restarts)| <= 1
  {
    hide Reached, Rooted;
    var at := SocketsAt(book, chain, restarts);
    if k :| k in at {
      assert at == {k};
    }
  }

  lemma UnionSize(a: set<nat>, b: set<nat>)
    ensures |a + b| <= |a| + |b|
  {
    assert |a + b| == |a| + |b| - |a * b|;
  }

  lemma ThreeLevels(book: Book, chain: nat)
    requires forall k :: 0 <= k < |book.sockets| ==> book.sockets[k].restarts <= MAX_RESTARTS
    ensures SocketsOf(book, chain)
      == SocketsAt(book, chain, 0) + SocketsAt(book, chain, 1) + SocketsAt(book, chain, 2)
  {
  }

  lemma AtMostThree(book: Book, chain: nat)
    requires SocketsOk(book)
    ensures |SocketsOf(book, chain)| <= 3
  {
    hide Reached, Rooted;
    ThreeLevels(book, chain);
    hide SocketsOf, SocketsAt;
    OneSocketALevel(book, chain, 0);
    OneSocketALevel(book, chain, 1);
    OneSocketALevel(book, chain, 2);
    UnionSize(SocketsAt(book, chain, 0), SocketsAt(book, chain, 1));
    UnionSize(SocketsAt(book, chain, 0) + SocketsAt(book, chain, 1), SocketsAt(book, chain, 2));
  }

  // One connect call opens at most three sockets.
  lemma ThreeSocketsAConnect(steps: seq<Step>, chain: nat)
    ensures |SocketsOf(Run(START, steps).book, chain)| <= 3
  {
    StartSound();
    RunSound(START, steps);
    AtMostThree(Run(START, steps).book, chain);
  }
}
