/** The connection manager object, with the self-chat controller it keeps on the live socket. */
module ConnectionManager {
  import opened Prelude
  import opened Connection
  import Controller

  // ----- What the update handler does, field by field -----

  // The sockets whose promises hang on socket k's: itself and those its restarts replaced.
  ghost function Path(sockets: seq<Socket>, k: nat): seq<nat>
    decreases k
  {
    if k >= |sockets| || sockets[k].answered then []
    else [k] + if sockets[k].parent.Some? && sockets[k].parent.value < k
               then Path(sockets, sockets[k].parent.value) else []
  }

  // They are all answered, and when the path ends in a connect call's first socket, that call's promise
  // settles.
  ghost predicate PathAnswered(
    sockets: seq<Socket>, tasks: set<Task>, k: nat, ok: bool, after: seq<Socket>, left: set<Task>)
  {
    var path := Path(sockets, k);
    && |after| == |sockets|
    && (forall j: nat :: j < |sockets| ==>
          after[j] == sockets[j].(answered := sockets[j].answered || j in path))
    && left == if path != [] && path[|path| - 1] < |sockets| && sockets[path[|path| - 1]].parent.None?
               then tasks + {Finish(sockets[path[|path| - 1]].chain, ok)} else tasks
  }

  lemma {:induction false} AnswersPath(book: Book, k: nat, ok: bool)
    ensures var after := Answer(book, k, ok);
      && after.generation == book.generation && after.chains == book.chains
      && PathAnswered(book.sockets, book.tasks, k, ok, after.sockets, after.tasks)
    decreases k
  {
    if k < |book.sockets| && !book.sockets[k].answered {
      var parent := book.sockets[k].parent;
      var marked := book.(sockets := book.sockets[k := book.sockets[k].(answered := true)]);
      if parent.Some? && parent.value < k {
        AnswersPath(marked, parent.value, ok);
        PathBelow(book.sockets, marked.sockets, parent.value, k);
        PathGrows(book, parent.value, k, Answer(marked, parent.value, ok), ok);
      } else {
        assert Path(book.sockets, k) == [k];
      }
    }
  }

  lemma PathGrows(book: Book, parent: nat, k: nat, after: Book, ok: bool)
    requires k < |book.sockets| && !book.sockets[k].answered && book.sockets[k].parent == Some(parent) && parent < k
    requires var marked := book.sockets[k := book.sockets[k].(answered := true)];
      && Path(book.sockets, parent) == Path(marked, parent)
      && PathAnswered(marked, book.tasks, parent, ok, after.sockets, after.tasks)
    requires forall j :: j in Path(book.sockets, parent) ==> j < k
    ensures PathAnswered(book.sockets, book.tasks, k, ok, after.sockets, after.tasks)
  {
    var path, rest := Path(book.sockets, k), Path(book.sockets, parent);
    assert path == [k] + rest;
    var marked := book.sockets[k := book.sockets[k].(answered := true)];
    hide Path;
    SocketsOnPath(book.sockets, marked, k, rest, path, after.sockets);
    PathEnds(book.sockets, marked, k, rest, path);
  }

  // A longer path ends where the shorter one does.
  lemma PathEnds(sockets: seq<Socket>, marked: seq<Socket>, k: nat, rest: seq<nat>, path: seq<nat>)
    requires k < |sockets| && marked == sockets[k := sockets[k].(answered := true)] && path == [k] + rest
    requires forall j :: j in rest ==> j < k
    ensures path != [] && path[|path| - 1] == if rest == [] then k else rest[|rest| - 1]
    ensures rest != [] ==> rest[|rest| - 1] < |sockets| && marked[rest[|rest| - 1]] == sockets[rest[|rest| - 1]]
  {
    assert rest != [] ==> rest[|rest| - 1] in rest;
  }

  lemma SocketsOnPath(
    sockets: seq<Socket>, marked: seq<Socket>, k: nat, rest: seq<nat>, path: seq<nat>, after: seq<Socket>)
    requires k < |sockets| && marked == sockets[k := sockets[k].(answered := true)] && path == [k] + rest
    requires |after| == |sockets| && forall j: nat :: j < |sockets| ==>
      after[j] == marked[j].(answered := marked[j].answered || j in rest)
    ensures forall j: nat :: j < |sockets| ==>
      after[j] == sockets[j].(answered := sockets[j].answered || j in path)
  {
  }

  // A path goes down, so it does not see what happens above it.
  lemma {:induction false} PathBelow(sockets: seq<Socket>, others: seq<Socket>, k: nat, above: nat)
    requires |sockets| == |others| && k < above
    requires forall j: nat :: j < above && j < |sockets| ==> sockets[j] == others[j]
    ensures Path(sockets, k) == Path(others, k) && forall j :: j in Path(sockets, k) ==> j < above
    decreases k
  {
    if k < |sockets| && sockets[k].parent.Some? && sockets[k].parent.value < k {
      PathBelow(sockets, others, sockets[k].parent.value, above);
    }
  }

  // An opened connection lifts the block, forgets the failed attempts and settles the promises.
  ghost predicate OpenedAs(m: Manager, k: nat, after: Manager)
    requires k < |m.book.sockets|
  {
    var settled := m.book.sockets[k := m.book.sockets[k].(settled := true)];
    && after == m.(phase := Connected, blocked := NotBlocked, timers := m.timers.(attempts := 0), book := after.book)
    && after.book == m.book.(sockets := after.book.sockets, tasks := after.book.tasks)
    && PathAnswered(settled, m.book.tasks, k, true, after.book.sockets, after.book.tasks)
  }

  // A closed one has no socket any more. Asked for, the protocol is restarted, at most twice and not
  // once the socket was ready or the manager stopped; a final close blocks the worker; any other arms
  // the timer, unless it is armed or the manager stopped. A promise that is still open is rejected.
  ghost predicate ClosedAs(m: Manager, k: nat, reason: Closing, after: Manager)
    requires k < |m.book.sockets|
  {
    var was := m.book.sockets[k];
    var settled := m.book.sockets[k := was.(settled := true)];
    var link := Link(None, m.link.registered, if m.link.registered then {} else m.link.listening);
    var detached := m.(link := link);
    if reason.RestartRequired? && !was.settled && !m.stopped && was.restarts < 2 then
      after == detached.(
        phase := Reconnecting, book := m.book.(sockets := settled, tasks := m.book.tasks + {Resume(k)}))
    else
      && after.book == m.book.(sockets := after.book.sockets, tasks := after.book.tasks)
      && (if was.settled then after.book == m.book
          else PathAnswered(settled, m.book.tasks, k, false, after.book.sockets, after.book.tasks))
      && after == (match reason
           case ClosedLoggedOut => detached.(phase := LoggedOut, blocked := BlockedLoggedOut)
           case ClosedFatal => detached.(phase := Fatal, blocked := BlockedFatal)
           case _ =>
             if m.timers.field || m.stopped then detached.(phase := Disconnected)
             else detached.(
               phase := Reconnecting,
               timers := m.timers.(
                 field := true, armed := m.timers.armed + 1, attempts := m.timers.attempts + 1))).(book := after.book)
  }

  class ConnectionManager {
    const controller: Controller.SelfChatController
    var stopped: bool
    var phase: Phase
    var connecting: bool
    var closing: nat
    var blocked: Blocked
    var reconnectTimer: bool
    var reconnectAttempt: nat
    var armed: nat
    var waiting: nat
    var retries: nat
    var socket: Option<nat>
    var registered: bool
    var generation: nat
    var chains: nat
    var sockets: seq<Socket>
    var tasks: set<Task>

    function View(): Manager
      reads this, controller
    {
      Manager(stopped, phase, connecting, closing, blocked,
              Timers(reconnectTimer, armed, reconnectAttempt, waiting, retries),
              Link(socket, registered, controller.listening),
              Book(generation, chains, sockets, tasks))
    }

    // Registered, the controller is attached to the current socket; otherwise to none.
    predicate Valid()
      reads this, controller
    {
      controller.Valid() && controller.socket == if registered then socket else None
    }

    constructor (controller: Controller.SelfChatController)
      requires controller.Valid() && controller.socket.None?
      ensures Valid() && View() == START && this.controller == controller
    {
      this.controller := controller;
      stopped, phase, connecting, closing, blocked := false, Disconnected, false, 0, NotBlocked;
      reconnectTimer, reconnectAttempt, armed, waiting, retries := false, 0, 0, 0, 0;
      socket, registered := None, false;
      generation, chains, sockets, tasks := 0, 0, [], {};
    }

    method Notify()
      requires controller.Valid()
      modifies controller`socket, controller`listening
      ensures controller.Valid() && controller.socket == socket && controller.listening == ListeningTo(socket)
    {
      if socket.Some? {
        controller.AttachTo(socket.value);
      } else {
        controller.DetachFrom();
      }
    }

    method SetSocketTo(next: Option<nat>)
      requires Valid()
      modifies this`socket, controller`socket, controller`listening
      ensures Valid() && View() == old(View()).(link := SetSocket(old(View()).link, next))
      ensures socket == next
      ensures controller.listening
        == if !registered then old(controller.listening) else if next.Some? then {next.value} else {}
    {
      socket := next;
      if registered {
        Notify();
      }
    }

    // The listener is told the current socket at once, and every later one.
    method OnSocketChange()
      requires Valid()
      modifies this`registered, controller`socket, controller`listening
      ensures Valid() && View() == Apply(old(View()), Register)
      ensures registered && controller.listening == if socket.Some? then {socket.value} else {}
    {
      registered := true;
      Notify();
    }

    method ReleaseListener()
      requires Valid()
      modifies this`registered, controller`socket, controller`listening
      ensures Valid() && View() == Apply(old(View()), Unregister)
      ensures !registered && controller.listening == {}
    {
      registered := false;
      controller.DetachFrom();
    }

    // The synchronous part of createSocket; the rest is left as a task.
    method CreateSocket(chain: nat, restarts: nat, parent: Option<nat>)
      requires Valid()
      modifies this`generation, this`phase, this`tasks
      ensures Valid()
      ensures View() == old(View()).(
                phase := StartingPhase(old(View())), book := BeginSocket(old(View()).book, chain, restarts, parent))
    {
      generation := generation + 1;
      phase := if reconnectAttempt > 0 then Reconnecting else Connecting;
      tasks := tasks + {Build(generation, chain, restarts, parent)};
    }

    // True when the caller has to wait for the connection.
    method Open() returns (pending: bool)
      requires Valid()
      modifies this
      ensures Valid() && View() == Apply(old(View()), Connect)
      ensures pending <==> !(old(phase) == Connected && old(socket).Some?)
      ensures !pending || old(connecting) ==> View() == old(View())
      ensures pending && !old(connecting) ==>
        && !stopped && connecting && generation == old(generation) + 1 && chains == old(chains) + 1
        && phase == (if reconnectAttempt > 0 then Reconnecting else Connecting)
        && tasks == old(tasks) + {Build(old(generation) + 1, old(chains), 0, None)}
        && View() == old(View()).(stopped := false, connecting := true, phase := phase,
                                  book := Book(generation, chains, old(sockets), tasks))
    {
      if phase.Connected? && socket.Some? {
        return false;
      }
      if connecting {
        return true;
      }
      stopped := false;
      connecting := true;
      chains := chains + 1;
      CreateSocket(chains - 1, 0, None);
      return true;
    }

    method ClearTimer()
      requires Valid() && (reconnectTimer ==> 0 < armed)
      modifies this`armed, this`reconnectTimer
      ensures Valid() && View() == old(View()).(timers := Cleared(old(View()).timers))
      ensures !reconnectTimer && armed == old(armed) - if old(reconnectTimer) then 1 else 0
    {
      if reconnectTimer {
        armed := armed - 1;
      }
      reconnectTimer := false;
    }

    method Stop()
      requires Valid() && TimersOk(View())
      modifies this, controller`socket, controller`listening
      ensures Valid() && View() == Apply(old(View()), Disconnect)
      ensures stopped && socket.None? && !reconnectTimer && armed == 0 && generation == old(generation) + 1
      ensures (connecting, blocked, sockets, tasks) == old((connecting, blocked, sockets, tasks))
      ensures (reconnectAttempt, waiting, retries, registered) == old((reconnectAttempt, waiting, retries, registered))
      ensures if old(socket).Some? then closing == old(closing) + 1 && phase == old(phase)
              else closing == old(closing) && phase == Disconnected
    {
      hide Cleared, SetSocket;
      stopped := true;
      ClearTimer();
      var last := socket;
      SetSocketTo(None);
      generation := generation + 1;
      if last.Some? {
        closing := closing + 1;
      } else {
        phase := Disconnected;
      }
    }

    // The end of disconnect, once the socket has ended.
    method FinishStop()
      requires Valid() && 0 < closing
      modifies this`closing, this`phase
      ensures Valid() && View() == Apply(old(View()), Close)
      ensures closing == old(closing) - 1 && phase == Disconnected
    {
      closing := closing - 1;
      phase := Disconnected;
    }

    method Schedule()
      requires Valid()
      modifies this`reconnectAttempt, this`phase, this`reconnectTimer, this`armed
      ensures Valid() && View() == ScheduleReconnect(old(View()))
      ensures if old(reconnectTimer) || stopped then View() == old(View())
              else reconnectTimer && armed == old(armed) + 1 && reconnectAttempt == old(reconnectAttempt) + 1
                   && phase == Reconnecting
    {
      if reconnectTimer || stopped {
        return;
      }
      reconnectAttempt := reconnectAttempt + 1;
      phase := Reconnecting;
      reconnectTimer := true;
      armed := armed + 1;
    }

    method OnTimer()
      requires Valid() && 0 < armed
      modifies this
      ensures Valid() && View() == Apply(old(View()), TimerFires)
      ensures !reconnectTimer && armed == old(armed) - 1
      ensures if old(phase) == Connected && old(socket).Some? then waiting == old(waiting) && tasks == old(tasks)
              else waiting == old(waiting) + 1 && connecting && (!old(connecting) ==>
                tasks == old(tasks) + {Build(old(generation) + 1, old(chains), 0, None)})
    {
      armed := armed - 1;
      reconnectTimer := false;
      var pending := Open();
      if pending {
        waiting := waiting + 1;
      }
    }

    // The timer's catch clause, after its own await.
    method OnRejected()
      requires Valid() && 0 < retries
      modifies this`retries, this`reconnectAttempt, this`phase, this`reconnectTimer, this`armed
      ensures Valid() && View() == Apply(old(View()), Connection.Retry)
      ensures retries == old(retries) - 1
      ensures if old(reconnectTimer) || stopped
              then (reconnectTimer, armed, phase) == old((reconnectTimer, armed, phase))
              else reconnectTimer && armed == old(armed) + 1 && reconnectAttempt == old(reconnectAttempt) + 1
                   && phase == Reconnecting
    {
      retries := retries - 1;
      Schedule();
    }

    // Settles a socket's promise and, through the restarts that await it, its ancestors'.
    method SettlePromise(k: nat, ok: bool)
      requires Valid()
      modifies this`sockets, this`tasks
      ensures Valid() && View() == old(View()).(book := Answer(old(View()).book, k, ok))
      ensures PathAnswered(old(sockets), old(tasks), k, ok, sockets, tasks)
    {
      AnswersPath(View().book, k, ok);
      var at: nat := k;
      while at < |sockets| && !sockets[at].answered
        invariant Answer(Book(generation, chains, sockets, tasks), at, ok) == Answer(old(View()).book, k, ok)
        decreases at
      {
        var parent := sockets[at].parent;
        var chain := sockets[at].chain;
        sockets := sockets[at := sockets[at].(answered := true)];
        if parent.None? {
          tasks := tasks + {Finish(chain, ok)};
          return;
        }
        if at <= parent.value {
          return;
        }
        at := parent.value;
      }
    }

    // createSocket after the credentials are loaded, or failed to.
    method OnCredentials(task: Task, ok: bool)
      requires Valid() && task in tasks && task.Build?
      modifies this, controller`socket, controller`listening
      ensures Valid() && View() == Apply(old(View()), RunTask(task, ok))
      ensures ok ==>
        && sockets == old(sockets) + [Socket(task.generation, task.chain, task.restarts, task.parent, false, false)]
        && socket == Some(|old(sockets)|) && tasks == old(tasks) - {task}
      ensures !ok ==> socket == old(socket) && if task.parent.None?
        then sockets == old(sockets) && tasks == old(tasks) - {task} + {Finish(task.chain, false)}
        else PathAnswered(old(sockets), old(tasks) - {task}, task.parent.value, false, sockets, tasks)
    {
      tasks := tasks - {task};
      if !ok {
        if task.parent.None? {
          tasks := tasks + {Finish(task.chain, false)};
        } else {
          SettlePromise(task.parent.value, false);
        }
        return;
      }
      sockets := sockets + [Socket(task.generation, task.chain, task.restarts, task.parent, false, false)];
      SetSocketTo(Some(|sockets| - 1));
    }

    // A protocol restart after its awaits.
    method OnRestart(k: nat)
      requires Valid() && Resume(k) in tasks && k < |sockets|
      modifies this
      ensures Valid() && View() == Apply(old(View()), RunTask(Resume(k), true))
      ensures if stopped
        then generation == old(generation)
             && PathAnswered(old(sockets), old(tasks) - {Resume(k)}, k, false, sockets, tasks)
        else generation == old(generation) + 1 && sockets == old(sockets)
             && phase == (if reconnectAttempt > 0 then Reconnecting else Connecting)
             && tasks == old(tasks) - {Resume(k)}
                         + {Build(generation, sockets[k].chain, sockets[k].restarts + 1, Some(k))}
    {
      tasks := tasks - {Resume(k)};
      if stopped {
        SettlePromise(k, false);
      } else {
        CreateSocket(sockets[k].chain, sockets[k].restarts + 1, Some(k));
      }
    }

    // The promise of a connect call has settled.
    method OnFinished(chain: nat, good: bool)
      requires Valid() && Finish(chain, good) in tasks
      modifies this
      ensures Valid() && View() == Apply(old(View()), RunTask(Finish(chain, good), true))
      ensures !connecting && waiting == 0 && retries == old(retries) + if good then 0 else old(waiting)
    {
      tasks := tasks - {Finish(chain, good)};
      connecting := false;
      if !good {
        retries := retries + waiting;
      }
      waiting := 0;
    }

    // The connection.update handler of socket k.
    method OnConnectionUpdate(k: nat, update: Update)
      requires Valid() && k < |sockets|
      modifies this, controller`socket, controller`listening
      ensures Valid() && View() == Apply(old(View()), Deliver(k, update))
      ensures old(sockets)[k].generation != old(generation) ==> View() == old(View())
      ensures old(sockets)[k].generation == old(generation) ==>
        if update.Opened? then OpenedAs(old(View()), k, View()) else ClosedAs(old(View()), k, update.reason, View())
    {
      hide OnOpen, OnClose;
      if sockets[k].generation != generation {
        return;
      }
      if update.Opened? {
        OnOpened(k);
      } else {
        OnClosed(k, update.reason);
      }
    }

    method OnOpened(k: nat)
      requires Valid() && k < |sockets|
      modifies this
      ensures Valid() && View() == OnOpen(old(View()), k)
      ensures OpenedAs(old(View()), k, View())
    {
      hide Answer, Settle;
      reconnectAttempt := 0;
      phase := Connected;
      blocked := NotBlocked;
      Conclude(k, true);
    }

    // Marks the socket settled and settles its promise.
    method Conclude(k: nat, ok: bool)
      requires Valid() && k < |sockets|
      modifies this`sockets, this`tasks
      ensures Valid() && View() == old(View()).(book := Answer(Settle(old(View()).book, k), k, ok))
      ensures PathAnswered(old(sockets)[k := old(sockets)[k].(settled := true)], old(tasks), k, ok, sockets, tasks)
    {
      hide Answer;
      sockets := sockets[k := sockets[k].(settled := true)];
      SettlePromise(k, ok);
    }

    method BeginRestart(k: nat)
      requires Valid() && k < |sockets|
      modifies this`sockets, this`tasks, this`phase
      ensures Valid() && View() == old(View()).(phase := Reconnecting, book := AskRestart(old(View()).book, k))
    {
      sockets := sockets[k := sockets[k].(settled := true)];
      phase := Reconnecting;
      tasks := tasks + {Resume(k)};
    }

    method OnClosed(k: nat, reason: Closing)
      requires Valid() && k < |sockets|
      modifies this, controller`socket, controller`listening
      ensures Valid() && View() == OnClose(old(View()), k, reason)
      ensures ClosedAs(old(View()), k, reason, View())
    {
      hide Answer;
      SetSocketTo(None);
      if reason.RestartRequired? && !sockets[k].settled && !stopped && sockets[k].restarts < 2 {
        BeginRestart(k);
        return;
      }
      ghost var before := View();
      EndConnection(reason);
      EndedKeepsBook(before, reason);
      hide Connection.Ended;
      if !sockets[k].settled {
        Conclude(k, false);
      }
    }

    method EndConnection(reason: Closing)
      requires Valid()
      modifies this`phase, this`blocked, this`reconnectAttempt, this`reconnectTimer, this`armed
      ensures Valid() && View() == Connection.Ended(old(View()), reason)
    {
      if reason.ClosedLoggedOut? {
        phase, blocked := LoggedOut, BlockedLoggedOut;
      } else if reason.ClosedFatal? {
        phase, blocked := Fatal, BlockedFatal;
      } else {
        phase := Disconnected;
        Schedule();
      }
    }
  }

  lemma EndedKeepsBook(m: Manager, reason: Closing)
    ensures Connection.Ended(m, reason).book == m.book
  {
  }
}
