/** The supervisor process of manager.cpp as an object, proved against the functions of Supervisor. */
module Management {
  import opened Types
  import opened Kernel
  import opened Streams
  import opened Supervisor
  import opened ChildInvariant
  import opened OneRequest
  import opened Wiring
  import Collector
  import Settings

  /** How a handler ends: normally or by an exception. */
  datatype Status = Fine | Raised(cause: Cause)
  {
    predicate IsFailure() { Raised? }
    function PropagateFailure(): Status requires Raised? { this }
  }

  function OutcomeOf(r: Status, s: State): Outcome {
    match r case Fine => Ok(s) case Raised(cause) => Thrown(s, cause)
  }

  class Manager {
    const self: nat
    const keyfiles: Settings.Keyfiles
    const sticky: bool
    const out: Collector.Output
    const err: Collector.Output

    var connection: int
    var clonepid: int
    var epollfd: int
    var timerfd: int
    var synTimeout: int
    var isSyn: bool
    var resultSent: bool
    var status: ProcStatus
    var response: Response
    var request: Request
    var stop: bool        // process_stop

    var control: Control  // where the process is
    var k: Kernel         // the operating system, as this process sees it
    var sock: Socket
    var sys: System
    var asked: seq<Message>
    var marks: seq<Mark>

    function View(): State
      reads this, out, err
    {
      State(self, keyfiles, sticky, connection, clonepid, epollfd, timerfd, out.View(), err.View(),
            synTimeout, isSyn, resultSent, status, response, request, stop, control, k, sock, sys, asked, marks)
    }

    /** The start of manager_start: the statics, epoll_create1 and the first EPOLL_CTL_ADD. */
    constructor (self: nat, keyfiles: Settings.Keyfiles, sticky: bool, connectionFd: int, k: Kernel, sys: System)
      requires 0 <= connectionFd && connectionFd in k.fds && k.fds[connectionFd] == Conn && -1 !in k.fds
      requires forall fd :: fd in k.fds && fd != connectionFd ==> k.fds[fd] == Other
      requires k.interest == {} && k.pipes == []
      requires forall p :: p in sys.procs ==> 0 < p && sys.procs[p].parent != self
      requires forall p :: p in sys.registry ==> sys.registry[p].owner != self
      requires forall i :: 0 <= i < |sys.signals| ==> sys.signals[i].from != self
      ensures fresh(out) && fresh(err) && out != err && Init(View())
      ensures View().self == self && View().sys == sys && connection == connectionFd
    {
      this.self, this.keyfiles, this.sticky := self, keyfiles, sticky;
      out := new Collector.Output();
      err := new Collector.Output();
      connection, clonepid, timerfd, synTimeout, isSyn, resultSent := connectionFd, 0, -1, SYN_PERIOD, false, false;
      status, response, request, stop, control := NO_PROC, NO_RESPONSE, NO_REQUEST, false, Top;
      sock, asked, marks, this.sys := Socket([], [], [], false), [], [], sys;
      epollfd := NextFd(k);
      this.k := Watch(Open(k, Epoll), connectionFd);
    }

    // -------------------------------------------------------------------------------------------
    // The child
    // -------------------------------------------------------------------------------------------

    method SendTerm(pid: int, own: bool)
      modifies this`sys
      ensures View() == Supervisor.Kill(old(View()), pid, own)
    {
      var target := if pid in sys.procs then Some(sys.procs[pid]) else None;
      sys := sys.(signals := sys.signals + [Signal(self, pid, own, target, pid in sys.registry)]);
    }

    method StopChild()
      modifies this`sys
      ensures View() == Supervisor.StopChild(old(View()))
    {
      if status == PROC_RUNNING { SendTerm(clonepid, true); }
    }

    method ClearClonepid()
      modifies this
      ensures View() == Supervisor.ClearClonepid(old(View()))
    {
      if clonepid > 0 {
        var file := clonepid;
        clonepid := 0;
        sys := sys.(registry := sys.registry - {file});
      }
    }

    /** The part of wait_child for the command itself. */
    method ReapCommand(exit: WaitStatus)
      modifies this
      ensures View() == Supervisor.Reap(old(View()), exit)
    {
      hide Supervisor.ClearClonepid, Collector.Output.View;
      status := PROC_EXIT;
      marks := marks + [Reaped(exit)];
      if !(sticky && response.stat.TIMEOUT?) { response := response.(stat := StatOf(exit)); }
      if exit.Exited? { response := response.(retval := exit.code); }
      ClearClonepid();
    }

    /** waitpid until no child has anything to report, in whatever order the kernel reports them. */
    method WaitChild()
      requires forall p :: p in sys.procs ==> 0 < p
      modifies this
      ensures View() == Supervisor.WaitChild(old(View()))
    {
      ghost var s := View();
      var left := Zombies(View());
      ghost var done := {};
      ReapEnds(s);
      hide AfterReaping, Reap, Supervisor.WaitChild;
      while left != {}
        invariant left <= Zombies(s) && done == Zombies(s) - left && View() == AfterReaping(s, done)
        decreases |left|
      {
        var pid :| pid in left;
        ReapOneMore(s, done, pid);
        var exit := sys.procs[pid].exit.value;
        sys := sys.(procs := sys.procs - {pid});
        left, done := left - {pid}, done + {pid};
        if clonepid == pid { ReapCommand(exit); }
      }
      assert done == Zombies(s);
    }

    // -------------------------------------------------------------------------------------------
    // The end of the process
    // -------------------------------------------------------------------------------------------

    method CloseAll()
      modifies this`k
      ensures View() == old(View()).(k := Close(Close(Close(old(k), connection), epollfd), timerfd))
    {
      k := Close(k, connection);
      k := Close(k, epollfd);
      k := Close(k, timerfd);
    }

    method Finish(code: int, cause: Cause)
      modifies this
      ensures View() == Supervisor.Finish(old(View()), code, cause)
    {
      hide Close, Collector.Output.View;
      CloseAll();
      connection, epollfd, timerfd, control := -1, -1, -1, Done(code, cause);
    }

    /** manager_destroy up to its sleep, or all of it when no child runs. */
    method Destroy(code: int, cause: Cause)
      modifies this
      ensures View() == Supervisor.Destroy(old(View()), code, cause)
    {
      if status == PROC_RUNNING {
        SendTerm(clonepid, true);
        control := Dying(code, cause);
      } else {
        Finish(code, cause);
      }
    }

    /** manager_destroy after its sleep. */
    method Wake()
      requires control.Dying? && forall p :: p in sys.procs ==> 0 < p
      modifies this
      ensures View() == Supervisor.Wake(old(View()))
    {
      hide Supervisor.WaitChild, Supervisor.Finish;
      var code, cause := control.code, control.cause;
      WaitChild();
      Finish(code, cause);
    }

    // -------------------------------------------------------------------------------------------
    // Messages
    // -------------------------------------------------------------------------------------------

    method SendMessage(m: Message) returns (r: Status)
      modifies this
      ensures OutcomeOf(r, View()) == Supervisor.SendMessage(old(View()), m)
    {
      if connection == -1 { return Raised(BadDescriptor); }
      sock := sock.(outbox := sock.outbox + [m], sent := sock.sent + [m]);
      if m.kind != SYN && m.kind != ACK { resultSent := true; }
      return Fine;
    }

    /** The first directory of FIND_PATHS that has the command decides. */
    method FindCommand() returns (found: bool)
      modifies this`request
      ensures match Supervisor.FindCommand(old(k), old(request.args))
        case None => !found && View() == old(View())
        case Some(args) => found && View() == old(View()).(request := old(request).(args := args))
    {
      if |request.args| == 0 { return false; }
      var cmd := request.args[0];
      if cmd == "" { return false; }
      if cmd[0] == '/' {
        assert request.args == request.args[0 := cmd];
        return Exists(k, cmd) && cmd !in k.dirs;
      }
      var i := 0;
      while i < |FIND_PATHS|
        invariant i <= |FIND_PATHS| && View() == old(View())
        invariant Search(k, cmd, 0) == Search(k, cmd, i)
      {
        var abs := FIND_PATHS[i] + cmd;
        if Exists(k, abs) && abs !in k.dirs {
          request := request.(args := request.args[0 := abs]);
          return true;
        }
        i := i + 1;
      }
      return false;
    }

    method SetTimeout(c: Choice) returns (r: Status)
      modifies this
      ensures OutcomeOf(r, View()) == Supervisor.SetTimeout(old(View()), c)
    {
      hide Collector.Output.View, NextFd;
      var timeout := request.timeout;
      if timeout < 0 { return Fine; }
      timerfd := -1;
      if c.fault.TimerCreate? { return Raised(SetupFailed); }
      timerfd := NextFd(k);
      k := Open(k, Timer(0, false));
      if timeout == 0 {
        timeout := if request.backend then 7200 else 600;
      }
      if c.fault.TimerSet? { return Raised(SetupFailed); }
      k := k.(fds := k.fds[timerfd := Timer(timeout, false)]);
      assert k == Open(old(k), Timer(timeout, false));
      if c.fault.TimerWatch? { return Raised(SetupFailed); }
      k := Watch(k, timerfd);
      marks := marks + [Armed(timeout)];
      return Fine;
    }

    method LoadStreams(c: Choice) returns (r: Status)
      requires out != err
      modifies this, out, err
      ensures OutcomeOf(r, View()) == Supervisor.LoadStreams(old(View()), c)
    {
      hide Load;
      var k1, ok := out.Load(k, request.outmode, request.outfile, request.backend, c.fault.OutPipe?);
      k := k1;
      if !ok { return Raised(SetupFailed); }
      k1, ok := err.Load(k, request.errmode, request.errfile, request.backend, c.fault.ErrPipe?);
      k := k1;
      if !ok { return Raised(SetupFailed); }
      return Fine;
    }

    /** clone, the cgroup files, and the registry file. */
    method Spawn(raw: Request, c: Choice) returns (r: Status)
      modifies this
      ensures OutcomeOf(r, View()) == Supervisor.Spawn(old(View()), raw, c)
    {
      hide Inherit, Collector.Output.View;
      clonepid := if c.fault.Clone? then -1 else c.pid;
      if c.fault.Clone? { return Raised(SetupFailed); }
      k := Inherit(k);
      sys := sys.(procs := sys.procs[c.pid := Process(self, None)]);
      status := PROC_RUNNING;
      if c.fault.Cgroup? { return Raised(SetupFailed); }
      if c.fault.Register? { return Raised(SetupFailed); }
      sys := sys.(registry := sys.registry[clonepid := Entry(self, c.now, raw)]);
      return Fine;
    }

    method BindStreams(c: Choice) returns (r: Status)
      requires out != err
      modifies this, out, err
      ensures OutcomeOf(r, View()) == Supervisor.BindStreams(old(View()), c)
    {
      hide Bind;
      var k1, ok := out.Bind(k, c.fault.OutFile?, c.fault.OutWatch?);
      k := k1;
      if !ok { return Raised(SetupFailed); }
      k1, ok := err.Bind(k, c.fault.ErrFile?, c.fault.ErrWatch?);
      k := k1;
      if !ok { return Raised(SetupFailed); }
      return Fine;
    }

    method HandleRequest(raw: Request, c: Choice) returns (r: Status)
      requires out != err
      modifies this, out, err
      ensures OutcomeOf(r, View()) == Supervisor.HandleRequest(old(View()), raw, c)
    {
      if clonepid > 0 { return Fine; }
      hide Supervisor.FindCommand, Supervisor.StartCommand;
      if request.backend { synTimeout := -1; }
      var found := FindCommand();
      if found {
        r := StartCommand(raw, c);
      } else {
        r := SendMessage(Reply(NO_RESPONSE.(stat := BADARGS)));
      }
    }

    method StartCommand(raw: Request, c: Choice) returns (r: Status)
      requires out != err
      modifies this, out, err
      ensures OutcomeOf(r, View()) == Supervisor.StartCommand(old(View()), raw, c)
    {
      hide Supervisor.LoadStreams, Supervisor.Spawn, Supervisor.Furnish;
      ghost var backend := request.backend;
      KeepsRequest(View(), raw, c);
      :- LoadStreams(c);
      :- Spawn(raw, c);
      r := Furnish(c);
    }

    method Furnish(c: Choice) returns (r: Status)
      requires out != err
      modifies this, out, err
      ensures OutcomeOf(r, View()) == Supervisor.Furnish(old(View()), old(request.backend), c)
    {
      hide Supervisor.BindStreams, Supervisor.SetTimeout;
      KeepsBackend(View(), c);
      :- BindStreams(c);
      :- SetTimeout(c);
      if request.backend {
        r := SendMessage(Reply(NO_RESPONSE));
      } else {
        r := Fine;
      }
    }

    method RecvMessage(c: Choice) returns (r: Status)
      requires out != err && forall i :: 0 <= i < |c.order| ==> c.order[i] in sys.registry
      modifies this, out, err
      ensures OutcomeOf(r, View()) == Supervisor.RecvMessage(old(View()), c)
    {
      if sock.inbox == [] {
        CloseConnection();
        return Fine;
      }
      var m := sock.inbox[0];
      sock := sock.(inbox := sock.inbox[1..]);
      if m.Asks() { asked := asked + [m]; }
      hide Supervisor.Answer, Supervisor.CloseConnection;
      r := Answer(m, c);
    }

    method CloseConnection()
      modifies this
      ensures View() == Supervisor.CloseConnection(old(View()))
    {
      synTimeout := -1;
      k := Unwatch(k, connection);
      k := Close(k, connection);
      connection := -1;
      if !request.backend && !resultSent { StopChild(); }
    }

    /** The switch of recv_message. */
    method Answer(m: Message, c: Choice) returns (r: Status)
      requires out != err && forall i :: 0 <= i < |c.order| ==> c.order[i] in sys.registry
      modifies this, out, err
      ensures OutcomeOf(r, View()) == Supervisor.Answer(old(View()), m, c)
    {
      hide Supervisor.HandleRequest, Settings.LoadRequest;
      match m.kind
      case SYN => r := SendMessage(m);
      case ACK =>
        isSyn := false;
        r := Fine;
      case EXE =>
        request := Settings.LoadRequest(keyfiles, m.request);
        r := HandleRequest(m.request, c);
      case LIST =>
        request := request.(backend := false);
        var list := ReadRegistry(c.order);
        r := SendMessage(Bare(LIST).(runlist := list));
      case STOP =>
        StopAll(m.runlist);
        r := SendMessage(Bare(STOP));
    }

    /** The directory loop of a LIST request. */
    method ReadRegistry(order: seq<int>) returns (list: seq<Runproc>)
      requires forall i :: 0 <= i < |order| ==> order[i] in sys.registry
      ensures list == Listing(sys.registry, order)
    {
      list := [];
      var i := 0;
      while i < |order|
        invariant 0 <= i <= |order| && list + Listing(sys.registry, order[i..]) == Listing(sys.registry, order)
      {
        var entry := sys.registry[order[i]];
        list := list + [Runproc(order[i], entry.since, entry.request)];
        assert order[i..][1..] == order[i + 1..];
        i := i + 1;
      }
    }

    /** The loop of a STOP request. */
    method StopAll(list: seq<Runproc>)
      modifies this`sys
      ensures View() == StopListed(old(View()), list)
    {
      var i := 0;
      assert list[0..] == list;
      while i < |list|
        invariant 0 <= i <= |list| && StopListed(View(), list[i..]) == StopListed(old(View()), list)
      {
        assert list[i..][0] == list[i] && list[i..][1..] == list[i + 1..];
        if list[i].pid in sys.registry { SendTerm(list[i].pid, false); }
        i := i + 1;
      }
    }

    // -------------------------------------------------------------------------------------------
    // The event loop
    // -------------------------------------------------------------------------------------------

    /** The result of a finished command. */
    method SendResult() returns (r: Status)
      modifies this
      ensures var s := old(View());
        OutcomeOf(r, View()) ==
          match Supervisor.SendMessage(s, Reply(ResultOf(s)))
          case Ok(t) => Ok(t.(marks := s.marks + [Replied(ResultOf(s))]))
          case Thrown(t, cause) => Thrown(t, cause)
    {
      var result := response.(outstr := out.str, errstr := err.str);
      r := SendMessage(Reply(result));
      if r.Fine? { marks := marks + [Replied(result)]; }
    }

    /** From the top of the loop to epoll_wait. */
    method LoopTop()
      requires forall p :: p in sys.procs ==> 0 < p
      modifies this
      ensures View() == Supervisor.LoopTop(old(View()))
    {
      hide Supervisor.WaitChild, Supervisor.Destroy, Supervisor.StopChild, Supervisor.SendMessage, ResultOf;
      WaitChild();
      if status == PROC_EXIT && out.over && err.over {
        if connection == -1 || stop {
          Destroy(0, Finished);
          return;
        } else if !resultSent {
          var sent := SendResult();
          if sent.Raised? {
            Destroy(-1, sent.cause);
            return;
          }
        }
      } else if status == NO_PROC {
        if connection == -1 {
          Destroy(0, Finished);
          return;
        }
      }
      if stop { StopChild(); }
      control := Poll;
    }

    /** epoll_wait returned `r`. */
    method EpollReturns(r: Poll)
      requires control.Poll?
      modifies this
      ensures View() == Supervisor.Wait(old(View()), r)
    {
      hide Supervisor.Destroy, Supervisor.SendMessage;
      if r.Expired? && !request.backend && connection != -1 {
        if isSyn {
          Destroy(-1, SynTimeout);
          return;
        }
        isSyn := true;
        var sent := SendMessage(Bare(SYN));
        if sent.Raised? {
          Destroy(-1, sent.cause);
          return;
        }
      }
      control := if r.Events? then Batch(r.fds) else Top;
    }

    /** The end of the timer: EPOLL_CTL_DEL and closefd. */
    method DropTimer()
      modifies this`k, this`timerfd
      ensures View() == old(View()).(k := Close(Unwatch(old(k), old(timerfd)), old(timerfd)), timerfd := -1)
    {
      k := Close(Unwatch(k, timerfd), timerfd);
      timerfd := -1;
    }

    method TimerFires()
      modifies this`sys, this`k, this`timerfd, this`marks, this`response
      ensures View() == Supervisor.TimerFires(old(View()))
    {
      StopChild();
      hide Close, Unwatch, Supervisor.StopChild;
      DropTimer();
      marks := marks + [Fired];
      response := response.(stat := TIMEOUT);
    }

    method HandleEvent(fd: int, c: Choice) returns (r: Status)
      requires out != err && Fits(View(), fd, c)
      modifies this, out, err
      ensures OutcomeOf(r, View()) == Supervisor.HandleEvent(old(View()), fd, c)
    {
      hide Supervisor.RecvMessage, Supervisor.TimerFires, Receive;
      r := Fine;
      if fd == connection {
        r := RecvMessage(c);
      } else if fd == out.rd {
        var k1 := out.Receive(k, c.chunks);
        k := k1;
      } else if fd == err.rd {
        var k1 := err.Receive(k, c.chunks);
        k := k1;
      } else if timerfd != -1 && fd == timerfd {
        TimerFires();
      }
    }

    /** One turn of the loop over the events. */
    method Dispatch(c: Choice)
      requires out != err && control.Batch? && control.events != [] && Fits(View(), control.events[0], c)
      modifies this, out, err
      ensures View() == Supervisor.Dispatch(old(View()), c)
    {
      hide Supervisor.HandleEvent, Supervisor.Destroy;
      var events := control.events;
      var r := HandleEvent(events[0], c);
      if r.Raised? {
        Destroy(-1, r.cause);
      } else {
        control := if events[1..] == [] then Top else Batch(events[1..]);
      }
    }

    /** What happens at the far ends of its pipes and timers. */
    method Signalled(a: Action)
      requires (a.Write? || a.Release? || a.Expire?) && Enabled(View(), a)
      modifies this`k
      ensures View() == Step(old(View()), a)
    {
      match a
      case Write(p, bytes) =>
        var q := k.pipes[p];
        k := k.(pipes := k.pipes[p := q.(pending := q.pending + bytes, total := q.total + bytes)]);
      case Release(p) => k := k.(pipes := k.pipes[p := k.pipes[p].(held := false)]);
      case Expire(fd) => k := k.(fds := k.fds[fd := k.fds[fd].(expired := true)]);
    }

    /** What happens in the rest of the system: to the child, to the connection, to other supervisors. */
    method Outside(a: Action)
      requires Enabled(View(), a) && !a.Enter? && !a.Return? && !a.Handle? && !a.Awake?
      modifies this`k, this`sock, this`sys, this`stop
      ensures View() == Step(old(View()), a)
    {
      hide Rely, Collector.Output.View;
      if a.Write? || a.Release? || a.Expire? {
        Signalled(a);
        return;
      }
      match a
      case Die(pid, exit) => sys := sys.(procs := sys.procs[pid := sys.procs[pid].(exit := Some(exit))]);
      case Arrive(m) => sock := sock.(inbox := sock.inbox + [m]);
      case Fetch => sock := sock.(outbox := sock.outbox[1..]);
      case Hangup => sock := sock.(closed := true);
      case Terminate => stop := true;
      case Others(sys') => sys := sys';
      case Adopt(pid) => sys := sys.(procs := sys.procs - {pid});
    }

    /** manager_start from its first turn on, for as long as the system goes on as in `schedule`. */
    method Start(schedule: seq<Action>)
      requires out != err && Init(View())
      requires forall i :: 0 <= i < |schedule| ==> Enabled(Run(View(), schedule[..i]), schedule[i])
      modifies this, out, err
      ensures View() == Run(old(View()), schedule)
    {
      ghost var s := View();
      for i := 0 to |schedule|
        invariant View() == Run(s, schedule[..i])
      {
        RunChild(s, schedule[..i]);
        assert schedule[..i + 1][..i] == schedule[..i];
        Turn(schedule[i]);
      }
      assert schedule[..|schedule|] == schedule;
    }

    method Turn(a: Action)
      requires out != err && Child(View()) && Enabled(View(), a)
      modifies this, out, err
      ensures View() == Step(old(View()), a)
    {
      assert forall p :: p in sys.procs ==> 0 < p;
      hide Child, Supervisor.LoopTop, Supervisor.Wait, Supervisor.Dispatch, Supervisor.Wake, Rely, Returns;
      match a
      case Enter => LoopTop();
      case Return(r) => EpollReturns(r);
      case Handle(c) => Dispatch(c);
      case Awake => Wake();
      case _ => Outside(a);
    }
  }

  lemma KeepsRequest(s: State, raw: Request, c: Choice)
    ensures Supervisor.LoadStreams(s, c).state.request == s.request
    ensures forall t: State :: Supervisor.Spawn(t, raw, c).state.request == t.request
  {
  }

  lemma KeepsBackend(s: State, c: Choice)
    ensures Supervisor.BindStreams(s, c).state.request == s.request
    ensures forall t: State :: Supervisor.SetTimeout(t, c).state.request == t.request
  {
  }

  /** The state after the children in `done` were reaped. */
  ghost function AfterReaping(s: State, done: set<int>): State
    requires done <= Zombies(s)
  {
    var s1 := s.(sys := s.sys.(procs := s.sys.procs - done));
    if s.clonepid in done then Reap(s1, s.sys.procs[s.clonepid].exit.value) else s1
  }

  lemma ReapEnds(s: State)
    ensures AfterReaping(s, {}) == s && AfterReaping(s, Zombies(s)) == WaitChild(s)
  {
    assert s.sys.procs - {} == s.sys.procs;
  }

  /** Reaping the command does not look at the table of processes and does not change it. */
  lemma ReapFrame(s: State, exit: WaitStatus, procs: map<int, Process>)
    requires 0 < s.clonepid
    ensures var t := Reap(s, exit);
      && t.clonepid == 0 && t.sys.procs == s.sys.procs
      && Reap(s.(sys := s.sys.(procs := procs)), exit) == t.(sys := t.sys.(procs := procs))
  {
    hide StatOf;
  }

  lemma ReapOneMore(s: State, done: set<int>, pid: int)
    requires done <= Zombies(s) && pid in Zombies(s) && pid !in done && forall p :: p in s.sys.procs ==> 0 < p
    ensures var t := AfterReaping(s, done);
      && pid in t.sys.procs && t.sys.procs[pid] == s.sys.procs[pid]
      && var u := t.(sys := t.sys.(procs := t.sys.procs - {pid}));
        AfterReaping(s, done + {pid}) == if t.clonepid == pid then Reap(u, s.sys.procs[pid].exit.value) else u
  {
    hide Reap;
    var s1 := s.(sys := s.sys.(procs := s.sys.procs - done));
    if s.clonepid in done {
      ReapFrame(s1, s.sys.procs[s.clonepid].exit.value, s.sys.procs - (done + {pid}));
    }
    assert s.sys.procs - done - {pid} == s.sys.procs - (done + {pid});
  }
}
