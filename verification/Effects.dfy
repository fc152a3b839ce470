/** What single handlers and single turns of the loop do, said without the functions that define them. */
module Effects {
  import opened Types
  import opened Kernel
  import opened Streams
  import opened StreamInvariant
  import opened Supervisor
  import opened ChildInvariant
  import opened Wiring
  import opened OneRequest
  import opened Guarantees
  import Settings

  // ---------------------------------------------------------------------------------------------
  // Finding the command
  // ---------------------------------------------------------------------------------------------

  /** A file that exists and is no directory. */
  predicate Plain(k: Kernel, path: string) { path in k.files && path !in k.dirs }

  /** Directory `i` of find_paths is the first that has `cmd`. */
  ghost predicate FirstHit(k: Kernel, cmd: string, i: int) {
    0 <= i < |FIND_PATHS| && Plain(k, FIND_PATHS[i] + cmd) && forall j :: 0 <= j < i ==> !Plain(k, FIND_PATHS[j] + cmd)
  }

  lemma {:induction false} SearchFirst(k: Kernel, cmd: string, n: nat)
    requires n <= |FIND_PATHS| && forall j :: 0 <= j < n ==> !Plain(k, FIND_PATHS[j] + cmd)
    ensures match Search(k, cmd, n)
      case None => forall j :: 0 <= j < |FIND_PATHS| ==> !Plain(k, FIND_PATHS[j] + cmd)
      case Some(path) => exists i :: FirstHit(k, cmd, i) && path == FIND_PATHS[i] + cmd
    decreases |FIND_PATHS| - n
  {
    if n < |FIND_PATHS| {
      if Runnable(k, FIND_PATHS[n] + cmd) {
        assert FirstHit(k, cmd, n);
      } else {
        SearchFirst(k, cmd, n + 1);
      }
    }
  }

  /** An absolute name is accepted as it stands iff it is a plain file. A relative one is accepted iff some
      directory of find_paths has it, and then the first such path replaces the name; the other arguments stay.
      Without a name nothing is accepted. */
  lemma CommandFound(k: Kernel, args: seq<string>)
    ensures args == [] || args[0] == "" ==> FindCommand(k, args).None?
    ensures args != [] && args[0] != "" && args[0][0] == '/' ==>
      FindCommand(k, args) == if Plain(k, args[0]) then Some(args) else None
    ensures args != [] && args[0] != "" && args[0][0] != '/' ==>
      var found := FindCommand(k, args);
      && (found.Some? <==> exists j :: 0 <= j < |FIND_PATHS| && Plain(k, FIND_PATHS[j] + args[0]))
      && (found.Some? ==>
        && |found.value| == |args| && found.value[1..] == args[1..]
        && exists i :: FirstHit(k, args[0], i) && found.value[0] == FIND_PATHS[i] + args[0])
  {
    if args != [] && args[0] != "" && args[0][0] != '/' {
      SearchFirst(k, args[0], 0);
      hide Search, FIND_PATHS;
      var found := FindCommand(k, args);
      if found.Some? { assert found.value == args[0 := found.value[0]]; }
    }
  }

  // ---------------------------------------------------------------------------------------------
  // Starting the command
  // ---------------------------------------------------------------------------------------------

  /** No system call that the request needs fails, and the files it redirects to exist. */
  predicate Startable(k: Kernel, r: Request, connected: bool, fault: Fault) {
    && !fault.Clone? && !fault.Cgroup? && !fault.Register?
    && (Pipes(r.outmode, r.backend) ==> !fault.OutPipe? && !fault.OutWatch?)
    && (Pipes(r.errmode, r.backend) ==> !fault.ErrPipe? && !fault.ErrWatch?)
    && (r.outmode.FILE? ==> Exists(k, r.outfile) && !fault.OutFile?)
    && (r.errmode.FILE? ==> Exists(k, r.errfile) && !fault.ErrFile?)
    && (0 <= r.timeout ==> !fault.TimerCreate? && !fault.TimerSet? && !fault.TimerWatch?)
    && (r.backend ==> connected)
  }

  predicate Pipes(mode: OutMode, backend: bool) { mode.FILE? || (mode.MSG? && !backend) }

  lemma LoadedIff(s: State, c: Choice)
    requires s.out == CLOSED && s.err == CLOSED
    ensures var r, o := s.request, LoadStreams(s, c);
      && (o.Ok? <==>
        && (Pipes(r.outmode, r.backend) ==> !c.fault.OutPipe?) && (r.outmode.FILE? ==> Exists(s.k, r.outfile))
        && (Pipes(r.errmode, r.backend) ==> !c.fault.ErrPipe?) && (r.errmode.FILE? ==> Exists(s.k, r.errfile)))
      && (o.Ok? ==>
        && (o.state.out.rd != -1 <==> Pipes(r.outmode, r.backend)) && (o.state.err.rd != -1 <==> Pipes(r.errmode, r.backend))
        && o.state.out.mode == r.outmode && o.state.out.redirectTo == r.outfile
        && o.state.err.mode == r.errmode && o.state.err.redirectTo == r.errfile)
  {
    hide Load;
    var r := s.request;
    LoadParts(s.k, r.outmode, r.outfile, r.backend, c.fault.OutPipe?);
    var a := Load(s.k, s.out, r.outmode, r.outfile, r.backend, c.fault.OutPipe?);
    LoadParts(a.kernel, r.errmode, r.errfile, r.backend, c.fault.ErrPipe?);
  }

  lemma LoadParts(k: Kernel, mode: OutMode, path: string, backend: bool, full: bool)
    ensures var a := Load(k, CLOSED, mode, path, backend, full);
      && (a.ok <==> (Pipes(mode, backend) ==> !full) && (mode.FILE? ==> Exists(k, path)))
      && (a.ok ==> (a.stream.rd != -1 <==> Pipes(mode, backend)))
      && a.stream.mode == mode && a.stream.redirectTo == path && a.kernel.files == k.files && a.kernel.dirs == k.dirs
  {
  }

  lemma BoundIff(s: State, c: Choice)
    ensures var o := BindStreams(s, c);
      && (o.Ok? <==>
        && (s.out.rd != -1 ==> !c.fault.OutWatch? && (s.out.mode.FILE? ==> !c.fault.OutFile?))
        && (s.err.rd != -1 ==> !c.fault.ErrWatch? && (s.err.mode.FILE? ==> !c.fault.ErrFile?)))
      && (o.Ok? ==>
        && o.state.out.mode == s.out.mode && o.state.out.redirectTo == s.out.redirectTo
        && o.state.err.mode == s.err.mode && o.state.err.redirectTo == s.err.redirectTo)
  {
    hide Open, NextFd, Watch, Close;
  }

  lemma TimerIff(s: State, c: Choice)
    ensures SetTimeout(s, c).Ok? <==>
      (0 <= s.request.timeout ==> !c.fault.TimerCreate? && !c.fault.TimerSet? && !c.fault.TimerWatch?)
  {
    hide Open, NextFd, Watch, EffectiveTimeout;
  }

  /** What the state says of a command just started: its pid, its entry, its process, and where its streams go. */
  ghost predicate Runs(s: State, t: State, r: Request, raw: Request, c: Choice) {
    && t.status == PROC_RUNNING && t.clonepid == c.pid && t.request == r
    && t.sys == s.sys.(procs := s.sys.procs[c.pid := Process(s.self, None)],
                       registry := s.sys.registry[c.pid := Entry(s.self, c.now, raw)])
    && t.out.mode == r.outmode && t.out.redirectTo == r.outfile && t.err.mode == r.errmode && t.err.redirectTo == r.errfile
    && t.sock == (if r.backend then s.sock.(outbox := s.sock.outbox + [Reply(NO_RESPONSE)], sent := s.sock.sent + [Reply(NO_RESPONSE)]) else s.sock)
    && t.resultSent == (s.resultSent || r.backend)
  }

  lemma FurnishedIff(s: State, backend: bool, c: Choice)
    ensures var o := Furnish(s, backend, c);
      && (o.Ok? <==>
        && (s.out.rd != -1 ==> !c.fault.OutWatch? && (s.out.mode.FILE? ==> !c.fault.OutFile?))
        && (s.err.rd != -1 ==> !c.fault.ErrWatch? && (s.err.mode.FILE? ==> !c.fault.ErrFile?))
        && (0 <= s.request.timeout ==> !c.fault.TimerCreate? && !c.fault.TimerSet? && !c.fault.TimerWatch?)
        && (backend ==> s.connection != -1))
      && (o.Ok? ==>
        && o.state == s.(k := o.state.k, out := o.state.out, err := o.state.err, timerfd := o.state.timerfd,
                         marks := o.state.marks, sock := o.state.sock, resultSent := s.resultSent || backend)
        && o.state.out.mode == s.out.mode && o.state.out.redirectTo == s.out.redirectTo
        && o.state.err.mode == s.err.mode && o.state.err.redirectTo == s.err.redirectTo
        && o.state.sock == (if backend then s.sock.(outbox := s.sock.outbox + [Reply(NO_RESPONSE)], sent := s.sock.sent + [Reply(NO_RESPONSE)]) else s.sock))
  {
    hide BindStreams, SetTimeout;
    BoundIff(s, c);
    BindFrame(s, c);
    var o := BindStreams(s, c);
    if o.Ok? {
      TimerIff(o.state, c);
      TimerFrame(o.state, c);
    }
  }

  lemma StartsIff(s: State, raw: Request, c: Choice)
    requires s.out == CLOSED && s.err == CLOSED
    ensures var o := StartCommand(s, raw, c);
      && (o.Ok? <==> Startable(s.k, s.request, s.connection != -1, c.fault))
      && (o.Ok? ==> Runs(s, o.state, s.request, raw, c))
  {
    hide LoadStreams, Furnish, Inherit;
    LoadedIff(s, c);
    LoadFrame(s, c);
    var o1 := LoadStreams(s, c);
    if o1.Ok? {
      var o2 := Spawn(o1.state, raw, c);
      if o2.Ok? { FurnishedIff(o2.state, s.request.backend, c); }
    }
  }

  // ---------------------------------------------------------------------------------------------
  // A request to execute
  // ---------------------------------------------------------------------------------------------

  /** A first request to execute, as the configuration completes it. Not found: one BADARGS, and nothing else.
      Found: it runs, with the arguments find_command leaves, exactly if no call it needs fails; a failure is
      thrown. */
  lemma ExecuteAnswered(s: State, c: Choice)
    requires Reached(s) && InLoop(s) && s.status == NO_PROC && s.connection != -1
    requires s.sock.inbox != [] && s.sock.inbox[0].kind.EXE? && Fits(s, s.connection, c)
    ensures var m, o := s.sock.inbox[0], HandleEvent(s, s.connection, c);
      var r := Settings.LoadRequest(s.keyfiles, m.request);
      var bad := Reply(NO_RESPONSE.(stat := BADARGS));
      match FindCommand(s.k, r.args)
      case None =>
        o == Ok(Accept(s).(request := r, synTimeout := if r.backend then -1 else s.synTimeout, resultSent := true,
          sock := Accept(s).sock.(outbox := s.sock.outbox + [bad], sent := s.sock.sent + [bad])))
      case Some(args) =>
        && (o.Ok? <==> Startable(s.k, r.(args := args), true, c.fault)) && (o.Thrown? ==> o.cause == SetupFailed)
        && (o.Ok? ==> Runs(Accept(s), o.state, r.(args := args), m.request, c))
  {
    hide Reached, Child, One, FindCommand, StartCommand, Settings.LoadRequest, Startable, Runs, Plumbing, HandleEvent, Fits;
    ReachedInvariants(s);
    IdleStart(s);
    ExecuteReaches(s, c);
    var m := s.sock.inbox[0];
    var r := Settings.LoadRequest(s.keyfiles, m.request);
    var found := FindCommand(s.k, r.args);
    if found.Some? {
      var s1 := Accept(s).(request := r);
      var s2 := (if r.backend then s1.(synTimeout := -1) else s1).(request := r.(args := found.value));
      StartsIff(s2, m.request, c);
      StartThrows(s2, m.request, c);
      RunsFrame(s2, Accept(s), StartCommand(s2, m.request, c).state, r.(args := found.value), m.request, c);
    }
  }

  lemma ExecuteReaches(s: State, c: Choice)
    requires s.connection != -1
    requires s.sock.inbox != [] && s.sock.inbox[0].kind.EXE? && Fits(s, s.connection, c)
    ensures var m := s.sock.inbox[0];
      HandleEvent(s, s.connection, c) ==
        HandleRequest(Accept(s).(request := Settings.LoadRequest(s.keyfiles, m.request)), m.request, c)
  {
    hide HandleRequest, Settings.LoadRequest, Splits;
  }

  lemma IdleStart(s: State)
    requires Child(s) && One(s) && InLoop(s) && s.status == NO_PROC
    ensures s.clonepid <= 0 && s.out == CLOSED && s.err == CLOSED
  {
    hide Replies, Story, Timing, Wired, Fresh;
  }

  lemma StartThrows(s: State, raw: Request, c: Choice)
    requires s.connection != -1
    ensures StartCommand(s, raw, c).Thrown? ==> StartCommand(s, raw, c).cause == SetupFailed
  {
    hide Load, Bind, Inherit, Open, NextFd, Watch;
  }

  lemma RunsFrame(s: State, s': State, t: State, r: Request, raw: Request, c: Choice)
    requires s'.self == s.self && s'.sys == s.sys && s'.sock == s.sock && s'.resultSent == s.resultSent
    ensures Runs(s, t, r, raw, c) ==> Runs(s', t, r, raw, c)
  {
  }

  /** While a command runs, a further request to execute is read and dropped; it replaces the request kept. */
  lemma ExecuteRefused(s: State, c: Choice)
    requires s.connection != -1 && 0 < s.clonepid
    requires s.sock.inbox != [] && s.sock.inbox[0].kind.EXE? && Fits(s, s.connection, c)
    ensures HandleEvent(s, s.connection, c) ==
      Ok(Accept(s).(request := Settings.LoadRequest(s.keyfiles, s.sock.inbox[0].request)))
  {
    hide Settings.LoadRequest, Splits;
  }

  /** A SYN is answered by itself, an ACK ends the round. */
  lemma KeepaliveAnswered(s: State, c: Choice)
    requires s.connection != -1 && s.sock.inbox != [] && Fits(s, s.connection, c)
    ensures var m, o := s.sock.inbox[0], HandleEvent(s, s.connection, c);
      && (m.kind.SYN? ==> o == Ok(Accept(s).(sock := Accept(s).sock.(outbox := s.sock.outbox + [m], sent := s.sock.sent + [m]))))
      && (m.kind.ACK? ==> o == Ok(Accept(s).(isSyn := false)))
  {
    hide HandleRequest, Listing, StopListed, Splits;
  }

  /** The client hangs up: keepalive is off, its descriptor is unwatched and closed, and the command is sent
      SIGTERM exactly if it is alive, in the foreground, and still owes its result. */
  lemma HangupAnswered(s: State, c: Choice)
    requires s.connection != -1 && s.sock.inbox == [] && Fits(s, s.connection, c)
    ensures var o := HandleEvent(s, s.connection, c);
      var t := o.state;
      && o.Ok? && t == s.(synTimeout := -1, connection := -1, k := t.k, sys := s.sys.(signals := t.sys.signals))
      && t.k == s.k.(interest := s.k.interest - {s.connection}, fds := s.k.fds - {s.connection})
      && (if s.status == PROC_RUNNING && !s.request.backend && !s.resultSent then
            && |t.sys.signals| == |s.sys.signals| + 1 && s.sys.signals < t.sys.signals
            && t.sys.signals[|s.sys.signals|].own && t.sys.signals[|s.sys.signals|].pid == s.clonepid
          else t.sys.signals == s.sys.signals)
  {
    hide Splits;
  }

  // ---------------------------------------------------------------------------------------------
  // Reaping
  // ---------------------------------------------------------------------------------------------

  /** The command of `s` has ended with `exit`. */
  ghost predicate Dead(s: State, exit: WaitStatus) {
    s.status == PROC_RUNNING && s.clonepid in s.sys.procs && s.sys.procs[s.clonepid].exit == Some(exit)
  }

  /** wait_child takes a command that has ended: its process and its entry are gone, and its end is kept. */
  lemma DeadIsReaped(s: State, exit: WaitStatus)
    requires Steady(s) && Dead(s, exit)
    ensures var t := WaitChild(s);
      && t.status == PROC_EXIT && t.clonepid == 0 && t.marks == s.marks + [Reaped(exit)]
      && t.sys.procs == s.sys.procs - {s.clonepid} && t.sys.registry == s.sys.registry - {s.clonepid}
      && t.sys.signals == s.sys.signals
      && t.response.retval == (if exit.Exited? then exit.code else s.response.retval)
      && (!s.sticky ==> (t.response.stat == NORMAL <==> exit.Exited?) && (t.response.stat == ABNORMAL <==> !exit.Exited?))
  {
    assert Zombies(s) == {s.clonepid};
  }

  /** wait_child does nothing else: without an ended command there is nothing to take. */
  lemma LivingIsKept(s: State)
    requires Steady(s) && forall exit :: !Dead(s, exit)
    ensures WaitChild(s) == s
  {
    ZombiesAreDead(s);
    assert s.sys.procs - {} == s.sys.procs;
  }

  lemma ZombiesAreDead(s: State)
    requires Steady(s)
    ensures Zombies(s) == {} || exists exit :: Dead(s, exit)
  {
    if Zombies(s) != {} {
      var pid :| pid in Zombies(s);
      assert Dead(s, s.sys.procs[pid].exit.value);
    }
  }

  /** In every turn of the loop a command that has ended is reaped before anything else happens. */
  lemma TurnReaps(s: State, exit: WaitStatus)
    requires Child(s) && s.control.Top? && Dead(s, exit)
    ensures var t := Step(s, Enter);
      t.status == PROC_EXIT && s.clonepid !in t.sys.procs && s.clonepid !in t.sys.registry && Reaped(exit) in t.marks
  {
    hide Child, WaitChild, SteadyAt;
    LoopChild(s);
    DeadIsReaped(s, exit);
    TopAfterReap(s);
    assert WaitChild(s).marks[|s.marks|] == Reaped(exit);
  }

  lemma TopAfterReap(s: State)
    requires WaitChild(s).status == PROC_EXIT
    ensures var s1, t := WaitChild(s), LoopTop(s);
      t.status == PROC_EXIT && t.sys == s1.sys && s1.marks <= t.marks
  {
    hide WaitChild, Close;
  }

  /** A turn with a command that is still running goes on to epoll_wait, whatever became of the client. On
      shutdown it sends the command SIGTERM, once; otherwise, and without a live command, it signals nobody. */
  lemma ShutdownSignals(s: State)
    requires Child(s) && s.control.Top?
    ensures var t := Step(s, Enter);
      && (s.stop && t.status == PROC_RUNNING ==>
        t.sys.signals == s.sys.signals + [Signal(s.self, s.clonepid, true, Some(s.sys.procs[s.clonepid]), true)])
      && (!s.stop || t.status != PROC_RUNNING ==> t.sys.signals == s.sys.signals)
      && (t.status == PROC_RUNNING ==> t == s.(control := Poll, sys := s.sys.(signals := t.sys.signals)))
  {
    hide LoopTop, Child, SteadyAt, WaitChild;
    LoopChild(s);
    if s.status == PROC_RUNNING { ListedHere(s); }
    if forall exit :: !Dead(s, exit) {
      LivingIsKept(s);
      TurnGoesOn(s);
    } else {
      var exit :| Dead(s, exit);
      DeadIsReaped(s, exit);
      TopAfterReap(s);
    }
  }

  lemma TurnGoesOn(s: State)
    requires WaitChild(s) == s && (s.status == PROC_RUNNING ==> s.clonepid in s.sys.procs && s.clonepid in s.sys.registry)
    ensures var t := LoopTop(s);
      && (s.status == PROC_RUNNING && !s.stop ==> t == s.(control := Poll))
      && (s.status == PROC_RUNNING && s.stop ==>
        t == s.(control := Poll, sys := s.sys.(signals :=
          s.sys.signals + [Signal(s.self, s.clonepid, true, Some(s.sys.procs[s.clonepid]), true)])))
      && (s.status != PROC_RUNNING ==> t.sys == s.sys && t.status == s.status)
  {
    hide WaitChild, Close;
  }

  lemma ListedHere(s: State)
    requires Listed(s) && s.status == PROC_RUNNING
    ensures s.clonepid in s.sys.procs && s.clonepid in s.sys.registry
  {
  }

  /** manager_destroy, awake again: a command that has ended meanwhile is reaped and its entry removed, one that
      has not keeps both; and the three descriptors are closed. */
  lemma WakeEnds(s: State)
    requires Child(s) && s.control.Dying?
    ensures var t := Step(s, Awake);
      && t.control == Done(s.control.code, s.control.cause) && Closed(s, t) && t.sys.signals == s.sys.signals
      && (forall exit :: Dead(s, exit) ==>
        t.status == PROC_EXIT && s.clonepid !in t.sys.procs && s.clonepid !in t.sys.registry && Reaped(exit) in t.marks)
      && ((forall exit :: !Dead(s, exit)) ==> t.sys == s.sys && t.status == s.status)
  {
    hide WaitChild, Close;
    assert Steady(s);
    hide Child, SteadyAt;
    WaitKeepsTable(s);
    FinishCloses(WaitChild(s), s.control.code, s.control.cause);
    if exit :| Dead(s, exit) {
      DeadIsReaped(s, exit);
      assert WaitChild(s).marks[|s.marks|] == Reaped(exit);
      assert forall exit' :: Dead(s, exit') ==> exit' == exit;
    } else {
      LivingIsKept(s);
    }
  }

  /** Connection, epoll set and timer are closed, and nothing else is. */
  ghost predicate Closed(s: State, t: State) {
    && t.connection == t.epollfd == t.timerfd == -1
    && (forall fd :: fd in t.k.fds <==> fd in s.k.fds && (fd == -1 || fd !in {s.connection, s.epollfd, s.timerfd}))
    && (forall fd :: fd in t.k.fds ==> t.k.fds[fd] == s.k.fds[fd])
  }

  lemma WaitKeepsTable(s: State)
    ensures var t := WaitChild(s); t.k == s.k && t.connection == s.connection && t.epollfd == s.epollfd && t.timerfd == s.timerfd && t.control == s.control
  {
  }

  lemma FinishCloses(s: State, code: int, cause: Cause)
    ensures Closed(s, Finish(s, code, cause)) && Finish(s, code, cause).control == Done(code, cause)
  {
  }

  /** manager_destroy: a live command is sent SIGTERM and waited for; without one everything is closed at once. */
  lemma DestroyEnds(s: State, code: int, cause: Cause)
    requires Listed(s)
    ensures var t := Destroy(s, code, cause);
      if s.status == PROC_RUNNING then
        && t.control == Dying(code, cause) && t.k == s.k
        && t.sys == s.sys.(signals := s.sys.signals + [Signal(s.self, s.clonepid, true, Some(s.sys.procs[s.clonepid]), true)])
      else
        t.control == Done(code, cause) && Closed(s, t) && t.sys == s.sys
  {
    if s.status != PROC_RUNNING { FinishCloses(s, code, cause); }
  }

  // ---------------------------------------------------------------------------------------------
  // Waiting and dispatching
  // ---------------------------------------------------------------------------------------------

  /** An interruption starts the loop over, and events make a batch. After a silent period the supervisor pings a
      connected client in the foreground, or throws if a round is still open; otherwise it just starts over. */
  lemma SilencePings(s: State)
    requires s.control.Poll?
    ensures Step(s, Return(Interrupted)) == s.(control := Top)
    ensures forall fds :: Returns(s, Events(fds)) ==> Step(s, Return(Events(fds))) == s.(control := Batch(fds))
    ensures Returns(s, Expired) ==> var t := Step(s, Return(Expired));
      && (!s.request.backend && s.connection != -1 && s.isSyn ==> t == Destroy(s, -1, SynTimeout))
      && (!s.request.backend && s.connection != -1 && !s.isSyn ==>
        t == s.(isSyn := true, control := Top,
                sock := s.sock.(outbox := s.sock.outbox + [Bare(SYN)], sent := s.sock.sent + [Bare(SYN)])))
      && (s.request.backend || s.connection == -1 ==> t == s.(control := Top))
  {
    hide Destroy, Ready, LoopTop, Dispatch, Wake;
  }

  /** The events of a batch are handled one after the other, in the order they came, and then the loop starts
      over; an exception ends it. */
  lemma BatchInOrder(s: State, c: Choice)
    requires s.control.Batch? && s.control.events != [] && Fits(s, s.control.events[0], c)
    ensures var o, t := HandleEvent(s, s.control.events[0], c), Step(s, Handle(c));
      if o.Ok? then
        t == o.state.(control := if |s.control.events| == 1 then Top else Batch(s.control.events[1..]))
      else
        t == Destroy(o.state, -1, o.cause)
  {
    hide HandleEvent, Destroy, LoopTop, Wait, Wake, Fits;
  }

  /** Each ready stream is read by its own event, and by no other. */
  lemma StreamEvents(s: State, fd: int, c: Choice)
    requires Reached(s) && InLoop(s) && fd in s.k.interest && fd != s.connection && Fits(s, fd, c)
    ensures var o := HandleEvent(s, fd, c);
      && o.Ok?
      && (fd == s.out.rd ==> o.state == s.(k := Receive(s.k, s.out, c.chunks).0, out := Receive(s.k, s.out, c.chunks).1))
      && (fd == s.err.rd ==> o.state == s.(k := Receive(s.k, s.err, c.chunks).0, err := Receive(s.k, s.err, c.chunks).1))
      && (fd == s.timerfd ==> o.state == TimerFires(s))
      && fd in {s.out.rd, s.err.rd, s.timerfd}
  {
    hide Receive, TimerFires, Splits, Reached;
    ExactInterest(s);
  }
}
