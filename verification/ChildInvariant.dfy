/** What holds of the command, its registry entry and every signal in every run of a supervisor, whatever
    the client sends and however often. */
module ChildInvariant {
  import opened Types
  import opened Kernel
  import opened Streams
  import opened Supervisor

  ghost predicate InLoop(s: State) { s.control.Top? || s.control.Poll? || s.control.Batch? }

  /** A signal of stop_child or manager_destroy went to a child of the sender that was not reaped yet, and a
      signal for a STOP request went to a registered pid. */
  ghost predicate WellAimed(g: Signal) {
    if g.own then 0 < g.pid && g.target.Some? && g.target.value.parent == g.from else g.listed
  }

  /** Supervisor `self` sent SIGTERM to its own child `pid`. */
  ghost predicate TerminatedBy(self: nat, signals: seq<Signal>, pid: int) {
    exists i :: 0 <= i < |signals| && signals[i].from == self && signals[i].own && signals[i].pid == pid
  }

  ghost predicate Terminated(s: State, pid: int) { TerminatedBy(s.self, s.sys.signals, pid) }

  ghost predicate Child(s: State) {
    && (0 < s.clonepid <==> s.status == PROC_RUNNING)
    && (forall p :: p in s.sys.procs ==> 0 < p)
    && (forall p :: p in s.sys.procs && s.sys.procs[p].parent == s.self ==> s.status == PROC_RUNNING && p == s.clonepid)
    && (s.status == PROC_RUNNING && !s.control.Done? ==>
      s.clonepid in s.sys.procs && s.sys.procs[s.clonepid].parent == s.self)
    && (forall p :: p in s.sys.registry && s.sys.registry[p].owner == s.self ==> s.status == PROC_RUNNING && p == s.clonepid)
    && (s.status == PROC_RUNNING && InLoop(s) ==>
      s.clonepid in s.sys.registry && s.sys.registry[s.clonepid].owner == s.self)
    && (forall i :: 0 <= i < |s.sys.signals| && s.sys.signals[i].from == s.self ==> WellAimed(s.sys.signals[i]))
    && (s.control.Dying? || s.control.Done? ==>
      (s.status == PROC_RUNNING ==> s.control.code == -1 && Terminated(s, s.clonepid)))
    && (s.control.Dying? ==> s.status == PROC_RUNNING)
  }

  /** The clauses of Child that do not depend on where control is. */
  ghost predicate SteadyAt(self: nat, clonepid: int, status: ProcStatus, sys: System) {
    && (0 < clonepid <==> status == PROC_RUNNING)
    && (forall p :: p in sys.procs ==> 0 < p)
    && (forall p :: p in sys.procs && sys.procs[p].parent == self ==> status == PROC_RUNNING && p == clonepid)
    && (status == PROC_RUNNING ==> clonepid in sys.procs && sys.procs[clonepid].parent == self)
    && (forall p :: p in sys.registry && sys.registry[p].owner == self ==> status == PROC_RUNNING && p == clonepid)
    && (forall i :: 0 <= i < |sys.signals| && sys.signals[i].from == self ==> WellAimed(sys.signals[i]))
  }

  ghost predicate Steady(s: State) { SteadyAt(s.self, s.clonepid, s.status, s.sys) }

  /** Steady, and a running command is registered. */
  ghost predicate Listed(s: State) {
    && Steady(s)
    && (s.status == PROC_RUNNING ==> s.clonepid in s.sys.registry && s.sys.registry[s.clonepid].owner == s.self)
  }

  /** The same command, entry and signals. */
  ghost predicate SameChild(s: State, t: State) {
    t.self == s.self && t.clonepid == s.clonepid && t.status == s.status && t.sys == s.sys
  }

  lemma SameChildListed(s: State, t: State)
    requires Listed(s) && SameChild(s, t)
    ensures Listed(t)
  {
  }

  lemma WaitChildListed(s: State)
    requires Steady(s)
    ensures Steady(WaitChild(s)) && (Listed(s) ==> Listed(WaitChild(s)))
    ensures WaitChild(s).sys.signals == s.sys.signals && WaitChild(s).clonepid in {0, s.clonepid}
    ensures WaitChild(s).status == PROC_RUNNING ==> WaitChild(s).clonepid == s.clonepid && s.status == PROC_RUNNING
  {
  }

  lemma KillListed(s: State, pid: int, own: bool)
    requires Steady(s)
    requires if own then s.status == PROC_RUNNING && pid == s.clonepid else pid in s.sys.registry
    ensures Steady(Kill(s, pid, own)) && (Listed(s) ==> Listed(Kill(s, pid, own)))
    ensures own ==> Terminated(Kill(s, pid, own), pid)
  {
    var t := Kill(s, pid, own);
    assert t.sys.signals[|s.sys.signals|].from == s.self;
  }

  lemma DestroyChild(s: State, code: int, cause: Cause)
    requires Steady(s) && (s.status == PROC_RUNNING ==> code == -1)
    ensures Child(Destroy(s, code, cause))
  {
    if s.status == PROC_RUNNING { KillListed(s, s.clonepid, true); }
  }

  lemma LoopChild(s: State)
    requires InLoop(s)
    ensures Child(s) <==> Listed(s)
  {
  }

  lemma EnterPollChild(s: State)
    requires Listed(s)
    ensures Child(EnterPoll(s))
  {
    hide SteadyAt, Child;
    if s.status == PROC_RUNNING { KillListed(s, s.clonepid, true); }
    SameChildListed(if s.stop then StopChild(s) else s, EnterPoll(s));
    LoopChild(EnterPoll(s));
  }

  lemma LoopTopChild(s: State)
    requires Listed(s)
    ensures Child(LoopTop(s))
  {
    hide SteadyAt, WaitChild, EnterPoll, Destroy, Child;
    WaitChildListed(s);
    var s1 := WaitChild(s);
    if ExecOver(s1) && (s1.connection == -1 || s1.stop) {
      DestroyChild(s1, 0, Finished);
    } else if ExecOver(s1) && !s1.resultSent {
      var s2 := SendMessage(s1, Reply(ResultOf(s1))).state.(marks := s1.marks + [Replied(ResultOf(s1))]);
      SameChildListed(s1, s2);
      EnterPollChild(s2);
    } else if s1.status.NO_PROC? && s1.connection == -1 {
      DestroyChild(s1, 0, Finished);
    } else {
      EnterPollChild(s1);
    }
  }

  ghost predicate Good(o: Outcome) { if o.Ok? then Listed(o.state) else Steady(o.state) }

  lemma {:induction false} StopListedKeeps(s: State, list: seq<Runproc>)
    requires Listed(s)
    ensures Listed(StopListed(s, list))
    decreases list
  {
    if list != [] {
      if list[0].pid in s.sys.registry { KillListed(s, list[0].pid, false); }
      StopListedKeeps(if list[0].pid in s.sys.registry then Kill(s, list[0].pid, false) else s, list[1..]);
    }
  }

  lemma HandleRequestGood(s: State, raw: Request, c: Choice)
    requires Listed(s) && 0 < c.pid && c.pid !in s.sys.procs
    ensures Good(HandleRequest(s, raw, c))
  {
    hide SteadyAt, FindCommand, StartCommand;
    if s.clonepid <= 0 {
      var s1 := if s.request.backend then s.(synTimeout := -1) else s;
      match FindCommand(s.k, s.request.args)
      case None =>
      case Some(args) => StartCommandGood(s1.(request := s.request.(args := args)), raw, c);
    }
  }

  lemma SpawnGood(s: State, raw: Request, c: Choice)
    requires Listed(s) && s.clonepid <= 0 && 0 < c.pid && c.pid !in s.sys.procs
    ensures Good(Spawn(s, raw, c))
  {
    hide Inherit, WellAimed;
  }

  lemma StartCommandGood(s: State, raw: Request, c: Choice)
    requires Listed(s) && s.clonepid <= 0 && 0 < c.pid && c.pid !in s.sys.procs
    ensures Good(StartCommand(s, raw, c))
  {
    var o1 := LoadStreams(s, c);
    assert SameChild(s, o1.state);
    if o1.Ok? {
      SpawnGood(o1.state, raw, c);
      var o2 := Spawn(o1.state, raw, c);
      if o2.Ok? { FurnishGood(o2.state, s.request.backend, c); }
    }
  }

  lemma FurnishGood(s: State, backend: bool, c: Choice)
    requires Listed(s)
    ensures Good(Furnish(s, backend, c))
  {
    hide BindStreams, SetTimeout, SteadyAt;
    var o := BindStreams(s, c);
    BindSame(s, c);
    if o.Ok? { TimerSame(o.state, c); }
    SameChildListed(s, Furnish(s, backend, c).state);
  }

  lemma BindSame(s: State, c: Choice)
    ensures SameChild(s, BindStreams(s, c).state)
  {
    hide Bind;
  }

  lemma TimerSame(s: State, c: Choice)
    ensures SameChild(s, SetTimeout(s, c).state)
  {
    hide Open, Watch, NextFd, EffectiveTimeout;
  }

  lemma CloseConnectionListed(s: State)
    requires Listed(s)
    ensures Listed(CloseConnection(s))
  {
    var s1 := s.(synTimeout := -1, connection := -1, k := Close(Unwatch(s.k, s.connection), s.connection));
    SameChildListed(s, s1);
    if s.status == PROC_RUNNING { KillListed(s1, s1.clonepid, true); }
  }

  lemma AnswerGood(s: State, m: Message, c: Choice)
    requires Listed(s) && 0 < c.pid && c.pid !in s.sys.procs
    requires forall i :: 0 <= i < |c.order| ==> c.order[i] in s.sys.registry
    ensures Good(Answer(s, m, c))
  {
    match m.kind
    case EXE =>
      var s1 := s.(request := Settings.LoadRequest(s.keyfiles, m.request));
      SameChildListed(s, s1);
      HandleRequestGood(s1, m.request, c);
    case STOP =>
      StopListedKeeps(s, m.runlist);
      assert SameChild(StopListed(s, m.runlist), Answer(s, m, c).state);
    case _ => assert SameChild(s, Answer(s, m, c).state);
  }

  lemma RecvMessageGood(s: State, c: Choice)
    requires Listed(s) && 0 < c.pid && c.pid !in s.sys.procs
    requires forall i :: 0 <= i < |c.order| ==> c.order[i] in s.sys.registry
    ensures Good(RecvMessage(s, c))
  {
    if s.sock.inbox == [] {
      CloseConnectionListed(s);
    } else {
      SameChildListed(s, Accept(s));
      AnswerGood(Accept(s), s.sock.inbox[0], c);
    }
  }

  lemma HandleEventGood(s: State, fd: int, c: Choice)
    requires Listed(s) && Fits(s, fd, c)
    ensures Good(HandleEvent(s, fd, c))
  {
    if fd == s.connection {
      RecvMessageGood(s, c);
    } else if fd != s.out.rd && fd != s.err.rd && s.timerfd != -1 && fd == s.timerfd {
      if s.status == PROC_RUNNING { KillListed(s, s.clonepid, true); }
    }
  }

  lemma DispatchChild(s: State, c: Choice)
    requires Child(s) && s.control.Batch? && s.control.events != [] && Fits(s, s.control.events[0], c)
    ensures Child(Dispatch(s, c))
  {
    HandleEventGood(s, s.control.events[0], c);
    var o := HandleEvent(s, s.control.events[0], c);
    if o.Thrown? { DestroyChild(o.state, -1, o.cause); }
  }

  lemma PollChild(s: State, r: Poll)
    requires Child(s) && s.control.Poll?
    ensures Child(Wait(s, r))
  {
    hide SteadyAt, Child, Destroy;
    LoopChild(s);
    if r.Expired? && !s.request.backend && s.connection != -1 && s.isSyn {
      DestroyChild(s, -1, SynTimeout);
    } else {
      SameChildListed(s, Wait(s, r));
      LoopChild(Wait(s, r));
    }
  }

  lemma WakeChild(s: State)
    requires Child(s) && s.control.Dying?
    ensures Child(Wake(s))
  {
    WaitChildListed(s);
  }

  lemma OutsideChild(s: State, a: Action)
    requires Child(s) && Enabled(s, a) && !a.Enter? && !a.Return? && !a.Handle? && !a.Awake?
    ensures Child(Step(s, a))
  {
    if a.Others? {
      var s' := Step(s, a);
      forall i | 0 <= i < |s'.sys.signals| && s'.sys.signals[i].from == s.self ensures WellAimed(s'.sys.signals[i]) {
        assert i < |s.sys.signals| && s'.sys.signals[i] == s.sys.signals[i];
      }
    }
  }

  lemma StepChild(s: State, a: Action)
    requires Child(s)
    ensures Child(Step(s, a))
  {
    hide LoopTop, Wait, Dispatch, Wake, Child;
    if Enabled(s, a) {
      match a
      case Enter =>
        LoopChild(s);
        LoopTopChild(s);
      case Return(r) => PollChild(s, r);
      case Handle(c) => DispatchChild(s, c);
      case Awake => WakeChild(s);
      case _ => OutsideChild(s, a);
    }
  }

  /** One child at a time, clonepid and child_status in step, every signal well aimed, and a registry entry
      exactly while the command is un-reaped, in every run. */
  lemma {:induction false} RunChild(s: State, actions: seq<Action>)
    requires Init(s)
    ensures Child(Run(s, actions))
  {
    if actions != [] {
      RunChild(s, actions[..|actions| - 1]);
      StepChild(Run(s, actions[..|actions| - 1]), actions[|actions| - 1]);
    }
  }
}
