/** Who can write to the pipes of a command, from the start of the supervisor to any point of any run. */
module WriteEnds {
  import opened Types
  import opened Kernel
  import opened Streams
  import opened StreamInvariant
  import opened Supervisor
  import opened ChildInvariant
  import opened Wiring
  import opened OneRequest
  import opened Guarantees

  /** Before a command is started there has been no pipe at all. */
  ghost predicate Pristine(s: State) {
    InLoop(s) && s.status == NO_PROC ==>
      s.k.pipes == [] && forall fd :: fd in s.k.fds ==> !s.k.fds[fd].ReadEnd? && !s.k.fds[fd].WriteEnd?
  }

  /** No pipe is made, taken over or let go of, and no end of one is opened. */
  ghost predicate SamePipes(k: Kernel, k': Kernel) {
    && |k'.pipes| == |k.pipes| && (forall p :: 0 <= p < |k.pipes| ==> k'.pipes[p].held == k.pipes[p].held)
    && (forall fd :: fd in k'.fds && (k'.fds[fd].ReadEnd? || k'.fds[fd].WriteEnd?) ==> fd in k.fds && k'.fds[fd] == k.fds[fd])
  }

  /** Where the loop goes on, the pipes are as they were. */
  ghost predicate Tame(s: State, t: State) {
    InLoop(t) ==> InLoop(s) && SamePipes(s.k, t.k) && (t.status == NO_PROC ==> s.status == NO_PROC)
  }

  /** A command is started: every pipe there is belongs to it. */
  ghost predicate Starts(s: State, t: State) {
    s.status == NO_PROC && t.status != NO_PROC && forall p :: 0 <= p < |t.k.pipes| ==> t.k.pipes[p].held
  }

  ghost predicate StartsOrStays(s: State, t: State) { Starts(s, t) || (SamePipes(s.k, t.k) && t.status == s.status) }

  // ---------------------------------------------------------------------------------------------
  // At clone
  // ---------------------------------------------------------------------------------------------

  ghost predicate Held(t: map<int, Handle>, p: nat) { exists fd :: fd in t && t[fd] == WriteEnd(p) }

  /** Each pipe made since there were `n` has its write end in the table. */
  ghost predicate Written(k: Kernel, n: nat) { forall p :: n <= p < |k.pipes| ==> Held(k.fds, p) }

  lemma LoadWritten(k: Kernel, o: Stream, mode: OutMode, path: string, backend: bool, full: bool, n: nat)
    requires Written(k, n) && n <= |k.pipes|
    ensures Written(Load(k, o, mode, path, backend, full).kernel, n) && k.pipes <= Load(k, o, mode, path, backend, full).kernel.pipes
  {
    var k' := Load(k, o, mode, path, backend, full).kernel;
    forall p | n <= p < |k'.pipes| ensures Held(k'.fds, p) {
      if p < |k.pipes| {
        assert Held(k.fds, p);
        var fd :| fd in k.fds && k.fds[fd] == WriteEnd(p);
        assert k'.fds[fd] == WriteEnd(p);
      } else {
        var (k1, r, w) := MakePipe(k);
        assert k1.fds[w] == WriteEnd(p);
      }
    }
  }

  lemma LoadedWritten(s: State, c: Choice)
    requires s.k.pipes == []
    ensures Written(LoadStreams(s, c).state.k, 0)
  {
    hide Load;
    var r := s.request;
    LoadWritten(s.k, s.out, r.outmode, r.outfile, r.backend, c.fault.OutPipe?, 0);
    var a := Load(s.k, s.out, r.outmode, r.outfile, r.backend, c.fault.OutPipe?);
    LoadWritten(a.kernel, s.err, r.errmode, r.errfile, r.backend, c.fault.ErrPipe?, 0);
  }

  lemma PristineRequest(s: State, r: Request, c: Choice)
    requires Plumbing(s) && s.status == NO_PROC && Pristine(s) && InLoop(s)
    ensures var o := LoadStreams(s.(request := r), c);
      o.Ok? ==>
        && Laid(s.k, o.state.k, o.state.out, o.state.err) && Written(o.state.k, 0)
        && (Spared(o.state.out, o.state.err) <==> Room(s.k.fds, Piped(r.outmode, r.backend), Piped(r.errmode, r.backend)))
  {
    hide Load, Laid, Spared, Room;
    LoadedWritten(s.(request := r), c);
    LoadRoom(s.k, r, c.fault.OutPipe?, c.fault.ErrPipe?);
  }

  lemma LoopPlumbing(s: State)
    requires One(s) && InLoop(s)
    ensures Plumbing(s) && (s.control.Batch? ==> s.control.events != [] && s.control.events[0] != -1)
  {
    hide Replies, Story, Timing, Flowing;
  }

  lemma TableHolds(base: Kernel, k: Kernel, a: Stream, b: Stream)
    requires Laid(base, k, a, b) && Spared(a, b) && Written(k, 0)
    ensures var t := Dup(Dup(k.fds, a, 1), b, 2);
      forall p :: 0 <= p < |k.pipes| ==> Inherit(k).pipes[p].held && Held(t, p)
  {
    var t := Dup(Dup(k.fds, a, 1), b, 2);
    DupsStand(base, k, a, b);
    forall p | 0 <= p < |k.pipes| ensures Inherit(k).pipes[p].held && Held(t, p) {
      assert Held(k.fds, p);
      var fd :| fd in k.fds && k.fds[fd] == WriteEnd(p);
      assert k.fds[fd] in k.fds.Values && (Owns(a, fd) || Owns(b, fd));
      if Owns(a, fd) { assert t[1] == WriteEnd(p); } else { assert t[2] == WriteEnd(p); }
    }
  }

  // ---------------------------------------------------------------------------------------------
  // One step
  // ---------------------------------------------------------------------------------------------

  lemma InheritHeld(k: Kernel)
    requires Written(k, 0)
    ensures |Inherit(k).pipes| == |k.pipes| && forall p :: 0 <= p < |k.pipes| ==> Inherit(k).pipes[p].held
  {
    forall p | 0 <= p < |k.pipes| ensures Inherit(k).pipes[p].held {
      assert Held(k.fds, p);
      var fd :| fd in k.fds && k.fds[fd] == WriteEnd(p);
      assert k.fds[fd] in k.fds.Values;
    }
  }

  lemma StartHeld(s: State, raw: Request, c: Choice)
    requires Plumbing(s) && s.status == NO_PROC && s.timerfd == -1 && s.k.pipes == []
    ensures var o := StartCommand(s, raw, c); o.Ok? ==> Starts(s, o.state)
  {
    hide Plumbing, LoadStreams, Furnish, Apart;
    LoadedWritten(s, c);
    SpawnPrepared(s, raw, c);
    var o1 := LoadStreams(s, c);
    if o1.Ok? {
      InheritHeld(o1.state.k);
      hide Inherit;
      var o2 := Spawn(o1.state, raw, c);
      if o2.Ok? { FurnishPipes(s, o2.state, c); }
    }
  }

  lemma FurnishPipes(s: State, t: State, c: Choice)
    requires Plumbing(s) && s.status == NO_PROC && s.timerfd == -1 && Prepared(s, t) && t.status == PROC_RUNNING
    ensures var o := Furnish(t, s.request.backend, c);
      o.Ok? ==> o.state.k.pipes == t.k.pipes && o.state.status == PROC_RUNNING
  {
    hide Plumbing, Prepared, BindStreams;
    BindFrame(t, c);
    BindPlumbing(s, t, c);
  }

  lemma RequestPipes(s: State, raw: Request, c: Choice)
    requires Plumbing(s) && Idle(s) && s.connection != -1 && s.k.pipes == []
    ensures var o := HandleRequest(s, raw, c); o.Ok? ==> StartsOrStays(s, o.state)
  {
    hide Table, Flowing, StartCommand, FindCommand, Starts;
    match FindCommand(s.k, s.request.args)
    case None =>
    case Some(args) =>
      var s1 := if s.request.backend then s.(synTimeout := -1) else s;
      var s2 := s1.(request := s.request.(args := args));
      StartHeld(s2, raw, c);
      StartsFrame(s2, s, StartCommand(s2, raw, c).state);
  }

  lemma StartsFrame(s: State, s': State, t: State)
    requires s'.status == s.status
    ensures Starts(s, t) ==> Starts(s', t)
  {
  }

  lemma AnswerPipes(s: State, m: Message, c: Choice)
    requires Plumbing(s) && s.connection != -1 && (m.kind.EXE? ==> Idle(s) && s.k.pipes == [])
    requires forall i :: 0 <= i < |c.order| ==> c.order[i] in s.sys.registry
    ensures var o := Answer(s, m, c); o.Ok? ==> StartsOrStays(s, o.state)
  {
    hide Table, Flowing, HandleRequest, Settings.LoadRequest, Starts;
    match m.kind
    case EXE =>
      var s1 := s.(request := Settings.LoadRequest(s.keyfiles, m.request));
      RequestPipes(s1, m.request, c);
      StartsFrame(s1, s, Answer(s, m, c).state);
    case STOP => StopListedFrame(s, m.runlist);
    case _ =>
  }

  lemma RecvPipes(s: State, c: Choice)
    requires Plumbing(s) && s.connection != -1
    requires forall i :: 0 <= i < |c.order| ==> c.order[i] in s.sys.registry
    requires s.sock.inbox != [] && s.sock.inbox[0].kind.EXE? ==> Idle(s) && s.k.pipes == []
    ensures var o := RecvMessage(s, c); o.Ok? ==> StartsOrStays(s, o.state)
  {
    hide Table, Flowing, Answer, Starts;
    if s.sock.inbox == [] {
      CloseFrame(s);
    } else {
      AnswerPipes(Accept(s), s.sock.inbox[0], c);
      StartsFrame(Accept(s), s, RecvMessage(s, c).state);
    }
  }

  lemma ReceivePipes(k: Kernel, o: Stream, chunks: seq<Bytes>)
    requires Splits(chunks, Pending(k, o.rd))
    ensures SamePipes(k, Receive(k, o, chunks).0)
  {
    TakeWithin(o, chunks);
  }

  lemma TimerPipes(s: State)
    ensures SamePipes(s.k, TimerFires(s).k) && TimerFires(s).status == s.status
  {
  }

  lemma EventPipes(s: State, fd: int, c: Choice)
    requires Plumbing(s) && Fits(s, fd, c) && fd != -1
    requires fd == s.connection && s.sock.inbox != [] && s.sock.inbox[0].kind.EXE? ==> Idle(s) && s.k.pipes == []
    ensures var o := HandleEvent(s, fd, c); o.Ok? ==> StartsOrStays(s, o.state)
  {
    hide Plumbing, RecvMessage, Receive, TimerFires, Splits, Starts;
    if fd == s.connection { RecvPipes(s, c); }
    else if fd == s.out.rd { ReceivePipes(s.k, s.out, c.chunks); }
    else if fd == s.err.rd { ReceivePipes(s.k, s.err, c.chunks); }
    else { TimerPipes(s); }
  }

  /** Only a first request can start something, and before it nothing was. */
  lemma FirstCommand(s: State, c: Choice)
    requires One(s) && Child(s) && Pristine(s) && s.control.Batch? && s.control.events != [] && Fits(s, s.control.events[0], c)
    requires |Dispatch(s, c).asked| <= 1
    ensures Plumbing(s) && s.control.events[0] != -1
    ensures s.control.events[0] == s.connection && s.sock.inbox != [] && s.sock.inbox[0].kind.EXE? ==> Idle(s) && s.k.pipes == []
  {
    hide StoryAt, Table, Flowing, Answered, Receive, TimerFires, CloseConnection, Answer, Destroy;
    LoopPlumbing(s);
    var o := HandleEvent(s, s.control.events[0], c);
    if s.control.events[0] == s.connection && s.sock.inbox != [] {
      AskedCount(Accept(s), s.sock.inbox[0], c);
      if o.Thrown? { DestroySame(o.state, -1, o.cause); }
    }
  }

  lemma DispatchPipes(s: State, c: Choice)
    requires One(s) && Child(s) && Pristine(s) && s.control.Batch? && s.control.events != [] && Fits(s, s.control.events[0], c)
    requires |Dispatch(s, c).asked| <= 1
    ensures Tame(s, Dispatch(s, c)) || (InLoop(s) && Starts(s, Dispatch(s, c)))
  {
    hide One, Child, Pristine, HandleEvent, Destroy, Fits, Plumbing, SamePipes;
    FirstCommand(s, c);
    EventPipes(s, s.control.events[0], c);
    var o := HandleEvent(s, s.control.events[0], c);
    if o.Thrown? { DestroySame(o.state, -1, o.cause); }
  }

  lemma TopPipes(s: State)
    requires s.control.Top?
    ensures Tame(s, LoopTop(s))
  {
    hide Destroy, WaitChild;
    var s1 := WaitChild(s);
    ReapPipes(s);
    DestroySame(s1, 0, Finished);
    var o := SendMessage(s1, Reply(ResultOf(s1)));
    DestroySame(o.state, -1, BadDescriptor);
  }

  lemma ReapPipes(s: State)
    ensures WaitChild(s).k == s.k && WaitChild(s).control == s.control
    ensures WaitChild(s).status == NO_PROC ==> s.status == NO_PROC
  {
  }

  lemma WaitPipes(s: State, r: Poll)
    requires s.control.Poll?
    ensures Tame(s, Wait(s, r))
  {
    hide Destroy;
    DestroySame(s, -1, SynTimeout);
    var o := SendMessage(s.(isSyn := true), Bare(SYN));
    if o.Thrown? { DestroySame(o.state, -1, o.cause); }
  }

  lemma OutsidePipes(s: State, a: Action)
    requires Enabled(s, a) && !a.Release? && !a.Enter? && !a.Return? && !a.Handle? && !a.Awake?
    ensures Tame(s, Step(s, a))
  {
    hide Rely;
  }

  lemma StepPipes(s: State, a: Action)
    requires Child(s) && One(s) && Pristine(s) && |Step(s, a).asked| <= 1 && !a.Release?
    ensures Tame(s, Step(s, a)) || (InLoop(s) && Starts(s, Step(s, a)))
  {
    hide One, Child, Pristine, LoopTop, Wait, Dispatch, Wake, Fits, Returns, Starts, SamePipes, Rely;
    SamePipesReflexive(s.k);
    if Enabled(s, a) {
      match a
      case Enter => TopPipes(s);
      case Return(r) => WaitPipes(s, r);
      case Handle(c) => DispatchPipes(s, c);
      case Awake => AwakeEnds(s);
      case _ => OutsidePipes(s, a);
    }
  }

  lemma SamePipesReflexive(k: Kernel)
    ensures SamePipes(k, k)
  {
  }

  lemma AwakeEnds(s: State)
    requires s.control.Dying?
    ensures !InLoop(Wake(s))
  {
  }

  // ---------------------------------------------------------------------------------------------
  // Runs
  // ---------------------------------------------------------------------------------------------

  /** The command and all it started have let go of pipe `p` in the run. */
  ghost predicate LetGo(s: State, actions: seq<Action>, p: nat) {
    actions != [] &&
    var past, a := actions[..|actions| - 1], actions[|actions| - 1];
    LetGo(s, past, p) || (a == Release(p) && Enabled(Run(s, past), a))
  }

  ghost predicate Accounted(s0: State, actions: seq<Action>) {
    var t := Run(s0, actions);
    && Pristine(t)
    && (InLoop(t) ==>
      && (forall p :: 0 <= p < |t.k.pipes| ==> (t.k.pipes[p].held <==> !LetGo(s0, actions, p)))
      && (forall p :: |t.k.pipes| <= p ==> !LetGo(s0, actions, p)))
  }

  lemma ReleaseAccounted(s0: State, actions: seq<Action>, p: nat)
    requires actions != [] && actions[|actions| - 1] == Release(p) && Accounted(s0, actions[..|actions| - 1])
    ensures Accounted(s0, actions)
  {
    hide Run, LetGo, Step;
    var past := actions[..|actions| - 1];
    var s, t := Run(s0, past), Run(s0, actions);
    ReleaseOnly(s, p);
    LastStep(s0, actions);
    forall q: nat ensures LetGo(s0, actions, q) <==> LetGo(s0, past, q) || (q == p && p < |s.k.pipes|) {
      LetGoLast(s0, actions, q);
    }
  }

  lemma LastStep(s0: State, actions: seq<Action>)
    requires actions != []
    ensures Run(s0, actions) == Step(Run(s0, actions[..|actions| - 1]), actions[|actions| - 1])
  {
    hide Step;
  }

  lemma LetGoLast(s0: State, actions: seq<Action>, q: nat)
    requires actions != []
    ensures var past, a := actions[..|actions| - 1], actions[|actions| - 1];
      LetGo(s0, actions, q) <==> LetGo(s0, past, q) || (a == Release(q) && Enabled(Run(s0, past), a))
  {
    hide Step, Enabled;
  }

  lemma ReleaseOnly(s: State, p: nat)
    ensures Step(s, Release(p)) ==
      if p < |s.k.pipes| then s.(k := s.k.(pipes := s.k.pipes[p := s.k.pipes[p].(held := false)])) else s
  {
    hide LoopTop, Wait, Dispatch, Wake, Rely;
  }

  lemma OtherAccounted(s0: State, actions: seq<Action>)
    requires actions != [] && !actions[|actions| - 1].Release? && Accounted(s0, actions[..|actions| - 1])
    requires var s, t := Run(s0, actions[..|actions| - 1]), Run(s0, actions);
      Tame(s, t) || (InLoop(s) && Starts(s, t))
    ensures Accounted(s0, actions)
  {
    hide Step, Enabled, Run, LetGo;
    LetGoSame(s0, actions);
  }

  lemma LetGoSame(s0: State, actions: seq<Action>)
    requires actions != [] && !actions[|actions| - 1].Release?
    ensures forall p: nat :: LetGo(s0, actions, p) == LetGo(s0, actions[..|actions| - 1], p)
  {
    hide Step, Enabled, Run;
  }

  lemma {:induction false} RunAccounted(s0: State, actions: seq<Action>)
    requires Init(s0) && |Run(s0, actions).asked| <= 1
    ensures Accounted(s0, actions)
  {
    if actions != [] {
      var past, a := actions[..|actions| - 1], actions[|actions| - 1];
      hide Step, Accounted, Init, Child, One, Tame, Starts, LetGo;
      AskedGrows(Run(s0, past), a);
      RunAccounted(s0, past);
      RunChild(s0, past);
      RunOne(s0, past);
      AccountedPristine(s0, past);
      if a.Release? {
        ReleaseAccounted(s0, actions, a.pipe);
      } else {
        StepPipes(Run(s0, past), a);
        OtherAccounted(s0, actions);
      }
    }
  }

  lemma AccountedPristine(s0: State, actions: seq<Action>)
    requires Accounted(s0, actions)
    ensures Pristine(Run(s0, actions))
  {
  }

  lemma ReachedPristine(s: State)
    requires Reached(s)
    ensures Pristine(s)
  {
    var s0, actions :| Init(s0) && Run(s0, actions) == s;
    RunAccounted(s0, actions);
  }

  /** The descriptor table of the command when it executes, after both calls of dup. */
  function CommandTable(s: State): map<int, Handle> { Dup(Dup(s.k.fds, s.out, 1), s.err, 2) }

  /** Whatever a reached supervisor is asked to run: the command it clones has each of its pipes at the target
      descriptor and nowhere else exactly if the supervisor's table had room for it among 0, 1 and 2; and then
      it has no read end, and the pipes it can write to are exactly those the kernel holds open from then on. */
  lemma CommandHoldsIff(s: State, r: Request, c: Choice)
    requires Reached(s) && InLoop(s) && s.status == NO_PROC
    ensures var o := LoadStreams(s.(request := r), c);
      var room := Room(s.k.fds, Piped(r.outmode, r.backend), Piped(r.errmode, r.backend));
      o.Ok? ==>
        var u := o.state;
        var t := CommandTable(u);
        && (Stand(t, u.out, u.err) <==> room)
        && (room ==>
          && (forall fd :: fd in t ==> !t[fd].ReadEnd? && (t[fd].WriteEnd? ==> fd == 1 || fd == 2))
          && (forall p :: 0 <= p < |u.k.pipes| ==> Inherit(u.k).pipes[p].held && Held(t, p)))
  {
    hide One, Child, Reached, LoadStreams, Plumbing, Laid, Spared, Stand, Room, Dup;
    ReachedInvariants(s);
    ReachedPristine(s);
    LoopPlumbing(s);
    PristineRequest(s, r, c);
    var o := LoadStreams(s.(request := r), c);
    if o.Ok? {
      var u := o.state;
      DupsStandIff(s.k, u.k, u.out, u.err);
      if Spared(u.out, u.err) { TableHolds(s.k, u.k, u.out, u.err); }
    }
  }

  /** In every run, an open stream with nothing to read shows its end exactly when the command and all it
      started have let go of its pipe. */
  lemma {:induction false} EndOfFileIff(s0: State, actions: seq<Action>, o: Stream)
    requires Init(s0) && |Run(s0, actions).asked| <= 1
    ensures var t := Run(s0, actions);
      InLoop(t) && (o == t.out || o == t.err) && o.rd != -1 ==>
        && 0 <= o.pipe
        && (PipeReady(t.k, o.rd) <==> Pending(t.k, o.rd) != [] || LetGo(s0, actions, o.pipe))
  {
    hide Init, Child, Replies, Story, Timing, Run, LetGo, Faithful;
    RunOne(s0, actions);
    RunAccounted(s0, actions);
  }
}
