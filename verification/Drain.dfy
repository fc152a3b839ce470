/** Once no command runs and no writers are left, the loop comes to its end: to the answer while a client is owed
    one, to a normal exit once the client has closed. */
module Drain {
  import opened Types
  import opened Kernel
  import opened Streams
  import opened StreamInvariant
  import opened Supervisor
  import opened ChildInvariant
  import opened Wiring
  import opened OneRequest
  import opened Guarantees

  /** The command is reaped, or none was ever started; nobody can write to a pipe, and no request is on its way. */
  ghost predicate Spent(s: State) {
    && InLoop(s) && s.status != PROC_RUNNING
    && (forall p :: 0 <= p < |s.k.pipes| ==> !s.k.pipes[p].held)
    && (forall i :: 0 <= i < |s.sock.inbox| ==> !s.sock.inbox[i].Asks())
  }

  /** The client has closed. */
  ghost predicate Abandoned(s: State) { Spent(s) && s.sock.closed }

  /** The client waits for the result of a foreground command. */
  ghost predicate Owed(s: State) {
    Spent(s) && s.status == PROC_EXIT && s.connection != -1 && !s.sock.closed && !s.stop && !s.request.backend && !s.resultSent
  }

  /** The supervisor waits for events with a finished command only if the answer went out and the client is
      still connected, and without a command only if the client is still connected. */
  ghost predicate Waits(s: State) {
    s.control.Poll? ==>
      && (ExecOver(s) ==> s.connection != -1 && s.resultSent)
      && (s.status == NO_PROC ==> s.connection != -1)
  }

  /** The source's two reasons to leave the loop. */
  predicate Leaves(s: State) {
    (ExecOver(s) && (s.connection == -1 || s.stop)) || (s.status == NO_PROC && s.connection == -1)
  }

  ghost predicate Settling(s: State) { Child(s) && One(s) && |s.asked| <= 1 && Waits(s) && Spent(s) }

  function StreamLeft(k: Kernel, o: Stream): nat {
    if o.rd != -1 && 0 <= o.pipe < |k.pipes| then |k.pipes[o.pipe].pending| + 1 else 0
  }

  /** Bytes to read, ends of file to see, messages and a hang-up to notice, and a timer to fire. */
  function Left(s: State): nat {
    StreamLeft(s.k, s.out) + StreamLeft(s.k, s.err) + |s.sock.inbox|
      + (if s.connection != -1 then 1 else 0) + (if s.timerfd != -1 then 1 else 0)
  }

  // ---------------------------------------------------------------------------------------------
  // Waiting
  // ---------------------------------------------------------------------------------------------

  lemma TopWaits(s: State)
    ensures Waits(LoopTop(s))
  {
    hide WaitChild;
  }

  lemma PolledBefore(s: State, a: Action)
    requires a.Return? || a.Handle? || a.Awake?
    ensures Step(s, a).control.Poll? ==> Step(s, a) == s
  {
    hide LoopTop, HandleEvent, WaitChild, Close, Fits, Returns, Rely;
  }

  lemma StepWaits(s: State, a: Action)
    requires Waits(s)
    ensures Waits(Step(s, a))
  {
    hide LoopTop, Wait, Dispatch, Wake, Fits, Returns, Rely;
    if a.Return? || a.Handle? || a.Awake? { PolledBefore(s, a); }
    if Enabled(s, a) && a.Enter? { TopWaits(s); }
  }

  lemma {:induction false} RunWaits(s: State, actions: seq<Action>)
    requires Init(s)
    ensures Waits(Run(s, actions))
  {
    hide Step;
    if actions != [] {
      RunWaits(s, actions[..|actions| - 1]);
      StepWaits(Run(s, actions[..|actions| - 1]), actions[|actions| - 1]);
    }
  }

  lemma ReachedSettles(s: State)
    requires Reached(s) && Spent(s)
    ensures Settling(s)
  {
    hide Child, One, Waits, Spent, Init;
    ReachedInvariants(s);
    var s0, actions :| Init(s0) && Run(s0, actions) == s;
    RunWaits(s0, actions);
  }

  // ---------------------------------------------------------------------------------------------
  // Events
  // ---------------------------------------------------------------------------------------------

  /** What an event of a settling supervisor leaves alone. */
  ghost predicate Still(s: State, t: State) {
    && t.asked == s.asked && t.status == s.status && t.sock.closed == s.sock.closed && |t.k.pipes| == |s.k.pipes|
    && t.stop == s.stop && t.request == s.request && t.resultSent == s.resultSent
    && (t.connection == s.connection || s.sock.closed)
    && (forall p :: 0 <= p < |s.k.pipes| && !s.k.pipes[p].held ==> !t.k.pipes[p].held)
    && ((forall i :: 0 <= i < |s.sock.inbox| ==> !s.sock.inbox[i].Asks()) ==>
      forall i :: 0 <= i < |t.sock.inbox| ==> !t.sock.inbox[i].Asks())
  }

  /** What an event needs of a settling supervisor. */
  ghost predicate Flow(s: State) {
    && (s.out.rd != -1 ==> Sound(s.k, s.out)) && (s.err.rd != -1 ==> Sound(s.k, s.err)) && NoWriteEnds(s.k) && (0 <= s.out.pipe ==> s.out.pipe != s.err.pipe)
    && s.status != PROC_RUNNING && (forall i :: 0 <= i < |s.sock.inbox| ==> !s.sock.inbox[i].Asks())
  }

  lemma LeftMessage(s: State, c: Choice)
    requires Flow(s) && s.connection != -1 && (s.sock.inbox != [] || s.sock.closed)
    requires forall i :: 0 <= i < |c.order| ==> c.order[i] in s.sys.registry
    ensures var o := RecvMessage(s, c);
      o.Ok? && Left(o.state) < Left(s) && Still(s, o.state)
  {
    hide Sound, NoWriteEnds, StreamLeft, HandleRequest;
    if s.sock.inbox == [] {
      CloseFrame(s);
      assert StreamLeft(CloseConnection(s).k, s.out) == StreamLeft(s.k, s.out) by { LeftPipes(s.k, CloseConnection(s).k, s.out); }
      assert StreamLeft(CloseConnection(s).k, s.err) == StreamLeft(s.k, s.err) by { LeftPipes(s.k, CloseConnection(s).k, s.err); }
    } else {
      assert !s.sock.inbox[0].Asks();
    }
  }

  lemma LeftPipes(k: Kernel, k': Kernel, o: Stream)
    requires k'.pipes == k.pipes
    ensures StreamLeft(k', o) == StreamLeft(k, o)
  {
  }

  lemma LeftReceive(k: Kernel, o: Stream, chunks: seq<Bytes>)
    requires Sound(k, o) && o.rd != -1 && NoWriteEnds(k) && PipeReady(k, o.rd)
    requires Splits(chunks, Pending(k, o.rd))
    ensures var (k', o') := Receive(k, o, chunks);
      && StreamLeft(k', o') < StreamLeft(k, o)
      && (forall p :: 0 <= p < |k.pipes| && !k.pipes[p].held ==> !k'.pipes[p].held)
      && |k'.pipes| == |k.pipes|
      && (forall x: Stream :: x.pipe != o.pipe ==> StreamLeft(k', x) == StreamLeft(k, x))
  {
    hide Receive;
    ReceiveSound(k, o, chunks);
    assert o.pipe < |k.pipes|;
  }

  lemma OutLeft(s: State, c: Choice)
    requires Flow(s) && s.out.rd != -1 && PipeReady(s.k, s.out.rd) && Splits(c.chunks, Pending(s.k, s.out.rd))
    ensures var (k, out) := Receive(s.k, s.out, c.chunks);
      var t := s.(k := k, out := out);
      Left(t) < Left(s) && Still(s, t)
  {
    hide Receive, Sound, NoWriteEnds, PipeReady;
    assert 0 <= s.out.pipe by { OpenPipe(s.k, s.out); }
    LeftReceive(s.k, s.out, c.chunks);
  }

  lemma ErrLeft(s: State, c: Choice)
    requires Flow(s) && s.err.rd != -1 && PipeReady(s.k, s.err.rd) && Splits(c.chunks, Pending(s.k, s.err.rd))
    ensures var (k, err) := Receive(s.k, s.err, c.chunks);
      var t := s.(k := k, err := err);
      Left(t) < Left(s) && Still(s, t)
  {
    hide Receive, Sound, NoWriteEnds, PipeReady;
    assert 0 <= s.err.pipe by { OpenPipe(s.k, s.err); }
    LeftReceive(s.k, s.err, c.chunks);
  }

  lemma OpenPipe(k: Kernel, o: Stream)
    requires Sound(k, o) && o.rd != -1
    ensures 0 <= o.pipe
  {
  }

  lemma TimerLeft(s: State)
    requires Flow(s) && s.timerfd != -1
    ensures Left(TimerFires(s)) < Left(s) && Still(s, TimerFires(s))
  {
    hide Sound, NoWriteEnds;
    assert StreamLeft(TimerFires(s).k, s.out) == StreamLeft(s.k, s.out);
    assert StreamLeft(TimerFires(s).k, s.err) == StreamLeft(s.k, s.err);
  }

  lemma FlowOf(s: State)
    requires One(s) && Spent(s)
    ensures Flow(s)
  {
    hide Replies, Story, Timing;
  }

  lemma EventLeft(s: State, fd: int, c: Choice)
    requires Settling(s) && fd in s.k.interest && Ready(s, fd) && Fits(s, fd, c)
    ensures var o := HandleEvent(s, fd, c); o.Ok? && Left(o.state) < Left(s) && Still(s, o.state)
  {
    hide One, Child, Flow, Receive, RecvMessage, TimerFires, Left, Still, Splits;
    FlowOf(s);
    WatchedKind(s, fd);
    if fd == s.connection {
      LeftMessage(s, c);
    } else if fd == s.out.rd {
      OutLeft(s, c);
    } else if fd == s.err.rd {
      ErrLeft(s, c);
    } else {
      TimerLeft(s);
    }
  }

  lemma WatchedKind(s: State, fd: int)
    requires One(s) && InLoop(s) && fd in s.k.interest && Ready(s, fd)
    ensures fd != -1 && fd in {s.connection, s.out.rd, s.err.rd, s.timerfd}
    ensures fd == s.connection ==> s.sock.inbox != [] || s.sock.closed
    ensures fd != s.connection && (fd == s.out.rd || fd == s.err.rd) ==> PipeReady(s.k, fd)
  {
    hide Replies, Story, Timing, Flowing;
  }

  lemma BatchHead(s: State)
    requires One(s) && s.control.Batch?
    ensures s.control.events != [] && s.control.events[0] in s.k.interest && Ready(s, s.control.events[0])
  {
    hide Replies, Story, Body;
  }

  lemma StillSpent(s: State, t: State)
    requires Spent(s) && Still(s, t) && InLoop(t)
    ensures Spent(t)
  {
  }

  lemma ControlOnly(s: State, t: State, u: State)
    requires u == t.(control := u.control)
    ensures Left(u) == Left(t) && (Still(s, t) ==> Still(s, u))
  {
  }

  /** Every event of a batch leaves strictly less to do. */
  lemma EventDrains(s: State, c: Choice)
    requires Settling(s) && s.control.Batch? && s.control.events != [] && Fits(s, s.control.events[0], c)
    ensures var t := Dispatch(s, c); Settling(t) && Left(t) < Left(s) && Still(s, t)
  {
    hide HandleEvent, One, Child, Left, Destroy, Splits, Still, Spent;
    BatchHead(s);
    EventLeft(s, s.control.events[0], c);
    StillAsked(s, HandleEvent(s, s.control.events[0], c).state);
    DispatchOne(s, c);
    DispatchChild(s, c);
    ControlOnly(s, HandleEvent(s, s.control.events[0], c).state, Dispatch(s, c));
    StillSpent(s, Dispatch(s, c));
  }

  lemma StillAsked(s: State, t: State)
    ensures Still(s, t) ==> t.asked == s.asked
  {
  }

  // ---------------------------------------------------------------------------------------------
  // The loop
  // ---------------------------------------------------------------------------------------------

  lemma NothingToReap(s: State)
    requires Child(s) && s.status != PROC_RUNNING
    ensures WaitChild(s) == s
  {
    assert Zombies(s) == {};
    assert s.sys.procs - {} == s.sys.procs;
  }

  /** What EnterPoll leaves alone. */
  ghost predicate Parked(s: State, t: State) {
    t.control.Poll? && Left(t) == Left(s) && Still(s, t)
  }

  lemma EnterParks(s: State)
    ensures Parked(s, EnterPoll(s))
  {
    hide StreamLeft;
  }

  /** The top of the loop without a live command: a normal exit, the result, or epoll_wait. */
  lemma TopParks(s: State)
    requires Child(s) && s.control.Top? && s.status != PROC_RUNNING
    ensures var t := LoopTop(s);
      if Leaves(s) then t.control == Done(0, Finished)
      else if ExecOver(s) && !s.resultSent then
        && t.resultSent && t.control.Poll? && Left(t) == Left(s) && t.asked == s.asked && t.status == s.status
        && t.sock.closed == s.sock.closed && t.sock.inbox == s.sock.inbox && t.k == s.k
      else Parked(s, t)
  {
    hide Child, WaitChild, EnterPoll, Parked;
    NothingToReap(s);
    if ExecOver(s) && s.connection != -1 && !s.stop && !s.resultSent { ResultParks(s); }
    EnterParks(s);
  }

  lemma ResultParks(s: State)
    requires s.connection != -1
    ensures var t := EnterPoll(SendMessage(s, Reply(ResultOf(s))).state.(marks := s.marks + [Replied(ResultOf(s))]));
      && t.resultSent && t.control.Poll? && Left(t) == Left(s) && t.asked == s.asked && t.status == s.status
      && t.sock.closed == s.sock.closed && t.sock.inbox == s.sock.inbox && t.k == s.k
  {
    hide StreamLeft;
  }

  /** The top of the loop ends the process exactly when there is nothing left to wait for, or on shutdown. */
  lemma TopDrains(s: State)
    requires Settling(s) && s.control.Top?
    ensures var t := LoopTop(s);
      if Leaves(s) then t.control == Done(0, Finished)
      else
        && Settling(t) && t.control.Poll? && Left(t) == Left(s) && t.sock.closed == s.sock.closed
        && (if ExecOver(s) && !s.resultSent then t.resultSent else Still(s, t))
  {
    hide Child, One, LoopTop, Left, Waits;
    TopParks(s);
    TopWaits(s);
    if !Leaves(s) {
      assert Listed(s) by { LoopChild(s); }
      LoopTopChild(s);
      LoopTopOne(s);
    }
  }

  lemma PollDrains(s: State, fds: seq<int>)
    requires Settling(s) && s.control.Poll? && Returns(s, Events(fds))
    ensures var t := Wait(s, Events(fds)); Settling(t) && t.control.Batch? && Left(t) == Left(s) && Still(s, t)
  {
    hide Child, One, Left, Returns;
    PollChild(s, Events(fds));
    WaitOne(s, Events(fds));
    ControlOnly(s, s, Wait(s, Events(fds)));
  }

  predicate LoopAction(a: Action) { a.Enter? || (a.Return? && a.poll.Events?) || a.Handle? }

  /** Strictly decreasing along the loop. */
  function Rank(s: State): nat {
    3 * Left(s) + (match s.control case Top => 2 case Poll => 1 case _ => 0)
  }

  lemma StepDrains(s: State, a: Action)
    requires Settling(s) && LoopAction(a) && Enabled(s, a)
    ensures var t := Step(s, a);
      || (t.control == Done(0, Finished) && a.Enter? && Leaves(s))
      || (Settling(t) && Rank(t) < Rank(s) && t.sock.closed == s.sock.closed && (Still(s, t) || t.resultSent))
  {
    hide Settling, LoopTop, Wait, Dispatch, Wake, Left, Returns, Fits, Still;
    StillCloses(s, Step(s, a));
    match a
    case Enter => TopDrains(s);
    case Return(r) => PollDrains(s, r.fds);
    case Handle(c) => EventDrains(s, c);
    case _ =>
  }

  lemma StillCloses(s: State, t: State)
    ensures Still(s, t) ==> t.sock.closed == s.sock.closed
  {
  }

  /** Every action is one of the loop and can be taken where it is. */
  ghost predicate Loops(s: State, actions: seq<Action>) {
    forall i :: 0 <= i < |actions| ==> LoopAction(actions[i]) && Enabled(Run(s, actions[..i]), actions[i])
  }

  lemma LoopsLast(s: State, actions: seq<Action>)
    requires Loops(s, actions) && actions != []
    ensures var n := |actions| - 1;
      Loops(s, actions[..n]) && LoopAction(actions[n]) && Enabled(Run(s, actions[..n]), actions[n])
  {
    hide Enabled, Run;
    var past := actions[..|actions| - 1];
    assert forall i :: 0 <= i <= |past| ==> past[..i] == actions[..i];
  }

  lemma DoneStops(s: State, a: Action)
    requires LoopAction(a)
    ensures s.control.Done? ==> !Enabled(s, a)
  {
  }

  lemma {:induction false} LoopDrains(s: State, actions: seq<Action>)
    requires Settling(s) && s.sock.closed && Loops(s, actions)
    ensures var t := Run(s, actions);
      && |actions| <= Rank(s) + 1
      && (t.control == Done(0, Finished) || (Settling(t) && t.sock.closed && |actions| + Rank(t) <= Rank(s)))
  {
    hide Settling, Step, Rank, Enabled, Loops, Still;
    if actions != [] {
      var n := |actions| - 1;
      LoopsLast(s, actions);
      LoopDrains(s, actions[..n]);
      DoneStops(Run(s, actions[..n]), actions[n]);
      StepDrains(Run(s, actions[..n]), actions[n]);
    }
  }

  /** With the client gone, the loop makes at most Rank + 1 more moves, and the only way out is a normal exit. */
  lemma {:induction false} DrainTerminates(s: State, actions: seq<Action>)
    requires Reached(s) && Abandoned(s) && Loops(s, actions)
    ensures var t := Run(s, actions);
      && |actions| <= Rank(s) + 1
      && (t.control == Done(0, Finished) || (Abandoned(t) && |actions| + Rank(t) <= Rank(s)))
  {
    hide Run, Loops, Rank, Child, One, Spent, Reached;
    assert Spent(s);
    ReachedSettles(s);
    LoopDrains(s, actions);
  }

  // ---------------------------------------------------------------------------------------------
  // Draining among everything else that can happen
  // ---------------------------------------------------------------------------------------------

  predicate Around(a: Action) { !a.Enter? && !a.Return? && !a.Handle? && !a.Awake? }

  /** The rest of the system can neither undo the draining nor add to what is left. */
  lemma AroundDrains(s: State, a: Action)
    requires Settling(s) && s.sock.closed && Around(a) && Enabled(s, a)
    ensures Settling(Step(s, a)) && Step(s, a).sock.closed && Left(Step(s, a)) == Left(s)
  {
    hide One, Child, Left, Waits, Spent, Step, Enabled;
    StepChild(s, a);
    OutsideOne(s, a);
    StepWaits(s, a);
    AroundLeft(s, a);
  }

  lemma AroundLeft(s: State, a: Action)
    requires Enabled(s, a) && Around(a) && s.sock.closed && Spent(s)
    ensures var t := Step(s, a); Left(t) == Left(s) && Spent(t) && t.sock.closed && t.asked == s.asked
  {
    hide Rely;
  }

  /** epoll_wait may also be interrupted, or time out once the connection is closed. */
  lemma IdlePollDrains(s: State, r: Poll)
    requires Settling(s) && s.sock.closed && s.control.Poll? && Returns(s, r) && !r.Events?
    ensures Settling(Wait(s, r)) && Wait(s, r).sock.closed && Left(Wait(s, r)) == Left(s)
  {
    hide Child, One, Left, Returns, Wait;
    PollChild(s, r);
    WaitOne(s, r);
    IdlePoll(s, r);
    ControlOnly(s, s, Wait(s, r));
  }

  lemma IdlePoll(s: State, r: Poll)
    requires One(s) && s.control.Poll? && s.sock.closed && Returns(s, r) && !r.Events?
    ensures Wait(s, r) == s.(control := Top)
  {
    hide Replies, Story, Timing, Flowing;
    assert r.Expired? && s.connection != -1 ==> s.connection in s.k.interest && Ready(s, s.connection);
  }

  lemma MixedStep(s: State, a: Action)
    requires Settling(s) && s.sock.closed
    ensures var t := Step(s, a);
      || (t.control == Done(0, Finished) && !a.Handle?)
      || (Settling(t) && t.sock.closed && Left(t) + (if a.Handle? && Enabled(s, a) then 1 else 0) <= Left(s))
  {
    hide Settling, LoopTop, Wait, Dispatch, Wake, Left, Returns, Fits, Rely, Still;
    SettlingLoops(s);
    if Enabled(s, a) {
      match a
      case Enter => TopDrains(s);
      case Return(r) =>
        if r.Events? {
          PollDrains(s, r.fds);
          StillCloses(s, Wait(s, r));
        } else {
          IdlePollDrains(s, r);
        }
      case Handle(c) =>
        EventDrains(s, c);
        StillCloses(s, Dispatch(s, c));
      case Awake =>
      case _ => AroundDrains(s, a);
    }
  }

  lemma SettlingLoops(s: State)
    ensures Settling(s) ==> InLoop(s)
  {
  }

  /** The events handled in a run. */
  ghost function Handled(s: State, actions: seq<Action>): nat {
    if actions == [] then 0
    else
      var past, a := actions[..|actions| - 1], actions[|actions| - 1];
      Handled(s, past) + (if a.Handle? && Enabled(Run(s, past), a) then 1 else 0)
  }

  lemma DoneStays(s: State, a: Action)
    ensures s.control.Done? ==> Step(s, a).control == s.control && !(a.Handle? && Enabled(s, a))
  {
  }

  lemma {:induction false} MixedRun(s: State, actions: seq<Action>)
    requires Settling(s) && s.sock.closed
    ensures var t := Run(s, actions);
      && Handled(s, actions) <= Left(s)
      && (t.control == Done(0, Finished) || (Settling(t) && t.sock.closed && Handled(s, actions) + Left(t) <= Left(s)))
  {
    hide Settling, Step, Left, Enabled;
    if actions != [] {
      var past, a := actions[..|actions| - 1], actions[|actions| - 1];
      MixedRun(s, past);
      DoneStays(Run(s, past), a);
      if Run(s, past).control != Done(0, Finished) { MixedStep(Run(s, past), a); }
    }
  }

  /** Whatever other supervisors, signals, interruptions and the reader of the connection do meanwhile, a
      supervisor left alone with a finished command, or with none, handles no more events than it has things
      left, and leaves only by a normal exit. */
  lemma {:induction false} DrainBounded(s: State, actions: seq<Action>)
    requires Reached(s) && Abandoned(s)
    ensures var t := Run(s, actions);
      && Handled(s, actions) <= Left(s)
      && (t.control == Done(0, Finished) || (Abandoned(t) && Handled(s, actions) + Left(t) <= Left(s)))
  {
    hide Run, Handled, Left, Child, One, Spent, Reached;
    assert Spent(s);
    ReachedSettles(s);
    MixedRun(s, actions);
  }

  // ---------------------------------------------------------------------------------------------
  // The loop is never stuck
  // ---------------------------------------------------------------------------------------------

  /** Something is ready, and every event can be handled. */
  lemma DrainProgress(s: State)
    requires Reached(s) && (Abandoned(s) || Owed(s))
    ensures exists a :: LoopAction(a) && Enabled(s, a)
  {
    hide Child, One, Spent, Reached, Fits, Ready, Waits;
    assert Spent(s);
    ReachedSettles(s);
    LoopsOn(s);
  }

  lemma LoopsOn(s: State)
    requires Settling(s) && (s.sock.closed || (s.status == PROC_EXIT && !s.resultSent))
    ensures exists a :: LoopAction(a) && Enabled(s, a)
  {
    hide Child, One, Fits, Ready;
    match s.control
    case Top => assert LoopAction(Enter) && Enabled(s, Enter);
    case Poll =>
      var fd := SomethingReady(s);
      PolledOnly(s, fd);
      assert LoopAction(Return(Events([fd]))) && Enabled(s, Return(Events([fd])));
    case Batch(events) =>
      BatchHead(s);
      var c := SomeChoice(s, events[0]);
      assert LoopAction(Handle(c)) && Enabled(s, Handle(c));
  }

  lemma SomethingReady(s: State) returns (fd: int)
    requires Settling(s) && s.control.Poll? && (s.sock.closed || (s.status == PROC_EXIT && !s.resultSent))
    ensures fd in s.k.interest && Ready(s, fd)
  {
    hide Child, Replies, Story, Timing;
    if s.connection != -1 && s.sock.closed {
      fd := s.connection;
    } else if s.out.rd != -1 {
      fd := s.out.rd;
    } else {
      fd := s.err.rd;
    }
  }

  // ---------------------------------------------------------------------------------------------
  // The answer
  // ---------------------------------------------------------------------------------------------

  lemma StillOwed(s: State, t: State)
    requires Owed(s) && Still(s, t) && InLoop(t)
    ensures Owed(t)
  {
  }

  lemma OwedStep(s: State, a: Action)
    requires Settling(s) && Owed(s) && LoopAction(a) && Enabled(s, a)
    ensures var t := Step(s, a); t.resultSent || (Settling(t) && Owed(t) && Rank(t) < Rank(s))
  {
    hide Settling, Step, Rank, Enabled, Still;
    StepDrains(s, a);
    SettlingLoops(Step(s, a));
    if Still(s, Step(s, a)) && InLoop(Step(s, a)) { StillOwed(s, Step(s, a)); }
  }

  ghost predicate AnsweredBy(s: State, actions: seq<Action>) {
    exists i :: 0 <= i <= |actions| && Run(s, actions[..i]).resultSent
  }

  lemma {:induction false} OwedRun(s: State, actions: seq<Action>)
    requires Settling(s) && Owed(s) && Loops(s, actions)
    ensures AnsweredBy(s, actions) ||
      (Settling(Run(s, actions)) && Owed(Run(s, actions)) && |actions| + Rank(Run(s, actions)) <= Rank(s))
  {
    hide Settling, Owed, Step, Rank, Enabled, Loops;
    if actions != [] {
      var n := |actions| - 1;
      var past := actions[..n];
      LoopsLast(s, actions);
      OwedRun(s, past);
      if AnsweredBy(s, past) {
        var i :| 0 <= i <= n && Run(s, past[..i]).resultSent;
        assert past[..i] == actions[..i];
      } else {
        OwedStep(Run(s, past), actions[n]);
        assert actions[..|actions|] == actions;
      }
    }
  }

  /** The answer arrives: a client that waits for a finished foreground command has its result sent within Rank
      moves of the loop, however the loop goes; and until then the loop is never stuck and cannot take the
      client's silence for its end. */
  lemma {:induction false} AnswerArrives(s: State, actions: seq<Action>)
    requires Reached(s) && Owed(s) && Loops(s, actions)
    ensures |actions| > Rank(s) ==> AnsweredBy(s, actions)
    ensures !AnsweredBy(s, actions) ==>
      var t := Run(s, actions);
      && Owed(t) && (t.control.Poll? ==> !Returns(t, Poll.Expired)) && exists a :: LoopAction(a) && Enabled(t, a)
  {
    hide Run, Loops, Rank, Child, One, Spent, Reached, AnsweredBy, Returns, Waits;
    assert Spent(s);
    ReachedSettles(s);
    OwedRun(s, actions);
    if !AnsweredBy(s, actions) {
      LoopsOn(Run(s, actions));
      NotSilent(Run(s, actions));
    }
  }

  lemma NotSilent(s: State)
    requires Settling(s) && s.status == PROC_EXIT && !s.resultSent
    ensures s.control.Poll? ==> !Returns(s, Poll.Expired)
  {
    hide Child, One, Ready, Waits, Spent;
    if s.control.Poll? { var fd := SomethingReady(s); }
  }

  // ---------------------------------------------------------------------------------------------
  // The answer among everything else that can happen
  // ---------------------------------------------------------------------------------------------

  /** Not the client's hanging up or sending more, and not shutdown. */
  predicate Patient(a: Action) { !a.Hangup? && !a.Arrive? && !a.Terminate? }

  lemma AroundOwed(s: State, a: Action)
    requires Settling(s) && Owed(s) && Around(a) && Patient(a) && Enabled(s, a)
    ensures Settling(Step(s, a)) && Owed(Step(s, a)) && Left(Step(s, a)) == Left(s)
  {
    hide One, Child, Left, Waits, Owed, Step, Enabled;
    StepChild(s, a);
    OutsideOne(s, a);
    StepWaits(s, a);
    AroundPatient(s, a);
  }

  lemma AroundPatient(s: State, a: Action)
    requires Enabled(s, a) && Around(a) && Patient(a) && Owed(s)
    ensures var t := Step(s, a); Left(t) == Left(s) && Spent(t) && Owed(t) && t.asked == s.asked
  {
    hide Rely;
  }

  lemma OwedPoll(s: State, r: Poll)
    requires Settling(s) && Owed(s) && s.control.Poll? && Returns(s, r)
    ensures var t := Wait(s, r); Settling(t) && Owed(t) && Left(t) == Left(s)
  {
    hide Child, One, Left, Returns;
    if r.Events? {
      PollDrains(s, r.fds);
    } else {
      NotSilent(s);
      PollChild(s, r);
      WaitOne(s, r);
      ControlOnly(s, s, Wait(s, r));
    }
  }

  lemma OwedMixed(s: State, a: Action)
    requires Settling(s) && Owed(s) && Patient(a)
    ensures var t := Step(s, a);
      t.resultSent || (Settling(t) && Owed(t) && Left(t) + (if a.Handle? && Enabled(s, a) then 1 else 0) <= Left(s))
  {
    hide Settling, LoopTop, Wait, Dispatch, Wake, Left, Returns, Fits, Rely, Still;
    SettlingLoops(s);
    SettlingLoops(Step(s, a));
    if Enabled(s, a) {
      match a
      case Enter =>
        TopDrains(s);
        if Still(s, LoopTop(s)) && InLoop(LoopTop(s)) { StillOwed(s, LoopTop(s)); }
      case Return(r) => OwedPoll(s, r);
      case Handle(c) =>
        EventDrains(s, c);
        if InLoop(Dispatch(s, c)) { StillOwed(s, Dispatch(s, c)); }
      case Awake =>
      case _ => AroundOwed(s, a);
    }
  }

  ghost predicate AllPatient(actions: seq<Action>) { forall i :: 0 <= i < |actions| ==> Patient(actions[i]) }

  lemma {:induction false} OwedMixedRun(s: State, actions: seq<Action>)
    requires Settling(s) && Owed(s) && AllPatient(actions)
    ensures var t := Run(s, actions);
      AnsweredBy(s, actions) || (Settling(t) && Owed(t) && Handled(s, actions) + Left(t) <= Left(s))
  {
    hide Settling, Owed, Step, Left, Enabled, Patient;
    if actions != [] {
      var n := |actions| - 1;
      var past := actions[..n];
      OwedMixedRun(s, past);
      if AnsweredBy(s, past) {
        var i :| 0 <= i <= n && Run(s, past[..i]).resultSent;
        assert past[..i] == actions[..i];
      } else {
        OwedMixed(Run(s, past), actions[n]);
        assert actions[..|actions|] == actions;
      }
    }
  }

  /** Whatever other supervisors, the timer, interruptions and the reader of the connection do meanwhile: until
      the answer is sent the supervisor handles no more events than it has things left, keeps owing it, is never
      stuck, and cannot take the client's silence for its end. */
  lemma {:induction false} AnswerBounded(s: State, actions: seq<Action>)
    requires Reached(s) && Owed(s) && AllPatient(actions)
    ensures !AnsweredBy(s, actions) ==>
      var t := Run(s, actions);
      && Owed(t) && Handled(s, actions) + Left(t) <= Left(s)
      && (t.control.Poll? ==> !Returns(t, Poll.Expired)) && exists a :: LoopAction(a) && Enabled(t, a)
  {
    hide Run, Handled, Left, Child, One, Spent, Reached, AnsweredBy, AllPatient, Returns, Waits;
    assert Spent(s);
    ReachedSettles(s);
    OwedMixedRun(s, actions);
    if !AnsweredBy(s, actions) {
      LoopsOn(Run(s, actions));
      NotSilent(Run(s, actions));
    }
  }
}
