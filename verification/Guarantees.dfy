/** What a supervisor guarantees, as statements about every run. */
module Guarantees {
  import opened Types
  import opened Kernel
  import opened Streams
  import opened StreamInvariant
  import opened Supervisor
  import opened ChildInvariant
  import opened Wiring
  import opened History
  import opened OneRequest

  /** `s` is a state some run leads to, with at most one request read so far. */
  ghost predicate Reached(s: State) {
    |s.asked| <= 1 && exists s0, actions :: Init(s0) && Run(s0, actions) == s
  }

  lemma ReachedInvariants(s: State)
    requires Reached(s)
    ensures Child(s) && One(s)
  {
    var s0, actions :| Init(s0) && Run(s0, actions) == s;
    RunChild(s0, actions);
    RunOne(s0, actions);
  }

  // ---------------------------------------------------------------------------------------------
  // Whatever the client sends
  // ---------------------------------------------------------------------------------------------

  /** Every SIGTERM the supervisor sends on its own account goes to a positive pid that is a child of its
      own not reaped yet; every SIGTERM for a STOP request goes to a registered pid. At a normal exit no
      child is left and no registry entry is the supervisor's. */
  lemma {:induction false} SignalsAndExit(s0: State, actions: seq<Action>)
    requires Init(s0)
    ensures var s := Run(s0, actions);
      && (forall i :: 0 <= i < |s.sys.signals| && s.sys.signals[i].from == s.self ==> WellAimed(s.sys.signals[i]))
      && (forall p, q :: p in s.sys.procs && q in s.sys.procs && s.sys.procs[p].parent == s.self && s.sys.procs[q].parent == s.self ==> p == q)
      && (s.control.Done? && s.control.code == 0 ==>
        && (forall p :: p in s.sys.procs ==> s.sys.procs[p].parent != s.self)
        && (forall p :: p in s.sys.registry ==> s.sys.registry[p].owner != s.self))
  {
    RunChild(s0, actions);
  }

  // ---------------------------------------------------------------------------------------------
  // With one request
  // ---------------------------------------------------------------------------------------------

  /** At every point of the loop epoll watches exactly the live descriptors, which are distinct and open,
      no write end is left, and a redirect file is open exactly for a FILE stream that still flows. */
  lemma ExactInterest(s: State)
    requires Reached(s) && InLoop(s)
    ensures s.k.interest == {s.connection, s.timerfd, s.out.rd, s.err.rd} - {-1}
    ensures s.k.interest <= s.k.fds.Keys && s.out.wr == s.err.wr == -1 && NoWriteEnds(s.k)
    ensures forall fd :: fd in s.k.interest ==>
      (if fd == s.connection then 1 else 0) + (if fd == s.timerfd then 1 else 0)
        + (if fd == s.out.rd then 1 else 0) + (if fd == s.err.rd then 1 else 0) == 1
    ensures s.out.redirectFd != -1 <==> s.out.mode.FILE? && s.out.rd != -1
    ensures s.err.redirectFd != -1 <==> s.err.mode.FILE? && s.err.rd != -1
  {
    hide Reached, Child, Replies, Story, Timing, Faithful;
    ReachedInvariants(s);
  }

  /** Whatever the earlier events of a batch did, the next one still names a watched open descriptor of the
      kind its handler expects, and that is still ready. */
  lemma NoStaleDispatch(s: State)
    requires Reached(s) && s.control.Batch?
    ensures s.control.events != []
    ensures forall i :: 0 <= i < |s.control.events| ==>
      var fd := s.control.events[i];
      && fd in s.k.interest && fd in s.k.fds && Ready(s, fd)
      && match s.k.fds[fd]
         case Conn => fd == s.connection
         case Timer(_, expired) => fd == s.timerfd && expired
         case ReadEnd(p) => (fd == s.out.rd && p == s.out.pipe) || (fd == s.err.rd && p == s.err.pipe)
         case _ => false
  {
    hide Reached, Child, Replies, Story, Timing, Faithful;
    ReachedInvariants(s);
  }

  /** What a client gets to see of a stream: a prefix, and the whole stream whenever that fits the cap. */
  ghost predicate TextOf(text: Bytes, k: Kernel, o: Stream) {
    && 0 <= o.pipe < |k.pipes|
    && var total := k.pipes[o.pipe].total;
      && text <= total
      && (|total| <= 0x80_0000 ==> text == total)
      && (text == total ==> Ended(k.pipes[o.pipe]))
      && (text != total ==> 0x80_0000 <= |text| <= 0x80_0000 + 1023)
  }

  /** At most one answer goes out on a connection. For a command in the foreground that was found it is sent
      after the command is reaped and both streams are finished, and in MSG mode its texts are what the
      command wrote. */
  lemma OneCompleteAnswer(s: State)
    requires Reached(s)
    ensures |Terminals(s.sock.sent)| <= 1 && (s.resultSent <==> Terminals(s.sock.sent) != [])
    ensures s.resultSent && s.status != NO_PROC && !s.request.backend ==>
      var r := Terminals(s.sock.sent)[0].response;
      && s.status == PROC_EXIT && s.out.over && s.err.over && Replied(r) in s.marks
      && (s.request.outmode.MSG? ==> TextOf(r.outstr, s.k, s.out))
      && (s.request.errmode.MSG? ==> TextOf(r.errstr, s.k, s.err))
  {
    hide Reached, Child, Orderly, Lawful, Timing, Table, Fresh;
    ReachedInvariants(s);
  }

  /** The file of a FILE stream is what was read from its pipe, in order and without gaps, in and after every
      wakeup; and once the stream is finished its end was seen, unless the call that finished it read so many
      bytes that its 32-bit counter turned over. */
  lemma FileCopied(s: State, o: Stream)
    requires Reached(s) && InLoop(s) && s.status != NO_PROC && (o == s.out || o == s.err)
    requires o.mode.FILE?
    ensures 0 <= o.pipe < |s.k.pipes|
    ensures var p := s.k.pipes[o.pipe];
      && o.copied + p.pending == p.total && (o.copied == p.total <==> p.pending == [])
      && (o.over ==> (o.last == 0 && Ended(p) && o.copied == p.total) || TurnsOver(o.last))
  {
    hide Reached, Child, RepliesAt, Answered, StoryAt, Timing, Table, Fresh;
    ReachedInvariants(s);
  }

  lemma {:induction false} Enumerate(keys: set<int>) returns (order: seq<int>)
    ensures forall i, j :: 0 <= i < j < |order| ==> order[i] != order[j]
    ensures forall p :: p in keys <==> p in order
  {
    order := [];
    if p :| p in keys {
      var rest := Enumerate(keys - {p});
      order := [p] + rest;
      assert forall i :: 0 <= i < |rest| ==> rest[i] in rest;
    }
  }

  /** The operating system always has some way to serve an event. */
  lemma SomeChoice(s: State, fd: int) returns (c: Choice)
    ensures Fits(s, fd, c)
  {
    var order := Enumerate(s.sys.registry.Keys);
    UniformSplits(Pending(s.k, fd));
    c := Choice(Uniform(Pending(s.k, fd)), LowestFrom(s.sys.procs.Keys, 1), NoFault, 0, order);
    assert forall i :: 0 <= i < |order| ==> order[i] in order;
  }

  function StreamAt(s: State, first: bool): Stream { if first then s.out else s.err }

  lemma StreamOnly(s: State, first: bool)
    requires One(s) && InLoop(s) && StreamAt(s, first).rd != -1
    ensures var o := StreamAt(s, first);
      && Sound(s.k, o) && NoWriteEnds(s.k) && o.rd in s.k.interest
      && 0 <= o.pipe < |s.k.pipes| && o.rd in s.k.fds && s.k.fds[o.rd] == ReadEnd(o.pipe)
      && s.connection != o.rd && (!first ==> s.out.rd != o.rd) && Ready(s, o.rd) == PipeReady(s.k, o.rd)
  {
    hide Replies, Story, Timing;
  }

  /** An event that finds a multiple of 4 GB, or up to 2 GB less than one, ends a FILE stream whoever still
      writes to it. */
  lemma CutShort(s: State, first: bool, c: Choice)
    requires var o := StreamAt(s, first);
      && One(s) && s.control == Batch([o.rd]) && o.rd != -1 && o.mode.FILE? && Fits(s, o.rd, c)
      && PipeReady(s.k, o.rd) && TurnsOver(|Pending(s.k, o.rd)|)
    ensures var o, t := StreamAt(s, first), Dispatch(s, c);
      && t.control.Top? && StreamAt(t, first).over && StreamAt(t, first).rd == -1
      && |t.k.pipes| == |s.k.pipes| && 0 <= o.pipe < |s.k.pipes| && t.k.pipes[o.pipe].held == s.k.pipes[o.pipe].held
  {
    hide One, Sound, Receive, RecvMessage;
    var o := StreamAt(s, first);
    StreamOnly(s, first);
    FileEndsIff(s.k, o, c.chunks);
    ReceiveSound(s.k, o, c.chunks);
    assert [o.rd][1..] == [];
  }

  lemma WrittenAhead(s: State, first: bool, bytes: Bytes)
    requires var o := StreamAt(s, first);
      && One(s) && Child(s) && s.control.Poll? && o.rd != -1 && 0 <= o.pipe < |s.k.pipes|
      && s.k.pipes[o.pipe].held && bytes != []
    ensures var o := StreamAt(s, first);
      var s1 := Step(s, Write(o.pipe, bytes));
      && One(s1) && s1.control.Poll? && StreamAt(s1, first) == o && |s1.k.pipes| == |s.k.pipes| && s1.k.pipes[o.pipe].held
      && |Pending(s1.k, o.rd)| == |s.k.pipes[o.pipe].pending| + |bytes| && PipeReady(s1.k, o.rd)
      && o.rd in s1.k.interest && Ready(s1, o.rd)
  {
    hide One, Child, Sound, LoopTop, Wait, Dispatch, Wake, Rely, Fits, Returns;
    var o := StreamAt(s, first);
    var s1 := Step(s, Write(o.pipe, bytes));
    OutsideOne(s, Write(o.pipe, bytes));
    StreamOnly(s, first);
    StreamOnly(s1, first);
  }

  lemma PolledOnly(s: State, fd: int)
    requires s.control.Poll? && fd in s.k.interest && Ready(s, fd)
    ensures Returns(s, Events([fd])) && Step(s, Return(Events([fd]))) == s.(control := Batch([fd]))
  {
    assert Returns(s, Events([fd])) by { assert [fd][0] == fd; }
  }

  /** Such a call can come in any run that has a FILE stream still flowing, of output or of errors: it takes a
      writer that is 2 GB ahead, and leaves it without a reader. */
  lemma FileCutShort(s: State, first: bool, bytes: Bytes) returns (c: Choice)
    requires var o := StreamAt(s, first);
      && Reached(s) && s.control.Poll? && o.mode.FILE? && o.rd != -1 && 0 <= o.pipe < |s.k.pipes|
      && s.k.pipes[o.pipe].held && bytes != [] && |s.k.pipes[o.pipe].pending| + |bytes| == 0x8000_0000
    ensures var o := StreamAt(s, first);
      var s1 := Step(s, Write(o.pipe, bytes));
      var s2 := Step(s1, Return(Events([o.rd])));
      && Enabled(s, Write(o.pipe, bytes)) && Enabled(s1, Return(Events([o.rd]))) && Enabled(s2, Handle(c))
      && var t := Step(s2, Handle(c));
        && StreamAt(t, first).over && StreamAt(t, first).rd == -1
        && o.pipe < |t.k.pipes| && t.k.pipes[o.pipe].held && InLoop(t)
  {
    hide One, Child, Reached, Dispatch, Fits, Returns, LoopTop, Wake, Rely;
    var o := StreamAt(s, first);
    ReachedInvariants(s);
    WrittenAhead(s, first, bytes);
    var s1 := Step(s, Write(o.pipe, bytes));
    PolledOnly(s1, o.rd);
    BatchOne(s1, [o.rd]);
    var s2 := Step(s1, Return(Events([o.rd])));
    c := SomeChoice(s2, o.rd);
    CutShort(s2, first, c);
  }

  /** A MSG stream loses nothing while it flows, and is kept whole up to the cap once it is finished. */
  lemma TextKept(s: State, o: Stream)
    requires Reached(s) && InLoop(s) && s.status != NO_PROC && (o == s.out || o == s.err)
    requires o.mode.MSG? && 0 <= o.pipe < |s.k.pipes|
    ensures if o.over then TextOf(o.str, s.k, o) else o.str + s.k.pipes[o.pipe].pending == s.k.pipes[o.pipe].total
    ensures |o.str| <= LIMIT + BUFSIZE - 1
  {
    hide Reached, Child, RepliesAt, Answered, StoryAt, Timing, Table, Fresh;
    ReachedInvariants(s);
  }

  /** A live command with a time limit has its timer armed with that limit and watched, or was sent SIGTERM;
      the timer is armed at most once and fires at most once. */
  lemma TimeLimitKept(s: State)
    requires Reached(s) && s.status == PROC_RUNNING && !s.control.Done?
    ensures InLoop(s) && 0 <= s.request.timeout ==>
      || (s.timerfd in s.k.interest && s.timerfd in s.k.fds && s.k.fds[s.timerfd].Timer?
        && s.k.fds[s.timerfd].secs ==
          if 0 < s.request.timeout then s.request.timeout else if s.request.backend then 7200 else 600)
      || Terminated(s, s.clonepid)
    ensures !InLoop(s) ==> Terminated(s, s.clonepid)
    ensures forall i, j :: 0 <= i < j < |s.marks| ==>
      !(s.marks[i].Armed? && s.marks[j].Armed?) && !(s.marks[i].Fired? && s.marks[j].Fired?)
  {
    hide Reached, Replies, Lawful, Flowing, Fresh;
    ReachedInvariants(s);
    forall i, j | 0 <= i < j < |s.marks|
      ensures !(s.marks[i].Armed? && s.marks[j].Armed?) && !(s.marks[i].Fired? && s.marks[j].Fired?)
    {
      assert Place(s.marks[i]) != Place(s.marks[j]);
    }
  }

  /** Reply `j`, with reap `i` before it. */
  ghost predicate StateLaw(sticky: bool, marks: seq<Mark>, i: nat, j: nat)
    requires i < j < |marks| && marks[i].Reaped? && marks[j].Replied?
  {
    && Tells(marks[j].response.stat, exists f :: (if sticky then 0 else i) <= f < j && marks[f].Fired?, marks[i].exit)
    && marks[j].response.retval == if marks[i].exit.Exited? then marks[i].exit.code else 0
  }

  /** The state in a foreground result: as the code is, TIMEOUT iff the timer event was handled between the
      reap and the reply; in the repaired supervisor, iff it was handled at all before the reply. Otherwise it is
      NORMAL iff the command exited. The value returned is its exit code. */
  lemma ReplyState(s: State, j: nat)
    requires Reached(s) && j < |s.marks| && s.marks[j].Replied?
    ensures exists i :: 0 <= i < j && s.marks[i].Reaped? && StateLaw(s.sticky, s.marks, i, j)
  {
    hide Reached, Child, Replies, Body, Fresh;
    ReachedInvariants(s);
    var i :| 0 <= i < |s.marks[..j]| && s.marks[..j][i].Reaped?;
    assert s.marks[i].Reaped?;
    if s.sticky {
      StickyLaw(s.marks, i, j);
    } else {
      LastWriterLaw(s.marks, i, j);
      assert (exists f :: i < f < j && s.marks[f].Fired?) <==> (exists f :: i <= f < j && s.marks[f].Fired?);
    }
  }

  /** The naive reading, TIMEOUT iff the timer fired before the reply, holds of the code exactly when the
      timer did not fire before the reap. */
  lemma NaiveTimeoutIff(s: State, i: nat, j: nat)
    requires Reached(s) && !s.sticky && i < j < |s.marks| && s.marks[i].Reaped? && s.marks[j].Replied?
    ensures (s.marks[j].response.stat == TIMEOUT <==> exists f :: 0 <= f < j && s.marks[f].Fired?)
      <==> forall f :: 0 <= f < i ==> !s.marks[f].Fired?
  {
    ReachedInvariants(s);
    LastWriterLaw(s.marks, i, j);
    FiresOnce(s.marks);
    hide One, Child;
  }

  lemma FiresOnce(marks: seq<Mark>)
    requires Orderly(marks)
    ensures forall f, g :: 0 <= f < g < |marks| && marks[f].Fired? ==> !marks[g].Fired?
  {
    forall f, g | 0 <= f < g < |marks| && marks[f].Fired? ensures !marks[g].Fired? {
      assert Place(marks[f]) != Place(marks[g]);
    }
  }

  /** No write to a closed connection is ever attempted, so no run ends because of one. */
  lemma NothingOnClosedConnection(s: State)
    requires Reached(s) && (s.control.Dying? || s.control.Done?)
    ensures s.control.cause != BadDescriptor
  {
    ReachedInvariants(s);
  }

  // ---------------------------------------------------------------------------------------------
  // Background and foreground commands
  // ---------------------------------------------------------------------------------------------

  /** While a background command runs, a silent client cannot time out, a client that hangs up causes no
      signal, and no step but the reap of the command leads out of the loop. Signals of the supervisor's
      own come from the timer and from shutdown only. */
  lemma BackendIsolated(s: State, a: Action)
    requires Reached(s) && InLoop(s) && s.status == PROC_RUNNING && s.request.backend && |Step(s, a).asked| <= 1
    ensures s.control.Poll? ==> !Returns(s, Poll.Expired)
    ensures InLoop(Step(s, a)) || Step(s, a).status == PROC_EXIT
    ensures Step(s, a).sys.signals == s.sys.signals || a.Others? || (a.Enter? && s.stop)
      || (a.Handle? && s.control.Batch? && s.control.events[0] == s.timerfd)
  {
    hide LoopTop, Wait, Dispatch, Wake, One, Child;
    ReachedInvariants(s);
    BackendWaits(s);
    if Enabled(s, a) {
      match a
      case Enter => BackendTop(s);
      case Return(r) => BackendPoll(s, r);
      case Handle(c) => BackendEvent(s, c);
      case _ =>
    }
  }

  lemma BackendWaits(s: State)
    requires One(s) && InLoop(s) && s.request.backend
    ensures s.synTimeout == -1
  {
  }

  lemma BackendPoll(s: State, r: Poll)
    requires s.control.Poll? && s.request.backend
    ensures InLoop(Wait(s, r)) && Wait(s, r).sys == s.sys
  {
  }

  lemma BackendTop(s: State)
    requires Child(s) && One(s) && s.control.Top? && s.status == PROC_RUNNING && s.request.backend
    ensures InLoop(LoopTop(s)) || LoopTop(s).status == PROC_EXIT
    ensures LoopTop(s).sys.signals == s.sys.signals || s.stop
  {
    hide Replies, Story, Body;
    WaitChildOne(s);
    var s1 := WaitChild(s);
    assert s1.sys.signals == s.sys.signals && s1.stop == s.stop && s1.connection == s.connection;
  }

  lemma BackendMessage(s: State, c: Choice)
    requires Child(s) && One(s) && InLoop(s) && s.status == PROC_RUNNING && s.connection != -1 && s.sock.inbox != []
    requires forall i :: 0 <= i < |c.order| ==> c.order[i] in s.sys.registry
    requires |RecvMessage(s, c).state.asked| <= 1
    ensures RecvMessage(s, c).Ok? && RecvMessage(s, c).state.sys == s.sys
  {
    hide StoryAt, TimingAt, Flowing, Table, Answered, RepliesAt, Child, HandleRequest;
    AskedCount(Accept(s), s.sock.inbox[0], c);
    assert !s.sock.inbox[0].Asks();
  }

  lemma BackendClose(s: State, c: Choice)
    requires s.request.backend && s.sock.inbox == []
    requires forall i :: 0 <= i < |c.order| ==> c.order[i] in s.sys.registry
    ensures RecvMessage(s, c).Ok? && RecvMessage(s, c).state.sys == s.sys && RecvMessage(s, c).state.asked == s.asked
  {
  }

  lemma BackendEvent(s: State, c: Choice)
    requires Child(s) && One(s) && s.control.Batch? && s.status == PROC_RUNNING && s.request.backend
    requires Fits(s, s.control.events[0], c) && |Dispatch(s, c).asked| <= 1
    ensures InLoop(Dispatch(s, c))
    ensures Dispatch(s, c).sys.signals == s.sys.signals || s.control.events[0] == s.timerfd
  {
    hide StoryAt, TimingAt, Flowing, Receive, Answered, RepliesAt, Child, RecvMessage, Destroy;
    var fd := s.control.events[0];
    if fd == s.connection {
      var o := RecvMessage(s, c);
      if s.sock.inbox == [] {
        BackendClose(s, c);
      } else {
        if o.Thrown? { DestroySame(o.state, -1, o.cause); }
        BackendMessage(s, c);
      }
    }
  }

  /** A client in the foreground that hangs up before its result has its live command stopped in that very
      step, by exactly one SIGTERM to that command. */
  lemma HangupStops(s: State, c: Choice)
    requires Reached(s) && s.control.Batch? && s.status == PROC_RUNNING && !s.request.backend
    requires s.control.events != [] && s.control.events[0] == s.connection && s.sock.inbox == []
    requires Fits(s, s.control.events[0], c)
    ensures var t := Dispatch(s, c);
      && t.connection == -1 && InLoop(t) && |t.sys.signals| == |s.sys.signals| + 1 && s.sys.signals <= t.sys.signals
      && var g := t.sys.signals[|s.sys.signals|];
        g.from == s.self && g.own && g.pid == s.clonepid && g.target.Some? && g.target.value.parent == s.self
  {
    hide Reached, Story, Body, Fresh, Splits, Receive, Destroy;
    ReachedInvariants(s);
  }
}
