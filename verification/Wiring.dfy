/** Descriptors, the epoll interest set and the two streams on a connection that carries one request. */
module Wiring {
  import opened Types
  import opened Kernel
  import opened Streams
  import opened StreamInvariant
  import opened Supervisor
  import opened ChildInvariant

  function Watched(connection: int, timerfd: int, out: int, err: int): set<int> {
    {connection, timerfd, out, err} - {-1}
  }

  /** The interest set is exactly the live descriptors, each open and of the kind its variable says, no
      write end is left, and the streams have nothing in common. */
  ghost predicate Table(connection: int, epollfd: int, timerfd: int, a: Stream, b: Stream, k: Kernel) {
    && -1 !in k.fds && NoWriteEnds(k)
    && (connection != -1 ==> connection in k.fds && k.fds[connection] == Conn)
    && epollfd in k.fds && k.fds[epollfd] == Epoll
    && (timerfd != -1 ==> timerfd in k.fds && k.fds[timerfd].Timer?)
    && Linked(k, a) && Linked(k, b)
    && (a.redirectFd != -1 ==> a.redirectFd != b.redirectFd)
    && (0 <= a.pipe ==> a.pipe != b.pipe)
    && k.interest == Watched(connection, timerfd, a.rd, b.rd)
  }

  ghost predicate Wired(s: State) { Table(s.connection, s.epollfd, s.timerfd, s.out, s.err, s.k) }

  /** Once a command was started both streams are sound; before that they are as constructed. */
  ghost predicate Flowing(status: ProcStatus, a: Stream, b: Stream, k: Kernel) {
    if status.NO_PROC? then a == CLOSED && b == CLOSED else Sound(k, a) && Sound(k, b)
  }

  /** No stale dispatch: what is left of a batch is watched, open and still ready, each descriptor once. */
  ghost predicate Fresh(s: State) {
    s.control.Batch? ==>
      && s.control.events != []
      && (forall i, j :: 0 <= i < j < |s.control.events| ==> s.control.events[i] != s.control.events[j])
      && (forall i :: 0 <= i < |s.control.events| ==>
        s.control.events[i] in s.k.interest && Ready(s, s.control.events[i]))
  }

  ghost predicate Plumbing(s: State) { Wired(s) && Flowing(s.status, s.out, s.err, s.k) }

  lemma TableReceive(connection: int, epollfd: int, timerfd: int, a: Stream, b: Stream, k: Kernel, chunks: seq<Bytes>)
    requires Table(connection, epollfd, timerfd, a, b, k) && Sound(k, a) && Sound(k, b) && a.rd != -1
    requires Splits(chunks, Pending(k, a.rd)) && PipeReady(k, a.rd)
    ensures var (k', a') := Receive(k, a, chunks);
      && Table(connection, epollfd, timerfd, a', b, k') && Sound(k', a') && Sound(k', b)
      && SameBut(k, k', a) && a'.pipe == a.pipe && a'.mode == a.mode
      && (forall fd :: fd in k'.fds ==> fd in k.fds && k'.fds[fd] == k.fds[fd])
      && (forall fd :: fd in k.interest && fd != a.rd ==> fd in k'.interest && fd in k'.fds)
      && |k'.pipes[a.pipe].pending| + (if a'.rd == -1 then 0 else 1) <= |k.pipes[a.pipe].pending|
  {
    hide Receive, Faithful, PipeReady, Splits;
    ReceiveSound(k, a, chunks);
  }

  lemma TableSwap(connection: int, epollfd: int, timerfd: int, a: Stream, b: Stream, k: Kernel)
    requires Table(connection, epollfd, timerfd, a, b, k)
    ensures Table(connection, epollfd, timerfd, b, a, k)
  {
  }

  lemma TableHangup(connection: int, epollfd: int, timerfd: int, a: Stream, b: Stream, k: Kernel)
    requires Table(connection, epollfd, timerfd, a, b, k) && connection != -1
    ensures Table(-1, epollfd, timerfd, a, b, Close(Unwatch(k, connection), connection))
  {
  }

  lemma TableTimerGone(connection: int, epollfd: int, timerfd: int, a: Stream, b: Stream, k: Kernel)
    requires Table(connection, epollfd, timerfd, a, b, k) && timerfd != -1
    ensures Table(connection, epollfd, -1, a, b, Close(Unwatch(k, timerfd), timerfd))
  {
  }

  lemma TableTimerSet(connection: int, epollfd: int, a: Stream, b: Stream, k: Kernel, secs: int)
    requires Table(connection, epollfd, -1, a, b, k)
    ensures Table(connection, epollfd, NextFd(k), a, b, Watch(Open(k, Timer(secs, false)), NextFd(k)))
  {
  }

  /** What a started command adds: old descriptors stay, and the streams are those the request asks for. */
  ghost predicate Started(s: State, t: State, c: Choice) {
    && Plumbing(t) && t.status == PROC_RUNNING && t.clonepid == c.pid
    && Extends(s.k, t.k) && s.k.interest <= t.k.interest && |s.k.pipes| <= |t.k.pipes|
    && t.connection == s.connection && t.epollfd == s.epollfd
    && t.out.mode == s.request.outmode && t.err.mode == s.request.errmode
    && (0 <= t.out.pipe <==> Piped(s.request.outmode, s.request.backend))
    && (0 <= t.err.pipe <==> Piped(s.request.errmode, s.request.backend))
    && (s.request.timeout < 0 ==> t.timerfd == -1 && t.marks == s.marks)
    && (0 <= s.request.timeout ==>
      && t.timerfd in t.k.interest && t.k.fds[t.timerfd] == Timer(EffectiveTimeout(s.request), false)
      && t.marks == s.marks + [Armed(EffectiveTimeout(s.request))])
  }

  /** Between clone and bind. */
  ghost predicate Prepared(s: State, t: State) {
    && Loaded(t.k, t.out) && Loaded(t.k, t.err) && Apart(s.k, t.k, t.out, t.err)
    && t.k.interest == s.k.interest && |s.k.pipes| <= |t.k.pipes|
    && t.connection == s.connection && t.epollfd == s.epollfd && t.timerfd == s.timerfd
    && t.marks == s.marks && t.request == s.request
    && t.out.mode == s.request.outmode && t.err.mode == s.request.errmode
    && (t.out.rd != -1 <==> Piped(s.request.outmode, s.request.backend))
    && (t.err.rd != -1 <==> Piped(s.request.errmode, s.request.backend))
  }

  lemma SpawnPrepared(s: State, raw: Request, c: Choice)
    requires Plumbing(s) && s.status == NO_PROC
    ensures var o1 := LoadStreams(s, c);
      var o2 := Spawn(o1.state, raw, c);
      && (o1.Thrown? ==> o1.cause == SetupFailed)
      && (o1.Ok? && o2.Ok? ==> Prepared(s, o2.state))
  {
    LoadBoth(s.k, s.request, c.fault.OutPipe?, c.fault.ErrPipe?);
    var o1 := LoadStreams(s, c);
    if o1.Ok? { InheritKeeps(s.k, o1.state.k, o1.state.out, o1.state.err); }
  }

  lemma BoundTable(connection: int, epollfd: int, base: Kernel, k: Kernel, a: Stream, b: Stream)
    requires Table(connection, epollfd, -1, CLOSED, CLOSED, base)
    requires Apart(base, k, a, b) && Linked(k, a) && Linked(k, b) && NoWriteEnds(k)
    requires k.interest == base.interest + (if a.rd == -1 then {} else {a.rd}) + (if b.rd == -1 then {} else {b.rd})
    ensures Table(connection, epollfd, -1, a, b, k)
  {
    assert a.redirectFd != -1 ==> Owns(a, a.redirectFd);
    assert b.redirectFd != -1 ==> Owns(b, b.redirectFd);
    assert !Owns(a, -1) && !Owns(b, -1);
  }

  lemma BindPlumbing(s: State, t: State, c: Choice)
    requires Plumbing(s) && s.status == NO_PROC && s.timerfd == -1 && Prepared(s, t)
    ensures var o := BindStreams(t, c);
      && (o.Thrown? ==> o.cause == SetupFailed)
      && (o.Ok? ==>
        && o.state == t.(k := o.state.k, out := o.state.out, err := o.state.err)
        && Table(s.connection, s.epollfd, -1, o.state.out, o.state.err, o.state.k)
        && Sound(o.state.k, o.state.out) && Sound(o.state.k, o.state.err)
        && Extends(s.k, o.state.k) && s.k.interest <= o.state.k.interest && o.state.k.pipes == t.k.pipes
        && o.state.out.mode == t.out.mode && o.state.err.mode == t.err.mode
        && o.state.out.pipe == t.out.pipe && o.state.err.pipe == t.err.pipe)
  {
    hide Bind, Apart, Loaded, Linked, Sound, NoWriteEnds, Extends;
    var a := Bind(t.k, t.out, c.fault.OutFile?, c.fault.OutWatch?);
    if a.ok {
      var b := Bind(a.kernel, t.err, c.fault.ErrFile?, c.fault.ErrWatch?);
      if b.ok {
        BoundStreams(s.connection, s.epollfd, s.k, t.k, t.out, t.err, c);
        assert BindStreams(t, c) == Ok(t.(k := b.kernel, out := a.stream, err := b.stream));
      }
    }
  }

  lemma BoundStreams(connection: int, epollfd: int, base: Kernel, k: Kernel, x: Stream, y: Stream, c: Choice)
    requires Table(connection, epollfd, -1, CLOSED, CLOSED, base)
    requires Loaded(k, x) && Loaded(k, y) && Apart(base, k, x, y) && k.interest == base.interest
    ensures var a := Bind(k, x, c.fault.OutFile?, c.fault.OutWatch?);
      var b := Bind(a.kernel, y, c.fault.ErrFile?, c.fault.ErrWatch?);
      a.ok && b.ok ==>
        && Table(connection, epollfd, -1, a.stream, b.stream, b.kernel)
        && Sound(b.kernel, a.stream) && Sound(b.kernel, b.stream)
        && Extends(base, b.kernel) && base.interest <= b.kernel.interest && b.kernel.pipes == k.pipes
        && a.stream.mode == x.mode && b.stream.mode == y.mode && a.stream.pipe == x.pipe && b.stream.pipe == y.pipe
  {
    BindBoth(base, k, x, y, (c.fault.OutFile?, c.fault.ErrFile?), (c.fault.OutWatch?, c.fault.ErrWatch?));
    var a := Bind(k, x, c.fault.OutFile?, c.fault.OutWatch?);
    var b := Bind(a.kernel, y, c.fault.ErrFile?, c.fault.ErrWatch?);
    if a.ok && b.ok { BoundTable(connection, epollfd, base, b.kernel, a.stream, b.stream); }
  }

  lemma SoundFrame(k: Kernel, k': Kernel, o: Stream)
    requires Sound(k, o) && Extends(k, k') && k'.pipes == k.pipes
    ensures Sound(k', o)
  {
  }

  lemma TimerPlumbing(s: State, c: Choice)
    requires Plumbing(s) && s.status == PROC_RUNNING && s.timerfd == -1
    ensures var o := SetTimeout(s, c);
      && (o.Thrown? ==> o.cause == SetupFailed)
      && (o.Ok? ==>
        && Plumbing(o.state) && Extends(s.k, o.state.k) && s.k.interest <= o.state.k.interest && o.state.k.pipes == s.k.pipes
        && o.state == s.(timerfd := o.state.timerfd, k := o.state.k, marks := o.state.marks)
        && (s.request.timeout < 0 ==> o.state.timerfd == -1 && o.state.marks == s.marks)
        && (0 <= s.request.timeout ==>
          && o.state.timerfd in o.state.k.interest
          && o.state.k.fds[o.state.timerfd] == Timer(EffectiveTimeout(s.request), false)
          && o.state.marks == s.marks + [Armed(EffectiveTimeout(s.request))]))
  {
    hide Faithful;
    var o := SetTimeout(s, c);
    if o.Ok? && 0 <= s.request.timeout {
      TableTimerSet(s.connection, s.epollfd, s.out, s.err, s.k, EffectiveTimeout(s.request));
      SoundFrame(s.k, o.state.k, s.out);
      SoundFrame(s.k, o.state.k, s.err);
    }
  }

  lemma FurnishPlumbing(s: State, t: State, c: Choice)
    requires Plumbing(s) && s.status == NO_PROC && s.timerfd == -1 && Prepared(s, t)
    requires t.status == PROC_RUNNING && t.clonepid == c.pid
    ensures var o := Furnish(t, s.request.backend, c);
      && (o.Ok? ==> Started(s, o.state, c))
      && (o.Thrown? && o.cause.BadDescriptor? ==> s.connection == -1)
  {
    hide Apart, BindStreams, SetTimeout, Linked, Sound, NoWriteEnds;
    BindPlumbing(s, t, c);
    var o3 := BindStreams(t, c);
    if o3.Ok? {
      TimerPlumbing(o3.state, c);
    }
  }

  lemma StartCommandPlumbing(s: State, raw: Request, c: Choice)
    requires Plumbing(s) && s.status == NO_PROC && s.timerfd == -1
    ensures var o := StartCommand(s, raw, c);
      && (o.Ok? ==> Started(s, o.state, c))
      && (o.Thrown? && o.cause.BadDescriptor? ==> s.connection == -1)
  {
    hide Plumbing, Started, LoadStreams, Furnish, Inherit;
    SpawnPrepared(s, raw, c);
    var o1 := LoadStreams(s, c);
    var o2 := Spawn(o1.state, raw, c);
    if o1.Ok? && o2.Ok? { FurnishPlumbing(s, o2.state, c); }
  }

  // ---------------------------------------------------------------------------------------------
  // One event
  // ---------------------------------------------------------------------------------------------

  /** `fd` is as ready in `t` as it was in `s`. */
  lemma ReadyStays(s: State, t: State, fd: int)
    requires Ready(s, fd) && fd in t.k.fds && t.k.fds[fd] == s.k.fds[fd] && NoWriteEnds(s.k) && NoWriteEnds(t.k)
    requires s.k.fds[fd].Conn? ==> t.sock == s.sock
    requires s.k.fds[fd].ReadEnd? ==>
      s.k.fds[fd].pipe < |t.k.pipes| && s.k.fds[fd].pipe < |s.k.pipes| && t.k.pipes[s.k.fds[fd].pipe] == s.k.pipes[s.k.fds[fd].pipe]
    ensures Ready(t, fd)
  {
  }

  /** The handler of one descriptor leaves every other watched descriptor watched and ready. */
  ghost predicate OthersStay(s: State, t: State, fd: int) {
    forall x :: x in s.k.interest && x != fd && Ready(s, x) ==> x in t.k.interest && Ready(t, x)
  }

  lemma CloseFrame(s: State)
    ensures var t := CloseConnection(s);
      t == s.(synTimeout := -1, connection := -1, k := Close(Unwatch(s.k, s.connection), s.connection), sys := t.sys)
  {
  }

  lemma FlowingFrame(s: State, t: State)
    requires Plumbing(s) && Wired(t) && t.out == s.out && t.err == s.err && t.status == s.status && t.k.pipes == s.k.pipes
    ensures Plumbing(t)
  {
  }

  lemma ClosePlumbing(s: State)
    requires Plumbing(s) && s.connection != -1
    ensures Plumbing(CloseConnection(s)) && OthersStay(s, CloseConnection(s), s.connection)
    ensures CloseConnection(s).connection == -1 && CloseConnection(s).status == s.status
  {
    var t := CloseConnection(s);
    CloseFrame(s);
    TableHangup(s.connection, s.epollfd, s.timerfd, s.out, s.err, s.k);
    FlowingFrame(s, t);
    forall x | x in s.k.interest && x != s.connection && Ready(s, x) ensures x in t.k.interest && Ready(t, x) {
      ReadyStays(s, t, x);
    }
  }

  lemma TimerPlumbingGone(s: State)
    requires Plumbing(s) && s.timerfd != -1
    ensures Plumbing(TimerFires(s)) && OthersStay(s, TimerFires(s), s.timerfd)
  {
    hide Faithful;
    TableTimerGone(s.connection, s.epollfd, s.timerfd, s.out, s.err, s.k);
    var t := TimerFires(s);
    assert t.k == Close(Unwatch(s.k, s.timerfd), s.timerfd) && t.out == s.out && t.err == s.err && t.sock == s.sock;
    forall x | x in s.k.interest && x != s.timerfd && Ready(s, x) ensures x in t.k.interest && Ready(t, x) {
      ReadyStays(s, t, x);
    }
  }

  lemma OutPlumbing(s: State, c: Choice)
    requires Plumbing(s) && s.out.rd != -1 && Ready(s, s.out.rd) && Splits(c.chunks, Pending(s.k, s.out.rd))
    ensures var (k, out) := Receive(s.k, s.out, c.chunks);
      var t := s.(k := k, out := out);
      Plumbing(t) && OthersStay(s, t, s.out.rd)
  {
    TableReceive(s.connection, s.epollfd, s.timerfd, s.out, s.err, s.k, c.chunks);
    var (k, out) := Receive(s.k, s.out, c.chunks);
    var t := s.(k := k, out := out);
    forall x | x in s.k.interest && x != s.out.rd && Ready(s, x) ensures x in t.k.interest && Ready(t, x) {
      ReadyStays(s, t, x);
    }
  }

  lemma ErrPlumbing(s: State, c: Choice)
    requires Plumbing(s) && s.err.rd != -1 && Ready(s, s.err.rd) && Splits(c.chunks, Pending(s.k, s.err.rd))
    ensures var (k, err) := Receive(s.k, s.err, c.chunks);
      var t := s.(k := k, err := err);
      Plumbing(t) && OthersStay(s, t, s.err.rd)
  {
    TableSwap(s.connection, s.epollfd, s.timerfd, s.out, s.err, s.k);
    TableReceive(s.connection, s.epollfd, s.timerfd, s.err, s.out, s.k, c.chunks);
    var (k, err) := Receive(s.k, s.err, c.chunks);
    TableSwap(s.connection, s.epollfd, s.timerfd, err, s.out, k);
    var t := s.(k := k, err := err);
    forall x | x in s.k.interest && x != s.err.rd && Ready(s, x) ensures x in t.k.interest && Ready(t, x) {
      ReadyStays(s, t, x);
    }
  }

  lemma {:induction false} StopListedFrame(s: State, list: seq<Runproc>)
    ensures StopListed(s, list) == s.(sys := StopListed(s, list).sys)
    ensures StopListed(s, list).sys.procs == s.sys.procs && StopListed(s, list).sys.registry == s.sys.registry
    decreases list
  {
    if list != [] {
      StopListedFrame(if list[0].pid in s.sys.registry then Kill(s, list[0].pid, false) else s, list[1..]);
    }
  }

  /** Nothing was started yet, as long as no request was read. */
  ghost predicate Idle(s: State) { s.status == NO_PROC && s.timerfd == -1 }

  lemma HandleRequestPlumbing(s: State, raw: Request, c: Choice)
    requires Plumbing(s) && Idle(s) && s.connection != -1
    ensures var o := HandleRequest(s, raw, c);
      && (o.Ok? ==> Plumbing(o.state) && s.k.interest <= o.state.k.interest)
      && (o.Thrown? ==> o.cause != BadDescriptor)
  {
    match FindCommand(s.k, s.request.args)
    case None =>
    case Some(args) =>
      var s1 := if s.request.backend then s.(synTimeout := -1) else s;
      StartCommandPlumbing(s1.(request := s.request.(args := args)), raw, c);
  }

  /** Before a command the connection is all there is to watch. */
  lemma IdleInterest(s: State)
    requires Plumbing(s) && Idle(s)
    ensures s.k.interest == {s.connection} - {-1}
  {
  }

  lemma AnswerPlumbing(s: State, m: Message, c: Choice)
    requires Plumbing(s) && s.connection != -1 && (m.kind.EXE? ==> Idle(s))
    requires forall i :: 0 <= i < |c.order| ==> c.order[i] in s.sys.registry
    ensures var o := Answer(s, m, c);
      && (o.Ok? ==> Plumbing(o.state) && s.k.interest <= o.state.k.interest)
      && (o.Thrown? ==> o.cause != BadDescriptor)
      && (!m.kind.EXE? ==> o.Ok? && o.state.k == s.k && o.state.status == s.status && o.state.connection == s.connection)
  {
    hide Table, Flowing, HandleRequest, Settings.LoadRequest;
    match m.kind
    case EXE => HandleRequestPlumbing(s.(request := Settings.LoadRequest(s.keyfiles, m.request)), m.request, c);
    case STOP => StopListedFrame(s, m.runlist);
    case _ =>
  }

  lemma RecvPlumbing(s: State, c: Choice)
    requires Plumbing(s) && s.connection != -1
    requires forall i :: 0 <= i < |c.order| ==> c.order[i] in s.sys.registry
    requires s.sock.inbox != [] && s.sock.inbox[0].kind.EXE? ==> Idle(s)
    ensures var o := RecvMessage(s, c);
      && (o.Ok? ==> Plumbing(o.state) && OthersStay(s, o.state, s.connection))
      && (o.Thrown? ==> o.cause != BadDescriptor)
  {
    if s.sock.inbox == [] {
      ClosePlumbing(s);
    } else {
      var m, s1 := s.sock.inbox[0], Accept(s);
      AnswerPlumbing(s1, m, c);
      if m.kind.EXE? {
        IdleInterest(s);
      } else {
        var t := Answer(s1, m, c).state;
        forall x | x in s.k.interest && x != s.connection && Ready(s, x) ensures x in t.k.interest && Ready(t, x) {
          ReadyStays(s, t, x);
        }
      }
    }
  }

  lemma HandleEventPlumbing(s: State, fd: int, c: Choice)
    requires Plumbing(s) && Fits(s, fd, c) && fd in s.k.interest && Ready(s, fd)
    requires fd == s.connection && s.sock.inbox != [] && s.sock.inbox[0].kind.EXE? ==> Idle(s)
    ensures var o := HandleEvent(s, fd, c);
      && (o.Ok? ==> Plumbing(o.state) && OthersStay(s, o.state, fd))
      && (o.Thrown? ==> o.cause != BadDescriptor)
  {
    if fd == s.connection { RecvPlumbing(s, c); }
    else if fd == s.out.rd { OutPlumbing(s, c); }
    else if fd == s.err.rd { ErrPlumbing(s, c); }
    else { TimerPlumbingGone(s); }
  }
}
