/** What holds in every run of a supervisor whose client sends at most one request, whatever the
    interleaving of child exit, output, keepalive traffic, hang-up, timer and shutdown. */
module OneRequest {
  import opened Types
  import opened Kernel
  import opened Streams
  import opened StreamInvariant
  import opened Supervisor
  import opened ChildInvariant
  import opened Wiring
  import opened History
  import Settings

  /** A finished stream, judged by the pipes alone: its descriptors are gone. */
  ghost predicate Complete(pipes: seq<Pipe>, o: Stream) {
    && o.over && o.rd == -1 && o.wr == -1 && o.redirectFd == -1 && o.pipe < |pipes|
    && (if o.pipe < 0 then o.str == [] else Faithful(pipes[o.pipe], o))
  }

  ghost predicate Shaped(o: Stream, mode: OutMode, backend: bool) {
    o.mode == mode && (0 <= o.pipe <==> Piped(mode, backend))
  }

  /** The end-of-run result: the child is reaped, both streams are finished, and `m` holds their text. */
  ghost predicate ResultAt(m: Message, status: ProcStatus, response: Response, request: Request, marks: seq<Mark>,
                           a: Stream, b: Stream, pipes: seq<Pipe>)
  {
    && status == PROC_EXIT && Complete(pipes, a) && Complete(pipes, b)
    && Shaped(a, request.outmode, request.backend) && Shaped(b, request.errmode, request.backend)
    && m == Reply(m.response) && Replied(m.response) in marks
    && m.response.outstr == a.str && m.response.errstr == b.str && m.response.retval == response.retval
  }

  ghost predicate IsResult(s: State, m: Message) {
    ResultAt(m, s.status, s.response, s.request, s.marks, s.out, s.err, s.k.pipes)
  }

  /** The only answers a request to execute can get. */
  ghost predicate Answered(s: State, m: Message) {
    if s.status == NO_PROC then m == Reply(NO_RESPONSE.(stat := BADARGS))
    else if s.request.backend then m == Reply(NO_RESPONSE)
    else IsResult(s, m)
  }

  /** At most one answer, of the right kind; everything else ever sent is keepalive. */
  ghost predicate RepliesAt(asked: seq<Message>, resultSent: bool, status: ProcStatus, request: Request,
                            keyfiles: Settings.Keyfiles, sent: seq<Message>)
  {
    var t := Terminals(sent);
    && (resultSent <==> t != []) && |t| <= 1
    && (asked == [] ==> t == [] && status == NO_PROC && !request.backend)
    && (asked != [] && !asked[0].kind.EXE? ==>
      && status == NO_PROC && !request.backend && asked[0].Asks()
      && (t != [] ==> t[0].kind == asked[0].kind))
    && (asked != [] && asked[0].kind.EXE? ==>
      request == Settings.LoadRequest(keyfiles, asked[0].request).(args := request.args))
    && (forall i :: 0 <= i < |sent| ==> !sent[i].kind.ACK?)
  }

  ghost predicate Replies(s: State) {
    && RepliesAt(s.asked, s.resultSent, s.status, s.request, s.keyfiles, s.sock.sent)
    && (s.asked != [] && s.asked[0].kind.EXE? && Terminals(s.sock.sent) != [] ==> Answered(s, Terminals(s.sock.sent)[0]))
  }

  ghost predicate StoryAt(sticky: bool, marks: seq<Mark>, response: Response, status: ProcStatus, resultSent: bool, request: Request) {
    && Orderly(marks) && Lawful(sticky, marks) && response.stat == Stands(sticky, marks)
    && (HasReap(marks) <==> status == PROC_EXIT)
    && (HasReply(marks) ==> resultSent && status == PROC_EXIT && !request.backend)
    && (status == NO_PROC ==> marks == [])
    && Valued(marks, response.retval)
    && (marks != [] && marks[0].Armed? ==> 0 <= request.timeout && marks[0].secs == EffectiveTimeout(request))
  }

  ghost predicate Story(s: State) { StoryAt(s.sticky, s.marks, s.response, s.status, s.resultSent, s.request) }

  /** The time limit is kept: a live command with one has its timer armed, or was sent SIGTERM. */
  ghost predicate TimingAt(status: ProcStatus, timerfd: int, marks: seq<Mark>, fds: map<int, Handle>, request: Request, terminated: bool) {
    && (status == NO_PROC ==> timerfd == -1)
    && (timerfd != -1 ==>
      && marks != [] && marks[0].Armed? && Fired !in marks
      && timerfd in fds && fds[timerfd].Timer? && fds[timerfd].secs == EffectiveTimeout(request))
    && (status == PROC_RUNNING && 0 <= request.timeout ==> timerfd != -1 || terminated)
  }

  ghost predicate Timing(s: State) {
    TimingAt(s.status, s.timerfd, s.marks, s.k.fds, s.request, TerminatedBy(s.self, s.sys.signals, s.clonepid))
  }

  /** What the code has decided by the next turn of the loop. */
  ghost predicate Settled(s: State) {
    && (s.synTimeout == -1 <==> s.connection == -1 || s.request.backend)
    && (s.asked != [] && (s.status == NO_PROC || s.request.backend) ==> s.resultSent)
    && (s.status != NO_PROC ==>
      Shaped(s.out, s.request.outmode, s.request.backend) && Shaped(s.err, s.request.errmode, s.request.backend))
    && (s.status == PROC_RUNNING ==>
      s.asked != [] && s.clonepid in s.sys.registry && s.sys.registry[s.clonepid].request == s.asked[0].request)
  }

  ghost predicate Ending(s: State) {
    (s.control.Dying? || s.control.Done?) ==> s.control.cause != BadDescriptor
  }

  ghost predicate Body(s: State) { Plumbing(s) && Timing(s) && Settled(s) }

  ghost predicate One(s: State) {
    Replies(s) && Story(s) && Ending(s) && (InLoop(s) ==> Body(s) && Fresh(s))
  }

  // ---------------------------------------------------------------------------------------------
  // Frames
  // ---------------------------------------------------------------------------------------------

  ghost predicate SameTalk(s: State, t: State) {
    && t.asked == s.asked && t.keyfiles == s.keyfiles && t.sticky == s.sticky && t.request == s.request
    && t.status == s.status && t.response == s.response && t.resultSent == s.resultSent
    && t.sock.sent == s.sock.sent && t.marks == s.marks && t.out == s.out && t.err == s.err && t.k.pipes == s.k.pipes
  }

  lemma TalkFrame(s: State, t: State)
    requires Replies(s) && Story(s) && SameTalk(s, t)
    ensures Replies(t) && Story(t)
  {
  }

  /** The same but for signals sent, the position in the loop and the keepalive flag. */
  ghost predicate SameBody(s: State, t: State) {
    && SameTalk(s, t) && t.self == s.self && t.connection == s.connection && t.epollfd == s.epollfd && t.timerfd == s.timerfd
    && t.k == s.k && t.clonepid == s.clonepid && t.synTimeout == s.synTimeout
    && t.sys.registry == s.sys.registry && s.sys.signals <= t.sys.signals
  }

  lemma TerminatedGrows(s: State, t: State, pid: int)
    requires Terminated(s, pid) && t.self == s.self && s.sys.signals <= t.sys.signals
    ensures Terminated(t, pid)
  {
    var i :| 0 <= i < |s.sys.signals| && s.sys.signals[i].from == s.self && s.sys.signals[i].own && s.sys.signals[i].pid == pid;
    assert t.sys.signals[i] == s.sys.signals[i];
  }

  lemma BodyFrame(s: State, t: State)
    requires Body(s) && SameBody(s, t)
    ensures Body(t)
  {
    if Terminated(s, s.clonepid) { TerminatedGrows(s, t, s.clonepid); }
  }

  lemma StopChildSame(s: State)
    ensures SameBody(s, StopChild(s)) && StopChild(s).sock == s.sock
    ensures s.status == PROC_RUNNING ==> Terminated(StopChild(s), s.clonepid)
  {
    assert s.status == PROC_RUNNING ==> StopChild(s).sys.signals[|s.sys.signals|].from == s.self;
  }

  lemma FinishSame(s: State, code: int, cause: Cause)
    ensures SameTalk(s, Finish(s, code, cause))
  {
    assert Close(Close(Close(s.k, s.connection), s.epollfd), s.timerfd).pipes == s.k.pipes;
  }

  lemma DestroySame(s: State, code: int, cause: Cause)
    ensures var t := Destroy(s, code, cause);
      SameTalk(s, t) && !InLoop(t) && (t.control.Dying? || t.control.Done?) && t.control.cause == cause
  {
    if s.status.PROC_RUNNING? {
      assert Destroy(s, code, cause) == s.(control := Dying(code, cause), sys := Destroy(s, code, cause).sys);
    } else {
      FinishSame(s, code, cause);
    }
  }

  lemma DestroyOne(s: State, code: int, cause: Cause)
    requires Replies(s) && Story(s) && cause != BadDescriptor
    ensures One(Destroy(s, code, cause))
  {
    DestroySame(s, code, cause);
    TalkFrame(s, Destroy(s, code, cause));
  }

  // ---------------------------------------------------------------------------------------------
  // The top of the loop
  // ---------------------------------------------------------------------------------------------

  lemma WaitChildOne(s: State)
    requires Steady(s) && Replies(s) && Story(s)
    ensures Replies(WaitChild(s)) && Story(WaitChild(s))
    ensures Body(s) ==> Body(WaitChild(s))
  {
    hide StoryAt, Plumbing, RepliesAt;
    var t := WaitChild(s);
    if s.clonepid in Zombies(s) {
      ReapedStory(s);
      ReapedReplies(s);
      if Body(s) { FlowingStays(s, t); }
    } else {
      if Body(s) { SamePlumbing(s, t); }
      TalkFrame(s, t);
      if Body(s) && Terminated(s, s.clonepid) { TerminatedGrows(s, t, s.clonepid); }
    }
  }

  lemma ReapedReplies(s: State)
    requires Steady(s) && Replies(s) && Story(s) && s.clonepid in Zombies(s)
    ensures Replies(WaitChild(s))
  {
    hide Terminals, Orderly, Lawful, Stands;
    assert s.status == PROC_RUNNING && !HasReply(s.marks);
  }

  lemma SamePlumbing(s: State, t: State)
    requires Plumbing(s) && t == s.(sys := t.sys)
    ensures Plumbing(t)
  {
  }

  lemma FlowingStays(s: State, t: State)
    requires Plumbing(s) && s.status != NO_PROC && t.status != NO_PROC
    requires t.connection == s.connection && t.epollfd == s.epollfd && t.timerfd == s.timerfd
    requires t.out == s.out && t.err == s.err && t.k == s.k
    ensures Plumbing(t)
  {
  }

  lemma ReapedStory(s: State)
    requires Steady(s) && Story(s) && s.clonepid in Zombies(s)
    ensures Story(WaitChild(s))
  {
    var exit := s.sys.procs[s.clonepid].exit.value;
    forall i | 0 <= i < |s.marks| ensures Place(s.marks[i]) != 2 {
      assert !HasReap(s.marks);
    }
    AppendMark(s.sticky, s.marks, Reaped(exit));
    AppendStands(s.sticky, s.marks, Reaped(exit));
    assert WaitChild(s).marks == s.marks + [Reaped(exit)];
  }

  lemma SoundComplete(k: Kernel, o: Stream)
    requires Sound(k, o) && o.over
    ensures Complete(k.pipes, o)
  {
  }

  /** The one answer of a connection. */
  lemma AnswerLogged(asked: seq<Message>, status: ProcStatus, request: Request, keyfiles: Settings.Keyfiles,
                     sent: seq<Message>, m: Message)
    requires asked != [] && RepliesAt(asked, false, status, request, keyfiles, sent) && m.Asks()
    requires !asked[0].kind.EXE? ==> m.kind == asked[0].kind
    ensures RepliesAt(asked, true, status, request, keyfiles, sent + [m]) && Terminals(sent + [m]) == [m]
  {
    TerminalsAppend(sent, m);
    assert Terminals(sent) == [];
  }

  /** The result is sent once, with the text of both streams and the state that stands. */
  lemma ResultTalk(s: State, t: State)
    requires Replies(s) && Body(s) && ExecOver(s) && s.connection != -1 && !s.resultSent
    requires t == SendMessage(s, Reply(ResultOf(s))).state.(marks := s.marks + [Replied(ResultOf(s))])
    ensures Replies(t)
  {
    hide Sound, Faithful, TimingAt, Table, Complete;
    var m := Reply(ResultOf(s));
    assert s.asked != [] && s.asked[0].kind.EXE? && !s.request.backend;
    AnswerLogged(s.asked, s.status, s.request, s.keyfiles, s.sock.sent, m);
    hide RepliesAt;
    SoundComplete(s.k, s.out);
    SoundComplete(s.k, s.err);
    assert t.marks[|s.marks|] == Replied(ResultOf(s));
    assert IsResult(t, m);
  }

  lemma ResultStory(s: State, t: State)
    requires Replies(s) && Story(s) && Body(s) && ExecOver(s) && s.connection != -1 && !s.resultSent
    requires t == SendMessage(s, Reply(ResultOf(s))).state.(marks := s.marks + [Replied(ResultOf(s))])
    ensures Story(t)
  {
    hide Orderly, Lawful, Stands;
    var r := Replied(ResultOf(s));
    assert !HasReply(s.marks);
    forall i | 0 <= i < |s.marks| ensures Place(s.marks[i]) != Place(r) {
      assert !s.marks[i].Replied?;
    }
    AppendMark(s.sticky, s.marks, r);
    AppendStands(s.sticky, s.marks, r);
    assert t.marks == s.marks + [r] && t.marks[0] == s.marks[0];
    assert forall i :: 0 <= i < |t.marks| && t.marks[i].Reaped? ==> i < |s.marks| && t.marks[i] == s.marks[i];
  }

  lemma ResultBody(s: State, t: State)
    requires Body(s) && ExecOver(s) && s.connection != -1
    requires t == SendMessage(s, Reply(ResultOf(s))).state.(marks := s.marks + [Replied(ResultOf(s))])
    ensures Body(t)
  {
    assert Fired in t.marks <==> Fired in s.marks;
    assert s.marks != [] ==> t.marks[0] == s.marks[0];
  }

  lemma EnterPollOne(s: State)
    requires Replies(s) && Story(s) && Body(s)
    ensures One(EnterPoll(s))
  {
    StopChildSame(s);
    var t := EnterPoll(s);
    assert SameBody(s, t);
    TalkFrame(s, t);
    BodyFrame(s, t);
  }

  lemma LoopTopOne(s: State)
    requires Child(s) && One(s) && s.control.Top?
    ensures One(LoopTop(s))
  {
    WaitChildOne(s);
    var s1 := WaitChild(s);
    if ExecOver(s1) && (s1.connection == -1 || s1.stop) {
      DestroyOne(s1, 0, Finished);
    } else if ExecOver(s1) && !s1.resultSent {
      var t := SendMessage(s1, Reply(ResultOf(s1))).state.(marks := s1.marks + [Replied(ResultOf(s1))]);
      ResultTalk(s1, t);
      ResultStory(s1, t);
      ResultBody(s1, t);
      EnterPollOne(t);
    } else if s1.status.NO_PROC? && s1.connection == -1 {
      DestroyOne(s1, 0, Finished);
    } else {
      EnterPollOne(s1);
    }
  }

  // ---------------------------------------------------------------------------------------------
  // epoll_wait
  // ---------------------------------------------------------------------------------------------

  lemma KeepaliveOne(s: State, m: Message)
    requires Replies(s) && Story(s) && Body(s) && m.kind.SYN? && s.connection != -1
    ensures var o := SendMessage(s, m);
      o.Ok? && Replies(o.state) && Story(o.state) && Body(o.state)
  {
    hide StoryAt, TimingAt, Flowing, Table;
    var t := SendMessage(s, m).state;
    TerminalsAppend(s.sock.sent, m);
    var u := t.(sock := s.sock);
    TalkFrame(s, u);
    BodyFrame(s, u);
  }

  lemma BatchOne(s: State, fds: seq<int>)
    requires One(s) && s.control.Poll? && Returns(s, Events(fds))
    ensures One(Wait(s, Events(fds)))
  {
    var t := Wait(s, Events(fds));
    TalkFrame(s, t);
    BodyFrame(s, t);
    forall i | 0 <= i < |fds| ensures fds[i] in t.k.interest && Ready(t, fds[i]) {
      assert fds[i] in fds;
      ReadyStays(s, t, fds[i]);
    }
  }

  lemma PingOne(s: State)
    requires One(s) && s.control.Poll? && s.connection != -1 && !s.isSyn && !s.request.backend
    ensures One(Wait(s, Expired))
  {
    hide Replies, Story, Body;
    var s1 := s.(isSyn := true);
    TalkFrame(s, s1);
    BodyFrame(s, s1);
    KeepaliveOne(s1, Bare(SYN));
    var t := SendMessage(s1, Bare(SYN)).state;
    TalkFrame(t, t.(control := Top));
    BodyFrame(t, t.(control := Top));
  }

  lemma WaitOne(s: State, r: Poll)
    requires One(s) && s.control.Poll? && Returns(s, r)
    ensures One(Wait(s, r))
  {
    hide Replies, Story, Body;
    if r.Events? {
      BatchOne(s, r.fds);
    } else if r.Expired? && !s.request.backend && s.connection != -1 {
      if s.isSyn { DestroyOne(s, -1, SynTimeout); } else { PingOne(s); }
    } else {
      TalkFrame(s, s.(control := Top));
      BodyFrame(s, s.(control := Top));
    }
  }

  // ---------------------------------------------------------------------------------------------
  // Events
  // ---------------------------------------------------------------------------------------------

  lemma CloseOne(s: State)
    requires Replies(s) && Story(s) && Body(s) && s.connection != -1
    ensures var t := CloseConnection(s); Replies(t) && Story(t) && Body(t)
  {
    var t := CloseConnection(s);
    CloseFrame(s);
    ClosePlumbing(s);
    TalkFrame(s, t);
    if s.status == PROC_RUNNING && Terminated(s, s.clonepid) { TerminatedGrows(s, t, s.clonepid); }
  }

  lemma TimerOne(s: State)
    requires Replies(s) && Story(s) && Body(s) && s.timerfd != -1
    ensures var t := TimerFires(s); Replies(t) && Story(t) && Body(t)
  {
    hide Replies, Plumbing, Orderly, Lawful, Stands, StopChild, Close, Unwatch;
    var t := TimerFires(s);
    StopChildSame(s);
    TimerPlumbingGone(s);
    forall i | 0 <= i < |s.marks| ensures Place(s.marks[i]) != Place(Fired) {
      assert s.marks[i] in s.marks;
    }
    AppendMark(s.sticky, s.marks, Fired);
    AppendStands(s.sticky, s.marks, Fired);
    TimerTalk(s, t);
    assert t.marks[0] == s.marks[0];
    assert Terminated(StopChild(s), s.clonepid) ==> Terminated(t, s.clonepid);
  }

  lemma TimerTalk(s: State, t: State)
    requires Replies(s) && t == TimerFires(s)
    ensures Replies(t)
  {
    StopChildSame(s);
    assert forall m :: m in s.marks ==> m in t.marks;
    var a := Terminals(s.sock.sent);
    if a != [] && IsResult(s, a[0]) {
      assert Sound(t.k, t.out) && Sound(t.k, t.err);
      assert IsResult(t, a[0]);
    }
  }

  lemma OutOne(s: State, c: Choice)
    requires Replies(s) && Story(s) && Body(s) && s.out.rd != -1 && Ready(s, s.out.rd)
    requires Splits(c.chunks, Pending(s.k, s.out.rd))
    ensures var (k, out) := Receive(s.k, s.out, c.chunks);
      var t := s.(k := k, out := out);
      Replies(t) && Story(t) && Body(t)
  {
    hide RepliesAt, StoryAt, Receive;
    OutPlumbing(s, c);
    TableReceive(s.connection, s.epollfd, s.timerfd, s.out, s.err, s.k, c.chunks);
    var (k, out) := Receive(s.k, s.out, c.chunks);
    var t := s.(k := k, out := out);
    assert s.status != NO_PROC && !s.out.over;
    assert s.timerfd != -1 ==> s.timerfd in s.k.interest && s.timerfd != s.out.rd;
  }

  lemma ErrOne(s: State, c: Choice)
    requires Replies(s) && Story(s) && Body(s) && s.err.rd != -1 && Ready(s, s.err.rd)
    requires Splits(c.chunks, Pending(s.k, s.err.rd))
    ensures var (k, err) := Receive(s.k, s.err, c.chunks);
      var t := s.(k := k, err := err);
      Replies(t) && Story(t) && Body(t)
  {
    hide RepliesAt, StoryAt, Receive;
    ErrPlumbing(s, c);
    TableSwap(s.connection, s.epollfd, s.timerfd, s.out, s.err, s.k);
    TableReceive(s.connection, s.epollfd, s.timerfd, s.err, s.out, s.k, c.chunks);
    var (k, err) := Receive(s.k, s.err, c.chunks);
    var t := s.(k := k, err := err);
    assert s.status != NO_PROC && !s.err.over;
    assert s.timerfd != -1 ==> s.timerfd in s.k.interest && s.timerfd != s.err.rd;
  }

  /** The state after the first request was read and before it is acted on. */
  ghost predicate Asking(s: State, m: Message) {
    && s.asked == [m] && m.Asks() && s.connection != -1 && s.status == NO_PROC && !s.resultSent
    && Terminals(s.sock.sent) == [] && (forall i :: 0 <= i < |s.sock.sent| ==> !s.sock.sent[i].kind.ACK?)
    && Story(s) && Plumbing(s) && Timing(s)
  }

  /** `s` carries the request of `m` as the configuration completed it. */
  ghost predicate Carries(s: State, m: Message) {
    s.request == Settings.LoadRequest(s.keyfiles, m.request).(args := s.request.args)
  }

  lemma AcceptOne(s: State)
    requires One(s) && Child(s) && InLoop(s) && s.connection != -1 && s.sock.inbox != []
    ensures var m := s.sock.inbox[0];
      if m.Asks() then s.asked == [] ==> Asking(Accept(s), m) && s.synTimeout != -1 && !s.request.backend
      else Replies(Accept(s)) && Story(Accept(s)) && Body(Accept(s))
  {
    var t := Accept(s);
    if !s.sock.inbox[0].Asks() {
      TalkFrame(s, t);
      BodyFrame(s, t);
    }
  }

  /** An answer that ends the matter: BADARGS, a listing, or the acknowledgement of a STOP. */
  ghost predicate Fitting(s: State, q: Message, m: Message) {
    && m.Asks()
    && (q.kind.EXE? ==> m == Reply(NO_RESPONSE.(stat := BADARGS)) && Carries(s, q))
    && (!q.kind.EXE? ==> m.kind == q.kind && !s.request.backend)
  }

  lemma AnswerTalk(s: State, q: Message, m: Message)
    requires Asking(s, q) && Fitting(s, q, m)
    ensures Replies(SendMessage(s, m).state)
  {
    AnswerLogged(s.asked, s.status, s.request, s.keyfiles, s.sock.sent, m);
  }

  lemma AnswerSent(s: State, q: Message, m: Message)
    requires Asking(s, q) && Fitting(s, q, m) && (s.synTimeout == -1 <==> s.request.backend)
    ensures var o := SendMessage(s, m);
      o.Ok? && Replies(o.state) && Story(o.state) && Body(o.state)
  {
    AnswerTalk(s, q, m);
    assert s.marks == [];
  }

  /** What starting a command leaves alone, and what it leaves behind. */
  ghost predicate Launched(s: State, raw: Request, c: Choice, o: Outcome) {
    var t := o.state;
    && t.self == s.self && t.asked == s.asked && t.keyfiles == s.keyfiles && t.sticky == s.sticky && t.request == s.request
    && t.response == s.response && t.synTimeout == s.synTimeout && t.connection == s.connection && t.control == s.control
    && (o.Thrown? ==> t.sock == s.sock && t.resultSent == s.resultSent && t.marks == s.marks && t.status != PROC_EXIT)
    && (o.Ok? ==>
      && t.sys.registry == s.sys.registry[c.pid := Entry(s.self, c.now, raw)]
      && (if s.request.backend then t.sock.sent == s.sock.sent + [Reply(NO_RESPONSE)] && t.resultSent
          else t.sock == s.sock && t.resultSent == s.resultSent))
  }

  lemma LoadFrame(s: State, c: Choice)
    ensures var t := LoadStreams(s, c).state; t == s.(k := t.k, out := t.out, err := t.err)
  {
  }

  lemma BindFrame(s: State, c: Choice)
    ensures var t := BindStreams(s, c).state; t == s.(k := t.k, out := t.out, err := t.err)
  {
  }

  lemma TimerFrame(s: State, c: Choice)
    ensures var o := SetTimeout(s, c);
      var t := o.state;
      && t == s.(k := t.k, timerfd := t.timerfd, marks := t.marks)
      && (o.Thrown? ==> t.marks == s.marks)
  {
    hide Open, Watch, NextFd, EffectiveTimeout;
  }

  lemma FurnishFrame(s: State, backend: bool, c: Choice)
    requires s.connection != -1
    ensures var o := Furnish(s, backend, c);
      var t := o.state;
      && t == s.(k := t.k, out := t.out, err := t.err, timerfd := t.timerfd, marks := t.marks, sock := t.sock, resultSent := t.resultSent)
      && (o.Thrown? || !backend ==> t.sock == s.sock && t.resultSent == s.resultSent)
      && (o.Thrown? ==> t.marks == s.marks)
      && (o.Ok? && backend ==> t.sock.sent == s.sock.sent + [Reply(NO_RESPONSE)] && t.resultSent)
  {
    BindFrame(s, c);
    var o1 := BindStreams(s, c);
    if o1.Ok? { TimerFrame(o1.state, c); }
  }

  lemma StartLaunched(s: State, raw: Request, c: Choice)
    requires s.status == NO_PROC && s.connection != -1
    ensures Launched(s, raw, c, StartCommand(s, raw, c))
  {
    hide LoadStreams, Furnish, Inherit;
    LoadFrame(s, c);
    var o1 := LoadStreams(s, c);
    if o1.Ok? {
      var o2 := Spawn(o1.state, raw, c);
      if o2.Ok? { FurnishFrame(o2.state, s.request.backend, c); }
    }
  }

  lemma StartOne(s: State, q: Message, c: Choice)
    requires Asking(s, q) && q.kind.EXE? && Carries(s, q) && (s.synTimeout == -1 <==> s.request.backend)
    ensures var o := StartCommand(s, q.request, c);
      && Replies(o.state) && Story(o.state) && (o.Ok? ==> Body(o.state)) && (o.Thrown? ==> o.cause != BadDescriptor)
  {
    var o := StartCommand(s, q.request, c);
    var t := o.state;
    StartLaunched(s, q.request, c);
    StartCommandPlumbing(s, q.request, c);
    TerminalsAppend(s.sock.sent, Reply(NO_RESPONSE));
    if o.Ok? {
      StartedStory(s, t, c);
    } else {
      assert t.marks == [];
    }
  }

  lemma StartedStory(s: State, t: State, c: Choice)
    requires Story(s) && s.status == NO_PROC && Started(s, t, c)
    requires t.request == s.request && t.response == s.response && t.sticky == s.sticky
    ensures Story(t) && Timing(t)
  {
    hide Flowing, Linked, NoWriteEnds, Extends, Orderly, Lawful, Stands, EffectiveTimeout;
    if 0 <= s.request.timeout {
      AppendMark(s.sticky, s.marks, Armed(EffectiveTimeout(s.request)));
      AppendStands(s.sticky, s.marks, Armed(EffectiveTimeout(s.request)));
      assert t.marks == [Armed(EffectiveTimeout(s.request))];
    }
  }

  ghost predicate Kept(o: Outcome) {
    && Replies(o.state) && Story(o.state)
    && (if o.Ok? then Body(o.state) else o.cause != BadDescriptor)
  }

  lemma AskingFrame(s: State, t: State, m: Message)
    requires Asking(s, m) && t == s.(request := t.request, synTimeout := t.synTimeout)
    ensures Asking(t, m)
  {
  }

  lemma ExecuteOne(s: State, m: Message, c: Choice)
    requires Asking(s, m) && m.kind.EXE? && s.synTimeout != -1 && s.clonepid <= 0
    requires s.request == Settings.LoadRequest(s.keyfiles, m.request)
    ensures Kept(HandleRequest(s, m.request, c))
  {
    hide Replies, Story, Body, StartCommand;
    var s1 := if s.request.backend then s.(synTimeout := -1) else s;
    AskingFrame(s, s1, m);
    match FindCommand(s.k, s.request.args)
    case None =>
      assert s.request == s.request.(args := s.request.args);
      AnswerSent(s1, m, Reply(NO_RESPONSE.(stat := BADARGS)));
    case Some(args) =>
      var s2 := s1.(request := s.request.(args := args));
      AskingFrame(s1, s2, m);
      StartOne(s2, m, c);
  }

  lemma AskedOne(s: State, m: Message, c: Choice)
    requires Asking(s, m) && s.synTimeout != -1 && !s.request.backend && s.clonepid <= 0
    requires forall i :: 0 <= i < |c.order| ==> c.order[i] in s.sys.registry
    ensures Kept(Answer(s, m, c))
  {
    hide StoryAt, Flowing, Table, HandleRequest, Settings.LoadRequest;
    match m.kind
    case EXE =>
      var s1 := s.(request := Settings.LoadRequest(s.keyfiles, m.request));
      AskingFrame(s, s1, m);
      ExecuteOne(s1, m, c);
    case LIST =>
      var s1 := s.(request := s.request.(backend := false));
      assert s1 == s;
      AnswerSent(s, m, Bare(LIST).(runlist := Listing(s.sys.registry, c.order)));
    case STOP =>
      StopListedFrame(s, m.runlist);
      AnswerSent(StopListed(s, m.runlist), m, Bare(STOP));
    case _ =>
  }

  lemma QuietOne(s: State, m: Message, c: Choice)
    requires Replies(s) && Story(s) && Body(s) && s.connection != -1 && !m.Asks()
    requires forall i :: 0 <= i < |c.order| ==> c.order[i] in s.sys.registry
    ensures Kept(Answer(s, m, c))
  {
    if m.kind.SYN? {
      KeepaliveOne(s, m);
    } else {
      TalkFrame(s, s.(isSyn := false));
      BodyFrame(s, s.(isSyn := false));
    }
  }

  lemma RecvOne(s: State, c: Choice)
    requires One(s) && Child(s) && InLoop(s) && s.connection != -1
    requires forall i :: 0 <= i < |c.order| ==> c.order[i] in s.sys.registry
    ensures |RecvMessage(s, c).state.asked| <= 1 ==> Kept(RecvMessage(s, c))
  {
    if s.sock.inbox == [] {
      CloseOne(s);
    } else {
      var m, s1 := s.sock.inbox[0], Accept(s);
      AcceptOne(s);
      AskedCount(s1, m, c);
      if !m.Asks() {
        QuietOne(s1, m, c);
      } else if s.asked == [] {
        AskedOne(s1, m, c);
      }
    }
  }

  lemma StartAsked(s: State, raw: Request, c: Choice)
    ensures StartCommand(s, raw, c).state.asked == s.asked
  {
    LoadFrame(s, c);
    var o1 := LoadStreams(s, c);
    if o1.Ok? {
      var o2 := Spawn(o1.state, raw, c);
      if o2.Ok? {
        BindFrame(o2.state, c);
        var o3 := BindStreams(o2.state, c);
        if o3.Ok? { TimerFrame(o3.state, c); }
      }
    }
  }

  /** Acting on a message does not change how many requests were read. */
  lemma AskedCount(s: State, m: Message, c: Choice)
    requires forall i :: 0 <= i < |c.order| ==> c.order[i] in s.sys.registry
    ensures Answer(s, m, c).state.asked == s.asked
  {
    hide StartCommand, FindCommand, Settings.LoadRequest;
    match m.kind
    case EXE =>
      var s1 := s.(request := Settings.LoadRequest(s.keyfiles, m.request));
      var found := FindCommand(s1.k, s1.request.args);
      if found.Some? {
        var s2 := if s1.request.backend then s1.(synTimeout := -1) else s1;
        StartAsked(s2.(request := s1.request.(args := found.value)), m.request, c);
      }
    case STOP => StopListedFrame(s, m.runlist);
    case _ =>
  }

  lemma HandleEventOne(s: State, fd: int, c: Choice)
    requires One(s) && Child(s) && InLoop(s) && fd in s.k.interest && Ready(s, fd) && Fits(s, fd, c)
    ensures |HandleEvent(s, fd, c).state.asked| <= 1 ==> Kept(HandleEvent(s, fd, c))
  {
    hide Replies, Story, Child, RecvMessage, Receive, TimerFires;
    if fd == s.connection { RecvOne(s, c); }
    else if fd == s.out.rd { OutOne(s, c); }
    else if fd == s.err.rd { ErrOne(s, c); }
    else { TimerOne(s); }
  }

  lemma DispatchOne(s: State, c: Choice)
    requires One(s) && Child(s) && s.control.Batch? && Fits(s, s.control.events[0], c)
    ensures |Dispatch(s, c).asked| <= 1 ==> One(Dispatch(s, c))
  {
    hide Replies, Story, Body, HandleEvent, Destroy;
    var fd, rest := s.control.events[0], s.control.events[1..];
    HandleEventOne(s, fd, c);
    var o := HandleEvent(s, fd, c);
    if o.Thrown? { DestroySame(o.state, -1, o.cause); }
    if |o.state.asked| <= 1 {
      if o.Thrown? {
        DestroyOne(o.state, -1, o.cause);
      } else {
        var t := Dispatch(s, c);
        TalkFrame(o.state, t);
        BodyFrame(o.state, t);
        if rest != [] {
          FreshRest(s, c);
        }
      }
    }
  }

  /** A request is read only while none was read before, so nothing of a command exists yet. */
  lemma FreshRest(s: State, c: Choice)
    requires One(s) && Child(s) && s.control.Batch? && Fits(s, s.control.events[0], c)
    requires HandleEvent(s, s.control.events[0], c).Ok? && |Dispatch(s, c).asked| <= 1
    ensures Fresh(Dispatch(s, c))
  {
    hide StoryAt, Answered, Table, Flowing, Child, Receive, TimerFires, CloseConnection, Answer, Destroy;
    var fd, rest := s.control.events[0], s.control.events[1..];
    if fd == s.connection && s.sock.inbox != [] { AskedCount(Accept(s), s.sock.inbox[0], c); }
    HandleEventPlumbing(s, fd, c);
    var t, u := HandleEvent(s, fd, c).state, Dispatch(s, c);
    forall i | 0 <= i < |rest| ensures rest[i] in u.k.interest && Ready(u, rest[i]) {
      assert rest[i] == s.control.events[i + 1];
      assert rest[i] in t.k.interest && Ready(t, rest[i]);
      assert u.k == t.k && u.sock == t.sock;
    }
  }

  // ---------------------------------------------------------------------------------------------
  // Everything else, steps and runs
  // ---------------------------------------------------------------------------------------------

  lemma WakeOne(s: State)
    requires Child(s) && One(s) && s.control.Dying?
    ensures One(Wake(s))
  {
    hide Replies, Story, Body, WaitChild, Close;
    WaitChildOne(s);
    var s1 := WaitChild(s);
    FinishSame(s1, s.control.code, s.control.cause);
    TalkFrame(s1, Wake(s));
  }

  /** A writer only adds to a pipe it holds, and letting go of one only takes a holder away. */
  ghost predicate PipeMoves(p: Pipe, q: Pipe) {
    || p == q
    || (p.held && q.held && exists b: Bytes :: q.pending == p.pending + b && q.total == p.total + b)
    || q == p.(held := false)
  }

  lemma FaithfulMoves(p: Pipe, q: Pipe, o: Stream)
    requires Faithful(p, o) && PipeMoves(p, q)
    ensures Faithful(q, o)
  {
    if p != q && q != p.(held := false) {
      var b: Bytes :| q.pending == p.pending + b && q.total == p.total + b;
      assert o.str + (p.pending + b) == o.str + p.pending + b;
      assert o.copied + (p.pending + b) == o.copied + p.pending + b;
    }
  }

  ghost predicate OnlyPipes(s: State, t: State) {
    && t == s.(k := s.k.(pipes := t.k.pipes)) && |t.k.pipes| == |s.k.pipes|
    && forall i :: 0 <= i < |s.k.pipes| ==> PipeMoves(s.k.pipes[i], t.k.pipes[i])
  }

  lemma SoundMoves(s: State, t: State, o: Stream)
    requires OnlyPipes(s, t) && Sound(s.k, o)
    ensures Sound(t.k, o)
  {
    if 0 <= o.pipe { FaithfulMoves(s.k.pipes[o.pipe], t.k.pipes[o.pipe], o); }
  }

  lemma CompleteMoves(s: State, t: State, o: Stream)
    requires OnlyPipes(s, t) && Complete(s.k.pipes, o)
    ensures Complete(t.k.pipes, o)
  {
    if 0 <= o.pipe { FaithfulMoves(s.k.pipes[o.pipe], t.k.pipes[o.pipe], o); }
  }

  lemma PipesTalk(s: State, t: State)
    requires Replies(s) && OnlyPipes(s, t)
    ensures Replies(t)
  {
    hide RepliesAt, Faithful;
    var a := Terminals(s.sock.sent);
    if a != [] && IsResult(s, a[0]) {
      CompleteMoves(s, t, s.out);
      CompleteMoves(s, t, s.err);
    }
  }

  lemma PipesPlumbing(s: State, t: State)
    requires Plumbing(s) && OnlyPipes(s, t)
    ensures Plumbing(t)
  {
    hide Faithful;
    if s.status != NO_PROC {
      SoundMoves(s, t, s.out);
      SoundMoves(s, t, s.err);
    }
  }

  lemma PipesOne(s: State, t: State)
    requires One(s) && OnlyPipes(s, t)
    ensures One(t)
  {
    hide RepliesAt, StoryAt, TimingAt, Flowing, Faithful;
    PipesTalk(s, t);
    if InLoop(s) {
      PipesPlumbing(s, t);
      if s.control.Batch? { PipesFresh(s, t); }
    }
  }

  lemma PipesFresh(s: State, t: State)
    requires Fresh(s) && OnlyPipes(s, t) && s.control.Batch? && NoWriteEnds(s.k)
    ensures Fresh(t)
  {
    forall i | 0 <= i < |s.control.events| ensures Ready(t, s.control.events[i]) {
      PipeReadyMoves(s, t, s.control.events[i]);
    }
  }

  lemma PipeReadyMoves(s: State, t: State, fd: int)
    requires OnlyPipes(s, t) && NoWriteEnds(s.k) && Ready(s, fd)
    ensures Ready(t, fd)
  {
  }

  /** Only the socket and the rest of the system move. */
  ghost predicate OnlyOutside(s: State, t: State) {
    && t == s.(sock := t.sock, sys := t.sys, stop := t.stop)
    && t.sock.sent == s.sock.sent && s.sock.inbox <= t.sock.inbox && (s.sock.closed ==> t.sock.closed)
    && s.sys.signals <= t.sys.signals
    && (InLoop(s) && s.status == PROC_RUNNING && s.clonepid in s.sys.registry ==>
      s.clonepid in t.sys.registry && t.sys.registry[s.clonepid] == s.sys.registry[s.clonepid])
  }

  lemma OutsideOnly(s: State, t: State)
    requires One(s) && OnlyOutside(s, t)
    ensures One(t)
  {
    TalkFrame(s, t);
    if InLoop(s) {
      if Terminated(s, s.clonepid) { TerminatedGrows(s, t, s.clonepid); }
      if s.control.Batch? {
        forall i | 0 <= i < |s.control.events| ensures Ready(t, s.control.events[i]) {
          assert Ready(s, s.control.events[i]);
        }
      }
    }
  }

  lemma ExpireTable(s: State, t: State, fd: int)
    requires Plumbing(s) && fd in s.k.fds && s.k.fds[fd].Timer?
    requires t == s.(k := s.k.(fds := s.k.fds[fd := s.k.fds[fd].(expired := true)]))
    ensures Plumbing(t)
  {
    assert t.k.pipes == s.k.pipes && t.k.interest == s.k.interest;
    assert Linked(t.k, t.out) && Linked(t.k, t.err);
  }

  lemma ExpireOne(s: State, t: State, fd: int)
    requires One(s) && fd in s.k.fds && s.k.fds[fd].Timer?
    requires t == s.(k := s.k.(fds := s.k.fds[fd := s.k.fds[fd].(expired := true)]))
    ensures One(t)
  {
    TalkFrame(s, t);
    if InLoop(s) {
      ExpireTable(s, t, fd);
      assert Terminated(s, s.clonepid) ==> Terminated(t, s.clonepid);
      if s.control.Batch? {
        forall i | 0 <= i < |s.control.events| ensures Ready(t, s.control.events[i]) {
          if s.control.events[i] != fd { ReadyStays(s, t, s.control.events[i]); }
        }
      }
    }
  }

  lemma WriteOne(s: State, p: nat, bytes: Bytes)
    requires One(s) && Enabled(s, Write(p, bytes))
    ensures One(Step(s, Write(p, bytes)))
  {
    var t, q := Step(s, Write(p, bytes)), s.k.pipes[p];
    assert t.k.pipes == s.k.pipes[p := q.(pending := q.pending + bytes, total := q.total + bytes)];
    assert PipeMoves(q, t.k.pipes[p]);
    PipesOne(s, t);
  }

  lemma ReleaseOne(s: State, p: nat)
    requires One(s) && Enabled(s, Release(p))
    ensures One(Step(s, Release(p)))
  {
    var t := Step(s, Release(p));
    assert t.k.pipes == s.k.pipes[p := s.k.pipes[p].(held := false)];
    PipesOne(s, t);
  }

  lemma OutsideOne(s: State, a: Action)
    requires Child(s) && One(s) && Enabled(s, a) && !a.Enter? && !a.Return? && !a.Handle? && !a.Awake?
    ensures One(Step(s, a))
  {
    hide One, Child, LoopTop, Wait, Dispatch, Wake;
    match a
    case Write(p, bytes) => WriteOne(s, p, bytes);
    case Release(p) => ReleaseOne(s, p);
    case Expire(fd) => ExpireOne(s, Step(s, a), fd);
    case _ =>
      OutsideFrame(s, a);
      OutsideOnly(s, Step(s, a));
  }

  lemma OutsideFrame(s: State, a: Action)
    requires Child(s) && Enabled(s, a)
    requires a.Die? || a.Arrive? || a.Fetch? || a.Hangup? || a.Terminate? || a.Others? || a.Adopt?
    ensures OnlyOutside(s, Step(s, a))
  {
  }

  lemma LoopTopAsked(s: State)
    ensures LoopTop(s).asked == s.asked
  {
    hide WaitChild, Destroy, EnterPoll;
    var s1 := WaitChild(s);
    WaitChildAsked(s);
    DestroySame(s1, 0, Finished);
    var o := SendMessage(s1, Reply(ResultOf(s1)));
    if o.Thrown? {
      DestroySame(s1, -1, o.cause);
    } else {
      EnterPollAsked(o.state.(marks := s1.marks + [Replied(ResultOf(s1))]));
    }
    EnterPollAsked(s1);
  }

  lemma WaitChildAsked(s: State)
    ensures WaitChild(s).asked == s.asked
  {
  }

  lemma EnterPollAsked(s: State)
    ensures EnterPoll(s).asked == s.asked
  {
  }

  lemma HandleAsked(s: State, fd: int, c: Choice)
    requires Fits(s, fd, c)
    ensures |s.asked| <= |HandleEvent(s, fd, c).state.asked|
  {
    if fd == s.connection && s.sock.inbox != [] {
      AskedCount(Accept(s), s.sock.inbox[0], c);
    }
  }

  lemma AskedGrows(s: State, a: Action)
    ensures |s.asked| <= |Step(s, a).asked|
  {
    hide LoopTop, HandleEvent, Splits, Rely, Returns;
    if Enabled(s, a) {
      match a
      case Enter => LoopTopAsked(s);
      case Handle(c) =>
        HandleAsked(s, s.control.events[0], c);
        var o := HandleEvent(s, s.control.events[0], c);
        if o.Thrown? { DestroySame(o.state, -1, o.cause); }
      case _ =>
    }
  }

  lemma StepOne(s: State, a: Action)
    requires Child(s) && One(s)
    ensures |Step(s, a).asked| <= 1 ==> One(Step(s, a))
  {
    hide LoopTop, Wait, Dispatch, Wake, One, Child;
    if Enabled(s, a) {
      match a
      case Enter => LoopTopOne(s);
      case Return(r) => WaitOne(s, r);
      case Handle(c) => DispatchOne(s, c);
      case Awake => WakeOne(s);
      case _ => OutsideOne(s, a);
    }
  }

  lemma InitOne(s: State)
    requires Init(s)
    ensures One(s)
  {
  }

  /** Every run with at most one request keeps all of it. */
  lemma {:induction false} RunOne(s: State, actions: seq<Action>)
    requires Init(s)
    ensures |Run(s, actions).asked| <= 1 ==> One(Run(s, actions))
  {
    if actions == [] {
      InitOne(s);
    } else {
      var past, a := actions[..|actions| - 1], actions[|actions| - 1];
      RunOne(s, past);
      RunChild(s, past);
      AskedGrows(Run(s, past), a);
      if |Run(s, past).asked| <= 1 { StepOne(Run(s, past), a); }
    }
  }
}
