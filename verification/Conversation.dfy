/** A client (Srunc::exec of srunc.cpp) and its supervisor over the two directions of one connection. */
module Conversation {
  import opened Types
  import opened Kernel
  import opened Streams
  import opened Supervisor
  import opened ChildInvariant
  import opened Wiring
  import opened OneRequest
  import opened Guarantees
  import opened Calls

  /** `request` is the message exec was called with. */
  datatype Pair = Pair(s: State, c: Client, request: Message)

  datatype Turn = Manager(a: Action) | Connect | Take | Act | Kill

  /** The client's own moves on the socket are not the supervisor's. */
  predicate ClientSide(a: Action) { a.Arrive? || a.Fetch? || a.Hangup? }

  /** The read of the poll loop: the first message of the outbox, or end of file once the supervisor is gone
      and the outbox empty; nothing otherwise. */
  ghost function ReadSocket(p: Pair): Pair
    requires p.c.Polling?
  {
    if p.s.sock.outbox != [] then p.(s := Step(p.s, Fetch), c := Holding(p.s.sock.outbox[0]))
    else if p.s.control.Done? then p.(s := Step(p.s, Hangup), c := Returned(false, p.c.last))
    else p
  }

  /** What the client then does about the message: it acknowledges a ping, or closes and returns. */
  ghost function ActOn(p: Pair): Pair
    requires p.c.Holding?
  {
    var c := React(p.c.last, !p.s.control.Done?);
    p.(s := Step(p.s, if c.Polling? then Arrive(Bare(ACK)) else Hangup), c := c)
  }

  ghost function Advance(p: Pair, turn: Turn): Pair {
    match turn
    case Manager(a) => if ClientSide(a) then p else p.(s := Step(p.s, a))
    case Connect =>
      if !p.c.Calling? then p
      else if p.s.control.Done? then p.(s := Step(p.s, Hangup), c := Returned(false, p.request))
      else p.(s := Step(p.s, Arrive(p.request)), c := Polling(p.request))
    case Take => if p.c.Polling? then ReadSocket(p) else p
    case Act => if p.c.Holding? then ActOn(p) else p
    case Kill => if Open(p.c) then p.(s := Step(p.s, Hangup), c := Killed) else p
  }

  /** The client is still in exec. */
  predicate Open(c: Client) { c.Calling? || c.Polling? || c.Holding? }

  ghost function Talk(p: Pair, turns: seq<Turn>): Pair {
    if turns == [] then p else Advance(Talk(p, turns[..|turns| - 1]), turns[|turns| - 1])
  }

  /** A fresh supervisor and a client about to make one request. */
  ghost predicate Start(p: Pair) { Init(p.s) && p.c.Calling? && p.request.Asks() }

  // ---------------------------------------------------------------------------------------------
  // What one step of the supervisor does to the conversation
  // ---------------------------------------------------------------------------------------------

  ghost predicate Silent(s: State, t: State) { t.sock == s.sock && t.isSyn == s.isSyn && t.asked == s.asked }

  /** Sends one message that is not keepalive, or nothing. */
  ghost predicate Says(s: State, t: State) {
    || t.sock == s.sock
    || (exists m: Message :: m.Asks() && t.sock == s.sock.(outbox := s.sock.outbox + [m], sent := s.sock.sent + [m]))
  }

  ghost predicate Pings(s: State, t: State) {
    && InLoop(s) && !s.isSyn && t.isSyn && t.asked == s.asked && s.sock.inbox == [] && !s.sock.closed
    && t.sock == s.sock.(outbox := s.sock.outbox + [Bare(SYN)], sent := s.sock.sent + [Bare(SYN)])
  }

  ghost predicate Hears(s: State, t: State) {
    && s.sock.inbox != []
    && var m, u := s.sock.inbox[0], s.(sock := s.sock.(inbox := s.sock.inbox[1..]));
      if m.Asks() then Says(u, t) && t.asked == s.asked + [m] && t.isSyn == s.isSyn
      else t.sock == u.sock && t.asked == s.asked && !t.isSyn
  }

  ghost predicate Speaks(s: State, t: State) { Says(s, t) && t.isSyn == s.isSyn && t.asked == s.asked }

  ghost predicate Moves(s: State, t: State) { Speaks(s, t) || Pings(s, t) || Hears(s, t) }

  lemma SendSays(s: State, m: Message)
    requires m.Asks() && s.connection != -1
    ensures Speaks(s, SendMessage(s, m).state)
  {
  }

  lemma DestroySilent(s: State, code: int, cause: Cause)
    ensures Silent(s, Destroy(s, code, cause))
  {
  }

  lemma TopMoves(s: State)
    ensures Speaks(s, LoopTop(s))
  {
    hide WaitChild, Destroy, EnterPoll;
    var s1 := WaitChild(s);
    WaitChildSilent(s);
    DestroySilent(s1, 0, Finished);
    var o := SendMessage(s1, Reply(ResultOf(s1)));
    if o.Thrown? {
      DestroySilent(o.state, -1, o.cause);
    } else {
      SendSays(s1, Reply(ResultOf(s1)));
      EnterPollSilent(o.state.(marks := s1.marks + [Replied(ResultOf(s1))]));
    }
    EnterPollSilent(s1);
  }

  lemma WaitChildSilent(s: State)
    ensures Silent(s, WaitChild(s))
  {
  }

  lemma EnterPollSilent(s: State)
    ensures Silent(s, EnterPoll(s))
  {
  }

  /** A ping goes out only when the whole period passed with nothing to read and no round open. */
  lemma WaitMoves(s: State, r: Poll)
    requires One(s) && s.control.Poll? && Returns(s, r)
    ensures Speaks(s, Wait(s, r)) || Pings(s, Wait(s, r))
  {
    hide Replies, Story, Timing, Flowing, Destroy;
    DestroySilent(s, -1, SynTimeout);
    if r.Expired? && s.connection != -1 {
      assert s.connection in s.k.interest;
      assert !Ready(s, s.connection);
    }
  }

  lemma StartSays(s: State, raw: Request, c: Choice)
    requires s.connection != -1 && s.status == NO_PROC
    ensures Speaks(s, StartCommand(s, raw, c).state)
  {
    LoadFrame(s, c);
    var o1 := LoadStreams(s, c);
    if o1.Ok? {
      var o2 := Spawn(o1.state, raw, c);
      if o2.Ok? { FurnishSays(o2.state, s.request.backend, c); }
    }
  }

  lemma FurnishSays(s: State, backend: bool, c: Choice)
    requires s.connection != -1
    ensures Speaks(s, Furnish(s, backend, c).state)
  {
    BindFrame(s, c);
    var o1 := BindStreams(s, c);
    if o1.Ok? {
      TimerFrame(o1.state, c);
      if SetTimeout(o1.state, c).Ok? { SendSays(SetTimeout(o1.state, c).state, Reply(NO_RESPONSE)); }
    }
  }

  lemma RequestSays(s: State, raw: Request, c: Choice)
    requires s.connection != -1 && s.status == NO_PROC
    ensures Speaks(s, HandleRequest(s, raw, c).state)
  {
    hide StartCommand, FindCommand;
    var found := FindCommand(s.k, s.request.args);
    if found.Some? {
      var s1 := if s.request.backend then s.(synTimeout := -1) else s;
      StartSays(s1.(request := s.request.(args := found.value)), raw, c);
    }
  }

  lemma AnswerSays(s: State, m: Message, c: Choice)
    requires m.Asks() && s.connection != -1 && (m.kind.EXE? ==> s.status == NO_PROC)
    requires forall i :: 0 <= i < |c.order| ==> c.order[i] in s.sys.registry
    ensures Speaks(s, Answer(s, m, c).state)
  {
    hide HandleRequest, Settings.LoadRequest, Listing, StopListed;
    match m.kind
    case EXE => RequestSays(s.(request := Settings.LoadRequest(s.keyfiles, m.request)), m.request, c);
    case STOP => StopListedFrame(s, m.runlist);
    case _ =>
  }

  lemma RecvMoves(s: State, c: Choice)
    requires s.connection != -1 && (s.sock.inbox != [] ==> !s.sock.inbox[0].kind.SYN?)
    requires s.sock.inbox != [] && s.sock.inbox[0].kind.EXE? ==> s.status == NO_PROC
    requires forall i :: 0 <= i < |c.order| ==> c.order[i] in s.sys.registry
    ensures Moves(s, RecvMessage(s, c).state)
  {
    hide Answer;
    if s.sock.inbox == [] {
      CloseFrame(s);
      assert Speaks(s, CloseConnection(s));
    } else {
      var m := s.sock.inbox[0];
      if m.Asks() { AnswerSays(Accept(s), m, c); } else { AckHeard(Accept(s), m, c); }
      assert Hears(s, RecvMessage(s, c).state);
    }
  }

  lemma EventMoves(s: State, fd: int, c: Choice)
    requires fd != -1 && Fits(s, fd, c) && (s.sock.inbox != [] ==> !s.sock.inbox[0].kind.SYN?)
    requires fd == s.connection && s.sock.inbox != [] && s.sock.inbox[0].kind.EXE? ==> s.status == NO_PROC
    ensures Moves(s, HandleEvent(s, fd, c).state)
  {
    hide RecvMessage, Receive, Moves, StopChild;
    if fd == s.connection {
      RecvMoves(s, c);
    } else {
      assert Speaks(s, HandleEvent(s, fd, c).state) by { TimerSilent(s); }
      SpeaksMoves(s, HandleEvent(s, fd, c).state);
    }
  }

  lemma TimerSilent(s: State)
    ensures Silent(s, TimerFires(s))
  {
  }

  lemma MovesOn(s: State, t: State, u: State)
    requires Moves(s, t) && Silent(t, u)
    ensures Moves(s, u)
  {
  }

  /** A request is read only when none was, and then nothing has been started. */
  lemma FirstRequest(s: State, c: Choice)
    requires One(s) && Child(s) && s.control.Batch? && Fits(s, s.control.events[0], c) && |Dispatch(s, c).asked| <= 1
    ensures s.control.events[0] == s.connection && s.sock.inbox != [] && s.sock.inbox[0].kind.EXE? ==> s.status == NO_PROC
  {
    hide StoryAt, Plumbing, Timing, Answered, Child, Receive, TimerFires, CloseConnection, Answer, Destroy;
    var o := HandleEvent(s, s.control.events[0], c);
    if s.control.events[0] == s.connection && s.sock.inbox != [] {
      AskedCount(Accept(s), s.sock.inbox[0], c);
      if o.Thrown? { DestroySame(o.state, -1, o.cause); }
    }
  }

  lemma HandleMoves(s: State, c: Choice)
    requires Child(s) && One(s) && s.control.Batch? && Fits(s, s.control.events[0], c)
    requires |Dispatch(s, c).asked| <= 1 && (s.sock.inbox != [] ==> !s.sock.inbox[0].kind.SYN?)
    ensures Moves(s, Dispatch(s, c))
  {
    FirstRequest(s, c);
    WatchedHead(s);
    hide One, Child, HandleEvent, Moves, Destroy, Fits;
    EventMoves(s, s.control.events[0], c);
    var o := HandleEvent(s, s.control.events[0], c);
    if o.Thrown? { DestroySilent(o.state, -1, o.cause); }
    MovesOn(s, o.state, Dispatch(s, c));
  }

  lemma WatchedHead(s: State)
    requires One(s) && s.control.Batch?
    ensures s.control.events != [] && s.control.events[0] != -1
  {
    hide Replies, Story, Timing, Flowing;
  }

  lemma AckHeard(s: State, m: Message, c: Choice)
    requires m.kind.ACK?
    requires forall i :: 0 <= i < |c.order| ==> c.order[i] in s.sys.registry
    ensures Answer(s, m, c) == Ok(s.(isSyn := false))
  {
  }

  lemma StepMoves(s: State, a: Action)
    requires Child(s) && One(s) && |Step(s, a).asked| <= 1 && !ClientSide(a)
    requires s.sock.inbox != [] ==> !s.sock.inbox[0].kind.SYN?
    ensures Moves(s, Step(s, a))
  {
    hide LoopTop, Wait, Dispatch, Wake, One, Child, Moves, WaitChild, Rely, Fits, Returns;
    assert Speaks(s, s);
    if Enabled(s, a) {
      match a
      case Enter => TopMoves(s);
      case Return(r) => WaitMoves(s, r);
      case Handle(c) => HandleMoves(s, c);
      case Awake => WakeSilent(s);
      case _ =>
    }
    SpeaksMoves(s, Step(s, a));
  }

  lemma WakeSilent(s: State)
    requires s.control.Dying?
    ensures Silent(s, Wake(s))
  {
  }

  lemma SpeaksMoves(s: State, t: State)
    ensures Speaks(s, t) || Pings(s, t) ==> Moves(s, t)
  {
  }

  // ---------------------------------------------------------------------------------------------
  // The invariant of the conversation
  // ---------------------------------------------------------------------------------------------

  /** Towards the supervisor: at most the request and one acknowledgement, in that order. */
  ghost predicate InboxShape(asked: seq<Message>, inbox: seq<Message>, request: Message) {
    || (inbox == [] && (asked == [] || asked == [request]))
    || (inbox == [Bare(ACK)] && asked == [request])
    || (inbox == [request] && asked == [])
    || (inbox == [request, Bare(ACK)] && asked == [])
  }

  /** Towards the client: at most one ping and one answer, in either order. */
  ghost predicate OutboxShape(outbox: seq<Message>) {
    && |outbox| <= 2
    && (forall i :: 0 <= i < |outbox| ==> outbox[i] == Bare(SYN) || outbox[i].Asks())
    && (|outbox| == 2 ==> (outbox[0].Asks() <==> !outbox[1].Asks()))
  }

  /** The answer the client has read, if it has. */
  function Has(c: Client): seq<Message> {
    if c.Holding? && c.last.Asks() then [c.last] else if c.Returned? && c.ok then [c.message] else []
  }

  /** What was sent is with the client or still in the outbox, unless the client was killed. */
  ghost predicate Delivered(c: Client, sent: seq<Message>, outbox: seq<Message>) {
    if c.Killed? then |Terminals(outbox)| <= |Terminals(sent)| else Terminals(sent) == Has(c) + Terminals(outbox)
  }

  /** One keepalive round at a time: a flag that is up means a ping unread, or read and not yet answered, or an
      acknowledgement unread. */
  ghost predicate Rounds(s: State, c: Client) {
    && !(Bare(SYN) in s.sock.outbox && Bare(ACK) in s.sock.inbox)
    && (c == Holding(Bare(SYN)) ==> Bare(SYN) !in s.sock.outbox && Bare(ACK) !in s.sock.inbox)
    && (InLoop(s) ==>
      (s.isSyn <==> Bare(SYN) in s.sock.outbox || c == Holding(Bare(SYN)) || Bare(ACK) in s.sock.inbox))
  }

  ghost predicate Lively(p: Pair) {
    && p.request.Asks()
    && InboxShape(p.s.asked, p.s.sock.inbox, p.request) && OutboxShape(p.s.sock.outbox)
    && Delivered(p.c, p.s.sock.sent, p.s.sock.outbox)
    && (p.c.Calling? ==> p.s.asked == [] && p.s.sock.inbox == [])
    && (p.c.Polling? || p.c.Holding? ==> p.s.asked != [] || p.s.sock.inbox != [])
    && (p.c.Holding? ==> p.c.last == Bare(SYN) || p.c.last.Asks())
    && (p.s.sock.closed <==> !Open(p.c))
    && (Open(p.c) ==> Rounds(p.s, p.c))
  }

  ghost predicate Holds(p: Pair) { Child(p.s) && One(p.s) && Lively(p) }

  lemma TerminalsShort(a: Message, b: Message)
    ensures Terminals([a]) == if a.Asks() then [a] else []
    ensures Terminals([a, b]) == Terminals([a]) + Terminals([b])
  {
    TerminalsAppend([], a);
    TerminalsAppend([], b);
    TerminalsAppend([a], b);
    assert [] + [a] == [a] && [] + [b] == [b] && [a] + [b] == [a, b];
  }

  lemma OneTerminal(outbox: seq<Message>)
    requires OutboxShape(outbox)
    ensures |Terminals(outbox)| <= 1
    ensures Terminals(outbox) == [] <==> forall i :: 0 <= i < |outbox| ==> outbox[i] == Bare(SYN)
    ensures outbox != [] && outbox[0].Asks() ==> Terminals(outbox) == [outbox[0]] && Terminals(outbox[1..]) == []
    ensures outbox != [] && !outbox[0].Asks() ==> Terminals(outbox[1..]) == Terminals(outbox)
  {
    hide Terminals;
    assert Terminals([]) == [] by { NoTerminals(); }
    if |outbox| == 1 {
      var a := outbox[0];
      TerminalsShort(a, a);
      assert outbox == [a] && outbox[1..] == [];
    } else if |outbox| == 2 {
      var a, b := outbox[0], outbox[1];
      TerminalsShort(a, b);
      TerminalsShort(b, b);
      assert outbox == [a, b] && outbox[1..] == [b];
      assert a == Bare(SYN) || b == Bare(SYN);
    }
  }

  lemma PushShape(outbox: seq<Message>, m: Message)
    requires OutboxShape(outbox) && m.Asks() && forall i :: 0 <= i < |outbox| ==> outbox[i] == Bare(SYN)
    ensures OutboxShape(outbox + [m]) && (Bare(SYN) in outbox + [m] <==> Bare(SYN) in outbox)
  {
    assert |outbox| <= 1;
  }

  lemma SayShape(c: Client, sent: seq<Message>, outbox: seq<Message>, m: Message)
    requires OutboxShape(outbox) && Delivered(c, sent, outbox) && m.Asks() && |Terminals(sent + [m])| <= 1
    ensures OutboxShape(outbox + [m]) && Delivered(c, sent + [m], outbox + [m])
    ensures Bare(SYN) in outbox + [m] <==> Bare(SYN) in outbox
  {
    hide Terminals, OutboxShape;
    TerminalsAppend(sent, m);
    TerminalsAppend(outbox, m);
    OneTerminal(outbox);
    assert Terminals(sent) == [] && Terminals(outbox) == [];
    PushShape(outbox, m);
  }

  lemma SaysShape(c: Client, s: State, t: State)
    requires Says(s, t) && OutboxShape(s.sock.outbox) && Delivered(c, s.sock.sent, s.sock.outbox)
    requires |Terminals(t.sock.sent)| <= 1
    ensures OutboxShape(t.sock.outbox) && Delivered(c, t.sock.sent, t.sock.outbox)
    ensures Bare(SYN) in t.sock.outbox <==> Bare(SYN) in s.sock.outbox
    ensures t.sock.inbox == s.sock.inbox && t.sock.closed == s.sock.closed
  {
    hide OutboxShape, Delivered;
    if t.sock != s.sock {
      var m: Message :| m.Asks() && t.sock == s.sock.(outbox := s.sock.outbox + [m], sent := s.sock.sent + [m]);
      SayShape(c, s.sock.sent, s.sock.outbox, m);
    }
  }

  lemma PingSeq(c: Client, sent: seq<Message>, outbox: seq<Message>)
    requires OutboxShape(outbox) && Delivered(c, sent, outbox) && Bare(SYN) !in outbox
    ensures OutboxShape(outbox + [Bare(SYN)]) && Delivered(c, sent + [Bare(SYN)], outbox + [Bare(SYN)])
  {
    hide Terminals;
    TerminalsAppend(sent, Bare(SYN));
    TerminalsAppend(outbox, Bare(SYN));
    assert forall i :: 0 <= i < |outbox| ==> outbox[i] in outbox;
  }

  lemma PingShape(c: Client, s: State, t: State)
    requires Pings(s, t) && OutboxShape(s.sock.outbox) && Delivered(c, s.sock.sent, s.sock.outbox) && Rounds(s, c)
    ensures OutboxShape(t.sock.outbox) && Delivered(c, t.sock.sent, t.sock.outbox) && Rounds(t, c)
  {
    hide OutboxShape, Delivered;
    PingSeq(c, s.sock.sent, s.sock.outbox);
    assert t.sock.outbox[|s.sock.outbox|] == Bare(SYN);
  }

  lemma MovesLively(p: Pair, t: State)
    requires Lively(p) && Moves(p.s, t) && |Terminals(t.sock.sent)| <= 1 && (InLoop(t) ==> InLoop(p.s))
    ensures Lively(p.(s := t))
  {
    hide OutboxShape, Delivered;
    var s := p.s;
    if Speaks(s, t) {
      SaysShape(p.c, s, t);
    } else if Pings(s, t) {
      PingShape(p.c, s, t);
    } else {
      var u := s.(sock := s.sock.(inbox := s.sock.inbox[1..]));
      if s.sock.inbox[0].Asks() { SaysShape(p.c, u, t); }
    }
  }

  lemma ManagerHolds(p: Pair, a: Action)
    requires Holds(p) && !ClientSide(a)
    ensures Holds(p.(s := Step(p.s, a)))
  {
    var s, t := p.s, Step(p.s, a);
    StepChild(s, a);
    NoSynRead(p);
    AskedOnce(p, a);
    StepOne(s, a);
    StepMoves(s, a);
    LoopLeft(s, a);
    AnswerCount(t);
    hide One, Child, Lively, Step, Moves;
    MovesLively(p, t);
  }

  lemma AnswerCount(s: State)
    requires One(s)
    ensures |Terminals(s.sock.sent)| <= 1
  {
    hide Body, Story;
  }

  lemma NoSynRead(p: Pair)
    requires Lively(p)
    ensures p.s.sock.inbox != [] ==> !p.s.sock.inbox[0].kind.SYN?
  {
  }

  /** Only the head of the inbox can be counted as a request, and it is one only while none was read. */
  lemma AskedOnce(p: Pair, a: Action)
    requires Holds(p) && !ClientSide(a)
    ensures |Step(p.s, a).asked| <= 1
  {
    hide One, Child;
    var s := p.s;
    if Enabled(s, a) {
      match a
      case Enter => LoopTopAsked(s);
      case Handle(c) =>
        var fd := s.control.events[0];
        var o := HandleEvent(s, fd, c);
        HandleAskedHead(s, fd, c);
        if o.Thrown? { DestroySame(o.state, -1, o.cause); }
      case _ => QuietAsked(s, a);
    }
  }

  lemma QuietAsked(s: State, a: Action)
    requires !a.Enter? && !a.Handle?
    ensures Step(s, a).asked == s.asked
  {
    hide Destroy, Wake;
    if Enabled(s, a) {
      match a
      case Return(r) => WaitAsked(s, r);
      case Awake => WakeSilent(s);
      case _ =>
    }
  }

  lemma WaitAsked(s: State, r: Poll)
    ensures Wait(s, r).asked == s.asked
  {
    hide Destroy;
    DestroySilent(s, -1, SynTimeout);
    var o := SendMessage(s.(isSyn := true), Bare(SYN));
    if o.Thrown? { DestroySilent(o.state, -1, o.cause); }
  }

  lemma HandleAskedHead(s: State, fd: int, c: Choice)
    requires Fits(s, fd, c)
    ensures var t := HandleEvent(s, fd, c).state;
      t.asked == s.asked || (s.sock.inbox != [] && s.sock.inbox[0].Asks() && t.asked == s.asked + [s.sock.inbox[0]])
  {
    hide Answer, Receive;
    if fd == s.connection && s.sock.inbox != [] { AskedCount(Accept(s), s.sock.inbox[0], c); }
  }

  lemma LoopLeft(s: State, a: Action)
    ensures InLoop(Step(s, a)) ==> InLoop(s)
  {
    hide LoopTop, Wait, Dispatch, WaitChild;
  }

  // ---------------------------------------------------------------------------------------------
  // The client's steps
  // ---------------------------------------------------------------------------------------------

  lemma ClientAction(s: State, a: Action)
    requires Child(s) && One(s) && ClientSide(a) && Enabled(s, a)
    ensures Child(Step(s, a)) && One(Step(s, a))
    ensures a.Arrive? ==> Step(s, a) == s.(sock := s.sock.(inbox := s.sock.inbox + [a.message]))
    ensures a.Fetch? ==> Step(s, a) == s.(sock := s.sock.(outbox := s.sock.outbox[1..]))
    ensures a.Hangup? ==> Step(s, a) == s.(sock := s.sock.(closed := true))
  {
    StepChild(s, a);
    OutsideOne(s, a);
    hide One, Child;
  }

  lemma LeaveHolds(p: Pair, c: Client)
    requires Holds(p) && Open(p.c) && (c.Killed? || (c.Returned? && !c.ok && Has(p.c) == []))
    ensures Holds(p.(s := Step(p.s, Hangup), c := c))
  {
    hide One, Child;
    ClientAction(p.s, Hangup);
  }

  /** The first unread message towards the client is taken out. */
  lemma FetchShape(outbox: seq<Message>)
    requires OutboxShape(outbox) && outbox != []
    ensures OutboxShape(outbox[1..])
    ensures outbox[0].Asks() ==> Terminals(outbox) == [outbox[0]] && Terminals(outbox[1..]) == []
    ensures !outbox[0].Asks() ==>
      outbox[0] == Bare(SYN) && Bare(SYN) !in outbox[1..] && Terminals(outbox[1..]) == Terminals(outbox)
    ensures Bare(SYN) in outbox <==> outbox[0] == Bare(SYN) || Bare(SYN) in outbox[1..]
  {
    OneTerminal(outbox);
    FetchTail(outbox, outbox[1..]);
  }

  lemma FetchTail(outbox: seq<Message>, rest: seq<Message>)
    requires OutboxShape(outbox) && outbox != [] && rest == outbox[1..]
    ensures OutboxShape(rest)
    ensures !outbox[0].Asks() ==> outbox[0] == Bare(SYN) && Bare(SYN) !in rest
    ensures Bare(SYN) in outbox <==> outbox[0] == Bare(SYN) || Bare(SYN) in rest
  {
    assert forall i :: 0 <= i < |rest| ==> rest[i] == outbox[i + 1];
    assert |outbox| == 2 ==> outbox[1] == rest[0];
  }

  /** A message is taken out: an answer passes to the client, and a ping opens the second part of its round. */
  lemma FetchLively(p: Pair, t: State)
    requires Lively(p) && p.c.Polling? && p.s.sock.outbox != []
    requires t == p.s.(sock := p.s.sock.(outbox := p.s.sock.outbox[1..]))
    ensures Lively(p.(s := t, c := Holding(p.s.sock.outbox[0])))
  {
    hide Terminals, InboxShape;
    FetchShape(p.s.sock.outbox);
    hide OutboxShape;
  }

  /** The ping is acknowledged: the open round passes into the other queue. */
  lemma AckLively(p: Pair, t: State)
    requires Lively(p) && p.c == Holding(Bare(SYN))
    requires t == p.s.(sock := p.s.sock.(inbox := p.s.sock.inbox + [Bare(ACK)]))
    ensures Lively(p.(s := t, c := Polling(Bare(SYN))))
  {
    hide Terminals, OutboxShape;
    assert Bare(ACK) !in p.s.sock.inbox;
  }

  /** The client closes with what it holds, or because its acknowledgement cannot be sent. */
  lemma ReturnLively(p: Pair, t: State)
    requires Lively(p) && p.c.Holding? && t == p.s.(sock := p.s.sock.(closed := true))
    ensures Lively(p.(s := t, c := Returned(p.c.last.Asks(), p.c.last)))
  {
    hide Terminals, OutboxShape, InboxShape;
  }

  lemma ReadHolds(p: Pair)
    requires Holds(p) && p.c.Polling?
    ensures Holds(ReadSocket(p))
  {
    hide One, Child, Lively, Step;
    if p.s.sock.outbox != [] {
      assert Enabled(p.s, Fetch);
      ClientAction(p.s, Fetch);
      FetchLively(p, Step(p.s, Fetch));
    } else if p.s.control.Done? {
      LeaveHolds(p, Returned(false, p.c.last));
    }
  }

  lemma ActHolds(p: Pair)
    requires Holds(p) && p.c.Holding?
    ensures Holds(ActOn(p))
  {
    hide One, Child, Step, Delivered, OutboxShape, InboxShape, Rounds;
    assert Enabled(p.s, Arrive(Bare(ACK)));
    if React(p.c.last, !p.s.control.Done?).Polling? {
      ClientAction(p.s, Arrive(Bare(ACK)));
      AckLively(p, Step(p.s, Arrive(Bare(ACK))));
    } else {
      assert Enabled(p.s, Hangup);
      ClientAction(p.s, Hangup);
      ReturnLively(p, Step(p.s, Hangup));
    }
  }

  lemma ConnectHolds(p: Pair)
    requires Holds(p) && p.c.Calling?
    ensures Holds(Advance(p, Connect))
  {
    hide One, Child;
    if p.s.control.Done? {
      LeaveHolds(p, Returned(false, p.request));
    } else {
      ClientAction(p.s, Arrive(p.request));
    }
  }

  lemma AdvanceHolds(p: Pair, turn: Turn)
    requires Holds(p)
    ensures Holds(Advance(p, turn))
  {
    hide Holds, ReadSocket, ActOn, Step;
    match turn
    case Manager(a) => if !ClientSide(a) { ManagerHolds(p, a); }
    case Connect => if p.c.Calling? { ConnectHolds(p); }
    case Take => if p.c.Polling? { ReadHolds(p); }
    case Act => if p.c.Holding? { ActHolds(p); }
    case Kill => if Open(p.c) { LeaveHolds(p, Killed); }
  }

  lemma {:induction false} TalkHolds(p: Pair, turns: seq<Turn>)
    requires Start(p)
    ensures Holds(Talk(p, turns))
  {
    if turns == [] {
      InitOne(p.s);
      assert Child(p.s);
    } else {
      TalkHolds(p, turns[..|turns| - 1]);
      AdvanceHolds(Talk(p, turns[..|turns| - 1]), turns[|turns| - 1]);
    }
  }

  // ---------------------------------------------------------------------------------------------
  // What a caller can rely on
  // ---------------------------------------------------------------------------------------------

  /** At most one answer per connection in every run; and when exec returns true, its message is that answer,
      to its own request: a listing for LIST, an acknowledgement for STOP, and for a command BADARGS, the
      immediate reply of a background command, or the complete result of the run. */
  lemma {:induction false} SuccessIsTheAnswer(p0: Pair, turns: seq<Turn>)
    requires Start(p0)
    ensures var p := Talk(p0, turns);
      && |Terminals(p.s.sock.sent)| <= 1
      && (p.c.Returned? && p.c.ok ==>
        && Terminals(p.s.sock.sent) == [p.c.message] && p.s.asked == [p.request]
        && (if p.request.kind.EXE? then Answered(p.s, p.c.message) else p.c.message.kind == p.request.kind))
  {
    TalkHolds(p0, turns);
    hide Child, Body, Story;
  }

  /** A foreground command whose call succeeds with anything but BADARGS has been reaped, and in MSG mode the
      caller holds what the command wrote to each stream. */
  lemma {:induction false} RunDelivered(p0: Pair, turns: seq<Turn>)
    requires Start(p0) && p0.request.kind.EXE?
    ensures var p := Talk(p0, turns);
      p.c.Returned? && p.c.ok && p.c.message.response.stat != BADARGS && !p.s.request.backend ==>
        && p.s.status == PROC_EXIT
        && (p.s.request.outmode.MSG? ==> TextOf(p.c.message.response.outstr, p.s.k, p.s.out))
        && (p.s.request.errmode.MSG? ==> TextOf(p.c.message.response.errstr, p.s.k, p.s.err))
  {
    SuccessIsTheAnswer(p0, turns);
    RequestKept(p0, turns);
  }

  lemma {:induction false} RequestKept(p: Pair, turns: seq<Turn>)
    ensures Talk(p, turns).request == p.request
  {
    hide Step;
    if turns != [] { RequestKept(p, turns[..|turns| - 1]); }
  }

  /** Neither direction ever holds more than two messages. Two of them can only be the request with an
      acknowledgement behind it, or one ping and one answer. */
  lemma {:induction false} QueueShapes(p0: Pair, turns: seq<Turn>)
    requires Start(p0)
    ensures var p := Talk(p0, turns);
      && InboxShape(p.s.asked, p.s.sock.inbox, p.request)
      && OutboxShape(p.s.sock.outbox)
  {
    TalkHolds(p0, turns);
    hide Child, One;
  }

  /** Whenever epoll_wait returns, the supervisor gives its client up for silence exactly if a whole period
      passed with nothing received while a ping was unread, or read and not yet acknowledged; and then the
      client is still in its call. */
  lemma {:induction false} SynTimeoutIff(p0: Pair, turns: seq<Turn>, r: Poll)
    requires Start(p0)
    ensures var p := Talk(p0, turns);
      var t := Wait(p.s, r);
      p.s.control.Poll? && Returns(p.s, r) ==>
        && (!InLoop(t) <==> r.Expired? && (Bare(SYN) in p.s.sock.outbox || p.c == Holding(Bare(SYN))))
        && (!InLoop(t) ==>
          Open(p.c) && p.s.sock.inbox == [] && (t.control.Dying? || t.control.Done?) && t.control.cause == SynTimeout)
  {
    hide Wait, Holds, Talk, Start, Returns;
    TalkHolds(p0, turns);
    var p := Talk(p0, turns);
    if p.s.control.Poll? && Returns(p.s, r) {
      if r.Expired? { SilenceMeans(p); }
      WaitEnds(p.s, r);
    }
  }

  lemma SilenceMeans(p: Pair)
    requires Holds(p) && p.s.control.Poll? && Returns(p.s, Expired)
    ensures Open(p.c) && p.s.sock.inbox == [] && p.s.connection != -1 && !p.s.request.backend
    ensures p.s.isSyn <==> Bare(SYN) in p.s.sock.outbox || p.c == Holding(Bare(SYN))
  {
    hide Replies, Story, Timing, Flowing, Child;
    assert p.s.connection in p.s.k.interest && !Ready(p.s, p.s.connection);
  }

  lemma WaitEnds(s: State, r: Poll)
    requires s.control.Poll? && (r.Expired? ==> s.connection != -1 && !s.request.backend)
    ensures var t := Wait(s, r);
      && (!InLoop(t) <==> r.Expired? && s.isSyn)
      && (!InLoop(t) ==> (t.control.Dying? || t.control.Done?) && t.control.cause == SynTimeout)
  {
    hide Destroy;
    DestroySame(s, -1, SynTimeout);
  }
}
