/** The per-connection command supervisor (manager.cpp) as a state machine: every handler is a function
    of the state and of what the operating system chooses. The class Manager is proved against it. */
module Supervisor {
  import opened Types
  import opened Kernel
  import opened Streams
  import Settings

  datatype ProcStatus = NO_PROC | PROC_RUNNING | PROC_EXIT

  /** What waitpid reports: WIFEXITED with its code, or anything else. */
  datatype WaitStatus = Exited(code: int) | Abnormal

  datatype Process = Process(parent: nat, exit: Option<WaitStatus>)

  /** A file of the tmpfs directory: who wrote it, when, and the request as it came from the client. */
  datatype Entry = Entry(owner: nat, since: int, request: Request)

  /** A SIGTERM as the kernel saw it: `own` for stop_child and manager_destroy, otherwise a STOP request;
      the process behind the pid and whether the registry listed it are those of that moment. */
  datatype Signal = Signal(from: nat, pid: int, own: bool, target: Option<Process>, listed: bool)

  /** What all supervisors share: un-reaped processes, the tmpfs registry, and the signals sent so far. */
  datatype System = System(procs: map<int, Process>, registry: map<int, Entry>, signals: seq<Signal>)

  /** The connection: messages to read, messages the client has not read, all that was ever written, and
      whether the client closed its end. */
  datatype Socket = Socket(inbox: seq<Message>, outbox: seq<Message>, sent: seq<Message>, closed: bool)

  /** History of one command. */
  datatype Mark = Armed(secs: int) | Fired | Reaped(exit: WaitStatus) | Replied(response: Response)

  datatype Cause = Finished | BadDescriptor | SynTimeout | SetupFailed

  /** Where the process is: at the top of the loop, before epoll_wait, inside a batch of events, asleep in
      manager_destroy, or gone. */
  datatype Control = Top | Poll | Batch(events: seq<int>) | Dying(code: int, cause: Cause) | Done(code: int, cause: Cause)

  datatype State = State(
    self: nat, keyfiles: Settings.Keyfiles, sticky: bool,
    connection: int, clonepid: int, epollfd: int, timerfd: int, out: Stream, err: Stream,
    synTimeout: int, isSyn: bool, resultSent: bool, status: ProcStatus, response: Response, request: Request,
    stop: bool,
    control: Control, k: Kernel, sock: Socket, sys: System,
    asked: seq<Message>, marks: seq<Mark>)

  datatype Outcome = Ok(state: State) | Thrown(state: State, cause: Cause)
  {
    predicate IsFailure() { Thrown? }
    function PropagateFailure(): Outcome requires Thrown? { this }
    function Extract(): State requires Ok? { state }
  }

  const SYN_PERIOD := 1000
  const MAX_EVENTS := 20

  // ---------------------------------------------------------------------------------------------
  // The child
  // ---------------------------------------------------------------------------------------------

  predicate ExecOver(s: State) { s.status.PROC_EXIT? && s.out.over && s.err.over }

  /** kill(pid, SIGTERM). */
  function Kill(s: State, pid: int, own: bool): State {
    var target := if pid in s.sys.procs then Some(s.sys.procs[pid]) else None;
    s.(sys := s.sys.(signals := s.sys.signals + [Signal(s.self, pid, own, target, pid in s.sys.registry)]))
  }

  function StopChild(s: State): State { if s.status.PROC_RUNNING? then Kill(s, s.clonepid, true) else s }

  function ClearClonepid(s: State): State {
    if s.clonepid > 0 then s.(clonepid := 0, sys := s.sys.(registry := s.sys.registry - {s.clonepid})) else s
  }

  predicate IsZombie(s: State, pid: int) {
    pid in s.sys.procs && s.sys.procs[pid].parent == s.self && s.sys.procs[pid].exit.Some?
  }

  function Zombies(s: State): set<int> { set pid | pid in s.sys.procs && IsZombie(s, pid) }

  function StatOf(exit: WaitStatus): Stat { if exit.Exited? then NORMAL else ABNORMAL }

  /** The effect of reaping the command itself. A `sticky` supervisor is the repaired one: it does not
      let the reap overwrite a time-out. */
  function Reap(s: State, exit: WaitStatus): State {
    var stat := if s.sticky && s.response.stat.TIMEOUT? then TIMEOUT else StatOf(exit);
    ClearClonepid(s.(
      status := PROC_EXIT, marks := s.marks + [Reaped(exit)],
      response := s.response.(stat := stat, retval := if exit.Exited? then exit.code else s.response.retval)))
  }

  /** wait_child: reaps every child that has ended. */
  function WaitChild(s: State): State {
    var gone := Zombies(s);
    var s1 := s.(sys := s.sys.(procs := s.sys.procs - gone));
    if s.clonepid in gone then Reap(s1, s.sys.procs[s.clonepid].exit.value) else s1
  }

  // ---------------------------------------------------------------------------------------------
  // The end of the process
  // ---------------------------------------------------------------------------------------------

  /** The rest of manager_destroy after the child has been dealt with. */
  function Finish(s: State, code: int, cause: Cause): State {
    s.(connection := -1, epollfd := -1, timerfd := -1,
       k := Close(Close(Close(s.k, s.connection), s.epollfd), s.timerfd), control := Done(code, cause))
  }

  /** manager_destroy up to its sleep(2), or all of it when no child runs. */
  function Destroy(s: State, code: int, cause: Cause): State {
    if s.status.PROC_RUNNING? then Kill(s, s.clonepid, true).(control := Dying(code, cause))
    else Finish(s, code, cause)
  }

  /** manager_destroy after its sleep. */
  function Wake(s: State): State
    requires s.control.Dying?
  {
    Finish(WaitChild(s), s.control.code, s.control.cause)
  }

  /** An exception leaves manager_start for the handler in main of srund.cpp. */
  function Resolve(o: Outcome): State {
    match o
    case Ok(s) => s
    case Thrown(s, cause) => Destroy(s, -1, cause)
  }

  // ---------------------------------------------------------------------------------------------
  // Messages
  // ---------------------------------------------------------------------------------------------

  function SendMessage(s: State, m: Message): Outcome {
    if s.connection == -1 then Thrown(s, BadDescriptor)
    else
      Ok(s.(sock := s.sock.(outbox := s.sock.outbox + [m], sent := s.sock.sent + [m]),
            resultSent := s.resultSent || m.Asks()))
  }

  const FIND_PATHS: seq<string> :=
    ["/usr/local/bin/", "/usr/bin/", "/bin/", "/usr/local/sbin/", "/usr/sbin/", "/sbin/"]

  predicate Runnable(k: Kernel, path: string) { Exists(k, path) && path !in k.dirs }

  function Search(k: Kernel, cmd: string, i: nat): Option<string>
    requires i <= |FIND_PATHS|
    decreases |FIND_PATHS| - i
  {
    if i == |FIND_PATHS| then None
    else if Runnable(k, FIND_PATHS[i] + cmd) then Some(FIND_PATHS[i] + cmd)
    else Search(k, cmd, i + 1)
  }

  /** find_command: the arguments to run with, or None. */
  function FindCommand(k: Kernel, args: seq<string>): Option<seq<string>> {
    if args == [] || args[0] == "" then None
    else if args[0][0] == '/' then if Runnable(k, args[0]) then Some(args) else None
    else
      match Search(k, args[0], 0)
      case None => None
      case Some(path) => Some(args[0 := path])
  }

  /** The system call of handle_request that fails, if one does. */
  datatype Fault =
    NoFault | OutPipe | ErrPipe | Clone | Cgroup | Register | OutFile | OutWatch | ErrFile | ErrWatch
    | TimerCreate | TimerSet | TimerWatch

  /** What the operating system chooses while one event is handled: how pending bytes are cut into reads,
      the pid and the fate of a clone, the clock, and the order in which a directory is listed. */
  datatype Choice = Choice(chunks: seq<Bytes>, pid: int, fault: Fault, now: int, order: seq<int>)

  function EffectiveTimeout(r: Request): int {
    if r.timeout == 0 then if r.backend then 7200 else 600 else r.timeout
  }

  function SetTimeout(s: State, c: Choice): Outcome {
    if s.request.timeout < 0 then Ok(s)
    else if c.fault.TimerCreate? then Thrown(s.(timerfd := -1), SetupFailed)
    else if c.fault.TimerSet? then Thrown(s.(timerfd := NextFd(s.k), k := Open(s.k, Timer(0, false))), SetupFailed)
    else
      var secs := EffectiveTimeout(s.request);
      if c.fault.TimerWatch? then Thrown(s.(timerfd := NextFd(s.k), k := Open(s.k, Timer(secs, false))), SetupFailed)
      else Ok(s.(timerfd := NextFd(s.k), k := Watch(Open(s.k, Timer(secs, false)), NextFd(s.k)), marks := s.marks + [Armed(secs)]))
  }

  function LoadStreams(s: State, c: Choice): Outcome {
    var r := s.request;
    var a := Load(s.k, s.out, r.outmode, r.outfile, r.backend, c.fault.OutPipe?);
    if !a.ok then Thrown(s.(k := a.kernel, out := a.stream), SetupFailed)
    else
      var b := Load(a.kernel, s.err, r.errmode, r.errfile, r.backend, c.fault.ErrPipe?);
      var s1 := s.(k := b.kernel, out := a.stream, err := b.stream);
      if b.ok then Ok(s1) else Thrown(s1, SetupFailed)
  }

  /** clone, the memory cgroup, and the registry file. */
  function Spawn(s: State, raw: Request, c: Choice): Outcome {
    if c.fault.Clone? then Thrown(s.(clonepid := -1), SetupFailed)
    else
      var s1 := s.(clonepid := c.pid, status := PROC_RUNNING, k := Inherit(s.k),
                   sys := s.sys.(procs := s.sys.procs[c.pid := Process(s.self, None)]));
      if c.fault.Cgroup? || c.fault.Register? then Thrown(s1, SetupFailed)
      else Ok(s1.(sys := s1.sys.(registry := s1.sys.registry[c.pid := Entry(s.self, c.now, raw)])))
  }

  function BindStreams(s: State, c: Choice): Outcome {
    var a := Bind(s.k, s.out, c.fault.OutFile?, c.fault.OutWatch?);
    if !a.ok then Thrown(s.(k := a.kernel, out := a.stream), SetupFailed)
    else
      var b := Bind(a.kernel, s.err, c.fault.ErrFile?, c.fault.ErrWatch?);
      var s1 := s.(k := b.kernel, out := a.stream, err := b.stream);
      if b.ok then Ok(s1) else Thrown(s1, SetupFailed)
  }

  /** The part of handle_request after the registry file: bind, timer, and the immediate reply. */
  function Furnish(s: State, backend: bool, c: Choice): Outcome {
    var s1 :- BindStreams(s, c);
    var s2 :- SetTimeout(s1, c);
    if backend then SendMessage(s2, Reply(NO_RESPONSE)) else Ok(s2)
  }

  /** The command is found: handle_request from out.load to its end. */
  function StartCommand(s: State, raw: Request, c: Choice): Outcome {
    var s1 :- LoadStreams(s, c);
    var s2 :- Spawn(s1, raw, c);
    Furnish(s2, s.request.backend, c)
  }

  function HandleRequest(s: State, raw: Request, c: Choice): Outcome {
    if s.clonepid > 0 then Ok(s)
    else
      var s1 := if s.request.backend then s.(synTimeout := -1) else s;
      match FindCommand(s.k, s.request.args)
      case None => SendMessage(s1, Reply(NO_RESPONSE.(stat := BADARGS)))
      case Some(args) => StartCommand(s1.(request := s.request.(args := args)), raw, c)
  }

  function Listing(registry: map<int, Entry>, order: seq<int>): seq<Runproc>
    requires forall i :: 0 <= i < |order| ==> order[i] in registry
  {
    if order == [] then []
    else
      var e := registry[order[0]];
      [Runproc(order[0], e.since, e.request)] + Listing(registry, order[1..])
  }

  /** The loop over the pids of a STOP request. */
  function StopListed(s: State, list: seq<Runproc>): State
    decreases list
  {
    if list == [] then s
    else StopListed(if list[0].pid in s.sys.registry then Kill(s, list[0].pid, false) else s, list[1..])
  }

  /** An empty read: end of file. */
  function CloseConnection(s: State): State {
    var s1 := s.(synTimeout := -1, connection := -1, k := Close(Unwatch(s.k, s.connection), s.connection));
    if !s.request.backend && !s.resultSent then StopChild(s1) else s1
  }

  /** A successful read: one whole message. */
  function Accept(s: State): State
    requires s.sock.inbox != []
  {
    var m := s.sock.inbox[0];
    s.(sock := s.sock.(inbox := s.sock.inbox[1..]), asked := if m.Asks() then s.asked + [m] else s.asked)
  }

  /** The switch of recv_message. */
  function Answer(s: State, m: Message, c: Choice): Outcome
    requires forall i :: 0 <= i < |c.order| ==> c.order[i] in s.sys.registry
  {
    match m.kind
    case SYN => SendMessage(s, m)
    case ACK => Ok(s.(isSyn := false))
    case EXE => HandleRequest(s.(request := Settings.LoadRequest(s.keyfiles, m.request)), m.request, c)
    case LIST =>
      SendMessage(s.(request := s.request.(backend := false)), Bare(LIST).(runlist := Listing(s.sys.registry, c.order)))
    case STOP => SendMessage(StopListed(s, m.runlist), Bare(STOP))
  }

  function RecvMessage(s: State, c: Choice): Outcome
    requires forall i :: 0 <= i < |c.order| ==> c.order[i] in s.sys.registry
  {
    if s.sock.inbox == [] then Ok(CloseConnection(s)) else Answer(Accept(s), s.sock.inbox[0], c)
  }

  // ---------------------------------------------------------------------------------------------
  // The event loop
  // ---------------------------------------------------------------------------------------------

  function ResultOf(s: State): Response { s.response.(outstr := s.out.str, errstr := s.err.str) }

  /** From the top of the loop to epoll_wait. */
  function LoopTop(s: State): State {
    var s1 := WaitChild(s);
    if ExecOver(s1) && (s1.connection == -1 || s1.stop) then Destroy(s1, 0, Finished)
    else if ExecOver(s1) && !s1.resultSent then
      match SendMessage(s1, Reply(ResultOf(s1)))
      case Ok(s2) => EnterPoll(s2.(marks := s1.marks + [Replied(ResultOf(s1))]))
      case Thrown(s2, cause) => Destroy(s2, -1, cause)
    else if s1.status.NO_PROC? && s1.connection == -1 then Destroy(s1, 0, Finished)
    else EnterPoll(s1)
  }

  function EnterPoll(s: State): State { (if s.stop then StopChild(s) else s).(control := Poll) }

  predicate Ready(s: State, fd: int) {
    fd in s.k.fds &&
    match s.k.fds[fd]
    case Conn => s.sock.inbox != [] || s.sock.closed
    case Timer(_, expired) => expired
    case ReadEnd(_) => PipeReady(s.k, fd)
    case _ => false
  }

  datatype Poll = Interrupted | Expired | Events(fds: seq<int>)

  /** What epoll_wait can return: ready descriptors of the interest set, each once, in any order and
      number; nothing after the time-out if none was ready; or an interruption. */
  predicate Returns(s: State, r: Poll) {
    match r
    case Interrupted => true
    case Expired => s.synTimeout != -1 && forall fd :: fd in s.k.interest ==> !Ready(s, fd)
    case Events(fds) =>
      && 0 < |fds| <= MAX_EVENTS
      && (forall i, j :: 0 <= i < j < |fds| ==> fds[i] != fds[j])
      && (forall fd :: fd in fds ==> fd in s.k.interest && Ready(s, fd))
  }

  /** epoll_wait and the keepalive that follows a time-out. */
  function Wait(s: State, r: Poll): State {
    match r
    case Interrupted => s.(control := Top)
    case Events(fds) => s.(control := Batch(fds))
    case Expired =>
      if s.request.backend || s.connection == -1 then s.(control := Top)
      else if s.isSyn then Resolve(Thrown(s, SynTimeout))
      else
        match SendMessage(s.(isSyn := true), Bare(SYN))
        case Ok(s1) => s1.(control := Top)
        case Thrown(s1, cause) => Resolve(Thrown(s1, cause))
  }

  function TimerFires(s: State): State {
    var s1 := StopChild(s);
    s1.(k := Close(Unwatch(s.k, s.timerfd), s.timerfd), timerfd := -1, marks := s.marks + [Fired],
        response := s.response.(stat := TIMEOUT))
  }

  /** `c` is a choice the operating system has while it handles an event of `fd`. */
  predicate Fits(s: State, fd: int, c: Choice) {
    && Splits(c.chunks, Pending(s.k, fd))
    && 0 < c.pid && c.pid !in s.sys.procs
    && (forall i, j :: 0 <= i < j < |c.order| ==> c.order[i] != c.order[j])
    && (forall i :: 0 <= i < |c.order| ==> c.order[i] in s.sys.registry)
    && (forall p :: p in s.sys.registry ==> p in c.order)
  }

  function HandleEvent(s: State, fd: int, c: Choice): Outcome
    requires Fits(s, fd, c)
  {
    if fd == s.connection then RecvMessage(s, c)
    else if fd == s.out.rd then
      var (k, out) := Receive(s.k, s.out, c.chunks);
      Ok(s.(k := k, out := out))
    else if fd == s.err.rd then
      var (k, err) := Receive(s.k, s.err, c.chunks);
      Ok(s.(k := k, err := err))
    else if s.timerfd != -1 && fd == s.timerfd then Ok(TimerFires(s))
    else Ok(s)
  }

  /** One turn of the loop over the events of a batch. */
  function Dispatch(s: State, c: Choice): State
    requires s.control.Batch? && s.control.events != [] && Fits(s, s.control.events[0], c)
  {
    var rest := s.control.events[1..];
    match HandleEvent(s, s.control.events[0], c)
    case Ok(s1) => s1.(control := if rest == [] then Top else Batch(rest))
    case Thrown(s1, cause) => Resolve(Thrown(s1, cause))
  }

  // ---------------------------------------------------------------------------------------------
  // Steps and runs
  // ---------------------------------------------------------------------------------------------

  datatype Action =
    | Write(pipe: nat, bytes: Bytes)       // the command or a descendant writes
    | Release(pipe: nat)                   // the last of them drops the write end
    | Die(pid: int, exit: WaitStatus)      // the command ends
    | Arrive(message: Message)             // the client writes
    | Fetch                                // the client reads
    | Hangup                               // the client closes
    | Expire(fd: int)                      // a timer runs out
    | Terminate                            // SIGTERM from init or from the daemon
    | Others(sys: System)                  // another supervisor moves
    | Adopt(pid: int)                      // init reaps an orphan
    | Enter | Return(poll: Poll) | Handle(choice: Choice) | Awake

  /** What the rest of the system may change while supervisor `self` does nothing: everything but its own
      child, the entry it wrote while it lives, and the past. */
  ghost predicate Rely(self: nat, alive: bool, sys: System, sys': System) {
    && (forall p :: p in sys'.procs ==> 0 < p)
    && (forall p :: p in sys.procs && sys.procs[p].parent == self ==> p in sys'.procs && sys'.procs[p] == sys.procs[p])
    && (forall p :: p in sys'.procs && sys'.procs[p].parent == self ==> p in sys.procs && sys.procs[p] == sys'.procs[p])
    && (forall p :: p in sys'.registry && sys'.registry[p].owner == self ==> p in sys.registry && sys.registry[p] == sys'.registry[p])
    && (alive ==> forall p :: p in sys.registry && sys.registry[p].owner == self ==> p in sys'.registry && sys'.registry[p] == sys.registry[p])
    && sys.signals <= sys'.signals
    && (forall i :: |sys.signals| <= i < |sys'.signals| ==> sys'.signals[i].from != self)
  }

  ghost predicate Enabled(s: State, a: Action) {
    match a
    case Write(p, _) => p < |s.k.pipes| && s.k.pipes[p].held
    case Release(p) => p < |s.k.pipes|
    case Die(pid, _) => pid in s.sys.procs && s.sys.procs[pid].parent == s.self && s.sys.procs[pid].exit.None?
    case Arrive(_) => !s.sock.closed
    case Fetch => s.sock.outbox != []
    case Hangup => true
    case Expire(fd) => fd in s.k.fds && s.k.fds[fd].Timer?
    case Terminate => true
    case Others(sys') => Rely(s.self, !s.control.Done?, s.sys, sys')
    case Adopt(pid) => s.control.Done? && pid in s.sys.procs && s.sys.procs[pid].parent == s.self
    case Enter => s.control.Top?
    case Return(r) => s.control.Poll? && Returns(s, r)
    case Handle(c) => s.control.Batch? && s.control.events != [] && Fits(s, s.control.events[0], c)
    case Awake => s.control.Dying?
  }

  /** One step; an action that cannot happen leaves the state alone. */
  ghost function Step(s: State, a: Action): State {
    if !Enabled(s, a) then s
    else
      match a
      case Write(p, bytes) =>
        var q := s.k.pipes[p];
        s.(k := s.k.(pipes := s.k.pipes[p := q.(pending := q.pending + bytes, total := q.total + bytes)]))
      case Release(p) => s.(k := s.k.(pipes := s.k.pipes[p := s.k.pipes[p].(held := false)]))
      case Die(pid, exit) =>
        s.(sys := s.sys.(procs := s.sys.procs[pid := s.sys.procs[pid].(exit := Some(exit))]))
      case Arrive(m) => s.(sock := s.sock.(inbox := s.sock.inbox + [m]))
      case Fetch => s.(sock := s.sock.(outbox := s.sock.outbox[1..]))
      case Hangup => s.(sock := s.sock.(closed := true))
      case Expire(fd) => s.(k := s.k.(fds := s.k.fds[fd := s.k.fds[fd].(expired := true)]))
      case Terminate => s.(stop := true)
      case Others(sys') => s.(sys := sys')
      case Adopt(pid) => s.(sys := s.sys.(procs := s.sys.procs - {pid}))
      case Enter => LoopTop(s)
      case Return(r) => Wait(s, r)
      case Handle(c) => Dispatch(s, c)
      case Awake => Wake(s)
  }

  ghost function Run(s: State, actions: seq<Action>): State {
    if actions == [] then s else Step(Run(s, actions[..|actions| - 1]), actions[|actions| - 1])
  }

  /** A supervisor as manager_start leaves it before its first turn. */
  ghost predicate Init(s: State) {
    && 0 <= s.connection && 0 <= s.epollfd && -1 !in s.k.fds
    && s.connection in s.k.fds && s.k.fds[s.connection] == Conn && s.epollfd in s.k.fds && s.k.fds[s.epollfd] == Epoll
    && (forall fd :: fd in s.k.fds && fd != s.connection && fd != s.epollfd ==> s.k.fds[fd] == Other)
    && s.k.interest == {s.connection} && s.k.pipes == []
    && s.clonepid == 0 && s.timerfd == -1 && s.out == CLOSED && s.err == CLOSED
    && s.synTimeout == SYN_PERIOD && !s.isSyn && !s.resultSent && s.status == NO_PROC
    && s.response == NO_RESPONSE && s.request == NO_REQUEST && !s.stop && s.control == Top
    && s.sock == Socket([], [], [], false) && s.asked == [] && s.marks == []
    && (forall p :: p in s.sys.procs ==> 0 < p && s.sys.procs[p].parent != s.self)
    && (forall p :: p in s.sys.registry ==> s.sys.registry[p].owner != s.self)
    && (forall i :: 0 <= i < |s.sys.signals| ==> s.sys.signals[i].from != s.self)
  }
}
