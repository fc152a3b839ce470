/** Any number of supervisors over one tmpfs registry: what LIST shows and whom STOP reaches. */
module Fleet {
  import opened Types
  import opened Kernel
  import opened Streams
  import opened Supervisor
  import opened ChildInvariant
  import opened OneRequest
  import opened Wiring
  import Settings

  /** Supervisor i is element i; all see the same system. */
  type Fleet = seq<State>

  /** Supervisor `i` moves and the others see what it did to the system. */
  ghost function Move(f: Fleet, i: nat, a: Action): Fleet
    requires i < |f|
  {
    var t := Step(f[i], a);
    seq(|f|, j requires 0 <= j < |f| => if j == i then t else Step(f[j], Others(t.sys)))
  }

  /** One turn each: who moves, and how. The moves of the others are not anybody's own. */
  ghost function Interleave(f: Fleet, moves: seq<(nat, Action)>): Fleet {
    if moves == [] then f
    else
      var g, (i, a) := Interleave(f, moves[..|moves| - 1]), moves[|moves| - 1];
      if i < |g| && !a.Others? then Move(g, i, a) else g
  }

  /** Supervisors not started yet, over a tmpfs just mounted. */
  ghost predicate Launch(f: Fleet) {
    forall i :: 0 <= i < |f| ==>
      && Init(f[i]) && f[i].self == i && f[i].sys == f[0].sys && f[i].sys.registry == map[]
  }

  /** What supervisor `self` does to the system: its own child, its own entries, and signals in its name. It
      replaces or removes an entry only at a pid that is its own child's or nobody's. */
  ghost predicate Guarantee(self: nat, sys: System, sys': System) {
    && (forall p :: p in sys'.procs ==> 0 < p)
    && (forall p :: p in sys.procs && sys.procs[p].parent != self ==> p in sys'.procs && sys'.procs[p] == sys.procs[p])
    && (forall p :: p in sys'.procs && sys'.procs[p].parent != self ==> p in sys.procs && sys.procs[p] == sys'.procs[p])
    && (forall p :: p in sys'.registry && sys'.registry[p].owner != self ==> p in sys.registry && sys.registry[p] == sys'.registry[p])
    && (forall p :: p in sys.registry && p in sys.procs && sys.procs[p].parent != self ==>
      p in sys'.registry && sys'.registry[p] == sys.registry[p])
    && sys.signals <= sys'.signals
    && (forall i :: |sys.signals| <= i < |sys'.signals| ==> sys'.signals[i].from == self)
  }

  ghost predicate Keeps(s: State, t: State) { t.self == s.self && Guarantee(s.self, s.sys, t.sys) }

  lemma KeepsTrans(s: State, t: State, u: State)
    requires Keeps(s, t) && Keeps(t, u)
    ensures Keeps(s, u)
  {
    assert forall i :: |s.sys.signals| <= i < |t.sys.signals| ==> u.sys.signals[i] == t.sys.signals[i];
  }

  ghost predicate Sane(s: State) { forall p :: p in s.sys.procs ==> 0 < p }

  lemma KillKeeps(s: State, pid: int, own: bool)
    requires Sane(s)
    ensures Keeps(s, Kill(s, pid, own)) && Sane(Kill(s, pid, own))
  {
  }

  lemma WaitChildSystem(s: State)
    ensures WaitChild(s).self == s.self
    ensures var dropped := if s.clonepid in Zombies(s) && 0 < s.clonepid then {s.clonepid} else {};
      WaitChild(s).sys == s.sys.(procs := s.sys.procs - Zombies(s), registry := s.sys.registry - dropped)
  {
    assert s.sys.registry - {} == s.sys.registry;
  }

  lemma WaitChildKeeps(s: State)
    requires Steady(s)
    ensures Keeps(s, WaitChild(s))
  {
    WaitChildSystem(s);
    hide WaitChild, WellAimed;
  }

  lemma DestroyKeeps(s: State, code: int, cause: Cause)
    requires Sane(s)
    ensures Keeps(s, Destroy(s, code, cause))
  {
    if s.status.PROC_RUNNING? { KillKeeps(s, s.clonepid, true); }
  }

  lemma EnterPollKeeps(s: State)
    requires Sane(s)
    ensures Keeps(s, EnterPoll(s))
  {
    if s.status.PROC_RUNNING? { KillKeeps(s, s.clonepid, true); }
  }

  lemma ResultKeeps(s: State)
    requires Sane(s) && s.connection != -1
    ensures var t := SendMessage(s, Reply(ResultOf(s))).state.(marks := s.marks + [Replied(ResultOf(s))]);
      Keeps(s, EnterPoll(t))
  {
    hide EnterPoll, Guarantee;
    var t := SendMessage(s, Reply(ResultOf(s))).state.(marks := s.marks + [Replied(ResultOf(s))]);
    EnterPollKeeps(t);
    SameKeeps(s, t, EnterPoll(t));
  }

  lemma TopKeeps(s: State)
    requires Steady(s)
    ensures Keeps(s, LoopTop(s))
  {
    hide WaitChild, Destroy, EnterPoll, Guarantee, SteadyAt;
    WaitChildKeeps(s);
    WaitChildListed(s);
    var s1 := WaitChild(s);
    SteadySane(s1);
    DestroyKeeps(s1, 0, Finished);
    EnterPollKeeps(s1);
    if s1.connection != -1 { ResultKeeps(s1); }
    KeepsTrans(s, s1, LoopTop(s));
  }

  lemma SteadySane(s: State)
    requires Steady(s)
    ensures Sane(s)
  {
  }

  lemma SameKeeps(s: State, t: State, u: State)
    requires t.sys == s.sys && t.self == s.self
    ensures Keeps(t, u) ==> Keeps(s, u)
  {
  }

  lemma {:induction false} StopListedAimed(s: State, list: seq<Runproc>)
    requires Sane(s)
    ensures Keeps(s, StopListed(s, list)) && Sane(StopListed(s, list))
    decreases list
  {
    if list != [] {
      var s1 := if list[0].pid in s.sys.registry then Kill(s, list[0].pid, false) else s;
      KillKeeps(s, list[0].pid, false);
      StopListedAimed(s1, list[1..]);
      KeepsTrans(s, s1, StopListed(s, list));
    }
  }

  lemma SpawnKeeps(s: State, raw: Request, c: Choice)
    requires Sane(s) && 0 < c.pid && c.pid !in s.sys.procs
    ensures Keeps(s, Spawn(s, raw, c).state) && Sane(Spawn(s, raw, c).state)
  {
    hide Inherit;
  }

  lemma StartKeeps(s: State, raw: Request, c: Choice)
    requires Sane(s) && 0 < c.pid && c.pid !in s.sys.procs
    ensures Keeps(s, StartCommand(s, raw, c).state) && Sane(StartCommand(s, raw, c).state)
  {
    LoadFrame(s, c);
    var o1 := LoadStreams(s, c);
    hide LoadStreams, Spawn, Guarantee;
    if o1.Ok? {
      var o2 := Spawn(o1.state, raw, c);
      SpawnKeeps(o1.state, raw, c);
      if o2.Ok? { FurnishSame(o2.state, s.request.backend, c); }
    } else {
      assert Guarantee(s.self, s.sys, s.sys) by { Reflexive(s); }
    }
  }

  lemma Reflexive(s: State)
    requires Sane(s)
    ensures Keeps(s, s)
  {
  }

  lemma FurnishSame(s: State, backend: bool, c: Choice)
    ensures Furnish(s, backend, c).state.sys == s.sys && Furnish(s, backend, c).state.self == s.self
  {
    BindFrame(s, c);
    var o1 := BindStreams(s, c);
    hide BindStreams;
    if o1.Ok? { TimerFrame(o1.state, c); }
  }

  lemma RequestKeeps(s: State, raw: Request, c: Choice)
    requires Sane(s) && 0 < c.pid && c.pid !in s.sys.procs
    ensures Keeps(s, HandleRequest(s, raw, c).state) && Sane(HandleRequest(s, raw, c).state)
  {
    hide Guarantee, StartCommand, FindCommand;
    Reflexive(s);
    var found := FindCommand(s.k, s.request.args);
    if found.Some? {
      var s1 := if s.request.backend then s.(synTimeout := -1) else s;
      StartKeeps(s1.(request := s.request.(args := found.value)), raw, c);
    }
  }

  lemma AnswerKeeps(s: State, m: Message, c: Choice)
    requires Sane(s) && 0 < c.pid && c.pid !in s.sys.procs
    requires forall i :: 0 <= i < |c.order| ==> c.order[i] in s.sys.registry
    ensures Keeps(s, Answer(s, m, c).state) && Sane(Answer(s, m, c).state)
  {
    hide Guarantee, HandleRequest, Settings.LoadRequest, Listing, StopListed;
    Reflexive(s);
    match m.kind
    case EXE => RequestKeeps(s.(request := Settings.LoadRequest(s.keyfiles, m.request)), m.request, c);
    case STOP => StopListedAimed(s, m.runlist);
    case _ =>
  }

  lemma EventKeeps(s: State, fd: int, c: Choice)
    requires Sane(s) && Fits(s, fd, c)
    ensures Keeps(s, HandleEvent(s, fd, c).state) && Sane(HandleEvent(s, fd, c).state)
  {
    hide Guarantee, Answer, Receive, Splits, Kill;
    Reflexive(s);
    if fd == s.connection && s.sock.inbox != [] { AnswerKeeps(Accept(s), s.sock.inbox[0], c); }
    KillKeeps(s, s.clonepid, true);
    KillKeeps(s.(synTimeout := -1, connection := -1, k := Close(Unwatch(s.k, s.connection), s.connection)), s.clonepid, true);
  }

  lemma HandleKeeps(s: State, c: Choice)
    requires Sane(s) && s.control.Batch? && s.control.events != [] && Fits(s, s.control.events[0], c)
    ensures Keeps(s, Dispatch(s, c))
  {
    hide Guarantee, HandleEvent, Destroy;
    EventKeeps(s, s.control.events[0], c);
    var o := HandleEvent(s, s.control.events[0], c);
    if o.Thrown? {
      DestroyKeeps(o.state, -1, o.cause);
      KeepsTrans(s, o.state, Dispatch(s, c));
    }
  }

  lemma WaitKeeps(s: State, r: Poll)
    requires Sane(s)
    ensures Keeps(s, Wait(s, r))
  {
    hide Guarantee, Destroy;
    Reflexive(s);
    DestroyKeeps(s, -1, SynTimeout);
    var o := SendMessage(s.(isSyn := true), Bare(SYN));
    if o.Thrown? { DestroyKeeps(o.state, -1, o.cause); }
  }

  lemma WakeKeeps(s: State)
    requires Steady(s) && s.control.Dying?
    ensures Keeps(s, Wake(s))
  {
    WaitChildKeeps(s);
    hide WaitChild, Guarantee, SteadyAt;
  }

  /** What happens around a supervisor to its own child only. */
  lemma OutsideKeeps(s: State, a: Action)
    requires Child(s) && Enabled(s, a) && !a.Others? && !a.Enter? && !a.Return? && !a.Handle? && !a.Awake?
    ensures Keeps(s, Step(s, a))
  {
    hide WellAimed;
  }

  lemma StepKeeps(s: State, a: Action)
    requires Child(s) && !a.Others?
    ensures Keeps(s, Step(s, a))
  {
    assert Sane(s);
    assert !s.control.Done? ==> Steady(s);
    hide LoopTop, Wait, Dispatch, Wake, Child, SteadyAt, Guarantee;
    Reflexive(s);
    if Enabled(s, a) {
      match a
      case Enter => TopKeeps(s);
      case Return(r) => WaitKeeps(s, r);
      case Handle(c) => HandleKeeps(s, c);
      case Awake => WakeKeeps(s);
      case _ => OutsideKeeps(s, a);
    }
  }

  /** What one supervisor guarantees is what every other one relies on. */
  lemma GuaranteeIsRely(s: State, t: State, u: State)
    requires Keeps(s, t) && Child(u) && u.self != s.self && u.sys == s.sys
    ensures Rely(u.self, !u.control.Done?, u.sys, t.sys)
  {
  }

  // ---------------------------------------------------------------------------------------------
  // The invariant of the fleet
  // ---------------------------------------------------------------------------------------------

  ghost predicate Consistent(f: Fleet) {
    forall i :: 0 <= i < |f| ==>
      && f[i].self == i && f[i].sys == f[0].sys && Child(f[i]) && (|f[i].asked| <= 1 ==> One(f[i]))
      && forall p :: p in f[i].sys.registry ==> f[i].sys.registry[p].owner < |f|
  }

  lemma MoveConsistent(f: Fleet, i: nat, a: Action)
    requires Consistent(f) && i < |f| && !a.Others?
    ensures Consistent(Move(f, i, a))
  {
    var t, g := Step(f[i], a), Move(f, i, a);
    StepKeeps(f[i], a);
    assert t.sys.registry.Keys >= {} && forall p :: p in t.sys.registry ==> t.sys.registry[p].owner < |f|;
    forall j | 0 <= j < |f|
      ensures g[j].self == j && g[j].sys == t.sys && Child(g[j]) && (|g[j].asked| <= 1 ==> One(g[j]))
    {
      if j == i {
        MemberSteps(f[i], a);
      } else {
        GuaranteeIsRely(f[i], t, f[j]);
        MemberSteps(f[j], Others(t.sys));
        OthersOnly(f[j], t.sys);
      }
    }
  }

  lemma MemberSteps(s: State, a: Action)
    requires Child(s) && (|s.asked| <= 1 ==> One(s))
    ensures Child(Step(s, a)) && (|Step(s, a).asked| <= 1 ==> One(Step(s, a)))
  {
    hide One, Child, Step;
    StepChild(s, a);
    AskedGrows(s, a);
    if |s.asked| <= 1 { StepOne(s, a); }
  }

  lemma OthersOnly(s: State, sys: System)
    requires Rely(s.self, !s.control.Done?, s.sys, sys)
    ensures Step(s, Others(sys)) == s.(sys := sys)
  {
  }

  lemma {:induction false} InterleaveConsistent(f: Fleet, moves: seq<(nat, Action)>)
    requires Launch(f)
    ensures Consistent(Interleave(f, moves)) && |Interleave(f, moves)| == |f|
  {
    if moves == [] {
      forall i | 0 <= i < |f| ensures Child(f[i]) && One(f[i]) {
        InitOne(f[i]);
        RunChild(f[i], []);
      }
    } else {
      var past := moves[..|moves| - 1];
      var (i, a) := moves[|moves| - 1];
      InterleaveConsistent(f, past);
      if i < |f| && !a.Others? { MoveConsistent(Interleave(f, past), i, a); }
    }
  }

  // ---------------------------------------------------------------------------------------------
  // The registry
  // ---------------------------------------------------------------------------------------------

  /** Every entry belongs to exactly one supervisor, which runs a command with that pid: an un-reaped child of
      its own while the supervisor lives, and otherwise an orphan it sent SIGTERM to and could not reap. */
  ghost predicate Owned(f: Fleet, p: int) {
    exists i :: 0 <= i < |f| && p in f[i].sys.registry && f[i].sys.registry[p].owner == i && Runs(f[i], p)
      && (f[i].control.Done? ==> f[i].control.code == -1 && Terminated(f[i], p))
      && forall j :: 0 <= j < |f| && InLoop(f[j]) && Runs(f[j], p) ==> j == i
  }

  ghost predicate Runs(s: State, p: int) {
    && s.status == PROC_RUNNING && s.clonepid == p
    && (!s.control.Done? ==> p in s.sys.procs && s.sys.procs[p].parent == s.self)
  }

  /** In every interleaving of any number of supervisors the registry is exact: every entry is owned, and
      every command of a looping supervisor has its entry, with the request the client sent. */
  lemma RegistryExact(f0: Fleet, moves: seq<(nat, Action)>)
    requires Launch(f0)
    ensures var f := Interleave(f0, moves);
      forall i :: 0 <= i < |f| ==>
        && (forall p :: p in f[i].sys.registry ==> Owned(f, p))
        && (InLoop(f[i]) && f[i].status == PROC_RUNNING ==>
          && f[i].clonepid in f[i].sys.registry && f[i].sys.registry[f[i].clonepid].owner == i
          && (|f[i].asked| <= 1 ==> f[i].asked != [] && f[i].sys.registry[f[i].clonepid].request == f[i].asked[0].request))
  {
    InterleaveConsistent(f0, moves);
    var f := Interleave(f0, moves);
    hide Replies, Story, Plumbing, Timing;
    forall i, p | 0 <= i < |f| && p in f[i].sys.registry ensures Owned(f, p) {
      var o := f[i].sys.registry[p].owner;
      assert f[o].sys == f[i].sys;
      assert Runs(f[o], p);
      assert forall j :: 0 <= j < |f| && InLoop(f[j]) && Runs(f[j], p) ==> f[j].sys.registry[p].owner == j;
    }
  }

  /** No two live supervisors run a command under the same pid. */
  lemma {:induction false} PidsDistinct(f0: Fleet, moves: seq<(nat, Action)>, i: nat, j: nat)
    requires Launch(f0) && i < |f0| && j < |f0| && i != j
    ensures var f := Interleave(f0, moves);
      && |f| == |f0|
      && (f[i].status == f[j].status == PROC_RUNNING && !f[i].control.Done? && !f[j].control.Done? ==>
        f[i].clonepid != f[j].clonepid)
  {
    InterleaveConsistent(f0, moves);
    hide One;
    var f := Interleave(f0, moves);
    assert f[i].sys == f[j].sys;
  }

  // ---------------------------------------------------------------------------------------------
  // LIST and STOP
  // ---------------------------------------------------------------------------------------------

  /** `list` shows each entry of the registry once, with its pid, age and request, and nothing else. */
  ghost predicate Shows(list: seq<Runproc>, registry: map<int, Entry>) {
    && (forall k :: 0 <= k < |list| ==>
      && list[k].pid in registry
      && list[k] == Runproc(list[k].pid, registry[list[k].pid].since, registry[list[k].pid].request))
    && (forall k, l :: 0 <= k < l < |list| ==> list[k].pid != list[l].pid)
    && (forall p :: p in registry ==> exists k :: 0 <= k < |list| && list[k].pid == p)
  }

  lemma {:induction false} ListingElements(registry: map<int, Entry>, order: seq<int>)
    requires forall i :: 0 <= i < |order| ==> order[i] in registry
    ensures var list := Listing(registry, order);
      && |list| == |order|
      && forall k :: 0 <= k < |list| ==> list[k] == Runproc(order[k], registry[order[k]].since, registry[order[k]].request)
  {
    if order != [] {
      ListingElements(registry, order[1..]);
      assert forall k :: 0 < k < |order| ==> Listing(registry, order)[k] == Listing(registry, order[1..])[k - 1];
    }
  }

  /** Whatever order the directory is read in, a LIST request is answered with exactly the registry. */
  lemma ListExact(s: State, c: Choice)
    requires s.connection != -1 && s.sock.inbox != [] && s.sock.inbox[0].kind.LIST? && Fits(s, s.connection, c)
    ensures var o := HandleEvent(s, s.connection, c);
      && o.Ok? && o.state.sys == s.sys && |o.state.sock.sent| == |s.sock.sent| + 1
      && s.sock.sent < o.state.sock.sent && o.state.request == s.request.(backend := false)
      && var m := o.state.sock.sent[|s.sock.sent|];
        m.kind.LIST? && Shows(m.runlist, s.sys.registry)
  {
    ListingShows(s.sys.registry, c.order);
    hide Listing, Shows, Splits;
  }

  lemma ListingShows(registry: map<int, Entry>, order: seq<int>)
    requires forall i :: 0 <= i < |order| ==> order[i] in registry
    requires forall i, j :: 0 <= i < j < |order| ==> order[i] != order[j]
    requires forall p :: p in registry ==> p in order
    ensures Shows(Listing(registry, order), registry)
  {
    ListingElements(registry, order);
    var list := Listing(registry, order);
    forall p | p in registry ensures exists k :: 0 <= k < |list| && list[k].pid == p {
      var k :| 0 <= k < |order| && order[k] == p;
      assert list[k].pid == p;
    }
  }

  /** The pids of a STOP request that the registry lists, in order. */
  function Reachable(registry: map<int, Entry>, list: seq<Runproc>): seq<int> {
    if list == [] then []
    else (if list[0].pid in registry then [list[0].pid] else []) + Reachable(registry, list[1..])
  }

  /** One SIGTERM for a STOP request to each of `pids`. */
  function Volley(self: nat, sys: System, pids: seq<int>): seq<Signal> {
    seq(|pids|, k requires 0 <= k < |pids| =>
      Signal(self, pids[k], false, if pids[k] in sys.procs then Some(sys.procs[pids[k]]) else None, pids[k] in sys.registry))
  }

  /** A STOP request names `p`. */
  ghost predicate Names(list: seq<Runproc>, p: int) { exists k :: 0 <= k < |list| && list[k].pid == p }

  lemma NamesCons(list: seq<Runproc>, p: int)
    requires list != []
    ensures Names(list, p) <==> list[0].pid == p || Names(list[1..], p)
  {
    if k :| 0 <= k < |list[1..]| && list[1..][k].pid == p { assert list[k + 1].pid == p; }
    if k :| 0 < k < |list| && list[k].pid == p { assert list[1..][k - 1].pid == p; }
  }

  lemma {:induction false} ReachableElements(registry: map<int, Entry>, list: seq<Runproc>)
    ensures forall p :: p in Reachable(registry, list) <==> p in registry && Names(list, p)
  {
    if list != [] {
      ReachableElements(registry, list[1..]);
      forall p ensures Names(list, p) <==> list[0].pid == p || Names(list[1..], p) { NamesCons(list, p); }
    }
  }

  lemma VolleyCons(self: nat, sys: System, pid: int, rest: seq<int>)
    requires pid in sys.registry
    ensures var target := if pid in sys.procs then Some(sys.procs[pid]) else None;
      var sys1 := sys.(signals := sys.signals + [Signal(self, pid, false, target, true)]);
      sys.signals + Volley(self, sys, [pid] + rest) == sys1.signals + Volley(self, sys1, rest)
  {
  }

  /** A STOP request sends SIGTERM to exactly the listed pids it names, in their order, and changes nothing
      else at all. */
  lemma {:induction false} StopExact(s: State, list: seq<Runproc>)
    ensures StopListed(s, list) ==
      s.(sys := s.sys.(signals := s.sys.signals + Volley(s.self, s.sys, Reachable(s.sys.registry, list))))
    ensures forall p :: p in Reachable(s.sys.registry, list) ==> p in s.sys.registry
    decreases list
  {
    if list == [] {
      assert s.sys.signals + [] == s.sys.signals;
    } else {
      var pid := list[0].pid;
      var rest := Reachable(s.sys.registry, list[1..]);
      if pid in s.sys.registry {
        StopExact(Kill(s, pid, false), list[1..]);
        VolleyCons(s.self, s.sys, pid, rest);
      } else {
        StopExact(s, list[1..]);
        assert [] + rest == rest;
      }
    }
  }

  /** A STOP message: SIGTERM to exactly the registered pids it names, in their order, one STOP in answer, and
      nothing else. */
  lemma StopAnswered(s: State, c: Choice)
    requires s.connection != -1 && s.sock.inbox != [] && s.sock.inbox[0].kind.STOP? && Fits(s, s.connection, c)
    ensures var m := s.sock.inbox[0];
      var pids := Reachable(s.sys.registry, m.runlist);
      HandleEvent(s, s.connection, c) == Ok(s.(
        sys := s.sys.(signals := s.sys.signals + Volley(s.self, s.sys, pids)),
        sock := s.sock.(inbox := s.sock.inbox[1..], outbox := s.sock.outbox + [Bare(STOP)], sent := s.sock.sent + [Bare(STOP)]),
        asked := s.asked + [m], resultSent := true))
    ensures forall p :: p in Reachable(s.sys.registry, s.sock.inbox[0].runlist) <==>
      p in s.sys.registry && Names(s.sock.inbox[0].runlist, p)
  {
    hide StopListed, Volley, Reachable, Splits;
    StopExact(Accept(s), s.sock.inbox[0].runlist);
    ReachableElements(s.sys.registry, s.sock.inbox[0].runlist);
  }
}
