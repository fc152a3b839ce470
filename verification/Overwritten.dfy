/** A run in which a command is stopped by its time limit and the client is told that it ended abnormally. */
module Overwritten {
  import opened Types
  import opened Kernel
  import opened Streams
  import opened Supervisor
  import opened History
  import opened OneRequest
  import opened Guarantees
  import Settings

  const SLEEPER := NO_REQUEST.(args := ["/sleep"], timeout := 5)
  const CALL := Bare(EXE).(request := SLEEPER)

  /** The connection is descriptor 0 and the epoll set descriptor 1. */
  const START := State(
    0, [], false, 0, 0, 1, -1, CLOSED, CLOSED, SYN_PERIOD, false, false, NO_PROC, NO_RESPONSE, NO_REQUEST, false,
    Top, Kernel(map[0 := Conn, 1 := Epoll], {0}, [], {"/sleep"}, {}), Socket([], [], [], false),
    System(map[], map[], []), [], [])

  const BORN := Choice([], 7, NoFault, 0, [])
  const LATER := Choice([], 8, NoFault, 0, [7])

  const ASKED := START.(sock := Socket([CALL], [], [], false))

  const RUNNING := ASKED.(
    clonepid := 7, timerfd := 2, out := CLOSED.(over := true), err := CLOSED.(over := true), status := PROC_RUNNING,
    request := SLEEPER, k := START.k.(fds := map[0 := Conn, 1 := Epoll, 2 := Timer(5, false)], interest := {0, 2}),
    sock := START.sock, sys := System(map[7 := Process(0, None)], map[7 := Entry(0, 0, SLEEPER)], []),
    asked := [CALL], marks := [Armed(5)])

  const RUNG := RUNNING.(
    control := Poll, k := START.k.(fds := map[0 := Conn, 1 := Epoll, 2 := Timer(5, true)], interest := {0, 2}))

  const FIRED := RUNNING.(
    timerfd := -1, k := START.k, response := NO_RESPONSE.(stat := TIMEOUT), marks := [Armed(5), Fired],
    sys := RUNNING.sys.(signals := [Signal(0, 7, true, Some(Process(0, None)), true)]))

  const DEAD := FIRED.(sys := FIRED.sys.(procs := map[7 := Process(0, Some(Abnormal))]))

  lemma NextIsTwo()
    ensures NextFd(START.k) == 2
  {
    var used := START.k.fds.Keys;
    assert LowestFrom(used, 2) == 2;
    assert LowestFrom(used, 1) == 2;
  }

  lemma QuietTop(s: State)
    requires Zombies(s) == {} && !s.stop && !s.status.PROC_EXIT? && s.connection != -1
    ensures LoopTop(s) == s.(control := Poll)
  {
    assert s.sys.procs - {} == s.sys.procs;
  }

  lemma Polled(s: State, fd: int)
    requires s.control.Poll? && fd in s.k.interest && Ready(s, fd)
    ensures Step(s, Return(Events([fd]))) == s.(control := Batch([fd]))
  {
    assert Returns(s, Events([fd]));
  }

  lemma Begin()
    ensures Step(START, Arrive(CALL)) == ASKED
    ensures Step(ASKED, Enter) == ASKED.(control := Poll)
    ensures Step(ASKED.(control := Poll), Return(Events([0]))) == ASKED.(control := Batch([0]))
  {
    assert START.sock.inbox + [CALL] == [CALL];
    QuietTop(ASKED);
    Polled(ASKED.(control := Poll), 0);
  }

  lemma Launched()
    ensures var s := ASKED.(control := Batch([0]), request := SLEEPER, asked := [CALL], sock := START.sock);
      StartCommand(s, SLEEPER, BORN) == Ok(RUNNING.(control := Batch([0])))
  {
    NextIsTwo();
    var s := ASKED.(control := Batch([0]), request := SLEEPER, asked := [CALL], sock := START.sock);
    assert LoadStreams(s, BORN) == Ok(s);
    assert Inherit(s.k) == s.k;
    var s2 := Spawn(s, SLEEPER, BORN).state;
    assert BindStreams(s2, BORN) == Ok(s2.(out := CLOSED.(over := true), err := CLOSED.(over := true)));
  }

  lemma Accepted()
    ensures Step(ASKED.(control := Batch([0])), Handle(BORN)) == RUNNING
  {
    Launched();
    hide StartCommand;
    var s := ASKED.(control := Batch([0]));
    assert Splits([], Pending(s.k, 0));
    assert Accept(s) == s.(sock := START.sock, asked := [CALL]);
    assert FindCommand(s.k, SLEEPER.args) == Some(SLEEPER.args);
    assert [0][1..] == [];
  }

  lemma Fires()
    ensures Step(RUNNING, Enter) == RUNNING.(control := Poll)
    ensures Step(RUNG, Return(Events([2]))) == RUNG.(control := Batch([2]))
  {
    hide LoopTop, Wait, Dispatch, Wake;
    assert Zombies(RUNNING) == {};
    QuietTop(RUNNING);
    Polled(RUNG, 2);
  }

  lemma Expires()
    ensures Step(RUNNING.(control := Poll), Expire(2)) == RUNG
  {
    hide LoopTop, Wait, Dispatch, Wake;
  }

  lemma Rings()
    ensures TimerFires(RUNG.(control := Batch([2]))) == FIRED.(control := Batch([2]))
  {
    var s := RUNG.(control := Batch([2]));
    assert s.k.fds - {2} == START.k.fds && s.k.interest - {2} == START.k.interest;
  }

  lemma Stopped()
    ensures Step(RUNG.(control := Batch([2])), Handle(LATER)) == FIRED
  {
    Rings();
    hide TimerFires;
    var s := RUNG.(control := Batch([2]));
    assert Splits([], Pending(s.k, 2));
    assert [2][1..] == [];
  }

  const LOST := DEAD.(
    clonepid := 0, status := PROC_EXIT, response := NO_RESPONSE.(stat := ABNORMAL),
    marks := [Armed(5), Fired, Reaped(Abnormal)], sys := DEAD.sys.(procs := map[], registry := map[]))

  lemma Dies()
    ensures Step(FIRED, Die(7, Abnormal)) == DEAD
    ensures WaitChild(DEAD) == LOST
  {
    assert Zombies(DEAD) == {7};
    assert DEAD.sys.procs - {7} == map[] && DEAD.sys.registry - {7} == map[];
    assert DEAD.marks + [Reaped(Abnormal)] == LOST.marks;
  }

  lemma Answers()
    ensures var t := Step(DEAD, Enter);
      && Terminals(t.sock.sent) == [Reply(NO_RESPONSE.(stat := ABNORMAL))]
      && t.asked == [CALL] && Fired in t.marks && !t.sticky
  {
    Dies();
    hide WaitChild, Terminals;
    var m := Reply(NO_RESPONSE.(stat := ABNORMAL));
    assert ResultOf(LOST) == m.response;
    assert LOST.sock.sent + [m] == [m];
    assert [m] == [] + [m];
    TerminalsAppend([], m);
    assert Terminals([]) == [] by { NoTerminals(); }
    var t := Step(DEAD, Enter);
    assert t.marks[1] == Fired;
  }

  /** The state TIMEOUT can be lost: a run of one request whose timer fires before the only answer, which
      says ABNORMAL. */
  lemma TimeoutCanBeLost() returns (s: State)
    ensures Reached(s) && !s.sticky && Fired in s.marks
    ensures Terminals(s.sock.sent) == [Reply(NO_RESPONSE.(stat := ABNORMAL))]
  {
    Begin();
    Accepted();
    Fires();
    Expires();
    Stopped();
    Dies();
    Answers();
    hide Step;
    s := Step(DEAD, Enter);
    var run := [];
    run := Extend(run, START, Arrive(CALL), ASKED);
    run := Extend(run, ASKED, Enter, ASKED.(control := Poll));
    run := Extend(run, ASKED.(control := Poll), Return(Events([0])), ASKED.(control := Batch([0])));
    run := Extend(run, ASKED.(control := Batch([0])), Handle(BORN), RUNNING);
    run := Extend(run, RUNNING, Enter, RUNNING.(control := Poll));
    run := Extend(run, RUNNING.(control := Poll), Expire(2), RUNG);
    run := Extend(run, RUNG, Return(Events([2])), RUNG.(control := Batch([2])));
    run := Extend(run, RUNG.(control := Batch([2])), Handle(LATER), FIRED);
    run := Extend(run, FIRED, Die(7, Abnormal), DEAD);
    run := Extend(run, DEAD, Enter, s);
    assert Init(START) && Run(START, run) == s;
  }

  lemma Extend(run: seq<Action>, s: State, a: Action, t: State) returns (longer: seq<Action>)
    requires Run(START, run) == s && Step(s, a) == t
    ensures Run(START, longer) == t
  {
    longer := run + [a];
    assert longer[..|longer| - 1] == run;
  }
}
