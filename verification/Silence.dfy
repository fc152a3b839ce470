/** A call in which the client has read the ping of the open round and the supervisor gives it up. */
module Silence {
  import opened Types
  import opened Kernel
  import opened Streams
  import opened Supervisor
  import opened Calls
  import opened Conversation
  import opened Overwritten

  /** The command of Overwritten runs, and a ping is under way. */
  const PINGED := RUNNING.(isSyn := true, sock := Socket([], [Bare(SYN)], [Bare(SYN)], false))

  /** The client has read it. */
  const HEARD := PINGED.(control := Poll, sock := Socket([], [], [Bare(SYN)], false))

  lemma Quiet(s: State)
    requires s.control.Poll? && s.k == RUNNING.k && s.sock.inbox == [] && !s.sock.closed && s.synTimeout != -1
    ensures Returns(s, Expired)
  {
    assert !Ready(s, 0) && !Ready(s, 2);
  }

  lemma Pings()
    ensures Step(RUNNING.(control := Poll), Return(Expired)) == PINGED
    ensures Step(PINGED, Enter) == PINGED.(control := Poll)
  {
    hide LoopTop, Dispatch, Wake;
    Quiet(RUNNING.(control := Poll));
    assert RUNNING.sock.outbox + [Bare(SYN)] == [Bare(SYN)] && RUNNING.sock.sent + [Bare(SYN)] == [Bare(SYN)];
    assert Zombies(PINGED) == {};
    QuietTop(PINGED);
  }

  lemma Hears()
    ensures var p := Pair(PINGED.(control := Poll), Polling(CALL), CALL);
      Advance(p, Take) == Pair(HEARD, Holding(Bare(SYN)), CALL)
  {
    hide LoopTop, Dispatch, Wake, Wait;
    assert [Bare(SYN)][1..] == [];
  }

  lemma GivesUp()
    ensures Returns(HEARD, Expired)
    ensures var t := Wait(HEARD, Expired);
      && t.control == Dying(-1, SynTimeout)
      && t.sys.signals == [Signal(0, 7, true, Some(Process(0, None)), true)]
  {
    Quiet(HEARD);
    assert RUNNING.sys.signals + [Signal(0, 7, true, Some(Process(0, None)), true)]
      == [Signal(0, 7, true, Some(Process(0, None)), true)];
  }

  lemma Extended(p0: Pair, turns: seq<Turn>, p: Pair, turn: Turn, q: Pair) returns (longer: seq<Turn>)
    requires Talk(p0, turns) == p && Advance(p, turn) == q
    ensures Talk(p0, longer) == q
  {
    hide Advance;
    longer := turns + [turn];
    assert longer[..|longer| - 1] == turns;
  }

  lemma Moved(s: State, t: State, c: Client, a: Action)
    requires Step(s, a) == t && !ClientSide(a)
    ensures Advance(Pair(s, c, CALL), Manager(a)) == Pair(t, c, CALL)
  {
    hide Step;
  }

  lemma Connected()
    ensures Advance(Pair(START, Calling, CALL), Connect) == Pair(ASKED, Polling(CALL), CALL)
  {
    hide Step;
    Begin();
  }

  lemma Follow(p0: Pair, turns: seq<Turn>, s: State, a: Action, t: State) returns (longer: seq<Turn>)
    requires Talk(p0, turns) == Pair(s, Polling(CALL), CALL) && Step(s, a) == t && !ClientSide(a)
    ensures Talk(p0, longer) == Pair(t, Polling(CALL), CALL)
  {
    hide Step, Advance, Talk;
    Moved(s, t, Polling(CALL), a);
    longer := Extended(p0, turns, Pair(s, Polling(CALL), CALL), Manager(a), Pair(t, Polling(CALL), CALL));
  }

  /** A client can be given up for silence after it has read the ping: its command is running, the period is
      over, and the supervisor throws and sends the command SIGTERM. */
  lemma GivenUpWhileHolding() returns (p0: Pair, turns: seq<Turn>)
    ensures Start(p0)
    ensures var p := Talk(p0, turns);
      && p.c == Holding(Bare(SYN)) && p.s.status == PROC_RUNNING && p.s.control.Poll? && Returns(p.s, Expired)
      && var t := Wait(p.s, Expired);
        && t.control == Dying(-1, SynTimeout) && |t.sys.signals| == 1
        && t.sys.signals[0].own && t.sys.signals[0].pid == p.s.clonepid
  {
    hide Step, Advance, Returns, Wait;
    p0 := Pair(START, Calling, CALL);
    assert Init(START);
    Begin();
    Connected();
    Accepted();
    Fires();
    Pings();
    Hears();
    GivesUp();
    turns := Extended(p0, [], p0, Connect, Pair(ASKED, Polling(CALL), CALL));
    turns := Follow(p0, turns, ASKED, Enter, ASKED.(control := Poll));
    turns := Follow(p0, turns, ASKED.(control := Poll), Return(Events([0])), ASKED.(control := Batch([0])));
    turns := Follow(p0, turns, ASKED.(control := Batch([0])), Handle(BORN), RUNNING);
    turns := Follow(p0, turns, RUNNING, Enter, RUNNING.(control := Poll));
    turns := Follow(p0, turns, RUNNING.(control := Poll), Return(Expired), PINGED);
    turns := Follow(p0, turns, PINGED, Enter, PINGED.(control := Poll));
    turns := Extended(p0, turns, Pair(PINGED.(control := Poll), Polling(CALL), CALL), Take, Pair(HEARD, Holding(Bare(SYN)), CALL));
  }
}
