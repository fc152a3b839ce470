/** The history of one command: what was armed, fired, reaped and replied, and the state a reply carries. */
module History {
  import opened Types
  import opened Supervisor

  /** The last of reap and time-out decides. */
  function Latest(marks: seq<Mark>): Stat {
    if marks == [] then NORMAL
    else
      match marks[|marks| - 1]
      case Fired => TIMEOUT
      case Reaped(exit) => StatOf(exit)
      case _ => Latest(marks[..|marks| - 1])
  }

  /** The state that stands after a history: the latest verdict as the code is, any time-out if repaired. */
  function Stands(sticky: bool, marks: seq<Mark>): Stat {
    if sticky && Fired in marks then TIMEOUT else Latest(marks)
  }

  function Place(m: Mark): nat {
    match m case Armed(_) => 0 case Fired => 1 case Reaped(_) => 2 case Replied(_) => 3
  }

  ghost predicate HasReap(marks: seq<Mark>) { exists i :: 0 <= i < |marks| && marks[i].Reaped? }

  ghost predicate HasReply(marks: seq<Mark>) { exists i :: 0 <= i < |marks| && marks[i].Replied? }

  /** Everything happens at most once; the timer is armed first and fires only if armed; the reply comes
      after the reap. */
  ghost predicate Orderly(marks: seq<Mark>) {
    && (forall i, j :: 0 <= i < j < |marks| ==> Place(marks[i]) != Place(marks[j]))
    && (forall j :: 0 <= j < |marks| && marks[j].Armed? ==> j == 0)
    && (forall j :: 0 <= j < |marks| && marks[j].Fired? ==> marks[0].Armed?)
    && (forall j :: 0 <= j < |marks| && marks[j].Replied? ==> HasReap(marks[..j]))
  }

  /** `value` is the exit code of a command that exited, and 0 for one that ended otherwise or not yet. */
  ghost predicate Valued(marks: seq<Mark>, value: int) {
    && (!HasReap(marks) ==> value == 0)
    && forall i :: 0 <= i < |marks| && marks[i].Reaped? ==> value == if marks[i].exit.Exited? then marks[i].exit.code else 0
  }

  /** Every reply carries the state that stood, and the exit code there was, when it was sent. */
  ghost predicate Lawful(sticky: bool, marks: seq<Mark>) {
    forall j :: 0 <= j < |marks| && marks[j].Replied? ==>
      marks[j].response.stat == Stands(sticky, marks[..j]) && Valued(marks[..j], marks[j].response.retval)
  }

  /** What the state of a reply says of the exit it reports. */
  ghost predicate Tells(stat: Stat, timedOut: bool, exit: WaitStatus) {
    && (stat == TIMEOUT <==> timedOut)
    && (stat == NORMAL <==> !timedOut && exit.Exited?)
    && (stat == ABNORMAL <==> !timedOut && !exit.Exited?)
  }

  /** The timer fired at `i` and nothing was reaped since. */
  ghost predicate LastFire(marks: seq<Mark>, i: int) {
    0 <= i < |marks| && marks[i].Fired? && forall j :: i < j < |marks| ==> !marks[j].Reaped?
  }

  lemma {:induction false} LatestTimeout(marks: seq<Mark>)
    ensures Latest(marks) == TIMEOUT <==> exists i :: LastFire(marks, i)
  {
    if marks != [] {
      var n := |marks| - 1;
      var front := marks[..n];
      LatestTimeout(front);
      if marks[n].Fired? {
        assert LastFire(marks, n);
      } else if !marks[n].Reaped? {
        forall i ensures LastFire(marks, i) <==> LastFire(front, i) {
          assert forall j :: 0 <= j < |front| ==> front[j] == marks[j];
        }
      }
    }
  }

  lemma LatestFired(marks: seq<Mark>)
    ensures Latest(marks) == TIMEOUT ==> Fired in marks
  {
    LatestTimeout(marks);
  }

  lemma {:induction false} LatestReaped(marks: seq<Mark>, i: nat)
    requires Orderly(marks) && i < |marks| && marks[i].Reaped?
    ensures Latest(marks) == TIMEOUT || Latest(marks) == StatOf(marks[i].exit)
  {
    var n := |marks| - 1;
    if i < n {
      var front := marks[..n];
      assert front[i] == marks[i];
      forall j | 0 <= j < |front| && front[j].Replied? ensures HasReap(front[..j]) {
        assert marks[..j] == front[..j];
      }
      LatestReaped(front, i);
    }
  }

  lemma AppendMark(sticky: bool, marks: seq<Mark>, m: Mark)
    requires Orderly(marks) && Lawful(sticky, marks)
    requires forall i :: 0 <= i < |marks| ==> Place(marks[i]) != Place(m)
    requires m.Armed? ==> marks == []
    requires m.Fired? ==> marks != [] && marks[0].Armed?
    requires m.Replied? ==>
      HasReap(marks) && m.response.stat == Stands(sticky, marks) && Valued(marks, m.response.retval)
    ensures Orderly(marks + [m]) && Lawful(sticky, marks + [m])
    ensures HasReap(marks + [m]) <==> HasReap(marks) || m.Reaped?
    ensures HasReply(marks + [m]) <==> HasReply(marks) || m.Replied?
  {
    var t := marks + [m];
    assert forall j :: 0 <= j <= |marks| ==> t[..j] == marks[..j];
    assert marks[..|marks|] == marks;
    if HasReap(marks) {
      var i :| 0 <= i < |marks| && marks[i].Reaped?;
      assert t[i].Reaped?;
    }
    if HasReply(marks) {
      var i :| 0 <= i < |marks| && marks[i].Replied?;
      assert t[i].Replied?;
    }
    assert t[|marks|] == m;
  }

  lemma AppendStands(sticky: bool, marks: seq<Mark>, m: Mark)
    ensures Stands(sticky, marks + [m]) ==
      match m
      case Fired => TIMEOUT
      case Reaped(exit) => if sticky && Stands(sticky, marks) == TIMEOUT then TIMEOUT else StatOf(exit)
      case _ => Stands(sticky, marks)
  {
    assert (marks + [m])[..|marks|] == marks;
    assert Fired in marks + [m] <==> Fired in marks || m == Fired;
    LatestFired(marks);
  }

  /** The state in a reply, as the code is: TIMEOUT iff the timer event was handled after the reap, and
      otherwise NORMAL for a command that exited, with whatever code, and ABNORMAL for any other end. */
  lemma LastWriterLaw(marks: seq<Mark>, i: nat, j: nat)
    requires Orderly(marks) && Lawful(false, marks)
    requires i < j < |marks| && marks[i].Reaped? && marks[j].Replied?
    ensures Tells(marks[j].response.stat, exists f :: i < f < j && marks[f].Fired?, marks[i].exit)
    ensures marks[j].response.retval == if marks[i].exit.Exited? then marks[i].exit.code else 0
  {
    var past := marks[..j];
    assert forall x :: 0 <= x <= j ==> past[..x] == marks[..x];
    assert past[i] == marks[i];
    LatestTimeout(past);
    LatestReaped(past, i);
    if exists f :: i < f < j && marks[f].Fired? {
      var f :| i < f < j && marks[f].Fired?;
      assert LastFire(past, f);
    }
    if Latest(past) == TIMEOUT {
      var f :| LastFire(past, f);
      assert i < f < j && marks[f].Fired?;
    }
  }

  /** The repaired supervisor: TIMEOUT iff the timer fired at all before the reply. */
  lemma StickyLaw(marks: seq<Mark>, i: nat, j: nat)
    requires Orderly(marks) && Lawful(true, marks)
    requires i < j < |marks| && marks[i].Reaped? && marks[j].Replied?
    ensures Tells(marks[j].response.stat, exists f :: 0 <= f < j && marks[f].Fired?, marks[i].exit)
    ensures marks[j].response.retval == if marks[i].exit.Exited? then marks[i].exit.code else 0
  {
    var past := marks[..j];
    assert forall x :: 0 <= x <= j ==> past[..x] == marks[..x];
    assert past[i] == marks[i];
    LatestFired(past);
    LatestReaped(past, i);
    assert Fired in past <==> exists f :: 0 <= f < j && marks[f].Fired?;
  }
}
