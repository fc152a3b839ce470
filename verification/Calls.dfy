/** The client of srunc.cpp: the poll loop of exec, and the calls built on it. */
module Calls {
  import opened Types

  /** exec before it sends its request, polling with the message in its variable, with a message just read and
      not acted on, returned, or killed. */
  datatype Client =
    Calling | Polling(last: Message) | Holding(last: Message) | Returned(ok: bool, message: Message) | Killed

  /** What one poll brings: a message, and whether the supervisor still takes an answer; or end of file. */
  datatype Arrival = Got(message: Message, alive: bool) | EndOfFile

  /** The switch of exec over a message it has read: a ping is acknowledged, which fails when nobody takes the
      acknowledgement, and anything else ends the call with success. */
  function React(m: Message, alive: bool): Client {
    if !m.kind.SYN? then Returned(true, m) else if alive then Polling(m) else Returned(false, m)
  }

  /** One round of the poll loop; an end of file ends the call with failure. */
  function Next(last: Message, a: Arrival): Client {
    match a
    case EndOfFile => Returned(false, last)
    case Got(m, alive) => React(m, alive)
  }

  function After(last: Message, arrivals: seq<Arrival>): Client
    decreases arrivals
  {
    if arrivals == [] then Polling(last)
    else
      match Next(last, arrivals[0])
      case Polling(m) => After(m, arrivals[1..])
      case c => c
  }

  /** Pings the client answers on the way. */
  function Acks(last: Message, arrivals: seq<Arrival>): nat
    decreases arrivals
  {
    if arrivals == [] || !Next(last, arrivals[0]).Polling? then 0 else 1 + Acks(arrivals[0].message, arrivals[1..])
  }

  predicate LivePing(a: Arrival) { a.Got? && a.message.kind.SYN? && a.alive }

  /** Arrival `i` is the first that is not an answerable ping, and it is the message `m`. */
  ghost predicate Finishes(arrivals: seq<Arrival>, i: int, m: Message) {
    && 0 <= i < |arrivals| && arrivals[i].Got? && arrivals[i].message == m && !m.kind.SYN?
    && forall j :: 0 <= j < i ==> LivePing(arrivals[j])
  }

  /** A call succeeds exactly with the first message that is not a ping, provided every ping before it could
      be answered; and each of those was answered once. */
  lemma {:induction false} CallSucceedsIff(last: Message, arrivals: seq<Arrival>, m: Message)
    ensures After(last, arrivals) == Returned(true, m) <==> exists i :: Finishes(arrivals, i, m)
    ensures forall i :: Finishes(arrivals, i, m) ==> Acks(last, arrivals) == i
    decreases arrivals
  {
    if arrivals != [] {
      var first, rest := arrivals[0], arrivals[1..];
      assert forall j :: 0 <= j < |rest| ==> rest[j] == arrivals[j + 1];
      if LivePing(first) {
        CallSucceedsIff(first.message, rest, m);
        forall i ensures Finishes(arrivals, i, m) <==> Finishes(rest, i - 1, m) {
          if Finishes(rest, i - 1, m) {
            forall j | 0 <= j < i ensures LivePing(arrivals[j]) {
              assert j > 0 ==> arrivals[j] == rest[j - 1];
            }
          }
        }
        if i :| Finishes(rest, i, m) { assert Finishes(arrivals, i + 1, m); }
      } else {
        assert forall i :: Finishes(arrivals, i, m) ==> i == 0;
        assert first.Got? && first.message == m && !m.kind.SYN? ==> Finishes(arrivals, 0, m);
      }
    }
  }

  /** Arrival `i` is the first that is not an answerable ping, and it is the end of file or a ping nobody takes
      an answer to. */
  ghost predicate Breaks(arrivals: seq<Arrival>, i: int) {
    && 0 <= i < |arrivals| && (arrivals[i].EndOfFile? || (arrivals[i].message.kind.SYN? && !arrivals[i].alive))
    && forall j :: 0 <= j < i ==> LivePing(arrivals[j])
  }

  /** A call fails exactly that way, goes on exactly while everything was an answerable ping, and otherwise
      succeeds. */
  lemma {:induction false} CallFailsIff(last: Message, arrivals: seq<Arrival>)
    ensures var c := After(last, arrivals);
      && (c.Returned? && !c.ok <==> exists i :: Breaks(arrivals, i))
      && (c.Polling? <==> forall j :: 0 <= j < |arrivals| ==> LivePing(arrivals[j]))
      && (c.Polling? || c.Returned?)
    decreases arrivals
  {
    if arrivals != [] {
      var first, rest := arrivals[0], arrivals[1..];
      assert forall j :: 0 <= j < |rest| ==> rest[j] == arrivals[j + 1];
      if LivePing(first) {
        CallFailsIff(first.message, rest);
        forall i ensures Breaks(arrivals, i) <==> Breaks(rest, i - 1) {
          if Breaks(rest, i - 1) {
            forall j | 0 <= j < i ensures LivePing(arrivals[j]) {
              assert j > 0 ==> arrivals[j] == rest[j - 1];
            }
          }
        }
        if i :| Breaks(rest, i) { assert Breaks(arrivals, i + 1); }
        if forall j :: 0 <= j < |rest| ==> LivePing(rest[j]) {
          forall j | 0 <= j < |arrivals| ensures LivePing(arrivals[j]) { assert j > 0 ==> arrivals[j] == rest[j - 1]; }
        }
      } else {
        assert forall i :: Breaks(arrivals, i) ==> i == 0;
        assert first.EndOfFile? || (first.message.kind.SYN? && !first.alive) ==> Breaks(arrivals, 0);
      }
    }
  }

  /** What a call writes to its socket: its request, and an acknowledgement for each ping it answered. */
  ghost predicate Writes(sent: seq<Message>, request: Message, arrivals: seq<Arrival>) {
    && |sent| == 1 + Acks(request, arrivals) && sent[0] == request
    && forall i :: 0 < i < |sent| ==> sent[i] == Bare(ACK)
  }

  /** create777 succeeds, if it is called at all. */
  predicate Creates(mode: OutMode, path: string, creatable: set<string>) {
    mode.FILE? ==> path != "" && path in creatable
  }

  class Srunc {
    var sockfd: int
    var outfile: string
    var errfile: string

    constructor ()
      ensures sockfd == -1 && outfile == "" && errfile == ""
    {
      sockfd, outfile, errfile := -1, "", "";
    }

    /** The poll loop, as far as `arrivals` go. `message` is the caller's variable: what is parsed replaces it. */
    method Exec(request: Message, fd: int, arrivals: seq<Arrival>) returns (c: Client, sent: seq<Message>)
      modifies this`sockfd
      ensures c == After(request, arrivals) && Writes(sent, request, arrivals)
      ensures sockfd == if c.Returned? && c.ok then -1 else fd
    {
      sockfd := fd;
      var message := request;
      sent := [request];
      var i := 0;
      while i < |arrivals|
        invariant 0 <= i <= |arrivals| && sockfd == fd
        invariant After(request, arrivals) == After(message, arrivals[i..])
        invariant Acks(request, arrivals) == |sent| - 1 + Acks(message, arrivals[i..])
        invariant sent != [] && sent[0] == request && forall i :: 0 < i < |sent| ==> sent[i] == Bare(ACK)
      {
        assert arrivals[i..][0] == arrivals[i] && arrivals[i..][1..] == arrivals[i + 1..];
        if arrivals[i].EndOfFile? { return Returned(false, message), sent; }
        message := arrivals[i].message;
        match message.kind {
          case SYN =>
            if !arrivals[i].alive { return Returned(false, message), sent; }
            sent := sent + [Bare(ACK)];
          case _ =>
            sockfd := -1;
            return Returned(true, message), sent;
        }
        i := i + 1;
      }
      c := Polling(message);
    }

    /** run: the redirect files are created before the call, and the response is that of the last message. A
        file that cannot be created throws out of a noexcept function, which ends the client before any call. */
    method Run(request: Request, creatable: set<string>, fd: int, arrivals: seq<Arrival>)
      returns (aborted: bool, ok: bool, response: Response, created: seq<string>, sent: seq<Message>)
      modifies this
      ensures aborted <==> !(Creates(request.outmode, request.outfile, creatable) && Creates(request.errmode, request.errfile, creatable))
      ensures aborted ==> sockfd == old(sockfd) && sent == []
      ensures !aborted ==> Writes(sent, Bare(EXE).(request := request), arrivals)
      ensures !aborted ==>
        var c := After(Bare(EXE).(request := request), arrivals);
        && (ok <==> c.Returned? && c.ok)
        && (c.Returned? ==> response == c.message.response)
      ensures created ==
        (if request.outmode.FILE? && Creates(FILE, request.outfile, creatable) then [request.outfile] else [])
          + (if request.errmode.FILE? && !aborted then [request.errfile] else [])
      ensures request.outmode.FILE? ==> outfile == request.outfile
      ensures request.errmode.FILE? && !aborted ==> errfile == request.errfile
    {
      aborted, ok, response, created, sent := false, false, NO_RESPONSE, [], [];
      if request.outmode.FILE? {
        outfile := request.outfile;
        if outfile == "" || outfile !in creatable { return true, ok, response, created, sent; }
        created := created + [outfile];
      }
      if request.errmode.FILE? {
        errfile := request.errfile;
        if errfile == "" || errfile !in creatable { return true, ok, response, created, sent; }
        created := created + [errfile];
      }
      var c;
      c, sent := Exec(Bare(EXE).(request := request), fd, arrivals);
      ok := c.Returned? && c.ok;
      if c.Returned? { response := c.message.response; }
    }

    method List(fd: int, arrivals: seq<Arrival>) returns (ok: bool, runlist: seq<Runproc>, sent: seq<Message>)
      modifies this
      ensures Writes(sent, Bare(LIST), arrivals)
      ensures var c := After(Bare(LIST), arrivals);
        && (ok <==> c.Returned? && c.ok)
        && (c.Returned? ==> runlist == c.message.runlist)
    {
      var c;
      c, sent := Exec(Bare(LIST), fd, arrivals);
      ok := c.Returned? && c.ok;
      runlist := if c.Returned? then c.message.runlist else [];
    }

    method Stop(pids: seq<int>, fd: int, arrivals: seq<Arrival>) returns (ok: bool, request: Message, sent: seq<Message>)
      modifies this
      ensures Writes(sent, request, arrivals)
      ensures request.kind.STOP? && |request.runlist| == |pids|
      ensures forall i :: 0 <= i < |pids| ==> request.runlist[i].pid == pids[i]
      ensures ok <==> After(request, arrivals).Returned? && After(request, arrivals).ok
    {
      request := Bare(STOP);
      var i := 0;
      while i < |pids|
        invariant 0 <= i <= |pids| && |request.runlist| == i && request.kind.STOP?
        invariant forall j :: 0 <= j < i ==> request.runlist[j].pid == pids[j]
      {
        request := request.(runlist := request.runlist + [Runproc(pids[i], 0, NO_REQUEST)]);
        i := i + 1;
      }
      var c;
      c, sent := Exec(request, fd, arrivals);
      ok := c.Returned? && c.ok;
    }
  }
}
