/** The messages of proto/proto3/srun.proto and the constants every component shares. */
module Types {

  datatype Option<+T> = None | Some(value: T)

  type Bytes = seq<char>

  /** Size of the buffer of every read(2) call (global.h). */
  const BUFSIZE: nat := 1024

  /** Cap on the text collected from one stream in MSG mode (8 MB, output.cpp). */
  const LIMIT: nat := 0x80_0000

  datatype OutMode = IGN | MSG | FILE

  datatype Request = Request(
    args: seq<string>, model: string, timeout: int, user: string, chroot: string,
    outmode: OutMode, errmode: OutMode, outfile: string, errfile: string,
    network: bool, backend: bool, nice: int, memlimit: string, memswlimit: string, envs: seq<string>)

  const NO_REQUEST := Request([], "", 0, "", "", IGN, IGN, "", "", false, false, 0, "", "", [])

  datatype Stat = NORMAL | TIMEOUT | ABNORMAL | BADARGS

  datatype Response = Response(stat: Stat, retval: int, outstr: Bytes, errstr: Bytes)

  const NO_RESPONSE := Response(NORMAL, 0, "", "")

  datatype Runproc = Runproc(pid: int, since: int, request: Request)

  datatype Method = EXE | SYN | ACK | LIST | STOP

  datatype Message = Message(kind: Method, response: Response, request: Request, runlist: seq<Runproc>)
  {
    /** The client asks for something: the one message of a connection that is not keepalive traffic. */
    predicate Asks() { kind != SYN && kind != ACK }
  }

  /** A message with only its method field set. */
  function Bare(kind: Method): Message { Message(kind, NO_RESPONSE, NO_REQUEST, []) }

  function Reply(response: Response): Message { Message(EXE, response, NO_REQUEST, []) }

  /** The messages of a log that are not keepalive traffic, in order. */
  function Terminals(log: seq<Message>): seq<Message> {
    if log == [] then []
    else
      var last := log[|log| - 1];
      Terminals(log[..|log| - 1]) + (if last.Asks() then [last] else [])
  }

  lemma NoTerminals()
    ensures Terminals([]) == []
  {
  }

  lemma TerminalsAppend(log: seq<Message>, m: Message)
    ensures Terminals(log + [m]) == Terminals(log) + (if m.Asks() then [m] else [])
  {
    assert (log + [m])[..|log|] == log;
  }
}
