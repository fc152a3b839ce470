/** The part of the operating system one process sees: descriptors, an epoll set, pipes and file names. */
module Kernel {
  import opened Types

  datatype Handle =
    | Conn
    | Epoll
    | Timer(secs: int, expired: bool)
    | ReadEnd(pipe: nat)
    | WriteEnd(pipe: nat)
    | File(path: string)
    | Other

  /** `pending` is written and not read yet, `total` is all that was ever written, and `held` says
      that some process other than the reader still has the write end open. What a process tries to write
      after the reader has gone counts as written and is never read. */
  datatype Pipe = Pipe(pending: Bytes, total: Bytes, held: bool)

  datatype Kernel = Kernel(
    fds: map<int, Handle>, interest: set<int>, pipes: seq<Pipe>, files: set<string>, dirs: set<string>)

  /** The lowest number not in use, as POSIX requires of every call that returns a descriptor. */
  function LowestFrom(used: set<int>, n: nat): (r: nat)
    ensures r !in used && n <= r && forall m :: n <= m < r ==> m in used
    decreases set m | m in used && n <= m
  {
    if n !in used then n
    else
      var above, below := set m | m in used && n + 1 <= m, set m | m in used && n <= m;
      assert above < below by { assert n in below && n !in above; }
      LowestFrom(used, n + 1)
  }

  function NextFd(k: Kernel): (r: nat)
    ensures r !in k.fds
  {
    LowestFrom(k.fds.Keys, 0)
  }

  function Open(k: Kernel, h: Handle): Kernel { k.(fds := k.fds[NextFd(k) := h]) }

  /** closefd of utils.cpp; the caller sets its variable to -1. */
  function Close(k: Kernel, fd: int): Kernel { if fd == -1 then k else k.(fds := k.fds - {fd}) }

  function Watch(k: Kernel, fd: int): Kernel { k.(interest := k.interest + {fd}) }

  function Unwatch(k: Kernel, fd: int): Kernel { k.(interest := k.interest - {fd}) }

  predicate IsReadEnd(k: Kernel, fd: int) {
    fd in k.fds && k.fds[fd].ReadEnd? && k.fds[fd].pipe < |k.pipes|
  }

  /** What reads on `fd` can deliver before the next EAGAIN or end of file. */
  function Pending(k: Kernel, fd: int): Bytes {
    if IsReadEnd(k, fd) then k.pipes[k.fds[fd].pipe].pending else []
  }

  function Consume(k: Kernel, fd: int, n: nat): Kernel
    requires n <= |Pending(k, fd)|
  {
    if !IsReadEnd(k, fd) then k
    else
      var p := k.fds[fd].pipe;
      k.(pipes := k.pipes[p := k.pipes[p].(pending := k.pipes[p].pending[n..])])
  }

  /** Somebody, inside or outside this process, can still write to pipe `p`. */
  predicate Writable(k: Kernel, p: nat)
    requires p < |k.pipes|
  {
    k.pipes[p].held || exists fd :: fd in k.fds && k.fds[fd] == WriteEnd(p)
  }

  /** Bytes waiting, or end of file. */
  predicate PipeReady(k: Kernel, fd: int) {
    IsReadEnd(k, fd) && (Pending(k, fd) != [] || !Writable(k, k.fds[fd].pipe))
  }

  predicate Exists(k: Kernel, path: string) { path in k.files || path in k.dirs }
}
