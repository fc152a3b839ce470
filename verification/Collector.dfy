/** The class Output of output.cpp, proved against the functions of Streams. */
module Collector {
  import opened Types
  import opened Kernel
  import opened Streams

  /** read_total_size += len on a 32-bit int. */
  function Add32(total: int, len: nat): int { (total + len + 0x8000_0000) % 0x1_0000_0000 - 0x8000_0000 }

  lemma Add32Wraps(n: nat, len: nat)
    ensures Add32(Wrap32(n), len) == Wrap32(n + len)
  {
  }

  lemma {:induction false} FlattenAppend(chunks: seq<Bytes>, i: nat)
    requires i < |chunks|
    ensures Flatten(chunks[..i + 1]) == Flatten(chunks[..i]) + chunks[i]
    decreases i
  {
    if i == 0 {
      assert chunks[..1] == [chunks[0]] && chunks[..1][1..] == [] && chunks[..0] == [];
      assert Flatten([chunks[0]]) == chunks[0] + Flatten([]);
    } else {
      var tail := chunks[1..];
      FlattenAppend(tail, i - 1);
      assert chunks[..i + 1][1..] == tail[..i] && chunks[..i][1..] == tail[..i - 1];
      assert chunks[0] + (Flatten(tail[..i - 1]) + tail[i - 1]) == chunks[0] + Flatten(tail[..i - 1]) + chunks[i];
    }
  }

  class Output {
    var mode: OutMode
    var rd: int           // pipefd[0]
    var wr: int           // pipefd[1]
    var redirectTo: string
    var redirectFd: int
    var over: bool
    var str: Bytes
    var copied: Bytes     // history: what was written through redirectFd
    var pipe: int         // history: which pipe the descriptors belong to
    var last: nat         // history: how many bytes the latest receive read

    function View(): Stream
      reads this
    {
      Stream(mode, rd, wr, redirectTo, redirectFd, over, str, copied, pipe, last)
    }

    constructor ()
      ensures View() == CLOSED
    {
      mode, rd, wr, redirectTo, redirectFd, over, str := IGN, -1, -1, "", -1, false, [];
      copied, pipe, last := [], -1, 0;
    }

    method Load(k: Kernel, newMode: OutMode, path: string, backend: bool, full: bool) returns (k': Kernel, ok: bool)
      modifies this
      ensures Opened(k', View(), ok) == Streams.Load(k, old(View()), newMode, path, backend, full)
    {
      mode, redirectTo, k', ok := newMode, path, k, true;
      match mode
      case MSG =>
        if !backend {
          if full { return k, false; }
          k' := MakePair(k);
        }
      case FILE =>
        if !Exists(k, redirectTo) || full { return k, false; }
        k' := MakePair(k);
      case IGN =>
    }

    /** pipe(pipefd). */
    method MakePair(k: Kernel) returns (k': Kernel)
      modifies this
      ensures var (k1, r, w) := MakePipe(k);
        k' == k1 && View() == old(View()).(rd := r, wr := w, pipe := |k.pipes|)
    {
      var (k1, r, w) := MakePipe(k);
      k', rd, wr, pipe := k1, r, w, |k.pipes|;
    }

    /** In the child, on its own descriptor table. */
    method Dup(fds: map<int, Handle>, fd: int) returns (fds': map<int, Handle>)
      modifies this
      ensures fds' == Streams.Dup(fds, old(View()), fd)
    {
      fds' := fds;
      var target;
      if rd != -1 {
        fds' := fds' - {rd};
        rd := -1;
        target := wr;
      } else {
        target := LowestFrom(fds.Keys, 0);
        fds' := fds'[target := Other];
      }
      if target in fds' { fds' := fds'[fd := fds'[target]]; }
      fds' := fds' - {target};
    }

    method Bind(k: Kernel, denied: bool, refused: bool) returns (k': Kernel, ok: bool)
      modifies this
      ensures Opened(k', View(), ok) == Streams.Bind(k, old(View()), denied, refused)
    {
      k', ok := k, true;
      if rd != -1 {
        if mode.FILE? {
          if denied {
            redirectFd := -1;
            return k, false;
          }
          redirectFd := NextFd(k');
          k' := Open(k', File(redirectTo));
        }
        k' := Close(k', wr);
        wr := -1;
        if refused { return k', false; }
        k' := Watch(k', rd);
      } else {
        over := true;
      }
    }

    /** The MSG loop of receive. `total` is read_total_size; `taken` is what the pipe has given. */
    method ReadText(chunks: seq<Bytes>) returns (overlimit: bool, total: int, taken: nat)
      modifies this
      ensures Taken(str, overlimit, taken) == Collect(old(str), chunks) && total == Wrap32(taken)
      ensures View() == old(View()).(str := str)
    {
      overlimit, total, taken := false, 0, 0;
      var i := 0;
      while i < |chunks| && !overlimit
        invariant 0 <= i <= |chunks| && total == Wrap32(taken) && View() == old(View()).(str := str)
        invariant overlimit ==> Collect(old(str), chunks) == Taken(str, true, taken)
        invariant !overlimit ==>
          var rest := Collect(str, chunks[i..]);
          Collect(old(str), chunks) == rest.(total := taken + rest.total)
        decreases |chunks| - i, !overlimit
      {
        var len := |chunks[i]|;
        Add32Wraps(taken, len);
        total, taken := Add32(total, len), taken + len;
        assert chunks[i..][0] == chunks[i] && chunks[i..][1..] == chunks[i + 1..];
        if |str| >= LIMIT {
          overlimit := true;
        } else {
          str := str + chunks[i];
          i := i + 1;
        }
      }
    }

    /** The FILE loop of receive; its size test asks for an offset that is -1 and large, so it never stops it. */
    method CopyFile(chunks: seq<Bytes>) returns (overlimit: bool, total: int, taken: nat)
      modifies this
      ensures !overlimit && taken == |Flatten(chunks)| && total == Wrap32(taken)
      ensures View() == old(View()).(copied := old(copied) + Flatten(chunks))
    {
      overlimit, total, taken := false, 0, 0;
      var i := 0;
      assert old(copied) + [] == old(copied);
      while i < |chunks| && !overlimit
        invariant 0 <= i <= |chunks| && total == Wrap32(taken) && !overlimit && taken == |Flatten(chunks[..i])|
        invariant View() == old(View()).(copied := old(copied) + Flatten(chunks[..i]))
      {
        var len := |chunks[i]|;
        Add32Wraps(taken, len);
        FlattenAppend(chunks, i);
        total, taken := Add32(total, len), taken + len;
        var offset: int := *;  // lseek(redirect_fd, 0, SEEK_CUR)
        if offset == -1 && offset >= 0x200_0000 {
          overlimit := true;
        } else {
          copied := copied + chunks[i];
          i := i + 1;
        }
      }
      assert chunks[..|chunks|] == chunks;
    }

    /** `chunks` are the results of the reads up to EAGAIN or end of file. */
    method Receive(k: Kernel, chunks: seq<Bytes>) returns (k': Kernel)
      requires Splits(chunks, Pending(k, rd))
      modifies this
      ensures (k', View()) == Streams.Receive(k, old(View()), chunks)
    {
      var overlimit, total, taken := false, 0, 0;
      TakeWithin(View(), chunks);
      if mode.MSG? {
        overlimit, total, taken := ReadText(chunks);
      } else if mode.FILE? {
        overlimit, total, taken := CopyFile(chunks);
      }
      assert Take(old(View()), chunks) == Taken(str, overlimit, taken);
      assert old(copied) + [] == old(copied);
      k', last := Consume(k, rd, taken), taken;
      if overlimit || total <= 0 {
        over := true;
        k' := Unwatch(k', rd);
        k' := Close(k', rd);
        rd := -1;
        k' := Close(k', redirectFd);
        redirectFd := -1;
      }
    }
  }
}
