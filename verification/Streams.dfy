/** One output stream of a command (output.cpp) as a value: the pipe life cycle and the bounded
    collection loop. The class Output is proved against these functions. */
module Streams {
  import opened Types
  import opened Kernel

  /** The fields of an Output object. `pipe` names the pipe the descriptors belong to, `copied` is all that
      was written through `redirectFd`, and `last` is how many bytes the latest receive read; these three
      are history the code does not keep. */
  datatype Stream = Stream(
    mode: OutMode, rd: int, wr: int, redirectTo: string, redirectFd: int, over: bool, str: Bytes,
    copied: Bytes, pipe: int, last: nat)

  const CLOSED := Stream(IGN, -1, -1, "", -1, false, [], [], -1, 0)

  // ---------------------------------------------------------------------------------------------
  // Opening
  // ---------------------------------------------------------------------------------------------

  /** pipe(2): two lowest free descriptors, read end first. */
  function MakePipe(k: Kernel): (Kernel, int, int) {
    var r := NextFd(k);
    var k1 := Open(k, ReadEnd(|k.pipes|));
    var w := NextFd(k1);
    (Open(k1, WriteEnd(|k.pipes|)).(pipes := k.pipes + [Pipe([], [], false)]), r, w)
  }

  datatype Opened = Opened(kernel: Kernel, stream: Stream, ok: bool)

  /** Output::load. `full` says that the kernel has no descriptor left for a pipe. */
  function Load(k: Kernel, o: Stream, mode: OutMode, path: string, backend: bool, full: bool): Opened {
    var o1 := o.(mode := mode, redirectTo := path);
    if mode.IGN? || (mode.MSG? && backend) then Opened(k, o1, true)
    else if mode.FILE? && !Exists(k, path) then Opened(k, o1, false)
    else if full then Opened(k, o1, false)
    else
      var (k1, r, w) := MakePipe(k);
      Opened(k1, o1.(rd := r, wr := w, pipe := |k.pipes|), true)
  }

  /** Output::bind, in the parent after clone. `denied` says that the redirect file cannot be opened, and
      `refused` that epoll_ctl fails. */
  function Bind(k: Kernel, o: Stream, denied: bool, refused: bool): Opened {
    if o.rd == -1 then Opened(k, o.(over := true), true)
    else if o.mode.FILE? && denied then Opened(k, o.(redirectFd := -1), false)
    else
      var (k1, o1) :=
        if o.mode.FILE? then (Open(k, File(o.redirectTo)), o.(redirectFd := NextFd(k))) else (k, o);
      var k2 := Close(k1, o1.wr);
      Opened(if refused then k2 else Watch(k2, o1.rd), o1.(wr := -1), !refused)
  }

  /** clone: the child gets a copy of every descriptor, so it holds each pipe this process writes to. */
  function Inherit(k: Kernel): Kernel {
    k.(pipes := seq(|k.pipes|, i requires 0 <= i < |k.pipes| =>
      if WriteEnd(i) in k.fds.Values then k.pipes[i].(held := true) else k.pipes[i]))
  }

  /** Output::dup, in the child: its own descriptor table after standing the stream on `fd`. */
  function Dup(fds: map<int, Handle>, o: Stream, fd: int): map<int, Handle> {
    if o.rd != -1 then
      var t := fds - {o.rd};
      if o.wr in t then t[fd := t[o.wr]] - {o.wr} else t - {o.wr}
    else
      var devnull := LowestFrom(fds.Keys, 0);
      fds[devnull := Other][fd := Other] - {devnull}
  }

  // ---------------------------------------------------------------------------------------------
  // Collecting
  // ---------------------------------------------------------------------------------------------

  function Flatten(chunks: seq<Bytes>): Bytes {
    if chunks == [] then [] else chunks[0] + Flatten(chunks[1..])
  }

  /** `chunks` is a way the kernel can hand out `data` through a buffer of BUFSIZE bytes. */
  predicate Splits(chunks: seq<Bytes>, data: Bytes) {
    Flatten(chunks) == data && forall c :: c in chunks ==> 0 < |c| <= BUFSIZE
  }

  /** The value of a 32-bit signed accumulator that was given `n`. */
  function Wrap32(n: nat): int {
    var m := n % 0x1_0000_0000;
    if m < 0x8000_0000 then m else m - 0x1_0000_0000
  }

  /** What makes the accumulator zero or negative although bytes were read. */
  predicate TurnsOver(n: nat) { 0 < n && (n % 0x1_0000_0000 == 0 || 0x8000_0000 <= n % 0x1_0000_0000) }

  datatype Taken = Taken(str: Bytes, cut: bool, total: nat)

  /** The MSG loop of Output::receive from text `str`: a chunk that finds the cap reached is read,
      dropped, and ends the loop. */
  function Collect(str: Bytes, chunks: seq<Bytes>): Taken
    decreases chunks
  {
    if chunks == [] then Taken(str, false, 0)
    else if |str| >= LIMIT then Taken(str, true, |chunks[0]|)
    else
      var rest := Collect(str + chunks[0], chunks[1..]);
      rest.(total := |chunks[0]| + rest.total)
  }

  /** What a call of receive reads and keeps, mode by mode. */
  function Take(o: Stream, chunks: seq<Bytes>): Taken {
    match o.mode
    case MSG => Collect(o.str, chunks)
    case FILE => Taken(o.str, false, |Flatten(chunks)|)
    case IGN => Taken(o.str, false, 0)
  }

  /** Output::receive, given how the reads until EAGAIN or end of file split the pending bytes. */
  function Receive(k: Kernel, o: Stream, chunks: seq<Bytes>): (Kernel, Stream)
    requires Splits(chunks, Pending(k, o.rd))
  {
    var t := Take(o, chunks);
    TakeWithin(o, chunks);
    var k1 := Consume(k, o.rd, t.total);
    var o1 := o.(str := t.str, last := t.total, copied := o.copied + if o.mode.FILE? then Flatten(chunks) else []);
    if t.cut || Wrap32(t.total) <= 0 then
      (Close(Close(Unwatch(k1, o.rd), o.rd), o.redirectFd), o1.(over := true, rd := -1, redirectFd := -1))
    else (k1, o1)
  }

  lemma {:induction false} CollectWithin(str: Bytes, chunks: seq<Bytes>)
    ensures var t := Collect(str, chunks);
      && t.total <= |Flatten(chunks)|
      && (!t.cut ==> t.str == str + Flatten(chunks) && t.total == |Flatten(chunks)|)
      && (t.cut ==> |t.str| >= LIMIT && str <= t.str <= str + Flatten(chunks))
      && (t.cut && (forall c :: c in chunks ==> c != []) ==> |t.str| < |str + Flatten(chunks)|)
    decreases chunks
  {
    if chunks != [] {
      if |str| < LIMIT {
        CollectWithin(str + chunks[0], chunks[1..]);
        assert str + chunks[0] + Flatten(chunks[1..]) == str + Flatten(chunks);
        assert forall c :: c in chunks[1..] ==> c in chunks;
      } else {
        assert chunks[0] in chunks;
        assert |Flatten(chunks)| == |chunks[0]| + |Flatten(chunks[1..])|;
      }
    } else {
      assert str + Flatten(chunks) == str;
    }
  }

  lemma TakeWithin(o: Stream, chunks: seq<Bytes>)
    ensures Take(o, chunks).total <= |Flatten(chunks)|
  {
    CollectWithin(o.str, chunks);
  }

  // ---------------------------------------------------------------------------------------------
  // What collecting a stream gives, whatever the sizes of the reads and however wakeups group them
  // ---------------------------------------------------------------------------------------------

  /** Two wakeups collect what one longer wakeup would: grouping reads into calls changes nothing. */
  lemma {:induction false} CollectAppend(str: Bytes, a: seq<Bytes>, b: seq<Bytes>)
    ensures var t := Collect(str, a);
      var u := Collect(t.str, b);
      Collect(str, a + b) == if t.cut then t else u.(total := t.total + u.total)
    decreases a
  {
    if a == [] {
      assert a + b == b;
    } else {
      assert (a + b)[0] == a[0] && (a + b)[1..] == a[1..] + b;
      if |str| < LIMIT {
        CollectAppend(str + a[0], a[1..], b);
      }
    }
  }

  lemma {:induction false} CollectBound(str: Bytes, chunks: seq<Bytes>)
    requires |str| <= LIMIT + BUFSIZE - 1
    requires forall c :: c in chunks ==> 0 < |c| <= BUFSIZE
    ensures var t := Collect(str, chunks);
      |t.str| <= LIMIT + BUFSIZE - 1 && |str| + t.total <= LIMIT + 2 * BUFSIZE - 1
    decreases chunks
  {
    if chunks != [] {
      assert chunks[0] in chunks;
      if |str| < LIMIT {
        assert forall c :: c in chunks[1..] ==> c in chunks;
        CollectBound(str + chunks[0], chunks[1..]);
      }
    }
  }

  /** Any split of a stream leaves a prefix of it; all of it up to the cap, and a cut loses something
      only after the cap is full. One call never overflows its counter in MSG mode. */
  lemma CollectedText(data: Bytes, chunks: seq<Bytes>)
    requires Splits(chunks, data)
    ensures var t := Collect([], chunks);
      && t.str <= data
      && (t.cut <==> t.str != data)
      && (|data| <= 0x80_0000 ==> t.str == data)
      && (t.cut ==> 0x80_0000 <= |t.str| < |data|)
      && |t.str| <= 0x80_0000 + 1023
      && Wrap32(t.total) == t.total <= 0x80_0000 + 2047
  {
    CollectWithin([], chunks);
    CollectBound([], chunks);
    assert [] + Flatten(chunks) == data;
    assert forall c :: c in chunks ==> c != [];
  }

  /** Reads that always fill the buffer. */
  function Uniform(data: Bytes): seq<Bytes> {
    if data == [] then []
    else if |data| <= BUFSIZE then [data]
    else [data[..BUFSIZE]] + Uniform(data[BUFSIZE..])
  }

  lemma {:induction false} UniformSplits(data: Bytes)
    ensures Splits(Uniform(data), data)
  {
    if |data| <= BUFSIZE {
      if data != [] { assert Flatten([data]) == data + Flatten([]); }
    } else {
      UniformSplits(data[BUFSIZE..]);
      var rest := Uniform(data[BUFSIZE..]);
      assert ([data[..BUFSIZE]] + rest)[1..] == rest;
      assert data[..BUFSIZE] + data[BUFSIZE..] == data;
    }
  }

  /** Where full reads starting from `n` bytes of text first reach the cap. */
  function Ceiling(n: nat): (r: nat)
    requires n < LIMIT + BUFSIZE
    ensures LIMIT <= r < LIMIT + BUFSIZE && n <= r && r % BUFSIZE == n % BUFSIZE
    decreases LIMIT + BUFSIZE - n
  {
    if n >= LIMIT then n else Ceiling(n + BUFSIZE)
  }

  lemma {:induction false} UniformLength(str: Bytes, data: Bytes)
    requires |str| < LIMIT + BUFSIZE
    ensures |Collect(str, Uniform(data)).str| ==
      if |str| + |data| <= Ceiling(|str|) then |str| + |data| else Ceiling(|str|)
    decreases |data|
  {
    if data == [] || |str| >= LIMIT {
    } else if |data| <= BUFSIZE {
      assert Collect(str + data, []).str == str + data;
      assert [data][1..] == [];
    } else {
      var rest := Uniform(data[BUFSIZE..]);
      assert ([data[..BUFSIZE]] + rest)[1..] == rest;
      UniformLength(str + data[..BUFSIZE], data[BUFSIZE..]);
    }
  }

  /** A first read of one byte, and full reads after it. */
  lemma FirstReadShort(data: Bytes)
    requires data != []
    ensures var b := [data[..1]] + Uniform(data[1..]);
      Splits(b, data) && Collect([], b).str == Collect(data[..1], Uniform(data[1..])).str
  {
    hide Uniform;
    var first, later := data[..1], data[1..];
    UniformSplits(later);
    var b := [first] + Uniform(later);
    assert b[0] == first && b[1..] == Uniform(later);
    assert first + later == data && [] + first == first;
  }

  /** Beyond the cap the size of the very first read already shows in the text. */
  lemma LongStreamsDiffer(data: Bytes) returns (a: seq<Bytes>, b: seq<Bytes>)
    requires |data| > LIMIT
    ensures Splits(a, data) && Splits(b, data)
    ensures Collect([], a).str != Collect([], b).str
  {
    hide Uniform, Collect, Splits;
    a := Uniform(data);
    UniformSplits(data);
    UniformLength([], data);
    b := [data[..1]] + Uniform(data[1..]);
    FirstReadShort(data);
    UniformLength(data[..1], data[1..]);
  }

  /** Streams up to the cap, and only those, come out the same for every size of the reads. */
  lemma ChunkingIndependentIff(data: Bytes)
    ensures (forall a, b :: Splits(a, data) && Splits(b, data) ==> Collect([], a).str == Collect([], b).str)
      <==> |data| <= 0x80_0000
  {
    if |data| <= LIMIT {
      forall a, b | Splits(a, data) && Splits(b, data)
        ensures Collect([], a).str == Collect([], b).str
      {
        CollectedText(data, a);
        CollectedText(data, b);
      }
    } else {
      var a, b := LongStreamsDiffer(data);
    }
  }
}
