/** What stays true of one output stream from clone until its last byte. */
module StreamInvariant {
  import opened Types
  import opened Kernel
  import opened Streams

  ghost predicate NoWriteEnds(k: Kernel) { forall fd :: fd in k.fds ==> !k.fds[fd].WriteEnd? }

  /** Between load and bind: both ends of a new pipe, or none. */
  ghost predicate Loaded(k: Kernel, o: Stream) {
    && !o.over && o.str == [] && o.copied == [] && o.redirectFd == -1
    && (o.rd == -1 ==> o.wr == -1 && o.pipe == -1)
    && (o.rd != -1 ==>
      && 0 <= o.rd && 0 <= o.wr && 0 <= o.pipe < |k.pipes| && !o.mode.IGN?
      && o.rd in k.fds && k.fds[o.rd] == ReadEnd(o.pipe)
      && o.wr in k.fds && k.fds[o.wr] == WriteEnd(o.pipe)
      && k.pipes[o.pipe].pending == k.pipes[o.pipe].total == [])
  }

  /** After bind: the descriptors the stream names are the open ones of its pipe and its file. */
  ghost predicate Linked(k: Kernel, o: Stream) {
    && o.wr == -1 && o.pipe < |k.pipes|
    && (o.rd == -1 ==> o.redirectFd == -1)
    && (o.rd != -1 ==>
      && 0 <= o.rd && 0 <= o.pipe && !o.mode.IGN?
      && o.rd in k.fds && k.fds[o.rd] == ReadEnd(o.pipe)
      && (o.redirectFd != -1 <==> o.mode.FILE?)
      && (o.mode.FILE? ==> 0 <= o.redirectFd && o.redirectFd in k.fds && k.fds[o.redirectFd] == File(o.redirectTo)))
  }

  /** All that was written to pipe `p` has been read and nobody can write any more. */
  ghost predicate Ended(p: Pipe) { p.pending == [] && !p.held }

  /** Nothing is lost while the pipe is open. Once it is closed a text is the whole stream unless it filled
      the cap; what was copied to a file is always all that was read, and the end of the stream was seen
      unless the last call read so much that its counter turned over. */
  ghost predicate Faithful(p: Pipe, o: Stream) {
    && (o.rd == -1 <==> o.over)
    && |o.str| <= LIMIT + BUFSIZE - 1
    && (o.mode.MSG? && !o.over ==> o.str + p.pending == p.total)
    && (o.mode.MSG? && o.over ==> (o.str == p.total && Ended(p)) || (LIMIT <= |o.str| && o.str < p.total))
    && (o.mode.FILE? ==> o.copied + p.pending == p.total)
    && (o.mode.FILE? && o.over ==> if o.last == 0 then Ended(p) else TurnsOver(o.last))
  }

  ghost predicate Sound(k: Kernel, o: Stream) {
    Linked(k, o) && (if o.pipe < 0 then o.over && o.rd == -1 && o.str == [] else Faithful(k.pipes[o.pipe], o))
  }

  ghost predicate SameBut(k: Kernel, k': Kernel, o: Stream) {
    && |k'.pipes| == |k.pipes| && k'.files == k.files && k'.dirs == k.dirs
    && (forall p :: 0 <= p < |k.pipes| && p != o.pipe ==> k'.pipes[p] == k.pipes[p])
    && (0 <= o.pipe < |k.pipes| ==>
      k'.pipes[o.pipe].total == k.pipes[o.pipe].total && k'.pipes[o.pipe].held == k.pipes[o.pipe].held)
  }

  /** The descriptors a stream gives up when it ends. */
  function Released(o: Stream): set<int> { {o.rd} + if o.redirectFd == -1 then {} else {o.redirectFd} }

  /** `t` is one call's take from pipe `p`: what is kept and what is left still make up the stream. */
  ghost predicate Conserves(p: Pipe, o: Stream, t: Taken, copied: Bytes) {
    && t.total <= |p.pending|
    && (var ends := t.cut || Wrap32(t.total) <= 0;
        var o' := o.(str := t.str, last := t.total, copied := copied, over := ends, rd := if ends then -1 else o.rd);
        var p' := p.(pending := p.pending[t.total..]);
        Faithful(p', o') && |p'.pending| + (if ends then 0 else 1) <= |p.pending|)
  }

  lemma MsgKeeps(p: Pipe, o: Stream, chunks: seq<Bytes>)
    requires Faithful(p, o) && o.rd != -1 && o.mode.MSG? && Splits(chunks, p.pending)
    requires p.pending != [] || !p.held
    ensures Conserves(p, o, Collect(o.str, chunks), o.copied)
  {
    var t := Collect(o.str, chunks);
    CollectWithin(o.str, chunks);
    CollectBound(o.str, chunks);
    assert forall c :: c in chunks ==> c != [];
    assert chunks != [] ==> chunks[0] in chunks;
    assert t.total > 0 <==> p.pending != [];
    if !t.cut {
      assert p.pending[t.total..] == [];
      assert t.str + [] == t.str;
    }
  }

  lemma FileKeeps(p: Pipe, o: Stream, chunks: seq<Bytes>)
    requires Faithful(p, o) && o.rd != -1 && o.mode.FILE? && Splits(chunks, p.pending)
    requires p.pending != [] || !p.held
    ensures Conserves(p, o, Take(o, chunks), o.copied + Flatten(chunks))
  {
    assert p.pending[|p.pending|..] == [];
    assert o.copied + p.pending + [] == p.total;
  }

  /** A delivered stream event keeps the stream sound, touches no other pipe, takes exactly the
      stream's own descriptors away when it ends, and always uses up bytes or the end of file. */
  lemma ReceiveSound(k: Kernel, o: Stream, chunks: seq<Bytes>)
    requires Sound(k, o) && o.rd != -1 && NoWriteEnds(k) && PipeReady(k, o.rd)
    requires Splits(chunks, Pending(k, o.rd))
    ensures var (k', o') := Receive(k, o, chunks);
      && Sound(k', o') && SameBut(k, k', o)
      && o'.mode == o.mode && o'.pipe == o.pipe
      && (o'.rd != -1 ==> o'.rd == o.rd && o'.redirectFd == o.redirectFd && k'.fds == k.fds && k'.interest == k.interest)
      && (o'.rd == -1 ==> k'.fds == k.fds - Released(o) && k'.interest == k.interest - {o.rd})
      && |k'.pipes[o.pipe].pending| + (if o'.rd == -1 then 0 else 1) <= |k.pipes[o.pipe].pending|
  {
    var p := k.pipes[o.pipe];
    if o.mode.MSG? { MsgKeeps(p, o, chunks); } else { FileKeeps(p, o, chunks); }
    assert o.redirectFd != -1 ==> k.fds - {o.rd} - {o.redirectFd} == k.fds - Released(o);
    assert o.redirectFd == -1 ==> Released(o) == {o.rd};
  }

  /** The call that ends a FILE stream is the one that finds the end of it, or one that reads so many bytes
      that its counter turns over: then the stream is closed although its end was not seen. */
  lemma FileEndsIff(k: Kernel, o: Stream, chunks: seq<Bytes>)
    requires Sound(k, o) && o.rd != -1 && NoWriteEnds(k) && PipeReady(k, o.rd)
    requires o.mode.FILE? && Splits(chunks, Pending(k, o.rd))
    ensures var (k', o') := Receive(k, o, chunks);
      var n := |Pending(k, o.rd)|;
      && (o'.over <==> n == 0 || TurnsOver(n)) && o'.last == n && (o'.over ==> o'.rd == -1)
      && (o'.over && !TurnsOver(n) ==> Ended(k'.pipes[o.pipe]) && o'.copied == k'.pipes[o.pipe].total)
  {
    ReceiveSound(k, o, chunks);
    assert o.pipe < |k.pipes|;
  }

  /** 2 GB in one call are enough, with the writer still there. */
  lemma FileEndsEarly(bytes: Bytes) returns (k: Kernel, o: Stream, chunks: seq<Bytes>)
    requires |bytes| == 0x8000_0000
    ensures Sound(k, o) && o.rd != -1 && NoWriteEnds(k) && PipeReady(k, o.rd)
    ensures o.mode.FILE? && Splits(chunks, Pending(k, o.rd))
    ensures var (k', o') := Receive(k, o, chunks);
      o'.over && o'.rd == -1 && k'.pipes[o.pipe].held
  {
    k := Kernel(map[0 := ReadEnd(0), 1 := File("/out")], {0}, [Pipe(bytes, bytes, true)], {"/out"}, {});
    o := CLOSED.(mode := FILE, rd := 0, pipe := 0, redirectTo := "/out", redirectFd := 1);
    chunks := Uniform(bytes);
    UniformSplits(bytes);
    assert [] + bytes == bytes;
    FileEndsIff(k, o, chunks);
    ReceiveSound(k, o, chunks);
  }

  // ---------------------------------------------------------------------------------------------
  // From load to bind
  // ---------------------------------------------------------------------------------------------

  ghost predicate Extends(k: Kernel, k': Kernel) {
    && forall fd :: fd in k.fds ==> fd in k'.fds && k'.fds[fd] == k.fds[fd]
  }

  ghost predicate Owns(o: Stream, fd: int) { fd != -1 && (fd == o.rd || fd == o.wr || fd == o.redirectFd) }

  /** Two streams with nothing in common; every write end in the table and every descriptor beyond
      those of `base` is theirs. */
  ghost predicate Apart(base: Kernel, k: Kernel, a: Stream, b: Stream) {
    && Extends(base, k)
    && (forall fd :: fd in k.fds <==> fd in base.fds || Owns(a, fd) || Owns(b, fd))
    && (forall fd :: Owns(a, fd) || Owns(b, fd) ==> fd !in base.fds)
    && (forall fd :: Owns(a, fd) ==> !Owns(b, fd))
    && (a.rd != -1 ==> a.rd != a.wr && a.rd != a.redirectFd)
    && (b.rd != -1 ==> b.rd != b.wr && b.rd != b.redirectFd)
    && (a.wr != -1 ==> a.wr != a.redirectFd)
    && (b.wr != -1 ==> b.wr != b.redirectFd)
    && (a.pipe >= 0 ==> a.pipe != b.pipe)
  }

  /** Whether load makes a pipe for a stream. */
  ghost predicate Piped(mode: OutMode, backend: bool) { mode.FILE? || (mode.MSG? && !backend) }

  /** load fails exactly without the file to redirect to, or without a descriptor left for a pipe it needs. */
  lemma LoadFailsIff(k: Kernel, o: Stream, mode: OutMode, path: string, backend: bool, full: bool)
    ensures var a := Load(k, o, mode, path, backend, full);
      && (!a.ok <==> (mode.FILE? && path !in k.files && path !in k.dirs) || (full && Piped(mode, backend)))
      && (!a.ok ==> a.kernel == k && a.stream.rd == o.rd)
      && a.stream.mode == mode && a.stream.redirectTo == path
  {
    hide MakePipe;
  }

  lemma LoadOne(k: Kernel, mode: OutMode, path: string, backend: bool, full: bool)
    requires -1 !in k.fds
    ensures var a := Load(k, CLOSED, mode, path, backend, full);
      a.ok ==>
        && Loaded(a.kernel, a.stream) && Apart(k, a.kernel, a.stream, CLOSED) && -1 !in a.kernel.fds
        && a.kernel.interest == k.interest && a.kernel.files == k.files && a.kernel.dirs == k.dirs
        && k.pipes <= a.kernel.pipes && a.stream.pipe < |a.kernel.pipes| && (0 <= a.stream.pipe ==> |k.pipes| <= a.stream.pipe)
        && a.stream.mode == mode && a.stream.redirectTo == path && (a.stream.rd != -1 <==> Piped(mode, backend))
  {
  }

  lemma LoadBoth(k: Kernel, r: Request, fullOut: bool, fullErr: bool)
    requires NoWriteEnds(k) && -1 !in k.fds
    ensures var a := Load(k, CLOSED, r.outmode, r.outfile, r.backend, fullOut);
      var b := Load(a.kernel, CLOSED, r.errmode, r.errfile, r.backend, fullErr);
      a.ok && b.ok ==>
        && Loaded(b.kernel, a.stream) && Loaded(b.kernel, b.stream) && Apart(k, b.kernel, a.stream, b.stream)
        && b.kernel.interest == k.interest && b.kernel.files == k.files && b.kernel.dirs == k.dirs
        && a.stream.mode == r.outmode && b.stream.mode == r.errmode
        && a.stream.redirectTo == r.outfile && b.stream.redirectTo == r.errfile
        && (a.stream.rd != -1 <==> Piped(r.outmode, r.backend))
        && (b.stream.rd != -1 <==> Piped(r.errmode, r.backend))
  {
    hide Load;
    LoadOne(k, r.outmode, r.outfile, r.backend, fullOut);
    var a := Load(k, CLOSED, r.outmode, r.outfile, r.backend, fullOut);
    if a.ok { LoadOne(a.kernel, r.errmode, r.errfile, r.backend, fullErr); }
  }

  lemma InheritKeeps(base: Kernel, k: Kernel, a: Stream, b: Stream)
    requires Loaded(k, a) && Loaded(k, b) && Apart(base, k, a, b)
    ensures Loaded(Inherit(k), a) && Loaded(Inherit(k), b) && Apart(base, Inherit(k), a, b)
    ensures a.rd != -1 ==> Inherit(k).pipes[a.pipe].held
    ensures b.rd != -1 ==> Inherit(k).pipes[b.pipe].held
  {
    assert a.rd != -1 ==> k.fds[a.wr] in k.fds.Values;
    assert b.rd != -1 ==> k.fds[b.wr] in k.fds.Values;
  }

  /** bind of one stream leaves the descriptors of the other one alone. */
  lemma BindOne(base: Kernel, k: Kernel, x: Stream, y: Stream, denied: bool, refused: bool)
    requires Loaded(k, x) && Apart(base, k, x, y) && -1 !in base.fds
    ensures var c := Bind(k, x, denied, refused);
      c.ok ==>
        && Sound(c.kernel, c.stream) && Apart(base, c.kernel, c.stream, y)
        && SameOwned(k, c.kernel, y)
        && c.kernel.interest == k.interest + (if x.rd == -1 then {} else {x.rd})
        && c.stream.rd == x.rd && c.stream.pipe == x.pipe && c.stream.mode == x.mode
  {
    var c := Bind(k, x, denied, refused);
    if c.ok && x.rd != -1 {
      assert [] + k.pipes[x.pipe].pending == [];
      assert c.kernel.fds.Keys == k.fds.Keys + (if x.mode.FILE? then {c.stream.redirectFd} else {}) - {x.wr};
      assert Owns(x, x.rd) && Owns(x, x.wr);
      forall fd ensures fd in c.kernel.fds <==> fd in base.fds || Owns(c.stream, fd) || Owns(y, fd) {
        assert fd in k.fds <==> fd in base.fds || Owns(x, fd) || Owns(y, fd);
      }
    }
  }

  lemma ApartSwap(base: Kernel, k: Kernel, a: Stream, b: Stream)
    requires Apart(base, k, a, b)
    ensures Apart(base, k, b, a)
  {
  }

  /** What a stream owns is as it was. */
  ghost predicate SameOwned(k: Kernel, k': Kernel, o: Stream) {
    k'.pipes == k.pipes && forall fd :: Owns(o, fd) && fd in k.fds ==> fd in k'.fds && k'.fds[fd] == k.fds[fd]
  }

  lemma OwnedStays(k: Kernel, k': Kernel, o: Stream)
    requires SameOwned(k, k', o)
    ensures Loaded(k, o) ==> Loaded(k', o)
    ensures Sound(k, o) ==> Sound(k', o)
  {
    assert o.rd != -1 ==> Owns(o, o.rd);
    assert o.wr != -1 ==> Owns(o, o.wr);
    assert o.redirectFd != -1 ==> Owns(o, o.redirectFd);
  }

  lemma NoneLeft(base: Kernel, k: Kernel, a: Stream, b: Stream)
    requires Apart(base, k, a, b) && Sound(k, a) && Sound(k, b) && NoWriteEnds(base)
    ensures NoWriteEnds(k)
  {
    forall fd | fd in k.fds ensures !k.fds[fd].WriteEnd? {
      assert fd in base.fds || Owns(a, fd) || Owns(b, fd);
    }
  }

  lemma BindBoth(base: Kernel, k: Kernel, a: Stream, b: Stream, denied: (bool, bool), refused: (bool, bool))
    requires Loaded(k, a) && Loaded(k, b) && Apart(base, k, a, b) && NoWriteEnds(base) && -1 !in base.fds
    ensures var c := Bind(k, a, denied.0, refused.0);
      var d := Bind(c.kernel, b, denied.1, refused.1);
      c.ok && d.ok ==>
        && Sound(d.kernel, c.stream) && Sound(d.kernel, d.stream) && Apart(base, d.kernel, c.stream, d.stream)
        && NoWriteEnds(d.kernel)
        && d.kernel.interest == k.interest + (if a.rd == -1 then {} else {a.rd}) + (if b.rd == -1 then {} else {b.rd})
        && d.kernel.pipes == k.pipes
        && c.stream.rd == a.rd && d.stream.rd == b.rd && c.stream.pipe == a.pipe && d.stream.pipe == b.pipe
        && c.stream.mode == a.mode && d.stream.mode == b.mode
  {
    hide Bind, Apart, Sound, Loaded, NoWriteEnds, Owns;
    var c := Bind(k, a, denied.0, refused.0);
    BindOne(base, k, a, b, denied.0, refused.0);
    if c.ok {
      OwnedStays(k, c.kernel, b);
      ApartSwap(base, c.kernel, c.stream, b);
      var d := Bind(c.kernel, b, denied.1, refused.1);
      BindOne(base, c.kernel, b, c.stream, denied.1, refused.1);
      if d.ok {
        OwnedStays(c.kernel, d.kernel, c.stream);
        ApartSwap(base, d.kernel, d.stream, c.stream);
        NoneLeft(base, d.kernel, c.stream, d.stream);
      }
    }
  }

  // ---------------------------------------------------------------------------------------------
  // Who holds a write end
  // ---------------------------------------------------------------------------------------------

  /** In the table `t` the write end of pipe `p` is descriptor `fd` and nothing else. */
  ghost predicate OnlyAt(t: map<int, Handle>, p: nat, fd: int) {
    forall d :: (d in t && t[d] == WriteEnd(p)) <==> d == fd
  }

  /** The command writes its streams where it should: each pipe has its write end at its target descriptor and
      nowhere else. */
  ghost predicate Stand(t: map<int, Handle>, a: Stream, b: Stream) {
    && (a.rd != -1 ==> 0 <= a.pipe && OnlyAt(t, a.pipe, 1))
    && (b.rd != -1 ==> 0 <= b.pipe && OnlyAt(t, b.pipe, 2))
  }

  /** No write end is on its own target already, and none is where /dev/null is put for the first stream. */
  predicate Spared(a: Stream, b: Stream) {
    && (a.rd != -1 ==> a.wr != 1)
    && (b.rd != -1 ==> b.wr != 2 && (a.rd == -1 ==> b.wr != 1))
  }

  /** A stream without a pipe: its target becomes /dev/null, except that it ends up closed where it is itself
      the lowest free descriptor; every other descriptor stays. */
  lemma DupNull(fds: map<int, Handle>, o: Stream, fd: nat)
    requires o.rd == -1
    ensures var t := Dup(fds, o, fd);
      && (fd in t <==> fd in fds || exists m :: 0 <= m < fd && m !in fds)
      && (fd in t ==> t[fd] == Other)
      && (forall d :: d != fd ==> (d in t <==> d in fds) && (d in fds ==> t[d] == fds[d]))
  {
    var devnull := LowestFrom(fds.Keys, 0);
    assert devnull !in fds && forall m :: 0 <= m < devnull ==> m in fds.Keys;
    if devnull < fd { assert devnull !in fds; }
  }

  /** Two streams as the two calls of load leave them, the second above the first, and only their pipes. */
  ghost predicate Laid(base: Kernel, k: Kernel, a: Stream, b: Stream) {
    && Loaded(k, a) && Loaded(k, b) && Apart(base, k, a, b)
    && (forall fd :: fd in base.fds ==> !base.fds[fd].ReadEnd? && !base.fds[fd].WriteEnd?)
    && (a.rd != -1 && b.rd != -1 ==> a.rd < a.wr < b.rd < b.wr)
  }

  ghost predicate IsEnd(t: map<int, Handle>, fd: int, p: int) { fd in t && t[fd].WriteEnd? && t[fd].pipe == p }

  /** Between the calls: the pipe of `a` at 1, that of `b` where it was, and no other end but what `b` reads. */
  ghost predicate HalfWay(t: map<int, Handle>, a: Stream, b: Stream) {
    && (forall fd :: fd in t && t[fd].WriteEnd? ==>
      (a.rd != -1 && fd == 1 && IsEnd(t, fd, a.pipe)) || (b.rd != -1 && fd == b.wr && IsEnd(t, fd, b.pipe)))
    && (a.rd != -1 ==> IsEnd(t, 1, a.pipe) && b.wr != 1)
    && (b.rd != -1 ==> IsEnd(t, b.wr, b.pipe))
    && (forall fd :: fd in t && t[fd].ReadEnd? ==> b.rd != -1 && fd == b.rd)
  }

  lemma FirstDup(base: Kernel, k: Kernel, a: Stream, b: Stream)
    requires Laid(base, k, a, b) && (a.rd != -1 ==> a.wr != 1) && (b.rd != -1 && a.rd == -1 ==> b.wr != 1)
    ensures HalfWay(Dup(k.fds, a, 1), a, b)
  {
    hide LowestFrom;
    assert forall fd :: fd in k.fds ==> fd in base.fds || Owns(a, fd) || Owns(b, fd);
    var devnull := LowestFrom(k.fds.Keys, 0);
    assert devnull !in k.fds;
  }

  lemma SecondDup(t1: map<int, Handle>, a: Stream, b: Stream)
    requires HalfWay(t1, a, b) && (a.rd != -1 ==> 0 <= a.pipe && a.pipe != b.pipe && b.rd != 1)
    requires b.rd != -1 ==> 0 <= b.pipe && b.wr != 2 && b.wr != b.rd
    ensures var t := Dup(t1, b, 2);
      Stand(t, a, b) && forall fd :: fd in t ==> !t[fd].ReadEnd? && (t[fd].WriteEnd? ==> fd == 1 || fd == 2)
  {
    hide LowestFrom;
    assert LowestFrom(t1.Keys, 0) !in t1;
  }

  /** Both calls of dup together: the streams stand exactly if both are spared; and then the command has no
      other end of a pipe. */
  lemma DupsStandIff(base: Kernel, k: Kernel, a: Stream, b: Stream)
    requires Laid(base, k, a, b)
    ensures var t := Dup(Dup(k.fds, a, 1), b, 2);
      && (Stand(t, a, b) <==> Spared(a, b))
      && (Spared(a, b) ==> forall fd :: fd in t ==> !t[fd].ReadEnd? && (t[fd].WriteEnd? ==> fd == 1 || fd == 2))
  {
    if Spared(a, b) { DupsStand(base, k, a, b); } else { DupsFall(base, k, a, b); }
  }

  lemma DupsStand(base: Kernel, k: Kernel, a: Stream, b: Stream)
    requires Laid(base, k, a, b) && Spared(a, b)
    ensures var t := Dup(Dup(k.fds, a, 1), b, 2);
      Stand(t, a, b) && forall fd :: fd in t ==> !t[fd].ReadEnd? && (t[fd].WriteEnd? ==> fd == 1 || fd == 2)
  {
    hide Dup, HalfWay;
    FirstDup(base, k, a, b);
    SecondDup(Dup(k.fds, a, 1), a, b);
  }

  lemma DupsFall(base: Kernel, k: Kernel, a: Stream, b: Stream)
    requires Laid(base, k, a, b) && !Spared(a, b)
    ensures !Stand(Dup(Dup(k.fds, a, 1), b, 2), a, b)
  {
    hide LowestFrom;
    var t1 := Dup(k.fds, a, 1);
    var t := Dup(t1, b, 2);
    if a.rd != -1 && a.wr == 1 {
      assert 1 !in t1 && LowestFrom(t1.Keys, 0) !in t1;
      assert !IsEnd(t, 1, a.pipe);
    } else if b.wr == 2 {
      assert 2 !in t;
    } else {
      assert !IsEnd(t, 2, b.pipe);
    }
  }

  /** What the table before load must have for that, given which of the two streams get a pipe. */
  predicate Room(fds: map<int, Handle>, first: bool, second: bool) {
    if first then 0 in fds || 1 in fds
    else second ==> (0 in fds && 1 in fds) || (0 in fds && 2 in fds) || (1 in fds && 2 in fds)
  }

  /** The descriptors of a pipe: the two lowest free ones, in order. */
  lemma LoadLowest(k: Kernel, mode: OutMode, path: string, backend: bool, full: bool)
    requires -1 !in k.fds
    ensures var a := Load(k, CLOSED, mode, path, backend, full);
      a.ok && a.stream.rd != -1 ==>
        && 0 <= a.stream.rd < a.stream.wr && a.stream.rd !in k.fds && a.stream.wr !in k.fds
        && (forall m :: 0 <= m < a.stream.wr && m != a.stream.rd ==> m in k.fds)
        && a.kernel.fds.Keys == k.fds.Keys + {a.stream.rd, a.stream.wr}
  {
    var r := NextFd(k);
    var k1 := Open(k, ReadEnd(|k.pipes|));
    var w := NextFd(k1);
    forall m | 0 <= m < w && m != r ensures m in k.fds {
      assert m in k1.fds.Keys;
    }
  }

  lemma LoadRoom(k: Kernel, r: Request, fullOut: bool, fullErr: bool)
    requires NoWriteEnds(k) && -1 !in k.fds && forall fd :: fd in k.fds ==> !k.fds[fd].ReadEnd?
    ensures var a := Load(k, CLOSED, r.outmode, r.outfile, r.backend, fullOut);
      var b := Load(a.kernel, CLOSED, r.errmode, r.errfile, r.backend, fullErr);
      a.ok && b.ok ==>
        && Laid(k, b.kernel, a.stream, b.stream)
        && (Spared(a.stream, b.stream) <==> Room(k.fds, Piped(r.outmode, r.backend), Piped(r.errmode, r.backend)))
  {
    hide Load, Apart, Loaded;
    LoadBoth(k, r, fullOut, fullErr);
    LoadLowest(k, r.outmode, r.outfile, r.backend, fullOut);
    LoadOne(k, r.outmode, r.outfile, r.backend, fullOut);
    var a := Load(k, CLOSED, r.outmode, r.outfile, r.backend, fullOut);
    if a.ok {
      LoadLowest(a.kernel, r.errmode, r.errfile, r.backend, fullErr);
      LoadSame(k, r.outmode, r.outfile, r.backend, fullOut);
    }
  }

  lemma LoadSame(k: Kernel, mode: OutMode, path: string, backend: bool, full: bool)
    ensures var a := Load(k, CLOSED, mode, path, backend, full); a.stream.rd == -1 ==> a.kernel == k
  {
  }

  /** The first way it fails: where 0, 1 and 2 are free, the pipe of the first stream has descriptor 1 for its
      write end, dup2 onto itself does nothing, and the closefd after it closes the stream. */
  lemma DupCloses(path: string) returns (k: Kernel)
    ensures var a := Load(k, CLOSED, MSG, path, false, false);
      && a.ok && Loaded(a.kernel, a.stream) && OnlyAt(a.kernel.fds, a.stream.pipe, a.stream.wr) && a.stream.wr == 1
      && (forall fd :: fd in Dup(a.kernel.fds, a.stream, 1) ==> !Dup(a.kernel.fds, a.stream, 1)[fd].WriteEnd?)
  {
    k := Kernel(map[3 := Conn, 4 := Epoll], {3}, [], {}, {});
    assert NextFd(k) == 0;
    var k1 := Open(k, ReadEnd(0));
    assert LowestFrom(k1.fds.Keys, 1) == 1;
    assert NextFd(k1) == 1;
  }

  /** The second way: where 0 and 1 are free and 2 is in use, a pipe for the second stream alone has descriptor 1
      for its write end, and the first call of dup puts /dev/null there. */
  lemma DupOverwrites(path: string) returns (k: Kernel)
    ensures var a := Load(k, CLOSED, IGN, path, false, false);
      var b := Load(a.kernel, CLOSED, MSG, path, false, false);
      var t := Dup(Dup(b.kernel.fds, a.stream, 1), b.stream, 2);
      && a.ok && b.ok && Laid(k, b.kernel, a.stream, b.stream) && b.stream.wr == 1
      && (forall fd :: fd in t ==> !t[fd].WriteEnd?)
  {
    k := Kernel(map[2 := Other, 3 := Conn, 4 := Epoll], {3}, [], {}, {});
    LoadRoom(k, NO_REQUEST.(errmode := MSG, outfile := path, errfile := path), false, false);
    assert NextFd(k) == 0;
    var k1 := Open(k, ReadEnd(0));
    assert LowestFrom(k1.fds.Keys, 1) == 1;
    assert NextFd(k1) == 1;
  }
}
