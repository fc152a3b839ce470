/** The configuration overlay (config.cpp) as values: key files in path order, and what a group changes. */
module Settings {
  import opened Types

  const CONF_PATH := "/etc/srund/srund.conf"
  const CONF_DIR := "/etc/srund/srund.d"

  /** What the glib getters yield for the keys of one group; a missing or malformed key is absent. */
  datatype Group = Group(ints: map<string, int>, strings: map<string, string>, bools: map<string, bool>)

  type Keyfile = map<string, Group>

  /** A std::map<string, GKeyFile*>: strictly increasing paths. */
  type Keyfiles = seq<(string, Keyfile)>

  predicate Less(a: string, b: string) {
    b != [] && (a == [] || a[0] < b[0] || (a[0] == b[0] && Less(a[1..], b[1..])))
  }

  lemma {:induction false} LessTotal(a: string, b: string)
    ensures Less(a, b) || a == b || Less(b, a)
    ensures !(Less(a, b) && Less(b, a)) && (a == b ==> !Less(a, b))
  {
    if a != [] && b != [] && a[0] == b[0] {
      LessTotal(a[1..], b[1..]);
      assert a == [a[0]] + a[1..] && b == [b[0]] + b[1..];
    }
  }

  lemma {:induction false} LessTransitive(a: string, b: string, c: string)
    requires Less(a, b) && Less(b, c)
    ensures Less(a, c)
  {
    if a != [] && a[0] == b[0] && b[0] == c[0] { LessTransitive(a[1..], b[1..], c[1..]); }
  }

  ghost predicate Sorted(ks: Keyfiles) { forall i, j :: 0 <= i < j < |ks| ==> Less(ks[i].0, ks[j].0) }

  /** std::map::insert: keeps the order, and keeps an entry that is already there. */
  function Insert(ks: Keyfiles, path: string, file: Keyfile): Keyfiles {
    if ks == [] || Less(path, ks[0].0) then [(path, file)] + ks
    else if path == ks[0].0 then ks
    else [ks[0]] + Insert(ks[1..], path, file)
  }

  /** The files in the order the constructor meets them; None is a file glib cannot parse. */
  function Build(files: seq<(string, Option<Keyfile>)>): Keyfiles {
    if files == [] then []
    else
      var last := files[|files| - 1];
      var ks := Build(files[..|files| - 1]);
      if last.1.Some? then Insert(ks, last.0, last.1.value) else ks
  }

  // ---------------------------------------------------------------------------------------------
  // Looking a group up
  // ---------------------------------------------------------------------------------------------

  function Lookup(ks: Keyfiles, group: string): Option<Group> {
    if ks == [] then None
    else if group in ks[0].1 then Some(ks[0].1[group])
    else Lookup(ks[1..], group)
  }

  function ModeOf(g: Group, key: string, current: OutMode): OutMode {
    if key !in g.strings then current
    else if g.strings[key] == "IGN" then IGN
    else if g.strings[key] == "MSG" then MSG
    else if g.strings[key] == "FILE" then FILE
    else current
  }

  function StringOf(g: Group, key: string, current: string): string {
    if key in g.strings then g.strings[key] else current
  }

  function IntOf(g: Group, key: string, current: int): int { if key in g.ints then g.ints[key] else current }

  function BoolOf(g: Group, key: string, current: bool): bool { if key in g.bools then g.bools[key] else current }

  /** fillRequest up to its environment loop. */
  function Overlay(g: Group, r: Request): Request {
    r.(timeout := IntOf(g, "timeout", r.timeout), user := StringOf(g, "user", r.user),
       chroot := StringOf(g, "chroot", r.chroot), outmode := ModeOf(g, "outmode", r.outmode),
       errmode := ModeOf(g, "errmode", r.errmode), outfile := StringOf(g, "outfile", r.outfile),
       errfile := StringOf(g, "errfile", r.errfile), network := BoolOf(g, "network", r.network),
       backend := BoolOf(g, "backend", r.backend), nice := IntOf(g, "nice", r.nice),
       memlimit := StringOf(g, "memlimit", r.memlimit), memswlimit := StringOf(g, "memswlimit", r.memswlimit))
  }

  // ---------------------------------------------------------------------------------------------
  // The environment keys env1, env2, ...
  // ---------------------------------------------------------------------------------------------

  function Digits(n: nat): string {
    if n < 10 then ['0' + n as char] else Digits(n / 10) + ['0' + (n % 10) as char]
  }

  function EnvKey(n: nat): string { "env" + Digits(n) }

  /** The number a string of digits denotes. */
  function Value(s: string): int {
    if s == [] then 0 else 10 * Value(s[..|s| - 1]) + (s[|s| - 1] as int - '0' as int)
  }

  lemma {:induction false} DigitsValue(n: nat)
    ensures Value(Digits(n)) == n
  {
    if n < 10 {
      assert Digits(n)[..0] == [];
    } else {
      DigitsValue(n / 10);
      assert Digits(n)[..|Digits(n)| - 1] == Digits(n / 10);
    }
  }

  function IndexOf(key: string): int { if "env" <= key then Value(key[3..]) else -1 }

  lemma EnvKeyIndex(n: nat)
    ensures IndexOf(EnvKey(n)) == n
  {
    DigitsValue(n);
    assert EnvKey(n)[3..] == Digits(n);
  }

  /** The values of envn, env(n+1), ... up to the first missing one: the loop of fillRequest with the
      missing increment put in. */
  function Envs(g: Group, n: nat): seq<string>
    decreases set key | key in g.strings && n <= IndexOf(key)
  {
    if EnvKey(n) !in g.strings then []
    else
      EnvKeyIndex(n);
      var later, now := set key | key in g.strings && n + 1 <= IndexOf(key), set key | key in g.strings && n <= IndexOf(key);
      assert later < now by { assert EnvKey(n) in now && EnvKey(n) !in later; }
      [g.strings[EnvKey(n)]] + Envs(g, n + 1)
  }

  /** The same loop as the code has it: the counter stays at 1. None if `fuel` rounds do not finish it. */
  function EnvsAsWritten(g: Group, envs: seq<string>, fuel: nat): Option<seq<string>>
    decreases fuel
  {
    if fuel == 0 then None
    else if EnvKey(1) !in g.strings then Some(envs)
    else EnvsAsWritten(g, envs + [g.strings[EnvKey(1)]], fuel - 1)
  }

  function FillRequest(g: Group, r: Request): Request { Overlay(g, r).(envs := r.envs + Envs(g, 1)) }

  /** loadRequest over the key files; a request without a model or with an unknown one is left alone. */
  function LoadRequest(ks: Keyfiles, r: Request): Request {
    if r.model == "" then r
    else
      match Lookup(ks, r.model)
      case None => r
      case Some(g) => FillRequest(g, r)
  }

  // ---------------------------------------------------------------------------------------------
  // Properties
  // ---------------------------------------------------------------------------------------------

  lemma {:induction false} InsertSorted(ks: Keyfiles, path: string, file: Keyfile)
    requires Sorted(ks)
    ensures Sorted(Insert(ks, path, file))
    ensures forall e :: e in Insert(ks, path, file) <==>
      e in ks || (e == (path, file) && forall e' :: e' in ks ==> e'.0 != path)
  {
    if ks != [] {
      LessTotal(path, ks[0].0);
      assert forall e :: e in ks <==> e == ks[0] || e in ks[1..];
      if Less(path, ks[0].0) {
        forall j | 0 <= j < |ks| ensures Less(path, ks[j].0) && path != ks[j].0 {
          if j > 0 { LessTransitive(path, ks[0].0, ks[j].0); }
          LessTotal(path, ks[j].0);
        }
      } else if path != ks[0].0 {
        InsertSorted(ks[1..], path, file);
        var rest := Insert(ks[1..], path, file);
        forall j | 0 <= j < |rest| ensures Less(ks[0].0, rest[j].0) {
          assert rest[j] in rest;
        }
      } else {
        assert ks[0] in ks;
      }
    }
  }

  /** No path twice, as in a directory. */
  ghost predicate DistinctPaths(files: seq<(string, Option<Keyfile>)>) {
    forall i, j :: 0 <= i < j < |files| ==> files[i].0 != files[j].0
  }

  lemma {:induction false} BuildHolds(files: seq<(string, Option<Keyfile>)>)
    requires DistinctPaths(files)
    ensures Sorted(Build(files))
    ensures forall e :: e in Build(files) <==> (e.0, Some(e.1)) in files
  {
    if files != [] {
      var last, front := files[|files| - 1], files[..|files| - 1];
      assert files == front + [last];
      BuildHolds(front);
      if last.1.Some? {
        InsertSorted(Build(front), last.0, last.1.value);
        forall e | e in Build(front) ensures e.0 != last.0 {
          var i :| 0 <= i < |front| && front[i] == (e.0, Some(e.1));
          assert files[i].0 != files[|files| - 1].0;
        }
      }
    }
  }

  lemma HeadIn<T>(s: seq<T>)
    ensures s != [] ==> s[0] in s
  {
  }

  lemma {:induction false} SortedUnique(a: Keyfiles, b: Keyfiles)
    requires Sorted(a) && Sorted(b) && (forall e :: e in a <==> e in b)
    ensures a == b
  {
    if a == [] {
      HeadIn(b);
    } else {
      assert a[0] in b;
      assert b != [] && b[0] in a;
      var i :| 0 <= i < |b| && b[i] == a[0];
      var j :| 0 <= j < |a| && a[j] == b[0];
      LessTotal(a[0].0, b[0].0);
      assert i == 0 && j == 0;
      forall e ensures e in a[1..] <==> e in b[1..] {
        LessTotal(a[0].0, a[0].0);
        assert e in a[1..] ==> e in a && e != a[0];
        assert e in b[1..] ==> e in b && e != b[0];
      }
      SortedUnique(a[1..], b[1..]);
      assert a == [a[0]] + a[1..] && b == [b[0]] + b[1..];
    }
  }

  /** The order in which the directory lists its files has no effect on what is loaded. */
  lemma EnumerationIndependent(files: seq<(string, Option<Keyfile>)>, other: seq<(string, Option<Keyfile>)>)
    requires DistinctPaths(files) && DistinctPaths(other) && (forall f :: f in files <==> f in other)
    ensures Build(files) == Build(other)
  {
    BuildHolds(files);
    BuildHolds(other);
    SortedUnique(Build(files), Build(other));
  }

  /** `path` is the least path whose file parses and has the group, and `g` is that group. */
  ghost predicate Wins(files: seq<(string, Option<Keyfile>)>, group: string, path: string, g: Group) {
    && (exists file :: (path, Some(file)) in files && group in file && file[group] == g)
    && forall f :: f in files && f.1.Some? && group in f.1.value ==> f.0 == path || Less(path, f.0)
  }

  lemma {:induction false} LookupFirst(ks: Keyfiles, group: string)
    requires Sorted(ks)
    ensures Lookup(ks, group).None? ==> forall e :: e in ks ==> group !in e.1
    ensures Lookup(ks, group).Some? ==> exists i ::
      0 <= i < |ks| && group in ks[i].1 && Lookup(ks, group).value == ks[i].1[group] &&
      forall e :: e in ks && group in e.1 ==> e.0 == ks[i].0 || Less(ks[i].0, e.0)
  {
    if ks != [] && group !in ks[0].1 {
      LookupFirst(ks[1..], group);
      assert forall e :: e in ks <==> e == ks[0] || e in ks[1..];
      if Lookup(ks, group).Some? {
        var i :| 0 <= i < |ks[1..]| && group in ks[1..][i].1 && Lookup(ks, group).value == ks[1..][i].1[group] &&
          forall e :: e in ks[1..] && group in e.1 ==> e.0 == ks[1..][i].0 || Less(ks[1..][i].0, e.0);
        assert ks[i + 1] == ks[1..][i];
      }
    }
  }

  /** A model names a group iff some file has it, and then the least such path supplies it. */
  lemma LookupWinner(files: seq<(string, Option<Keyfile>)>, group: string)
    requires DistinctPaths(files)
    ensures Lookup(Build(files), group).None? <==>
      forall f :: f in files && f.1.Some? ==> group !in f.1.value
    ensures Lookup(Build(files), group).Some? ==>
      exists path :: Wins(files, group, path, Lookup(Build(files), group).value)
  {
    var ks := Build(files);
    BuildHolds(files);
    LookupFirst(ks, group);
    assert forall f :: f in files && f.1.Some? ==> f == (f.0, Some(f.1.value)) && (f.0, f.1.value) in ks;
    if Lookup(ks, group).Some? {
      var i :| 0 <= i < |ks| && group in ks[i].1 && Lookup(ks, group).value == ks[i].1[group] &&
        forall e :: e in ks && group in e.1 ==> e.0 == ks[i].0 || Less(ks[i].0, e.0);
      assert ks[i] in ks;
      assert Wins(files, group, ks[i].0, Lookup(ks, group).value);
    }
  }

  lemma {:induction false} LessAfter(prefix: string, a: string, b: string)
    ensures Less(prefix + a, prefix + b) == Less(a, b)
  {
    if prefix == [] {
      assert prefix + a == a && prefix + b == b;
    } else {
      LessAfter(prefix[1..], a, b);
      assert (prefix + a)[1..] == prefix[1..] + a && (prefix + b)[1..] == prefix[1..] + b;
    }
  }

  /** The main file comes before every drop-in, so a group it has is never overridden. */
  lemma MainFileFirst(name: string)
    ensures Less(CONF_PATH, CONF_DIR + "/" + name)
  {
    LessAfter("/etc/srund/srund.", "conf", "d/" + name);
    assert CONF_PATH == "/etc/srund/srund." + "conf";
    assert Less("conf", "d/" + name) by { assert "conf"[0] < ("d/" + name)[0]; }
    assert CONF_DIR + "/" + name == "/etc/srund/srund." + ("d/" + name);
  }

  /** The loop as written ends exactly on groups without env1, and there the repaired loop agrees. */
  lemma EnvLoopEndsIff(g: Group, envs: seq<string>)
    ensures (exists fuel: nat :: EnvsAsWritten(g, envs, fuel).Some?) <==> EnvKey(1) !in g.strings
    ensures forall fuel: nat :: EnvsAsWritten(g, envs, fuel).Some? ==>
      EnvsAsWritten(g, envs, fuel).value == envs + Envs(g, 1)
  {
    if EnvKey(1) in g.strings {
      forall fuel: nat ensures EnvsAsWritten(g, envs, fuel).None? { EnvLoopStuck(g, envs, fuel); }
    } else {
      assert EnvsAsWritten(g, envs, 1).Some?;
      assert envs + Envs(g, 1) == envs;
    }
  }

  lemma {:induction false} EnvLoopStuck(g: Group, envs: seq<string>, fuel: nat)
    requires EnvKey(1) in g.strings
    ensures EnvsAsWritten(g, envs, fuel).None?
    decreases fuel
  {
    if fuel > 0 { EnvLoopStuck(g, envs + [g.strings[EnvKey(1)]], fuel - 1); }
  }

  /** The repaired loop collects the longest gap-free run, in order. */
  lemma {:induction false} EnvRun(g: Group, n: nat)
    ensures var run := Envs(g, n);
      && EnvKey(n + |run|) !in g.strings
      && forall j :: n <= j < n + |run| ==> EnvKey(j) in g.strings && run[j - n] == g.strings[EnvKey(j)]
    decreases |Envs(g, n)|
  {
    if EnvKey(n) in g.strings {
      EnvRun(g, n + 1);
      var run, rest := Envs(g, n), Envs(g, n + 1);
      assert run[0] == g.strings[EnvKey(n)] && run[1..] == rest;
      forall j | n <= j < n + |run| ensures EnvKey(j) in g.strings && run[j - n] == g.strings[EnvKey(j)] {
        if j > n { assert run[j - n] == rest[j - (n + 1)]; }
      }
      assert n + |run| == n + 1 + |rest|;
    }
  }

  /** Loading again changes nothing but the environment, which grows by the run once more. */
  lemma SecondLoad(ks: Keyfiles, r: Request)
    requires r.model != ""
    ensures var once := LoadRequest(ks, r);
      match Lookup(ks, r.model)
      case None => LoadRequest(ks, once) == once == r
      case Some(g) =>
        && LoadRequest(ks, once) == once.(envs := once.envs + Envs(g, 1))
        && (LoadRequest(ks, once) == once <==> EnvKey(1) !in g.strings)
  {
    if Lookup(ks, r.model).Some? {
      var g := Lookup(ks, r.model).value;
      assert Overlay(g, Overlay(g, r)) == Overlay(g, r);
      var once := LoadRequest(ks, r);
      assert Overlay(g, once) == once;
      assert once.envs + [] == once.envs;
    }
  }

  datatype Setting = Text(s: string) | Number(n: int) | Switch(b: bool) | Mode(m: OutMode)

  const KEYS := {"timeout", "user", "chroot", "outmode", "errmode", "outfile", "errfile", "network",
                 "backend", "nice", "memlimit", "memswlimit"}

  /** The setting of a request that the key file calls `key`. */
  function Get(r: Request, key: string): Setting {
    if key == "timeout" then Number(r.timeout) else if key == "user" then Text(r.user)
    else if key == "chroot" then Text(r.chroot) else if key == "outmode" then Mode(r.outmode)
    else if key == "errmode" then Mode(r.errmode) else if key == "outfile" then Text(r.outfile)
    else if key == "errfile" then Text(r.errfile) else if key == "network" then Switch(r.network)
    else if key == "backend" then Switch(r.backend) else if key == "nice" then Number(r.nice)
    else if key == "memlimit" then Text(r.memlimit) else Text(r.memswlimit)
  }

  /** What a group says about `key`, read at the type the setting has; None if it says nothing usable. */
  function Given(g: Group, key: string, current: Setting): Option<Setting> {
    match current
    case Text(_) => if key in g.strings then Some(Text(g.strings[key])) else None
    case Number(_) => if key in g.ints then Some(Number(g.ints[key])) else None
    case Switch(_) => if key in g.bools then Some(Switch(g.bools[key])) else None
    case Mode(_) =>
      if key in g.strings && g.strings[key] in {"IGN", "MSG", "FILE"} then
        Some(Mode(if g.strings[key] == "IGN" then IGN else if g.strings[key] == "MSG" then MSG else FILE))
      else None
  }

  /** Every setting is the group's if the group gives one and the request's own if not; the arguments and
      the model never change, and the environment is only added to. */
  lemma OnlyGivenKeysChange(g: Group, r: Request)
    ensures forall key :: key in KEYS ==>
      Get(FillRequest(g, r), key) ==
        match Given(g, key, Get(r, key)) case Some(v) => v case None => Get(r, key)
    ensures FillRequest(g, r).args == r.args && FillRequest(g, r).model == r.model
    ensures FillRequest(g, r).envs == r.envs + Envs(g, 1)
  {
    forall key | key in KEYS
      ensures Get(FillRequest(g, r), key) ==
        match Given(g, key, Get(r, key)) case Some(v) => v case None => Get(r, key)
    {
      GivenKey(g, r, key);
    }
  }

  lemma GivenKey(g: Group, r: Request, key: string)
    requires key in KEYS
    ensures Get(FillRequest(g, r), key) ==
      match Given(g, key, Get(r, key)) case Some(v) => v case None => Get(r, key)
  {
    if key == "outmode" || key == "errmode" {
      assert ModeOf(g, key, Get(r, key).m) == Get(FillRequest(g, r), key).m;
    }
  }

  /** A path wins with one group only. */
  lemma OneWinner(files: seq<(string, Option<Keyfile>)>, group: string, path: string, g: Group, path': string, g': Group)
    requires DistinctPaths(files) && Wins(files, group, path, g) && Wins(files, group, path', g')
    ensures path == path' && g == g'
  {
    LessTotal(path, path');
    var file :| (path, Some(file)) in files && group in file && file[group] == g;
    var file' :| (path', Some(file')) in files && group in file' && file'[group] == g';
    var i :| 0 <= i < |files| && files[i] == (path, Some(file));
    var j :| 0 <= j < |files| && files[j] == (path', Some(file'));
    assert i == j;
  }

  /** `t` is `r` with what group `g` says: each setting the group's own or left alone, and the environment
      followed by the longest run env1, env2, ... */
  ghost predicate Applied(g: Group, r: Request, t: Request) {
    && (forall key :: key in KEYS ==>
      Get(t, key) == match Given(g, key, Get(r, key)) case Some(v) => v case None => Get(r, key))
    && t.args == r.args && t.model == r.model && r.envs <= t.envs
    && var run := t.envs[|r.envs|..];
      && EnvKey(1 + |run|) !in g.strings
      && forall j :: 0 <= j < |run| ==> EnvKey(1 + j) in g.strings && run[j] == g.strings[EnvKey(1 + j)]
  }

  /** Loading applies the group that wins, all of it and nothing else; without a model, or with one that no file
      has, the request stays as it is. */
  lemma LoadApplies(files: seq<(string, Option<Keyfile>)>, r: Request)
    requires DistinctPaths(files)
    ensures r.model == "" || (forall f :: f in files && f.1.Some? ==> r.model !in f.1.value) ==>
      LoadRequest(Build(files), r) == r
    ensures forall path, g :: r.model != "" && Wins(files, r.model, path, g) ==> Applied(g, r, LoadRequest(Build(files), r))
  {
    hide Build, Lookup, FillRequest, Applied, Wins;
    LookupWinner(files, r.model);
    forall path, g | r.model != "" && Wins(files, r.model, path, g) ensures Applied(g, r, LoadRequest(Build(files), r)) {
      SomeoneWins(files, r.model, path, g);
      var path' :| Wins(files, r.model, path', Lookup(Build(files), r.model).value);
      OneWinner(files, r.model, path, g, path', Lookup(Build(files), r.model).value);
      FillApplies(g, r);
    }
  }

  lemma SomeoneWins(files: seq<(string, Option<Keyfile>)>, group: string, path: string, g: Group)
    requires Wins(files, group, path, g)
    ensures !forall f :: f in files && f.1.Some? ==> group !in f.1.value
  {
    var file :| (path, Some(file)) in files && group in file && file[group] == g;
    assert (path, Some(file)).1.value == file;
  }

  lemma FillApplies(g: Group, r: Request)
    ensures Applied(g, r, FillRequest(g, r))
  {
    hide FillRequest, Get, Given, Envs, EnvKey;
    OnlyGivenKeysChange(g, r);
    EnvRun(g, 1);
    assert FillRequest(g, r).envs[|r.envs|..] == Envs(g, 1);
  }
}
