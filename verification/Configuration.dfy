/** The class Config of config.cpp, proved against the functions of Settings. */
module Configuration {
  import opened Types
  import opened Settings

  class Config {
    var keyfiles: Keyfiles

    /** Loads every file that parses: the main one, then the drop-ins in the order the directory lists them. */
    constructor (main: Option<Keyfile>, listing: seq<(string, Option<Keyfile>)>)
      ensures keyfiles == Build([(CONF_PATH, main)] + listing)
      ensures DistinctPaths([(CONF_PATH, main)] + listing) ==> Sorted(keyfiles)
    {
      var files := [(CONF_PATH, main)] + listing;
      var found: Keyfiles := [];
      var i := 0;
      while i < |files|
        invariant 0 <= i <= |files| && found == Build(files[..i])
      {
        assert files[..i + 1][..i] == files[..i];
        if files[i].1.Some? { found := Insert(found, files[i].0, files[i].1.value); }
        i := i + 1;
      }
      keyfiles := found;
      new;
      assert files[..|files|] == files;
      if DistinctPaths(files) { BuildHolds(files); }
    }

    /** The first file in path order that has the group of the request's model fills it in. */
    method LoadRequest(r: Request) returns (found: bool, filled: Request)
      ensures filled == Settings.LoadRequest(keyfiles, r)
      ensures found <==> r.model == "" || Lookup(keyfiles, r.model).Some?
    {
      if r.model == "" { return true, r; }
      var i := 0;
      while i < |keyfiles|
        invariant 0 <= i <= |keyfiles| && Lookup(keyfiles, r.model) == Lookup(keyfiles[i..], r.model)
      {
        if r.model in keyfiles[i].1 {
          filled := Fill(keyfiles[i].1[r.model], r);
          return true, filled;
        }
        i := i + 1;
      }
      return false, r;
    }

    /** fillRequest, with the missing increment of its environment loop put in. */
    method Fill(g: Group, r: Request) returns (filled: Request)
      ensures filled == FillRequest(g, r)
    {
      filled := FillSettings(g, r);
      var n := 1;
      while EnvKey(n) in g.strings
        invariant 1 <= n && filled == Overlay(g, r).(envs := filled.envs)
        invariant filled.envs + Envs(g, n) == r.envs + Envs(g, 1)
        decreases |Envs(g, n)|
      {
        hide Overlay;
        filled := filled.(envs := filled.envs + [g.strings[EnvKey(n)]]);
        n := n + 1;
      }
    }

    /** The part of fillRequest before its loop: one key after the other. */
    method FillSettings(g: Group, r: Request) returns (filled: Request)
      ensures filled == Overlay(g, r)
    {
      hide ModeOf, StringOf, IntOf, BoolOf;
      filled := r;
      filled := filled.(timeout := IntOf(g, "timeout", filled.timeout));
      filled := filled.(user := StringOf(g, "user", filled.user));
      filled := filled.(chroot := StringOf(g, "chroot", filled.chroot));
      filled := filled.(outmode := ModeOf(g, "outmode", filled.outmode));
      filled := filled.(errmode := ModeOf(g, "errmode", filled.errmode));
      filled := filled.(outfile := StringOf(g, "outfile", filled.outfile));
      filled := filled.(errfile := StringOf(g, "errfile", filled.errfile));
      filled := filled.(network := BoolOf(g, "network", filled.network));
      filled := filled.(backend := BoolOf(g, "backend", filled.backend));
      filled := filled.(nice := IntOf(g, "nice", filled.nice));
      filled := filled.(memlimit := StringOf(g, "memlimit", filled.memlimit));
      filled := filled.(memswlimit := StringOf(g, "memswlimit", filled.memswlimit));
    }
  }

  /** The construction of a Config, which throws when the main file is missing (the outer None); a file that
      exists but does not parse is the inner None. */
  method MakeConfig(main: Option<Option<Keyfile>>, listing: seq<(string, Option<Keyfile>)>)
    returns (config: Option<Config>)
    ensures config.Some? <==> main.Some?
    ensures config.Some? ==>
      fresh(config.value) && config.value.keyfiles == Build([(CONF_PATH, main.value)] + listing)
  {
    if main.None? { return None; }
    var c := new Config(main.value, listing);
    return Some(c);
  }
}
