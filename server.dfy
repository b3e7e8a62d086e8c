/** The service's decision state and how it changes: registration of the configured files at
    startup, the startup load sequence, the filter on watcher events, and the per-event reload
    decision that swaps one provider and its file digest together. */
module Server {
  import opened Api

  type Byte = bv8

  /** The bytes of a file, as the file read returns them. */
  type Content = seq<Byte>

  /** A 16-byte content fingerprint (`[16]byte`, filled by md5 in the source). */
  type Digest = d: seq<Byte> | |d| == 16 witness [0, 0, 0, 0, 0, 0, 0, 0, 0, 0, 0, 0, 0, 0, 0, 0]

  /** The sentinel every configured path starts with, so that the first real change reloads. */
  const ZeroDigest: Digest := [0, 0, 0, 0, 0, 0, 0, 0, 0, 0, 0, 0, 0, 0, 0, 0]

  /** The two configured file paths; an empty path means "not configured". */
  datatype Config = Config(tokenFile: string, authFile: string)

  /** The foreign functions the reload decision depends on: the digest of some content, and the
      two loaders, which either build a provider from the content or fail. */
  datatype Loaders = Loaders(
    digest: Content -> Digest,
    parseTokens: Content -> Option<Authenticator>,
    parseAuthz: Content -> Option<Authorizer>)

  /** The service's state: the two providers (`None` is a nil interface) and the last digest seen
      for each watched path. */
  datatype State = State(
    tokens: Option<Authenticator>,
    authz: Option<Authorizer>,
    files: map<string, Digest>)

  datatype ReloadError =
    | ReadFailed     // the digest could not be computed: the file could not be read
    | ParseFailed    // the loader rejected the new content

  datatype StartupError =
    | WatcherFailed              // no file watcher could be created
    | AddWatchFailed(dir: string) // the watcher refused a directory
    | TokenLoadFailed
    | AuthLoadFailed

  // ---------------------------------------------------------------------------
  // The state invariant
  // ---------------------------------------------------------------------------

  /** The paths that are configured, i.e. the non-empty ones. */
  function ConfiguredPaths(cfg: Config): set<string> {
    (if cfg.tokenFile != "" then {cfg.tokenFile} else {}) + (if cfg.authFile != "" then {cfg.authFile} else {})
  }

  /** The state of a running service: exactly the configured paths are watched, a token
      provider is installed, and an authorization provider is installed iff a policy file is
      configured. */
  ghost predicate WellFormed(cfg: Config, s: State) {
    && s.files.Keys == ConfiguredPaths(cfg)
    && s.tokens.Some?
    && (s.authz.Some? <==> cfg.authFile != "")
  }

  // ---------------------------------------------------------------------------
  // Watcher events
  // ---------------------------------------------------------------------------

  /** A watcher event's operation: a bit set. */
  type Op = bv32

  const Create: Op := 1
  const Write: Op := 2
  const Remove: Op := 4
  const Rename: Op := 8
  const Chmod: Op := 16

  /** Only events with the Write or the Create bit set are processed. */
  function TriggersReload(op: Op): (r: bool)
    ensures r <==> op & (Create | Write) != 0
  {
    op & Write == Write || op & Create == Create
  }

  /** Removals, renames and attribute changes on their own are ignored; a write or create is
      processed whatever other bits come with it. */
  lemma OnlyWriteOrCreateReloads(op: Op)
    ensures op & (Remove | Rename | Chmod) == op ==> !TriggersReload(op)
    ensures op & Write == Write ==> TriggersReload(op)
    ensures op & Create == Create ==> TriggersReload(op)
  {
  }

  // ---------------------------------------------------------------------------
  // The reload decision (`processFileEvent`)
  // ---------------------------------------------------------------------------

  /** The state after a successful reload of the token file: the token provider and that file's
      digest are replaced, nothing else. */
  ghost predicate TokenSwap(s: State, t: State, path: string, d: Digest) {
    exists p :: t == s.(tokens := Some(p), files := s.files[path := d])
  }

  /** The same for the policy file and the authorization provider. */
  ghost predicate AuthzSwap(s: State, t: State, path: string, d: Digest) {
    exists p :: t == s.(authz := Some(p), files := s.files[path := d])
  }

  /** The effect of one file event on the state, and the error it reports. `content` is the
      file's contents, or `None` when the file cannot be read.
      - a path that is not watched is ignored;
      - an unreadable file is an error and changes nothing;
      - content with the stored digest changes nothing;
      - otherwise the matching loader is run, the token file taking precedence when both
        paths are the same; on failure nothing changes, on success exactly that provider and
        that path's digest are replaced. */
  function Reload(cfg: Config, ld: Loaders, s: State, path: string, content: Option<Content>)
    : (r: (State, Option<ReloadError>))
    ensures path !in s.files ==> r == (s, None)
    ensures path in s.files && content.None? ==> r == (s, Some(ReadFailed))
    ensures path in s.files && content.Some? && s.files[path] == ld.digest(content.value) ==> r == (s, None)
    ensures r.1.Some? ==> r.0 == s
    ensures r.0.files.Keys == s.files.Keys
    ensures r.0 != s ==>
              && r.1.None? && path in s.files && content.Some?
              && s.files[path] != ld.digest(content.value)
              && r.0.files[path] == ld.digest(content.value)
              && (if path == cfg.tokenFile
                  then ld.parseTokens(content.value).Some? && r.0.tokens == ld.parseTokens(content.value)
                       && TokenSwap(s, r.0, path, ld.digest(content.value))
                  else path == cfg.authFile
                       && ld.parseAuthz(content.value).Some? && r.0.authz == ld.parseAuthz(content.value)
                       && AuthzSwap(s, r.0, path, ld.digest(content.value)))
    ensures r.0 != s <==>
              && path in s.files && content.Some? && s.files[path] != ld.digest(content.value)
              && (if path == cfg.tokenFile then ld.parseTokens(content.value).Some?
                  else path == cfg.authFile && ld.parseAuthz(content.value).Some?)
    ensures r.1 == Some(ParseFailed) <==>
              && path in s.files && content.Some? && s.files[path] != ld.digest(content.value)
              && (if path == cfg.tokenFile then ld.parseTokens(content.value).None?
                  else path == cfg.authFile && ld.parseAuthz(content.value).None?)
    ensures WellFormed(cfg, s) ==> WellFormed(cfg, r.0)
  {
    if path !in s.files then (s, None)
    else if content.None? then (s, Some(ReadFailed))
    else
      var sum := ld.digest(content.value);
      if s.files[path] == sum then (s, None)
      else if path == cfg.tokenFile then
        match ld.parseTokens(content.value)
        case None => (s, Some(ParseFailed))
        case Some(t) =>
          var t' := s.(tokens := Some(t), files := s.files[path := sum]);
          assert TokenSwap(s, t', path, sum);
          (t', None)
      else if path == cfg.authFile then
        match ld.parseAuthz(content.value)
        case None => (s, Some(ParseFailed))
        case Some(a) =>
          var t' := s.(authz := Some(a), files := s.files[path := sum]);
          assert AuthzSwap(s, t', path, sum);
          (t', None)
      else (s, None)
  }

  // ---------------------------------------------------------------------------
  // Registration of the configured paths (`createWatcher`)
  // ---------------------------------------------------------------------------

  /** `path.Dir`: everything before the last slash, "/" for a root entry and "." when there is
      no slash. Repeated slashes and dot elements are not normalised. */
  function Dir(p: string): (d: string)
    ensures d == "." || d == "/" || (|d| < |p| && p[..|d|] == d && p[|d|] == '/')
    ensures '/' !in p ==> d == "."
    ensures |p| > 1 && p[0] == '/' && '/' !in p[1..] ==> d == "/"
    ensures p == "/" ==> d == "/"
  {
    if |p| == 0 then "."
    else if p[|p| - 1] == '/' then
      if |p| == 1 then "/" else p[..|p| - 1]
    else Dir(p[..|p| - 1])
  }

  /** The directory of an entry `f` (no slash) inside a non-empty directory `d` is `d`. */
  lemma {:induction false} DirOfEntry(d: string, f: string)
    requires |d| > 0 && '/' !in f
    ensures Dir(d + "/" + f) == d
    decreases |f|
  {
    var p := d + "/" + f;
    if |f| == 0 {
      assert p[..|p| - 1] == d;
    } else {
      assert p[|p| - 1] == f[|f| - 1];
      assert p[..|p| - 1] == d + "/" + f[..|f| - 1];
      DirOfEntry(d, f[..|f| - 1]);
    }
  }

  /** The registration loop's variables: the digest map, the local `watching` map, the
      directories handed to the watcher so far, and whether the watcher refused the last. */
  datatype Watch = Watch(
    files: map<string, Digest>,
    watching: map<string, bool>,
    added: seq<string>,
    failed: bool)

  /** One turn of the loop for path `x`. As in the source, the duplicate check looks up the path
      itself while the map records the path's directory. */
  function RegisterStep(w: Watch, x: string, canWatch: string -> bool): (r: Watch)
    ensures x == "" ==> r == w
    ensures x != "" ==> r.files == w.files[x := ZeroDigest]
    ensures x != "" && x in w.watching ==> r.watching == w.watching && r.added == w.added && r.failed == w.failed
    ensures x != "" && x !in w.watching ==>
              && r.watching.Keys == w.watching.Keys + {Dir(x)}
              && r.added == w.added + [Dir(x)]
              && (r.failed <==> !canWatch(Dir(x)))
  {
    if x == "" then w
    else
      var files := w.files[x := ZeroDigest];
      if x in w.watching then w.(files := files)
      else
        var dir := Dir(x);
        Watch(files, w.watching[dir := true], w.added + [dir], !canWatch(dir))
  }

  /** The loop over `paths`, stopping at the first directory the watcher refuses. */
  function Register(w: Watch, paths: seq<string>, canWatch: string -> bool): (r: Watch)
    ensures w.failed ==> r == w
    ensures w.added <= r.added && |r.added| <= |w.added| + |paths|
    ensures w.files.Keys <= r.files.Keys
    decreases |paths|
  {
    if |paths| == 0 || w.failed then w
    else Register(RegisterStep(w, paths[0], canWatch), paths[1..], canWatch)
  }

  /** The registration of the two configured paths, token file first. */
  function Registration(cfg: Config, files: map<string, Digest>, canWatch: string -> bool): (r: Watch)
    ensures |r.added| <= 2
    ensures r.added <= [Dir(cfg.tokenFile), Dir(cfg.authFile)] || r.added == [Dir(cfg.authFile)]
    ensures !r.failed ==> r.files.Keys == files.Keys + ConfiguredPaths(cfg)
    ensures var first := if cfg.tokenFile == "" then [] else [Dir(cfg.tokenFile)];
            var firstOk := cfg.tokenFile == "" || canWatch(Dir(cfg.tokenFile));
            var second := if cfg.authFile == "" || (cfg.tokenFile != "" && cfg.authFile == Dir(cfg.tokenFile))
                          then [] else [Dir(cfg.authFile)];
            r.added == (if firstOk then first + second else first)
    ensures r.failed <==> |r.added| > 0 && !canWatch(r.added[|r.added| - 1])
    ensures |r.added| == 2 ==> canWatch(r.added[0])
  {
    RegistrationAdded(cfg, files, canWatch);
    RegistrationKeys(cfg, files, canWatch);
    Register(Watch(files, map[], [], false), [cfg.tokenFile, cfg.authFile], canWatch)
  }

  /** A registration of the two configured paths that completes adds exactly the non-empty ones
      to the digest map. */
  lemma RegistrationKeys(cfg: Config, files: map<string, Digest>, canWatch: string -> bool)
    ensures var r := Register(Watch(files, map[], [], false), [cfg.tokenFile, cfg.authFile], canWatch);
            !r.failed ==> r.files.Keys == files.Keys + ConfiguredPaths(cfg)
  {
    var w0 := Watch(files, map[], [], false);
    var paths := [cfg.tokenFile, cfg.authFile];
    if !Register(w0, paths, canWatch).failed {
      RegisterFiles(w0, paths, canWatch);
      assert NonEmpty(paths) == ConfiguredPaths(cfg) by {
        assert paths[0] == cfg.tokenFile && paths[1] == cfg.authFile;
      }
    }
  }

  /** Which directories registering the two configured paths hands to the watcher, and when it
      fails: the watcher refused the last one, having accepted every earlier one. */
  lemma RegistrationAdded(cfg: Config, files: map<string, Digest>, canWatch: string -> bool)
    ensures var r := Register(Watch(files, map[], [], false), [cfg.tokenFile, cfg.authFile], canWatch);
            var first := if cfg.tokenFile == "" then [] else [Dir(cfg.tokenFile)];
            var firstOk := cfg.tokenFile == "" || canWatch(Dir(cfg.tokenFile));
            var second := if cfg.authFile == "" || (cfg.tokenFile != "" && cfg.authFile == Dir(cfg.tokenFile))
                          then [] else [Dir(cfg.authFile)];
            && r.added == (if firstOk then first + second else first)
            && (r.failed <==> |r.added| > 0 && !canWatch(r.added[|r.added| - 1]))
            && (forall i :: 0 <= i < |r.added| - 1 ==> canWatch(r.added[i]))
  {
    var w0 := Watch(files, map[], [], false);
    RegisterPair(w0, cfg.tokenFile, cfg.authFile, canWatch);
    var w1 := RegisterStep(w0, cfg.tokenFile, canWatch);
    if cfg.tokenFile == "" {
      assert w1 == w0;
    } else {
      assert w1.added == [Dir(cfg.tokenFile)] && w1.watching.Keys == {Dir(cfg.tokenFile)};
    }
    if !w1.failed {
      var w2 := RegisterStep(w1, cfg.authFile, canWatch);
      assert cfg.authFile != "" && cfg.authFile !in w1.watching ==> w2.added == w1.added + [Dir(cfg.authFile)];
    }
  }

  /** The loop over two paths is at most two turns. */
  lemma RegisterPair(w: Watch, x: string, y: string, canWatch: string -> bool)
    requires !w.failed
    ensures Register(w, [x, y], canWatch)
            == var w1 := RegisterStep(w, x, canWatch);
               if w1.failed then w1 else RegisterStep(w1, y, canWatch)
  {
    var paths := [x, y];
    var w1 := RegisterStep(w, x, canWatch);
    assert paths[1..] == [y] && [y][1..] == [];
    assert Register(w, paths, canWatch) == Register(w1, [y], canWatch);
    if !w1.failed {
      assert Register(w1, [y], canWatch) == Register(RegisterStep(w1, y, canWatch), [], canWatch);
    }
  }

  /** The non-empty elements of `paths`, as a set. */
  function NonEmpty(paths: seq<string>): set<string> {
    set i | 0 <= i < |paths| && paths[i] != "" :: paths[i]
  }

  /** Registration that completes adds a zero-digest entry for every non-empty path, skips the
      empty ones and keeps the entries that were there. */
  lemma {:induction false} RegisterFiles(w: Watch, paths: seq<string>, canWatch: string -> bool)
    requires !Register(w, paths, canWatch).failed
    ensures Register(w, paths, canWatch).files.Keys == w.files.Keys + NonEmpty(paths)
    ensures forall x :: x in NonEmpty(paths) ==> Register(w, paths, canWatch).files[x] == ZeroDigest
    ensures forall x :: x in w.files && x !in NonEmpty(paths) ==> Register(w, paths, canWatch).files[x] == w.files[x]
    decreases |paths|
  {
    if |paths| == 0 {
      assert NonEmpty(paths) == {};
    } else {
      var w' := RegisterStep(w, paths[0], canWatch);
      RegisterFiles(w', paths[1..], canWatch);
      NonEmptyCons(paths);
    }
  }

  /** `NonEmpty` of a non-empty sequence: its head, unless empty, and `NonEmpty` of its tail. */
  lemma NonEmptyCons(paths: seq<string>)
    requires |paths| > 0
    ensures NonEmpty(paths) == (if paths[0] == "" then {} else {paths[0]}) + NonEmpty(paths[1..])
  {
    forall x ensures x in NonEmpty(paths) <==> x in (if paths[0] == "" then {} else {paths[0]}) + NonEmpty(paths[1..]) {
      if x in NonEmpty(paths[1..]) {
        var i :| 0 <= i < |paths[1..]| && paths[1..][i] != "" && paths[1..][i] == x;
        assert paths[i + 1] == x;
      }
      if x in NonEmpty(paths) {
        var i :| 0 <= i < |paths| && paths[i] != "" && paths[i] == x;
        if i > 0 { assert paths[1..][i - 1] == x; }
      }
    }
  }

  /** Registration that completes makes the digest map's keys exactly the configured paths,
      each with the zero digest. */
  lemma RegistrationFiles(cfg: Config, canWatch: string -> bool)
    requires !Registration(cfg, map[], canWatch).failed
    ensures Registration(cfg, map[], canWatch).files.Keys == ConfiguredPaths(cfg)
    ensures forall x :: x in Registration(cfg, map[], canWatch).files ==> Registration(cfg, map[], canWatch).files[x] == ZeroDigest
  {
    var paths := [cfg.tokenFile, cfg.authFile];
    RegisterFiles(Watch(map[], map[], [], false), paths, canWatch);
    assert NonEmpty(paths) == ConfiguredPaths(cfg) by {
      assert paths[0] == cfg.tokenFile && paths[1] == cfg.authFile;
    }
  }

  /** The duplicate check does not deduplicate directories: two configured paths in one
      directory each hand that directory to the watcher, unless the policy path happens to be the
      token file's directory itself, in which case the lookup of the path finds it and the
      policy file's directory is never watched. */
  lemma RegistrationWatchCalls(cfg: Config, canWatch: string -> bool)
    requires cfg.tokenFile != "" && cfg.authFile != ""
    requires canWatch(Dir(cfg.tokenFile))
    ensures cfg.authFile != Dir(cfg.tokenFile) ==>
              Registration(cfg, map[], canWatch).added == [Dir(cfg.tokenFile), Dir(cfg.authFile)]
    ensures cfg.authFile == Dir(cfg.tokenFile) ==>
              Registration(cfg, map[], canWatch).added == [Dir(cfg.tokenFile)]
  {
    var w0 := Watch(map[], map[], [], false);
    var paths := [cfg.tokenFile, cfg.authFile];
    var w1 := RegisterStep(w0, cfg.tokenFile, canWatch);
    assert Register(w0, paths, canWatch) == Register(w1, paths[1..], canWatch);
    assert paths[1..] == [cfg.authFile];
    var w2 := RegisterStep(w1, cfg.authFile, canWatch);
    assert Register(w1, [cfg.authFile], canWatch) == Register(w2, [], canWatch);
  }

  /** A token file and a policy file side by side in one directory: that directory is handed
      to the watcher twice. */
  lemma SharedDirectoryWatchedTwice(d: string, tokenName: string, policyName: string, canWatch: string -> bool)
    requires |d| > 0 && '/' !in tokenName && '/' !in policyName
    requires canWatch(d)
    ensures Registration(Config(d + "/" + tokenName, d + "/" + policyName), map[], canWatch).added == [d, d]
  {
    var cfg := Config(d + "/" + tokenName, d + "/" + policyName);
    DirOfEntry(d, tokenName);
    DirOfEntry(d, policyName);
    assert |cfg.authFile| > |d|;
    RegistrationWatchCalls(cfg, canWatch);
  }

  // ---------------------------------------------------------------------------
  // Startup (`newService`)
  // ---------------------------------------------------------------------------

  /** A load: the file's contents (`None` when unreadable) run through a loader. */
  function LoadTokens(ld: Loaders, read: Option<Content>): Option<Authenticator> {
    if read.Some? then ld.parseTokens(read.value) else None
  }

  function LoadAuthz(ld: Loaders, read: Option<Content>): Option<Authorizer> {
    if read.Some? then ld.parseAuthz(read.value) else None
  }

  /** The startup sequence: create the watcher and register the paths, then always load the
      token file, then load the policy file only when one is configured. Each step aborts the
      startup on failure. The digests stay at the zero sentinel: startup does not record the
      digest of what it loaded. */
  function Startup(cfg: Config, ld: Loaders, watcherAvailable: bool, canWatch: string -> bool,
                   tokenRead: Option<Content>, authRead: Option<Content>): (r: Result<State, StartupError>)
    ensures !watcherAvailable ==> r == Failure(WatcherFailed)
    ensures watcherAvailable && Registration(cfg, map[], canWatch).failed ==> r.Failure? && r.error.AddWatchFailed?
    ensures watcherAvailable && !Registration(cfg, map[], canWatch).failed ==>
              && (LoadTokens(ld, tokenRead).None? ==> r == Failure(TokenLoadFailed))
              && (LoadTokens(ld, tokenRead).Some? && cfg.authFile != "" && LoadAuthz(ld, authRead).None? ==>
                    r == Failure(AuthLoadFailed))
    ensures r.Success? <==>
              && watcherAvailable && !Registration(cfg, map[], canWatch).failed
              && LoadTokens(ld, tokenRead).Some?
              && (cfg.authFile != "" ==> LoadAuthz(ld, authRead).Some?)
    ensures r.Success? ==>
              && WellFormed(cfg, r.value)
              && r.value.tokens == LoadTokens(ld, tokenRead)
              && r.value.authz == (if cfg.authFile == "" then None else LoadAuthz(ld, authRead))
              && (forall x :: x in r.value.files ==> r.value.files[x] == ZeroDigest)
  {
    if !watcherAvailable then Failure(WatcherFailed)
    else
      var w := Registration(cfg, map[], canWatch);
      if w.failed then
        assert |w.added| > 0 by { RegistrationFailedAdded(cfg, canWatch); }
        Failure(AddWatchFailed(w.added[|w.added| - 1]))
      else
        RegistrationFiles(cfg, canWatch);
        match LoadTokens(ld, tokenRead)
        case None => Failure(TokenLoadFailed)
        case Some(t) =>
          if cfg.authFile == "" then Success(State(Some(t), None, w.files))
          else
            match LoadAuthz(ld, authRead)
            case None => Failure(AuthLoadFailed)
            case Some(a) => Success(State(Some(t), Some(a), w.files))
  }

  /** A refusal always follows a directory having been handed to the watcher. */
  lemma {:induction false} RegisterFailedAdded(w: Watch, paths: seq<string>, canWatch: string -> bool)
    requires !w.failed || |w.added| > 0
    ensures Register(w, paths, canWatch).failed ==> |Register(w, paths, canWatch).added| > 0
    decreases |paths|
  {
    if |paths| > 0 && !w.failed {
      RegisterFailedAdded(RegisterStep(w, paths[0], canWatch), paths[1..], canWatch);
    }
  }

  lemma RegistrationFailedAdded(cfg: Config, canWatch: string -> bool)
    ensures Registration(cfg, map[], canWatch).failed ==> |Registration(cfg, map[], canWatch).added| > 0
  {
    RegisterFailedAdded(Watch(map[], map[], [], false), [cfg.tokenFile, cfg.authFile], canWatch);
  }

  // ---------------------------------------------------------------------------
  // The service object
  // ---------------------------------------------------------------------------

  /** The running service. Its providers and digest map are updated in place by the watcher;
      each update is one step, so no reader sees one provider swapped without its digest. */
  class Service {
    const cfg: Config
    const loaders: Loaders
    var tokens: Option<Authenticator>
    var authz: Option<Authorizer>
    var files: map<string, Digest>

    /** The state a reader sees. */
    function Snapshot(): State
      reads this
    {
      State(tokens, authz, files)
    }

    ghost predicate Valid()
      reads this
    {
      WellFormed(cfg, Snapshot())
    }

    /** A service with nothing loaded and nothing watched yet. */
    constructor (cfg: Config, loaders: Loaders)
      ensures this.cfg == cfg && this.loaders == loaders
      ensures tokens == None && authz == None && files == map[]
    {
      this.cfg := cfg;
      this.loaders := loaders;
      tokens := None;
      authz := None;
      files := map[];
    }

    /** `createWatcher`: for each configured path, record the zero digest and hand the path's
        directory to the watcher, stopping at the first refusal. Returns the directories handed
        to the watcher. */
    method CreateWatcher(watcherAvailable: bool, canWatch: string -> bool)
      returns (err: Option<StartupError>, added: seq<string>)
      modifies this
      ensures tokens == old(tokens) && authz == old(authz)
      ensures !watcherAvailable ==> err == Some(WatcherFailed) && files == old(files) && added == []
      ensures watcherAvailable ==>
                var w := Registration(cfg, old(files), canWatch);
                && files == w.files && added == w.added
                && (err.Some? <==> w.failed)
                && (err.Some? ==> |added| > 0 && err == Some(AddWatchFailed(added[|added| - 1])))
    {
      added := [];
      if !watcherAvailable {
        return Some(WatcherFailed), added;
      }
      var watching: map<string, bool> := map[];
      var paths := [cfg.tokenFile, cfg.authFile];
      var i := 0;
      while i < |paths|
        invariant 0 <= i <= |paths|
        invariant tokens == old(tokens) && authz == old(authz)
        invariant Registration(cfg, old(files), canWatch)
                  == Register(Watch(files, watching, added, false), paths[i..], canWatch)
      {
        var x := paths[i];
        if x != "" {
          files := files[x := ZeroDigest];
          var dir := Dir(x);
          if x !in watching {
            watching := watching[dir := true];
            added := added + [dir];
            if !canWatch(dir) {
              assert Register(Watch(files, watching, added, true), paths[i + 1..], canWatch)
                  == Watch(files, watching, added, true);
              return Some(AddWatchFailed(dir)), added;
            }
          }
        }
        i := i + 1;
      }
      return None, added;
    }

    /** `newService`: create the service, register the watched paths, load the token file and,
        when configured, the policy file; any failure aborts. */
    static method NewService(cfg: Config, loaders: Loaders, watcherAvailable: bool, canWatch: string -> bool,
                             tokenRead: Option<Content>, authRead: Option<Content>)
      returns (r: Result<Service, StartupError>)
      ensures var expected := Startup(cfg, loaders, watcherAvailable, canWatch, tokenRead, authRead);
              && (r.Success? <==> expected.Success?)
              && (r.Failure? ==> r.error == expected.error)
              && (r.Success? ==>
                    && fresh(r.value) && r.value.cfg == cfg && r.value.loaders == loaders
                    && r.value.Snapshot() == expected.value && r.value.Valid())
    {
      var s := new Service(cfg, loaders);
      var err, _ := s.CreateWatcher(watcherAvailable, canWatch);
      if err.Some? {
        return Failure(err.value);
      }
      var t := LoadTokens(loaders, tokenRead);
      if t.None? {
        return Failure(TokenLoadFailed);
      }
      s.tokens := t;
      if cfg.authFile != "" {
        var a := LoadAuthz(loaders, authRead);
        if a.None? {
          return Failure(AuthLoadFailed);
        }
        s.authz := a;
      }
      return Success(s);
    }

    /** `processFileEvent`: the reload decision for one event on `path`, whose contents are
        `content` (`None` when the file cannot be read). */
    method ProcessFileEvent(path: string, content: Option<Content>) returns (err: Option<ReloadError>)
      modifies this
      ensures (Snapshot(), err) == Reload(cfg, loaders, old(Snapshot()), path, content)
      ensures old(Valid()) ==> Valid()
    {
      if path !in files {
        return None;
      }
      var sum := files[path];
      if content.None? {
        return Some(ReadFailed);
      }
      var nsum := loaders.digest(content.value);
      if sum == nsum {
        return None;
      }
      if path == cfg.tokenFile {
        var t := loaders.parseTokens(content.value);
        if t.None? {
          return Some(ParseFailed);
        }
        files := files[path := nsum];
        tokens := t;
      } else if path == cfg.authFile {
        var a := loaders.parseAuthz(content.value);
        if a.None? {
          return Some(ParseFailed);
        }
        files := files[path := nsum];
        authz := a;
      }
      return None;
    }

    /** The watcher's handling of one event: only writes and creates reach `ProcessFileEvent`. */
    method OnEvent(op: Op, path: string, content: Option<Content>) returns (err: Option<ReloadError>)
      modifies this
      ensures !TriggersReload(op) ==> err == None && Snapshot() == old(Snapshot())
      ensures TriggersReload(op) ==> (Snapshot(), err) == Reload(cfg, loaders, old(Snapshot()), path, content)
      ensures old(Valid()) ==> Valid()
    {
      err := None;
      if TriggersReload(op) {
        err := ProcessFileEvent(path, content);
      }
    }
  }
}
