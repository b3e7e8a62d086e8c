/** Properties of the reload decision over several events: re-delivering an event changes
    nothing more, the invariant of a running service survives any sequence of events, each
    provider in force is the initial one or one loaded from an event on its own file, and a
    lookup after a reload uses the new provider. */
module Reloading {
  import opened Api
  import opened Server
  import Authenticate
  import Handlers

  /** One watcher event: its operation, the path it names, and the file's contents when read
      (`None` when the read fails). */
  datatype FileEvent = FileEvent(op: Op, path: string, content: Option<Content>)

  /** The state after the watcher has handled one event. */
  function Step(cfg: Config, ld: Loaders, s: State, e: FileEvent): (r: State)
    ensures !TriggersReload(e.op) || e.path !in s.files ==> r == s
    ensures r.files.Keys == s.files.Keys
    ensures r.tokens != s.tokens ==> e.path == cfg.tokenFile
    ensures r.authz != s.authz ==> e.path == cfg.authFile && e.path != cfg.tokenFile
    ensures forall x :: x in s.files && x != e.path ==> r.files[x] == s.files[x]
  {
    if TriggersReload(e.op) then Reload(cfg, ld, s, e.path, e.content).0 else s
  }

  /** The state after the watcher has handled `events`, in order. */
  function Replay(cfg: Config, ld: Loaders, s: State, events: seq<FileEvent>): (r: State)
    ensures (forall i :: 0 <= i < |events| ==> !TriggersReload(events[i].op)) ==> r == s
    ensures (forall i :: 0 <= i < |events| ==> events[i].path !in s.files) ==> r == s
    decreases |events|
  {
    if |events| == 0 then s else Replay(cfg, ld, Step(cfg, ld, s, events[0]), events[1..])
  }

  /** Reloading is idempotent: handling the same event again, with the same contents, leaves the
      state as the first handling left it and reports the same outcome. This covers duplicate
      notifications and rewrites with identical contents. */
  lemma ReloadIdempotent(cfg: Config, ld: Loaders, s: State, path: string, content: Option<Content>)
    ensures var first := Reload(cfg, ld, s, path, content);
            Reload(cfg, ld, first.0, path, content) == first
  {
  }

  /** A successful reload records the new contents' digest, so the next event with the same
      contents does not rebuild the provider. */
  lemma ReloadRecordsDigest(cfg: Config, ld: Loaders, s: State, path: string, c: Content)
    requires path in s.files
    ensures var t := Reload(cfg, ld, s, path, Some(c)).0;
            t != s ==> t.files[path] == ld.digest(c) && Reload(cfg, ld, t, path, Some(c)) == (t, None)
  {
  }

  /** Every step keeps the invariant of a running service. */
  lemma {:induction false} ReplayWellFormed(cfg: Config, ld: Loaders, s: State, events: seq<FileEvent>)
    requires WellFormed(cfg, s)
    ensures WellFormed(cfg, Replay(cfg, ld, s, events))
    decreases |events|
  {
    if |events| > 0 {
      ReplayWellFormed(cfg, ld, Step(cfg, ld, s, events[0]), events[1..]);
    }
  }

  /** Watched paths are never added or removed by events. */
  lemma {:induction false} ReplayKeepsWatchedPaths(cfg: Config, ld: Loaders, s: State, events: seq<FileEvent>)
    ensures Replay(cfg, ld, s, events).files.Keys == s.files.Keys
    decreases |events|
  {
    if |events| > 0 {
      ReplayKeepsWatchedPaths(cfg, ld, Step(cfg, ld, s, events[0]), events[1..]);
    }
  }

  /** Event `e` is one that installs token provider `p`: a write or create on the token file
      whose contents load to `p`. */
  ghost predicate InstallsTokens(cfg: Config, ld: Loaders, e: FileEvent, p: Option<Authenticator>) {
    && TriggersReload(e.op) && e.path == cfg.tokenFile && e.content.Some?
    && ld.parseTokens(e.content.value) == p
  }

  /** Event `e` is one that installs authorization provider `p`. When both paths are the same
      the token loader runs, so no event installs an authorization provider. */
  ghost predicate InstallsAuthz(cfg: Config, ld: Loaders, e: FileEvent, p: Option<Authorizer>) {
    && TriggersReload(e.op) && e.path == cfg.authFile && e.path != cfg.tokenFile && e.content.Some?
    && ld.parseAuthz(e.content.value) == p
  }

  /** Last good wins for the token provider: the provider in force is the initial one or was
      loaded from the contents of some event on the token file. A broken edit never installs
      anything. */
  lemma {:induction false} ReplayTokensProvenance(cfg: Config, ld: Loaders, s: State, events: seq<FileEvent>)
    ensures var t := Replay(cfg, ld, s, events);
            t.tokens == s.tokens || exists i :: 0 <= i < |events| && InstallsTokens(cfg, ld, events[i], t.tokens)
    decreases |events|
  {
    if |events| > 0 {
      var s1 := Step(cfg, ld, s, events[0]);
      var t := Replay(cfg, ld, s, events);
      ReplayTokensProvenance(cfg, ld, s1, events[1..]);
      if t.tokens != s1.tokens {
        var j :| 0 <= j < |events[1..]| && InstallsTokens(cfg, ld, events[1..][j], t.tokens);
        assert events[j + 1] == events[1..][j];
      } else if s1.tokens != s.tokens {
        assert InstallsTokens(cfg, ld, events[0], t.tokens);
      }
    }
  }

  /** Last good wins for the authorization provider. */
  lemma {:induction false} ReplayAuthzProvenance(cfg: Config, ld: Loaders, s: State, events: seq<FileEvent>)
    ensures var t := Replay(cfg, ld, s, events);
            t.authz == s.authz || exists i :: 0 <= i < |events| && InstallsAuthz(cfg, ld, events[i], t.authz)
    decreases |events|
  {
    if |events| > 0 {
      var s1 := Step(cfg, ld, s, events[0]);
      var t := Replay(cfg, ld, s, events);
      ReplayAuthzProvenance(cfg, ld, s1, events[1..]);
      if t.authz != s1.authz {
        var j :| 0 <= j < |events[1..]| && InstallsAuthz(cfg, ld, events[1..][j], t.authz);
        assert events[j + 1] == events[1..][j];
      } else if s1.authz != s.authz {
        assert InstallsAuthz(cfg, ld, events[0], t.authz);
      }
    }
  }

  /** Events on other files never touch the token provider or the token file's digest. */
  lemma {:induction false} ReplayTokenFileIsolated(cfg: Config, ld: Loaders, s: State, events: seq<FileEvent>)
    requires forall i :: 0 <= i < |events| ==> events[i].path != cfg.tokenFile
    ensures Replay(cfg, ld, s, events).tokens == s.tokens
    ensures cfg.tokenFile in s.files ==>
              cfg.tokenFile in Replay(cfg, ld, s, events).files
              && Replay(cfg, ld, s, events).files[cfg.tokenFile] == s.files[cfg.tokenFile]
    decreases |events|
  {
    if |events| > 0 {
      ReplayKeepsWatchedPaths(cfg, ld, Step(cfg, ld, s, events[0]), events[1..]);
      ReplayTokenFileIsolated(cfg, ld, Step(cfg, ld, s, events[0]), events[1..]);
    }
  }

  /** Events on other files never touch the authorization provider or the policy file's digest. */
  lemma {:induction false} ReplayAuthFileIsolated(cfg: Config, ld: Loaders, s: State, events: seq<FileEvent>)
    requires forall i :: 0 <= i < |events| ==> events[i].path != cfg.authFile
    ensures Replay(cfg, ld, s, events).authz == s.authz
    ensures cfg.authFile in s.files ==>
              cfg.authFile in Replay(cfg, ld, s, events).files
              && Replay(cfg, ld, s, events).files[cfg.authFile] == s.files[cfg.authFile]
    decreases |events|
  {
    if |events| > 0 {
      ReplayKeepsWatchedPaths(cfg, ld, Step(cfg, ld, s, events[0]), events[1..]);
      ReplayAuthFileIsolated(cfg, ld, Step(cfg, ld, s, events[0]), events[1..]);
    }
  }

  /** Startup leaves every digest at the zero sentinel, so the first write to a file after
      startup reloads it, even when its contents are the ones loaded at startup. */
  lemma FirstEventAfterStartupReloads(cfg: Config, ld: Loaders, watcherAvailable: bool,
                                       canWatch: string -> bool, tokenRead: Option<Content>,
                                       authRead: Option<Content>, c: Content)
    requires Startup(cfg, ld, watcherAvailable, canWatch, tokenRead, authRead).Success?
    requires cfg.tokenFile != "" && ld.digest(c) != ZeroDigest && ld.parseTokens(c).Some?
    ensures var s := Startup(cfg, ld, watcherAvailable, canWatch, tokenRead, authRead).value;
            Reload(cfg, ld, s, cfg.tokenFile, Some(c)).0.tokens == ld.parseTokens(c)
  {
  }

  /** The same for the policy file: the first write to a configured policy file (not also the
      token file) whose contents have a non-zero digest and load installs that policy. */
  lemma FirstPolicyEventAfterStartupReloads(cfg: Config, ld: Loaders, watcherAvailable: bool,
                                             canWatch: string -> bool, tokenRead: Option<Content>,
                                             authRead: Option<Content>, c: Content)
    requires Startup(cfg, ld, watcherAvailable, canWatch, tokenRead, authRead).Success?
    requires cfg.authFile != "" && cfg.authFile != cfg.tokenFile
    requires ld.digest(c) != ZeroDigest && ld.parseAuthz(c).Some?
    ensures var s := Startup(cfg, ld, watcherAvailable, canWatch, tokenRead, authRead).value;
            Reload(cfg, ld, s, cfg.authFile, Some(c)).0.authz == ld.parseAuthz(c)
  {
  }

  /** A token review after a successful reload of the token file consults the new table: a token
      that was unknown before now authenticates as the identity the new file gives it. */
  lemma HotReloadAuthenticates(cfg: Config, ld: Loaders, s: State, c: Content, review: TokenReview, user: Identity)
    requires WellFormed(cfg, s) && cfg.tokenFile != ""
    requires ld.digest(c) != s.files[cfg.tokenFile]
    requires ld.parseTokens(c).Some?
    requires !s.tokens.value.authenticateToken(review.spec.token).found
    requires s.tokens.value.authenticateToken(review.spec.token).err.None?
    requires ld.parseTokens(c).value.authenticateToken(review.spec.token) == TokenAnswer(user, true, None)
    ensures Handlers.AuthorizeHandler(s, Handlers.TokenKindParam, Handlers.Payload(Some(review), None)).body
            == Some(Handlers.TokenReviewBody(Authenticate.BlankTokenReview.(
                 status := TokenReviewStatus(false, EmptyUserInfo, Authenticate.TokenNotFound))))
    ensures var t := Reload(cfg, ld, s, cfg.tokenFile, Some(c)).0;
            Handlers.AuthorizeHandler(t, Handlers.TokenKindParam, Handlers.Payload(Some(review), None))
            == Handlers.HttpResponse(Handlers.StatusOK, Some(Handlers.TokenReviewBody(Authenticate.BlankTokenReview.(
                 status := TokenReviewStatus(true, UserInfo(user.name, user.uid, user.groups), "")))))
  {
  }
}
