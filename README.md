# kube-auth decision state and webhook dispatch, in Dafny

kube-auth is a webhook service for Kubernetes. It answers two questions for the API server:
"whose token is this?" (a `TokenReview` of `authentication.k8s.io/v1beta1`) and "may this
subject do this?" (a `SubjectAccessReview` of `authorization.k8s.io/v1beta1`). It keeps a token
provider (a CSV token table) and an authorization provider (an ABAC policy file) in memory. It
watches the two files and reloads a provider when its file's content digest changes.

This project models that core:

- `api.dfy` (module `Api`): the wire records, the authorizer's attributes record, and the two
  providers. A provider is an opaque decision function.
- `authenticate.dfy` (module `Authenticate`): `authentication`. It maps the provider's
  `(user, found, err)` answer onto a TokenReview response.
- `authorize.dfy` (module `Authorize`): `authorize`. It builds the attributes record, with an
  imperative method proved equal to a field-by-field reference definition. It then maps the
  provider's `(allowed, reason, err)` answer onto a SubjectAccessReview response.
- `server.dfy` (module `Server`): the service state and how it changes.
  - The class `Service` has the fields `tokens`, `authz` and `files`.
  - `CreateWatcher` is the registration loop.
  - `NewService` is the startup sequence.
  - `OnEvent` is the event filter and `ProcessFileEvent` the per-event reload.
  - Each method is proved against a pure function (`Registration`, `Startup`, `TriggersReload`,
    `Reload`) whose properties are proved as contracts and lemmas.
- `reloading.dfy` (module `Reloading`): properties over sequences of events.
  - Reload is idempotent, and the state invariant is preserved.
  - "Last good wins": the provider in force is the initial one or one loaded from an event on
    its own file. Events on one file never touch the other file's provider or digest.
  - A token review after a reload uses the new table.
- `handlers.dfy` (module `Handlers`): `authorizeHandler` (status 404, 400, 500 or 200) and
  `healthHandler`.

Foreign functions are fields of `Server.Loaders`: the md5 digest and the two file loaders. File
contents are parameters: `None` stands for a failed read. Whether the watcher can be created,
and whether it accepts a directory, are also parameters. The read/write lock is not modelled.
Each reload is one sequential step. Its contract (`Server.Reload`) says that either nothing
changes, or exactly one provider and that one file's digest change together.

Points where the code does something other than one might expect, and the model follows the code:

- **Directory duplicate check.** `createWatcher` looks up the file path in `watching` but
  stores the directory. So two files in one directory each hand that directory to the watcher
  (`Server.SharedDirectoryWatchedTwice`). The check fires only when the policy path equals the
  token file's directory (`Server.RegistrationWatchCalls`).
- **Startup digests.** Startup never records the digest of what it loaded. The digests stay at
  the zero sentinel, so the first write after startup re-parses the file whenever its
  content's digest differs from that sentinel (`Reloading.FirstEventAfterStartupReloads`,
  `Reloading.FirstPolicyEventAfterStartupReloads`).
- **Same path twice.** When the token path and the policy path are equal, the token loader
  wins, because its `switch` case comes first.
- **One provider at a time.** One might expect a reload to replace the whole state at once.
  The code replaces one provider and one digest under the lock, and the model does the same.

## Model

| member | source | states |
|---|---|---|
| `Authenticate.Authentication` | authenticate.go:26-56 | The provider is asked about exactly `Spec.Token`. The response always has Kind `TokenReview`, APIVersion `authentication.k8s.io/v1beta1` and an empty spec. A provider error is returned with a blank status. Not found gives authenticated=false, error "token not found" and an empty user. Found gives authenticated=true, the provider's UID/name/groups and an empty error. |
| `Authenticate.IdentityRoundTrip` | authenticate.go:41-53 | Reading the identity back from the response status gives exactly the provider's identity when found, and nothing when not found. |
| `Authenticate.OnlyTheTokenMatters` | authenticate.go:37 | Two reviews with the same token get the same reply: nothing else in the request reaches the provider. |
| `Authenticate.UnknownTokenResponse` | authenticate_test.go:32-41 | An unknown token yields exactly the expected `failedAuthRequest` record, with no error. |
| `Authorize.BuildAttributes` | authorize.go:43-63 | The assignment-by-assignment build, where the non-resource verb overwrites the resource verb, equals the field-by-field reference record `Attributes`. |
| `Authorize.Attributes` | authorize.go:43-63 | The record handed to the provider: the subject's name and groups are exactly `Spec.User` and `Spec.Groups`, with no UID. `ResourceRequest` is true iff resource attributes are present. With resource attributes, namespace, group, version, resource, subresource and name are copied verbatim, and so is the verb unless non-resource attributes are also present. With non-resource attributes, path and verb come from them, even when resource attributes are present too. Fields with no source stay empty. |
| `Authorize.Authorize` | authorize.go:32-81 | The provider is asked about `Attributes(Spec)`. Kind/APIVersion are always `SubjectAccessReview`/`authorization.k8s.io/v1beta1` and the spec is empty. A provider error is returned with the status unset. A denial gives allowed=false with the provider's reason verbatim. An allow gives allowed=true with an empty reason, whatever reason the provider gave. |
| `Authorize.OnlyTheAttributesMatter` | authorize.go:65 | Reviews whose specs give the same attributes record get the same reply. |
| `Authorize.DeniedReviewResponse` | authorize_test.go:33-42 | A provider denying with "No policy matched." yields exactly the expected `failedAuthzRequest` record. |
| `Server.TriggersReload` | server.go:133 | An event is processed iff its op has the Create or Write bit set. |
| `Server.OnlyWriteOrCreateReloads` | server.go:133 | Ops made only of Remove, Rename and Chmod bits are ignored. Any op with Write or Create is processed. |
| `Server.Reload` | server.go:150-192 | An unwatched path changes nothing and returns no error. An unreadable file returns an error and changes nothing. An unchanged digest changes nothing. Every error leaves the state unchanged. The watched paths never change. The state changes iff the path is watched, readable, has a new digest, and its loader succeeds (the token loader when the path is the token file, otherwise the policy loader when it is the policy file). A loader failure on such a path is reported as a parse error, and only then. Any change replaces exactly that provider and that path's digest, with the new digest stored. The invariant of a running service is preserved. |
| `Server.Dir` | server.go:114 | The directory of a path is ".", "/", or a proper prefix of the path that ends just before a slash. A path without a slash has directory ".". The root, and an entry directly under it, have directory "/". |
| `Server.DirOfEntry` | server.go:114 | The directory of `d + "/" + f` is `d` when `f` has no slash. |
| `Server.RegisterStep` | server.go:108-122 | One loop turn: an empty path changes nothing. A non-empty path gets the zero digest. If the path itself is already a key of `watching`, nothing else changes. Otherwise its directory is added to `watching` and handed to the watcher, and the turn fails iff the watcher refuses that directory. |
| `Server.Register` | server.go:107-123 | The loop stops at the first refusal: a failed state is final. Directories are only appended, at most one per path, and digest entries are never removed. |
| `Server.Registration` | server.go:107-123 | Registering the two configured paths hands the watcher the token file's directory, when a token file is set. If the watcher accepts it, it then hands over the policy file's directory, when a policy file is set and is not itself the token file's directory. Registration fails iff the watcher refuses the last directory handed to it, and every earlier directory was accepted. A registration that completes adds exactly the non-empty configured paths to the digest map. |
| `Server.RegisterFiles` | server.go:107-113 | A registration loop that completes gives every non-empty path a zero-digest entry, skips empty paths and keeps existing entries. |
| `Server.RegistrationFiles` | server.go:108-113 | After the two configured paths are registered, the keys of `files` are exactly the non-empty configured paths, each with the zero digest. |
| `Server.RegistrationWatchCalls` | server.go:114-122 | Both paths hand their directory to the watcher, even when the directories coincide. The only exception is a policy path equal to the token file's directory: the path lookup then finds it and no second directory is added. |
| `Server.SharedDirectoryWatchedTwice` | server.go:114-120 | Two files in one directory make the watcher receive that directory twice. |
| `Server.RegisterFailedAdded` | server.go:118-122 | A failed registration always follows a directory being handed to the watcher. |
| `Server.Startup` | server.go:49-96 | Startup fails on the first of: no watcher, a directory the watcher refuses, a token file that does not load, and a configured policy file that does not load. It succeeds iff none of these happens, so an unconfigured policy file never makes it fail. A policy file is loaded only when one is configured. On success it yields a well-formed state holding the loaded providers, with every digest zero. |
| `Server.Service.constructor` | server.go:64-67 | A new service has no providers and an empty digest map. |
| `Server.Service.CreateWatcher` | server.go:99-123 | Without a watcher it fails with the watcher error and changes nothing. Otherwise the loop leaves `files` and the directories handed to the watcher as `Registration` computes them. It fails iff the watcher refuses a directory, and reports that directory. The providers are left unchanged. |
| `Server.Service.NewService` | server.go:49-96 | It succeeds iff `Startup` does and reports the same error. On success the new service's state is `Startup`'s state, which is valid. |
| `Server.Service.ProcessFileEvent` | server.go:150-192 | The new state and the returned error are those of `Reload` applied to the old state. Validity is preserved. |
| `Server.Service.OnEvent` | server.go:127-141 | An event without the Write or Create bit changes nothing and returns no error. Any other event is handled by `Reload`. |
| `Handlers.AuthorizeHandler` | handlers.go:32-92 | An unknown kind gives 404. A recognised kind whose body does not decode gives 400. A decoded token review runs `Authentication`, and a decoded policy review runs `Authorize`, against the current providers. A handler error gives 500. Any other outcome gives 200 with the response record. A body is present iff the status is 200. |
| `Handlers.UnknownKindConsultsNothing` | handlers.go:36-44 | For an unknown kind the response depends on neither the body nor the state. |
| `Handlers.BadRequestConsultsNoProvider` | handlers.go:47-56 | For a body that does not decode, the response does not depend on the state. |
| `Handlers.TokenRouteIgnoresAuthz` | handlers.go:67-70 | A token request's response does not depend on the authorization provider. |
| `Handlers.PolicyRouteIgnoresTokens` | handlers.go:70-72 | A policy request's response does not depend on the token provider. |
| `Handlers.UnknownTokenIsOK` | handlers.go:91 | An unknown token is answered 200 with the "token not found" record. |
| `Handlers.DenialIsOK` | handlers.go:91 | A denied access review is answered 200 with allowed=false and the provider's reason. |
| `Handlers.HealthHandler` | handlers.go:97-99 | The health endpoint always answers 200 with body "OK\n". |
| `Reloading.Step` | server.go:127-141 | One event as the watcher loop handles it: an op without Write or Create, or an unwatched path, changes nothing. The watched paths never change. Only an event on the token file changes the token provider, and only an event on the policy file (not also the token file) changes the authorization provider. Digests of other paths are untouched. |
| `Reloading.Replay` | server.go:127-141 | A sequence of events none of which has Write or Create, or none of which names a watched path, leaves the state unchanged. |
| `Reloading.ReloadIdempotent` | server.go:161-164 | Handling the same event again with the same content leaves the state and the outcome as the first handling left them. |
| `Reloading.ReloadRecordsDigest` | server.go:172-184 | After a reload that changed the state, the stored digest is the new content's digest, and an immediate second event with that content is a no-op. |
| `Reloading.ReplayWellFormed` | server.go:150-192 | Any sequence of events keeps the invariant: the watched paths are the configured ones, a token provider is installed, and an authorization provider is installed iff a policy file is configured. |
| `Reloading.ReplayKeepsWatchedPaths` | server.go:152-155 | No sequence of events adds or removes a watched path. |
| `Reloading.ReplayTokensProvenance` | server.go:167-175 | After any events, the token provider is the initial one or was loaded from the content of some write/create event on the token file. |
| `Reloading.ReplayAuthzProvenance` | server.go:176-184 | After any events, the authorization provider is the initial one or was loaded from the content of some write/create event on the policy file. |
| `Reloading.ReplayTokenFileIsolated` | server.go:172-175 | Events on other paths never change the token provider or the token file's digest. |
| `Reloading.ReplayAuthFileIsolated` | server.go:181-184 | Events on other paths never change the authorization provider or the policy file's digest. |
| `Reloading.FirstEventAfterStartupReloads` | server.go:112 | Because startup leaves the digests at zero, the first write to the token file after startup, with loadable content whose digest is not the zero sentinel, installs that content's token provider. |
| `Reloading.FirstPolicyEventAfterStartupReloads` | server.go:112 | The same for a configured policy file distinct from the token file: the first loadable write whose digest is not the zero sentinel installs that content's authorization provider. |
| `Reloading.HotReloadAuthenticates` | authenticate_test.go:106-147 | A token that the old table does not know, with no error, gets the "token not found" record. After a successful token-file reload the same review is answered 200 with the identity the new file gives it. |

## Left out

- main.go: flag parsing, signal handling and process exit are bootstrap.
- `run`: TLS configuration, CA loading, the listener and the HTTP server are networking.
- `createEndpoints`, the gin router and its middleware, and all logging: these are framework
  and side effects. The handlers are modelled as functions from request to response.
- JSON decoding (`BindJSON`): a request body is given as what it decodes to for each review
  record (`Handlers.Payload`).
- `computeSum` (md5 over `ioutil.ReadFile`): the digest is an abstract function of the content,
  and reads are parameters. The md5 value asserted in server_test.go is not modelled.
- `processFileEvent` reads the file twice, once for the digest and once in the loader. The model
  gives both reads the same content, so a file changing between them is not captured.
- The watcher goroutine, the event channel and the `panic` when the channel closes: these are
  concurrency and OS events. Only the per-event decision (`Server.Service.OnEvent`) is modelled.
- `sync.RWMutex`: the sequential model's one-step update stands in for the lock, so
  interleavings of readers with a reload are not modelled.
- `tokenfile.NewCSV`, `abac.NewFromFile`, CSV lookup and ABAC rule matching: these are
  Kubernetes library code. The providers are opaque functions and the loaders are abstract.
- `options.isValid`: its source is not part of this model. Startup does not check the options.
- `versionHandler`: the `version` constant it prints is not part of this model.
- The `Extra` maps of the user and review records, and the object metadata of the review
  records, are not modelled: the service never sets or reads them.
- Server.Dir: does not apply `path.Clean`'s normalisation of repeated slashes and `.`/`..`
  elements, so it agrees with `path.Dir` only on clean paths.
- Handlers.AuthorizeHandler: requires an authorization provider for a decoded policy review. In
  the source a nil provider is dereferenced there, and the framework's panic recovery turns that
  into a 500. The model states this case as a precondition instead. A decoded token review
  likewise requires a token provider, which a successfully started service always has.
