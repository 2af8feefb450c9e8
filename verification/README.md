# Verified model of the session, mod, cache, editor, audio and configuration logic

This project models seven parts of Dark Magic that keep state over many calls, and proves what they promise over every
input, every run and every interleaving. Each imperative part is written twice: once as a class or method that changes its fields step by
step, as the Go code does, and once as functions on plain values; every method is proved to do what its function says,
and the properties are proved of the functions and of whole runs of them.

| part | modules |
|---|---|
| game-server membership and reconnect | `Membership` (one function per critical section), `Endpoints` (the endpoint), `Protocol`, `ProtocolInvariants`, `ProtocolLedger`, `ProtocolRuns` (the step system and its runs), `RateLimits`, `ClientRecovery` (the client half), `ProtocolReplays` (what replayed answers are worth), `ProtocolAnswers` and `Admissions` (what callers are told) |
| mod dependencies and component start order | `Graphs` (one theory of depth-first orders), `Manifests`, `ModLocks`, `Resolvers`, `Hosts` |
| weighted, generation-aware LRU cache | `Lru` (the plain sequence), `LruRuns`, `LruAnswers`, `Caches` (linked nodes, table and weight) |
| map editor | `Strokes`, `EditRuns`, `MapEditor` |
| audio mixer | `Sounds`, `MixerRuns`, `MixerHistory`, `MixerStreams`, `MixerAnswers`, `AudioMixer` |
| client corrections and interpolation | `Corrections`, `ClientSessions`, `Snapshots`, `PresentationBuffers` |
| environment files | `EnvFiles`, `EnvUpdates`, `EnvRoundTrip`, `EnvText`, `EnvReading` |

How the system is represented:

- **Membership protocol.** Every locked section of `Join`, `Reconnect`, `Disconnect`, `Leave`, the timers and the traffic
  calls is one atomic step; any number of callers interleave. A lineage is named by the credential its `Join` handed out
  and keeps that name through rotations. A membership fetched by `Reconnect` stays available to its rotation forever, so
  slow callers may rotate arbitrarily late. Timers may fire at any moment after they are armed. Minted credentials have
  never been used before, and callers present only credentials that some call has returned. Time and tokens are reals.
  A refused request leaves even the bucket's timestamp alone, because the debit works on a copy that is stored only on
  success.
- **Mods and host.** Archive contents, the lock hash and the Unicode tables are parameters; a descriptor verifies when its
  archive is present and its manifest is valid and agrees with it. Component start and stop outcomes and a cancelled
  context are given as sets of ids.
- **Cache.** Values that the Go code hands to an eviction handler are returned by the call that releases them.
- **Map editor.** A tile record is a type parameter, a cell is named by layer kind, layer and point, and what a brush
  leaves on a layer is a function of the kind and the brush. A mutation keeps one before and one after record, the ones
  of its stroke's kind.
- **Mixer.** Gains and pans are reals, durations whole nanoseconds; generations wrap at 32 bits. Everything ever queued
  and everything the backend has accepted are recorded beside the state. The backend's answers are a function from the
  number of the command to success.
- **Corrections.** A snapshot's payload either decodes to a view or does not. Everything only a reliable correction may
  change is one opaque field. The 64-bit identity hash is an arbitrary function, so collisions are covered.
- **Environment files.** Character classes and the quoted-string syntax are parameters, of which only this is assumed:
  the classes do not overlap each other or the file's own marks, and a quoted string stays on its line and reads back as
  it was.

Where the code does not do what its comments or callers might suggest, the model follows the code and says exactly when
it differs:

- A reconnect that lost the race for its rotation is answered from the replay table without a check that the answer still
  names a membership. It does exactly when the credential in the answer has not been rotated on and its lineage has not
  departed (`ProtocolReplays.ReplayedAnswerIsLive`); a run in which it does not is `ProtocolReplays.StaleAnswerIsReachable`.
- Two namespaces share composite cache keys exactly when one of them, followed by a NUL, begins the other
  (`Lru.NamespacesCollide`, and `Lru.StorageKeysAgree` for two given requests); without NUL in them they never do.
- A PCM stream inherits the group and the unfinished fade its slot was left with (`MixerHistory.StreamInheritsFade`).
- Frames are counted not only for streams: a live handle counts them exactly when its slot has ever held a stream, so that
  the promise is broken exactly for another sound played in such a slot (`MixerStreams.FramesCounted`; a run that leads
  there is `MixerStreams.StreamThenSoundCountsFrames`).
- A transform frame and a correction do not always lead to the same client in both orders.
  `Corrections.OrderOfFrameAndCorrection` says exactly when they do, for the whole client and up to its revision, and
  `Corrections.OrderMatters` gives messages for which they do not.
- Updating an environment file takes effect exactly when no later line binds the key to something else; the updater does
  not recognise lines with an export mark and rewrites only the first of several assignments
  (`EnvText.UpdateDocumentOverlays`, `EnvText.SecondAssignmentWins`).

## Model

| member | source | states |
|---|---|---|
| `ProtocolRuns.RunKeepsInv` | internal/app/gameserver/membership.go:10-219 | every interleaving of joins, multi-phase reconnects, disconnects, leaves, timers and traffic keeps the whole invariant: one credential per lineage, one rotation per credential, replay table and answers agreeing with rotations, leases, watches, budgets, ledger and notices |
| `ProtocolRuns.OneMembershipPerLineage` | internal/app/gameserver/membership.go:134-165 | two live credentials of one lineage are the same credential, and its member is the principal who joined |
| `ProtocolRuns.RotatedAtMostOnce` | internal/app/gameserver/membership.go:134-165 | no credential is rotated at two different steps of any run |
| `ProtocolRuns.GoneForGood` | internal/app/gameserver/membership.go:134-165 | a credential that stops naming a membership never names one again |
| `ProtocolRuns.AnswersAgree` | internal/app/gameserver/membership.go:87-198 | all successful reconnects with one old credential, however they raced, got the same response under the same nonce |
| `ProtocolRuns.SuspensionHistory` | internal/app/gameserver/membership.go:15-35 | a disconnected membership has been disconnected, under one generation, at every step since the Disconnect on record for it |
| `ProtocolRuns.ExpiredLeaseWasUnbroken` | internal/app/gameserver/membership.go:15-58 | a membership removed by a timer had been disconnected without a break since the very Disconnect that armed the timer |
| `ProtocolRuns.EveryLeaseIsPending` | internal/app/gameserver/membership.go:15-58 | a disconnected membership has a timer of its current generation armed or about to be, and only connected memberships are watched |
| `ProtocolRuns.MembershipsAreConserved` | internal/app/gameserver/endpoint.go:47-123 | registered joins equal rolled-back joins plus live memberships plus departures |
| `ProtocolRuns.NotifiedAtMostOnce` | internal/app/gameserver/membership.go:39-84 | no lineage is sent two leave notifications |
| `ProtocolRuns.EveryDepartureIsNotified` | internal/app/gameserver/membership.go:39-84 | every departed lineage has its notification sent or owed |
| `ProtocolRuns.NotifiedHasDeparted` | internal/app/gameserver/membership.go:39-84 | only a departed lineage is notified, and it lives under no credential |
| `RateLimits.RateIsBounded` | internal/app/gameserver/traffic.go:101-145 | between any two points of any run a lineage is admitted at most 64 + 32 per second commands and 4 + 2 per second refreshes, whatever reconnects and rotations happen between |
| `RateLimits.PaidSince` | internal/app/gameserver/traffic.go:130-145 | tokens left plus requests admitted never exceed the tokens there were plus the refill over the advance of the bucket's clock |
| `RateLimits.ClockIsRunningMaximum` | internal/app/gameserver/traffic.go:130-145 | the bucket's clock is the running maximum of the times of admitted requests, so a clock stepping back earns nothing |
| `Admissions.RefusedExactlyWhenExceeding` | internal/app/gameserver/traffic.go:101-145 | over every run, a connected member's request at a time is refused for its rate exactly when, for some earlier admitted request of its lineage and kind, those admitted from it on and this one are more than 64 + 32 per second (commands) or 4 + 2 per second (refreshes) of the running-maximum time between them, and is admitted otherwise |
| `Admissions.BurstIsAdmitted` | internal/app/gameserver/traffic.go:125-145 | a member admitted fewer than 64 commands, or 4 refreshes, is admitted at any time, all at one instant included |
| `Admissions.WaitingIsAdmitted` | internal/app/gameserver/traffic.go:130-145 | one request's worth of time after its last admission a connected member is admitted again |
| `ProtocolAnswers.AnswersAreForThisRuntime` | internal/app/gameserver/membership.go:87-198 | over every interleaving, raced rotations and replays included, only requests with the hosted runtime's identity are answered |
| `ProtocolAnswers.ReconnectAnswers` | internal/app/gameserver/membership.go:87-131 | an uninterrupted reconnect under a live, unrotated credential succeeds exactly when the nonce has 32 to 128 characters, the request's identity is the host's, and the token is the session's, the runtime's and names a character; otherwise it changes nothing and the first fault is reported |
| `ProtocolAnswers.ReconnectRefuses` | internal/app/gameserver/membership.go:87-131 | what it answers without a membership, a fresh credential or a snapshot |
| `ProtocolAnswers.ReplayIsForThisRuntime` | internal/app/gameserver/membership.go:180-198 | the replay table answers exactly a request of the same nonce and the hosted runtime for a live membership with its own token |
| `ProtocolAnswers.JoinAnswers` | internal/app/gameserver/endpoint.go:47-115 | which join succeeds, which fault is reported first, and that the joined member is connected with 64 commands and 4 refreshes to spend while nobody else changes |
| `ProtocolAnswers.DisconnectedIsSilenced` | internal/app/gameserver/membership.go:15-35 | after a disconnect every request but a reconnect is refused until the member comes back |
| `ProtocolAnswers.AbandonedMembershipExpires` | internal/app/gameserver/membership.go:15-58 | from every reachable state, a member who disconnects and stays away is gone when its timer has fired, and its leaving is owed a notification |
| `ProtocolAnswers.ReplayWindowEnds` | internal/app/gameserver/membership.go:168-177 | over every run, once the replay timer of an old credential has fired, no whole or raced reconnect with it is answered again |
| `ProtocolAnswers.WatchHistory` | internal/app/gameserver/traffic.go:74-98 | over every run a credential is watched exactly if an accepted call opened a watch that was not closed since and its membership has stayed connected under it |
| `ProtocolAnswers.WatchIsGivenOnce` | internal/app/gameserver/traffic.go:74-90 | a connected member gets a watch exactly when it has none; a second one is refused |
| `ClientRecovery.StoredCredentialRecovers` | internal/app/clientsession/recovery.go:82-231 | with messages lost, delayed or duplicated, the stored credential names the live membership of the client's own lineage or hits a replay entry of the stored nonce whose response names it, until the membership departs or the replay window ends |
| `ClientRecovery.RetryRecovers` | internal/app/clientsession/recovery.go:125-231 | from every such state there is a continuation, one uninterrupted retry, after which the client holds a live, connected credential |
| `ClientRecovery.CommitsFollowRotations` | internal/app/clientsession/recovery.go:190-231 | the credentials a client has held are consecutive rotations of the server starting at its join |
| `ClientRecovery.SuccessorIsUnrotated` | internal/app/clientsession/recovery.go:190-231 | the credential a client has not yet committed to cannot have been rotated further |
| `Membership.ReconnectIsIdempotent` | internal/app/gameserver/membership.go:87-198 | repeating a successful reconnect gives the same response and exactly the same state |
| `ProtocolReplays.ReplayedAnswerIsLive` | internal/app/gameserver/membership.go:134-165 | over every run, the replayed answer to the loser of a rotation race names a live membership exactly when its credential has not been rotated on and its lineage has not departed; otherwise the same request made afresh is refused and changes nothing |
| `ProtocolReplays.StaleAnswerIsReachable` | internal/app/gameserver/membership.go:87-165 | a run of one waiting and two rotating callers at whose end the waiting one is answered with a credential that names nothing |
| `ProtocolReplays.ReconnectIsRun` | internal/app/gameserver/membership.go:87-131 | the uninterrupted reconnect is a run of its phases in the step system, with the same tables, response and lineages |
| `ProtocolReplays.JoinIsRun` | internal/app/gameserver/endpoint.go:47-81 | the uninterrupted join is a run of its phases, with the same tables, and returns its credential exactly when it succeeds |
| `ProtocolReplays.RunIsAccounted` | internal/app/gameserver/membership.go:10-198 | over every run a returned credential names a live membership, or was rotated, or its lineage has departed |
| `Membership.LateReplayIsStale` | internal/app/gameserver/membership.go:144-149 | from every state, a call that fetched the membership before two rotations is answered with a dead credential, while a fresh call is refused |
| `Membership.FailedJoinLeavesNoTrace` | internal/app/gameserver/endpoint.go:47-123 | a join that nothing interrupts and that fails at any point leaves the endpoint exactly as it was |
| `ProtocolRuns.RolledBackJoinLeavesNoTrace` | internal/app/gameserver/endpoint.go:67-75 | whatever other calls do between registering and rolling back, a rolled-back join leaves no credential returned, live, watched or in the replay table, and no departure owed or notified |
| `Endpoints.Endpoint.Join` | internal/app/gameserver/endpoint.go:47-81 | the tables and the response are those of the uninterrupted join, with rollback on a failed projection, and the principal is announced exactly on success |
| `Endpoints.Endpoint.Reconnect` | internal/app/gameserver/membership.go:87-131 | the tables and the response are those of the uninterrupted reconnect on every branch; exactly a rotation announces its principal and schedules the end of its replay entry |
| `Endpoints.Endpoint.RotateReconnectCredential` | internal/app/gameserver/membership.go:134-165 | moves the membership with its current buckets, drops the old watch and records the replay, or answers the loser of a race |
| `Endpoints.Endpoint.ReplayedReconnect` | internal/app/gameserver/membership.go:180-198 | resumes only a nonce-matching, live and compatible membership, and marks it connected |
| `Endpoints.Endpoint.Disconnect` | internal/app/gameserver/membership.go:15-35 | suspends a connected member once, under the next generation, and drops its watch |
| `Endpoints.Endpoint.ExpireDisconnect` | internal/app/gameserver/membership.go:39-58 | removes exactly a membership still disconnected under the timer's generation |
| `Endpoints.Endpoint.LeaveCredential` | internal/app/gameserver/membership.go:61-84 | removes the membership and its watch and passes on what the notified receiver answers; an unknown credential is an error only when strict |
| `Endpoints.Endpoint.Consume` | internal/app/gameserver/traffic.go:101-122 | debits the right bucket of a connected member and stores it only when the request is admitted; when that is, is `Admissions.RefusedExactlyWhenExceeding` |
| `Endpoints.Endpoint.BeginWatch` | internal/app/gameserver/traffic.go:74-90 | one watch per connected credential |
| `Graphs.Finished` | internal/app/host/dependency_order.go:15-68 | a finished depth-first search has emitted exactly what its roots reach, dependency first and without a cycle |
| `Graphs.OrderHasNoCycle` | internal/app/host/dependency_order.go:15-68 | a dependency-first order leaves no room for a cycle |
| `Graphs.MeetAgain` | internal/app/host/dependency_order.go:24-33 | meeting a node still on the stack exhibits a real cycle reachable from the roots |
| `Hosts.StartPlan.Visit` | internal/app/host/dependency_order.go:20-57 | the three-state visit keeps the search sound and ends with the node emitted or a defect explained |
| `Hosts.Host.DependencyStartOrder` | internal/app/host/dependency_order.go:15-68 | an order exists exactly when no dependency is missing or cyclic, and is a dependency-first permutation of the registered ids |
| `Hosts.Host.Start` | internal/app/host/host.go:74-136 | succeeds exactly when the graph is complete and acyclic and nothing is cancelled or fails, and then has made exactly the start calls of a plan; a failed start has stopped what it started, last first and once each, names exactly what failed to stop, and leaves nothing running; at every moment a component runs only while its dependencies do |
| `Hosts.Host.StopStarted` | internal/app/host/host.go:139-150 | makes exactly one stop call per started component, last started first, reports the failures in that order, and leaves nothing running |
| `Hosts.Host.Register` | internal/app/host/host.go:43-69 | refuses late, unnamed, absent and duplicate definitions, in that order and unchanged, and adds the rest |
| `Hosts.OrderedGraphIsSound` | internal/app/host/dependency_order.go:15-68 | a graph with a full dependency-first order has no missing dependency and no cycle |
| `Resolvers.Resolve` | internal/modcache/resolve.go:92-128 | for a well-formed profile, base and catalog and a profile without the base, succeeds exactly when some lock of the catalog's packages with everything enabled would pass the independent validator, equivalently when everything reachable is installed, verified, an extension and version-satisfied, nothing is circular and no names overlap; the lock then holds exactly the reachable packages, each with the catalog's descriptor and its verified manifest, under its own digest; a rejected lock can only be a namespace overlap |
| `Resolvers.ProfileResolver.Visit` | internal/modcache/resolve.go:164-202 | the recursive visit, terminating on catalog ids not yet visited, keeps the search sound or reports a real defect |
| `Resolvers.ProfileResolver.VisitDependency` | internal/modcache/resolve.go:206-237 | a dependency is met at its exact version, as the base or by a visited package, or the owner is defective |
| `Resolvers.ProfileResolver.Load` | internal/modcache/resolve.go:141-159 | succeeds exactly when the id is in the catalog and its descriptor verifies, and caches that manifest |
| `Resolvers.EmittedOrderPassesLock` | internal/modcache/resolve.go:164-323 | whatever order the walk emits satisfies every duplicate, position, version and metadata rule of the lock validator |
| `Resolvers.DisjointNames` | internal/modcache/resolve.go:288-294 | the validator's namespace test on a resolved lock says exactly whether the reachable names and the base overlap |
| `Resolvers.CertifiedIsResolvable` | internal/modcache/resolve.go:164-323 | whenever the validator accepts some lock of catalog packages that has everything enabled, resolution finds one: nothing it needs is missing, circular, overlapping or of another version |
| `Resolvers.MetIsSound` | internal/modcache/resolve.go:206-237 | versions the validator accepts, no version asked for included, are versions resolution accepts |
| `Resolvers.Verify` | internal/modcache/store.go:287-354 | a descriptor verifies exactly when it is well formed, its archive is there with its size, and the manifest inside is valid and agrees with it |
| `ModLocks.ValidateLock` | internal/modcache/resolve.go:260-323 | accepts exactly the locks that satisfy the declarative rules |
| `ModLocks.ComponentsAreUnique` | internal/modcache/resolve.go:260-323 | in an accepted lock no two packages with different ids declare the same component |
| `ModLocks.AcceptedLockRules` | internal/modcache/resolve.go:260-294 | an accepted lock holds, under its own digest, valid extensions, each once, none named inside another or inside the base, nor the base inside one |
| `ModLocks.LockedDependenciesAreThere` | internal/modcache/resolve.go:296-323 | in an accepted lock every dependency is the base or an earlier package, and a version asked for is the version there |
| `ModLocks.SharedComponentOverlaps` | internal/modcache/resolve.go:288-294 | two ids that prefix one component overlap by the dotted-prefix test |
| `Manifests.ValidateManifest` | internal/modcache/manifest.go:94-142 | accepts exactly the manifests with valid header, dependencies, components and roots |
| `Manifests.ManifestRules` | internal/modcache/manifest.go:94-142 | exactly which manifests are accepted, in terms of what they list and how often |
| `Manifests.IdRules` | internal/modcache/manifest.go:163-177 | exactly which identifiers are valid, character by character |
| `Manifests.ProfileAndPackageRules` | internal/modcache/profile.go:126-145 | exactly which profiles, and which locked packages, are accepted |
| `Manifests.CheckComponents` | internal/modcache/manifest.go:114-126 | components are distinct and carry the package's own prefix |
| `Manifests.CheckId` | internal/modcache/manifest.go:163-177 | accepts exactly the bounded lower-case dotted identifiers |
| `LruRuns.LargerCacheIncludesSmaller` | internal/cache/entries.go:26-134 | over one trace of retrieve-then-insert and remove, the smaller cache's recency list stays a prefix of the larger's and every hit in it is a hit in the larger |
| `LruAnswers.ValuesWerePut` | internal/cache/entries.go:26-134 | over every run, a lookup gives the value last inserted under its key, in the generation asked for, and a removal the value last inserted under its key |
| `LruAnswers.RetrieveOutcome` | internal/cache/entries.go:73-104 | a lookup finds exactly the resident of its key and generation, gives its value, moves it to the front and loses nothing; otherwise whatever was under the key is gone and the rest stays; hits, misses and evictions count accordingly |
| `LruAnswers.RemoveOutcome` | internal/cache/entries.go:114-134 | a removal gives the value of exactly the resident of its key and takes only that |
| `LruAnswers.InsertOutcome` | internal/cache/entries.go:26-62 | what fits the budget stays in front; what does not goes at once, and everything else with it |
| `LruAnswers.InvalidateOutcome` | internal/cache/eviction.go:7-25 | an invalidation takes exactly the entries of its namespace that are of another generation, and counts them |
| `LruAnswers.ResizeAndClearOutcome` | internal/cache/eviction.go:30-66 | a new budget holds from then on and takes only what no longer fits; clearing takes everything and leaves budget and counts |
| `LruAnswers.CountersCount` | internal/cache/cache.go:85-97 | over every run hits and misses are the lookups that found something and those that did not |
| `LruAnswers.ServeGivesCatalogValue` | internal/cache/entries.go:26-104 | serving from the cache gives what the catalog has for the key |
| `LruRuns.RunConserves` | internal/cache/eviction.go:7-79 | successful inserts always equal residents plus evictions |
| `LruRuns.OpKeepsOk` | internal/cache/entries.go:26-187 | every operation keeps keys distinct and the total weight within the budget |
| `LruRuns.CurrentKeepsFresh` | internal/cache/eviction.go:7-25 | invalidation leaves an entry exactly if it is of another namespace or of the current generation, as often as it was there |
| `Lru.Keep` | internal/cache/eviction.go:71-79 | over-budget eviction leaves the longest prefix that fits: no longer prefix does |
| `Lru.CanInsertPredictsEviction` | internal/cache/cache.go:58-72 | the admission test says exactly whether a valid unversioned insert of a new key evicts |
| `Lru.CanInsertResidents` | internal/cache/cache.go:58-72 | a resident key needs no room, and an invalid request gets none |
| `Lru.StorageKeysAgree` | internal/cache/entries.go:191-193 | exactly when two requests share an entry: they are the same, or one namespace followed by NUL begins the other and the key makes up the rest |
| `Lru.NamespacesCollide` | internal/cache/entries.go:191-193 | two namespaces have colliding valid keys exactly when one, followed by NUL, begins the other |
| `Lru.StorageKeyIsInjective` | internal/cache/entries.go:191-193 | without NUL in the namespaces, composite keys agree exactly when the requests do |
| `Lru.StorageKeyCollides` | internal/cache/entries.go:191-193 | two requests that share a key |
| `Caches.Cache.InsertVersioned` | internal/cache/entries.go:26-62 | on linked nodes, table and running weight, does exactly the sequence insert; errors change nothing; the released values come in eviction order |
| `Caches.Cache.RetrieveVersioned` | internal/cache/entries.go:73-104 | a hit is promoted, a stale generation is released and missed, as in the sequence |
| `Caches.Cache.RemoveVersioned` | internal/cache/entries.go:114-134 | removes exactly the entry under the key and returns its value |
| `Caches.Cache.AddToFront` | internal/cache/entries.go:138-150 | links a node in front, previous and next staying inverse |
| `Caches.Cache.Detach` | internal/cache/entries.go:165-177 | unlinks one node from anywhere in the chain |
| `Caches.Cache.MoveToFront` | internal/cache/entries.go:154-161 | promotes without changing residency |
| `Caches.Cache.RemoveNode` | internal/cache/entries.go:181-187 | chain, table and weight all lose exactly that node |
| `Caches.Cache.EvictOverBudget` | internal/cache/eviction.go:71-79 | removes tail entries until the rest is what the sequence keeps, releasing them in order |
| `Caches.Cache.InvalidateNamespace` | internal/cache/eviction.go:7-25 | visiting the table in any order leaves exactly the current entries; released and kept values together are the old ones |
| `Caches.Cache.SetBudget` | internal/cache/eviction.go:30-44 | refuses a negative budget unchanged, otherwise shrinks to it |
| `Caches.Cache.Clear` | internal/cache/eviction.go:49-66 | releases every value once and keeps budget and counters |
| `Caches.Cache.CanInsertWithoutEviction` | internal/cache/cache.go:58-72 | answers as the sequence test does |
| `Caches.Cache.Diagnostics` | internal/cache/cache.go:85-97 | table size and running weight are the sequence's length and weight |
| `Caches.LookupFinds` | internal/cache/entries.go:37-48 | the table has a key exactly when the sequence does, and its node stands where the entry does |
| `EditRuns.RunKeepsInv` | internal/mapeditor/document.go:292-434 | after any run the tiles are the opened ones with exactly history up to the cursor and the active stroke applied, and later entries are still forward differences |
| `EditRuns.UndoAllRestores` | internal/mapeditor/document.go:400-434 | undoing everything after any run restores the opened map and redoing as much restores the edited one |
| `EditRuns.UndoWalksBack` | internal/mapeditor/document.go:400-413 | undo passes back through exactly the states the history was made in |
| `EditRuns.RedoUndoes` | internal/mapeditor/document.go:400-434 | undo then redo, and redo then undo, change only the revision |
| `EditRuns.CancelLeavesNoTrace` | internal/mapeditor/document.go:312-392 | a cancelled stroke, whatever cells it visited however often, leaves tiles, history and cursor as they were |
| `EditRuns.StrokeIsOneStep` | internal/mapeditor/document.go:312-434 | a finished stroke gives what painting each visit in order gives, truncates the redo entries, and one undo and one redo toggle it |
| `EditRuns.HistoryReportsChanges` | internal/mapeditor/document.go:355-443 | every cell an undo, a redo or a stroke changes is among its reported points |
| `EditRuns.SameRevisionSameTiles` | internal/mapeditor/document.go:312-434 | over any run, a revision that has not moved means that no tile has |
| `EditRuns.LegalPaintShows` | internal/mapeditor/document.go:292-369 | on a whole map, a legal stroke of one visit leaves exactly what its brush draws in exactly that cell, and adds exactly one entry if that is a change |
| `EditRuns.StrokeIsAccepted` | internal/mapeditor/document.go:292-309 | which strokes may begin, and which fault comes first, in terms of layer counts and six-bit identities |
| `EditRuns.PaintIsAccepted` | internal/mapeditor/document.go:312-327 | which paints are carried out, in terms of the grid |
| `Strokes.AppliedAt` | internal/mapeditor/document.go:523-545 | applying an entry sets exactly its own cells to its results |
| `Strokes.RevertedApplied` | internal/mapeditor/document.go:523-545 | putting the originals back, last first, undoes an entry |
| `Strokes.AppliedOverwrite` | internal/mapeditor/document.go:330-338 | a repeated visit keeps the first original and takes the newest result |
| `MapEditor.MapDocument.BeginStroke` | internal/mapeditor/document.go:292-309 | refuses a second stroke, a missing layer and an identity beyond six bits, in that order |
| `MapEditor.MapDocument.PaintAt` | internal/mapeditor/document.go:312-344 | paints and coalesces as specified, reports whether a tile changed, and refuses outside a stroke or the grid |
| `MapEditor.MapDocument.EndStrokePoints` | internal/mapeditor/document.go:355-369 | commits a stroke that changed something and reports its distinct points |
| `MapEditor.MapDocument.CancelStroke` | internal/mapeditor/document.go:372-392 | reverts the active stroke in reverse order |
| `MapEditor.MapDocument.UndoPoints` | internal/mapeditor/document.go:400-413 | reverts one entry and reports its points, empty exactly when nothing can be undone |
| `MapEditor.MapDocument.RedoPoints` | internal/mapeditor/document.go:421-434 | reapplies one entry and reports its points, empty exactly when nothing can be redone |
| `MapEditor.TilesAreFilled` | internal/mapeditor/document.go:447-545 | editing never adds or loses a cell |
| `MixerRuns.OpKeepsInv` | internal/audio/playback.go:33-228 | every call keeps active and free slots partitioned, the session grammar and generations of every slot, delivery, effective gains and ranges |
| `MixerRuns.Run` | internal/audio/audio.go:96-197 | every state a run of calls reaches satisfies the whole invariant |
| `MixerHistory.CommandsFollowTheirOpening` | internal/audio/pcm.go:9-57 | every write, volume, pan and stop queued belongs to a sound opened before under the same handle and not stopped since |
| `MixerHistory.OpeningsAreSeparated` | internal/audio/audio.go:151-183 | between two openings in one slot there is a stop |
| `MixerHistory.NothingIsLostOrRepeated` | internal/audio/audio.go:128-148 | across failed drains, applied commands followed by pending ones are always everything queued, and neither stream is ever rewritten |
| `MixerHistory.DrainDelivers` | internal/audio/audio.go:128-148 | a drain applies exactly the next commands the backend accepts, in the order queued, and keeps the rest; one never refused leaves nothing |
| `MixerHistory.StoppedHandleStaysDead` | internal/audio/audio.go:169-197 | a stopped handle is live again only after its slot has finished 2^32 - 1 sounds |
| `MixerHistory.LastStoppedIsNextUsed` | internal/audio/audio.go:151-183 | the slot freed last is used next under the next generation, and the old handle stays invalid |
| `MixerHistory.StopGroupIsExact` | internal/audio/playback.go:134-152 | stopping a group ends exactly its live sounds and queues a stop for each |
| `MixerHistory.AdvanceIsAdditive` | internal/audio/playback.go:97-131 | fades depend only on the total time that has passed, not on how it was divided between calls |
| `MixerAnswers.FadeGoesWhereTold` | internal/audio/playback.go:73-131 | asking for a fade tells the backend nothing; time then moves the sound evenly from the volume it had to the one asked for, in the time asked for, and the backend is told each volume times the bus's |
| `MixerAnswers.BackendGains` | internal/audio/playback.go:33-228 | over every run the gain last told for a sound is its own volume times what its bus was last set to, or its own volume if the bus never was |
| `MixerAnswers.PlayIsAccepted` | internal/audio/playback.go:231-268 | which sounds are played at all |
| `MixerAnswers.PlayTellsBackend` | internal/audio/playback.go:33-70 | the backend is told to play exactly the format, data, pan, looping, streaming and gain asked for, under a handle live from then on |
| `MixerAnswers.OpenTellsBackend` | internal/audio/pcm.go:9-35 | the backend is told to open exactly the stream asked for, with its frames counted from zero |
| `MixerAnswers.CallsTellBackend` | internal/audio/playback.go:155-194 | writes, volumes, pans and stops on a live handle are told exactly, and nothing on any other |
| `MixerHistory.StreamInheritsFade` | internal/audio/audio.go:151-165 | a stream in whichever slot is reserved keeps the group and fade that slot was left with, nothing in a new slot, and time then turns it to the old target |
| `Sounds.GenerationAdvances` | internal/audio/audio.go:175-179 | the increment that skips zero takes 1 + k mod (2^32 - 1) to 1 + (k + 1) mod (2^32 - 1), so the k-th session of a slot carries exactly that generation, never zero |
| `Sounds.OccupyKeepsCore` | internal/audio/audio.go:151-165 | reserving a slot and queueing its opening keeps partition, sessions and delivery |
| `Sounds.RetireKeepsCore` | internal/audio/audio.go:169-183 | retiring a slot keeps partition, sessions and delivery |
| `MixerRuns.BusKeepsInv` | internal/audio/playback.go:197-228 | a bus change tells every sound on the bus, so that each sound's last gain is again its own times its bus's |
| `MixerRuns.FadeStaysBetween` | internal/audio/playback.go:97-131 | advancing a fade moves the sound to a volume between the ends of the fade, reaches the end exactly when its time is over, and queues that volume times the bus's |
| `MixerRuns.AdvanceSlotKeepsInv` | internal/audio/playback.go:97-131 | advancing one slot keeps the whole invariant |
| `AudioMixer.Mixer.PlayWithOptions` | internal/audio/playback.go:33-70 | validates before reserving and returns the handle it queued |
| `AudioMixer.Mixer.OpenPCMStream` | internal/audio/pcm.go:9-35 | opens a stream on the cinematic bus in the reserved slot |
| `AudioMixer.Mixer.WritePCM` | internal/audio/pcm.go:38-57 | queues whole samples for a live handle only |
| `AudioMixer.Mixer.ReportPCMFrames` | internal/audio/pcm.go:60-80 | adds positive frame counts to a live handle's slot exactly when that slot has a sample rate, and refuses otherwise unchanged |
| `MixerStreams.RateMeansStreamed` | internal/audio/audio.go:151-165 | over every run a slot has a sample rate exactly when a stream was ever opened in it |
| `MixerStreams.FramesCounted` | internal/audio/pcm.go:60-80 | over every run, frames are counted exactly for a live handle whose slot ever held a stream, which is as promised exactly unless the slot held one and plays another sound now |
| `MixerStreams.PlayedSoundCountsFrames` | internal/audio/playback.go:33-70 | a sound played in a slot that once held a stream counts frames on top of the stream's |
| `MixerStreams.StreamThenSoundCountsFrames` | internal/audio/pcm.go:60-80 | opening a stream, stopping it and playing a sound leads there |
| `AudioMixer.Mixer.SetSoundVolume` | internal/audio/playback.go:155-176 | stores the sound's own volume and queues it times its bus's |
| `AudioMixer.Mixer.FadeSound` | internal/audio/playback.go:73-93 | an immediate change or a fade from the current volume |
| `AudioMixer.Mixer.AdvanceTime` | internal/audio/playback.go:97-131 | steps every active fade in slot order |
| `AudioMixer.Mixer.StopAll` | internal/audio/playback.go:134-152 | retires the group's sounds in slot order |
| `AudioMixer.Mixer.SetBusVolume` | internal/audio/playback.go:197-228 | queues the new gains in slot order |
| `AudioMixer.Mixer.DrainTo` | internal/audio/audio.go:128-148 | applies up to the first refusal and keeps the refused command and its successors; succeeds exactly when nothing is refused |
| `Corrections.PresentationMovesOn` | internal/app/clientsession/corrections.go:249-317 | over any interleaving of corrections and frames the presented tick never decreases and is never behind the reliable one, the presented things are those of the last reliable correction in order, the owner never changes, one reliable tick has one checksum, and an unmoved revision means nothing changed |
| `Corrections.RepeatIsIdempotent` | internal/app/clientsession/corrections.go:509-516 | repeating an accepted correction changes only the revision, whatever frames came before |
| `Corrections.FrameIsShown` | internal/app/clientsession/corrections.go:294-407 | a newer frame is shown: its tick, its owner's motion, and its last word about every presented thing, modes without their padding; nothing else moves and lifecycle is untouched |
| `Corrections.CorrectionIsShown` | internal/app/clientsession/corrections.go:249-290 | exactly which corrections are accepted, and that one at least as new as what is presented is shown as it is |
| `Corrections.TrimNulIsExact` | internal/app/clientsession/corrections.go:375-379 | exactly the trailing NULs of a mode go |
| `Corrections.OrderOfFrameAndCorrection` | internal/app/clientsession/corrections.go:249-483 | a frame and an accepted correction give the same client in either order, up to its revision, exactly when the frame is not newer than both, or hashes collide before exactly if they do after and, if they do not, every entity and missile of the correction was known and is told, or was known and the correction is behind or moves it nowhere, or was not known and is not told or told what it is |
| `Corrections.EntityInEitherOrder` | internal/app/clientsession/corrections.go:368-468 | what each entity of the correction looks like after a newer frame in either order |
| `Corrections.MissileInEitherOrder` | internal/app/clientsession/corrections.go:368-483 | what each missile of the correction looks like after a newer frame in either order |
| `Corrections.OldFrameCommutes` | internal/app/clientsession/corrections.go:294-317 | a frame that is not newer than both leaves the same client in either order, up to its revision |
| `Corrections.OrderMatters` | internal/app/clientsession/corrections.go:430-468 | an entity the frame leaves out and the correction moves is shown in different places in the two orders |
| `Corrections.MergeTwice` | internal/app/clientsession/corrections.go:430-483 | merging the presented motion into the same reliable world twice is merging it once |
| `ClientSessions.Session.ApplyCorrection` | internal/app/clientsession/corrections.go:249-280 | refuses bad, stale and foreign corrections unchanged, in that order, and otherwise merges |
| `ClientSessions.Session.ApplyTransform` | internal/app/clientsession/corrections.go:294-317 | ignores obsolete frames, refuses colliding hashes unchanged, and otherwise moves known things only |
| `ClientSessions.Session.TransformIndexes` | internal/app/clientsession/corrections.go:337-365 | fails exactly when two presented things share a hash, otherwise indexes every one |
| `ClientSessions.Session.ApplyFrameTransforms` | internal/app/clientsession/corrections.go:368-391 | each known thing takes the frame's last word about it and nothing appears or goes |
| `ClientSessions.Session.MergeEntityTransforms` | internal/app/clientsession/corrections.go:453-468 | each reliable entity takes the motion of the presented one with its identity |
| `ClientSessions.Session.MergeMissileTransforms` | internal/app/clientsession/corrections.go:471-483 | each reliable missile takes the position of the presented one with its identity |
| `Snapshots.SamplesNeverGoBack` | internal/app/clientapp/presentation_buffer.go:46-136 | whatever packets arrive between two samples at moments in order, the later sample's discrete tick and revision are not smaller |
| `Snapshots.StoreKeepsInv` | internal/app/clientapp/presentation_buffer.go:46-92 | pushes and upserts keep at most 32 snapshots, strictly sorted by tick and by revision |
| `Snapshots.InterpolationStaysBetween` | internal/app/clientapp/presentation_buffer.go:150-168 | between two snapshots exactly the earlier one's entities are shown, each between its two positions |
| `Snapshots.ExactTickIsExact` | internal/app/clientapp/presentation_buffer.go:105-146 | at a snapshot's own tick that snapshot is shown unchanged |
| `Snapshots.ExtrapolationIsBounded` | internal/app/clientapp/presentation_buffer.go:172-198 | past the newest snapshot an entity continues in its direction by at most 2.5 ticks of its last displacement |
| `Snapshots.InterpolationIsLinear` | internal/app/clientapp/presentation_buffer.go:121-127 | an entity in both snapshots is as far between its positions as the render tick is between their ticks |
| `Snapshots.ExtrapolationIsLinear` | internal/app/clientapp/presentation_buffer.go:130-198 | past the newest snapshot the shown displacement is exactly the last one scaled by the ticks ahead, capped at 2.5 |
| `Snapshots.ByIdIsComplete` | internal/app/clientapp/presentation_buffer.go:95-102 | storing keeps the last entity of every identity and invents none |
| `Snapshots.StoredIsShown` | internal/app/clientapp/presentation_buffer.go:46-136 | a newer world, or an upserted one of the newest tick, is shown at its own tick with exactly its own entities; any other changes nothing |
| `Snapshots.OnlyOldestGoes` | internal/app/clientapp/presentation_buffer.go:82-92 | storing a newer world loses nothing until there are 32 snapshots, and then only the oldest |
| `Snapshots.HistoryIsKept` | internal/app/clientapp/presentation_buffer.go:46-92 | storing rewrites nothing that was stored for another tick |
| `Snapshots.OutsideIsExact` | internal/app/clientapp/presentation_buffer.go:115-131 | before the first snapshot the first is shown unchanged, and a single one at any moment |
| `PresentationBuffers.PresentationBuffer.PushWorld` | internal/app/clientapp/presentation_buffer.go:46-56 | appends exactly the strictly newer worlds |
| `PresentationBuffers.PresentationBuffer.UpsertWorld` | internal/app/clientapp/presentation_buffer.go:60-79 | replaces the newest tick under a new revision, appends newer, ignores older |
| `PresentationBuffers.PresentationBuffer.FirstAfter` | internal/app/clientapp/presentation_buffer.go:110-113 | halving finds the first snapshot after the render tick |
| `PresentationBuffers.PresentationBuffer.SampleAt` | internal/app/clientapp/presentation_buffer.go:105-136 | chooses and computes the sample as specified |
| `EnvText.UpdateDocumentOverlays` | internal/app/envconfig/update.go:63-84 | for every readable text, reading the updated text gives the old bindings overlaid by the updates exactly when every update is settled: no line after the one it takes binds the key to another value |
| `EnvText.SingleAssignmentsAreSettled` | internal/app/envconfig/update.go:63-97 | a key bound on at most one line is always settled |
| `EnvText.SecondAssignmentWins` | internal/app/envconfig/update.go:67-78 | a key assigned twice keeps its second value through an update |
| `EnvText.UpdateIsStable` | internal/app/envconfig/update.go:61-84 | a second update with the same values changes no line |
| `EnvText.SplitJoin` | internal/app/envconfig/update.go:66-83 | joined lines split back into themselves |
| `EnvText.JoinSplit` | internal/app/envconfig/update.go:66-83 | splitting a text loses nothing |
| `EnvText.UpdateDocument` | internal/app/envconfig/update.go:63-84 | the written text is the old lines in order, byte for byte except the first line for each update, then the remaining updates in key order |
| `EnvUpdates.UpdateLines` | internal/app/envconfig/update.go:63-84 | rewriting while consuming updates gives exactly those lines |
| `EnvUpdates.SortedKeys` | internal/app/envconfig/update.go:111-120 | all keys once, in ascending order |
| `EnvUpdates.AssignmentReadsBack` | internal/app/envconfig/update.go:76-76 | a written assignment is read back as the same key and value |
| `EnvRoundTrip.AssignmentAgrees` | internal/app/envconfig/update.go:88-97 | a readable line the updater takes for a valid key binds that key for the reader |
| `EnvRoundTrip.UpdateThenParse` | internal/app/envconfig/update.go:63-97 | the value of every key after an update, for every readable file |
| `EnvRoundTrip.UpdateOverlays` | internal/app/envconfig/update.go:63-97 | the same overlay condition on lists of lines |
| `EnvFiles.ParseIsLastValue` | internal/app/envconfig/parse.go:15-64 | a file is read exactly when each line is, and each key gets its last value |
| `EnvFiles.Parse` | internal/app/envconfig/parse.go:15-36 | the loop reports the first bad line or all bindings |
| `EnvReading.PlainReadsBack` | internal/app/envconfig/parse.go:40-133 | an unquoted value stands for itself, hashes included, as long as none follows a space |
| `EnvReading.CommentIsCutOff` | internal/app/envconfig/parse.go:127-133 | a comment after an unquoted value is no part of it |
| `EnvReading.SingleQuotedReadsBack` | internal/app/envconfig/parse.go:102-108 | between single quotes everything is literal |
| `EnvReading.UnclosedQuoteIsBad` | internal/app/envconfig/parse.go:102-108 | a single quote that is not closed is an error |
| `EnvReading.ExportMeansNothing` | internal/app/envconfig/parse.go:46-46 | an export mark in front of an assignment means nothing |
| `EnvReading.CommentsAreIgnored` | internal/app/envconfig/parse.go:41-44 | blank and comment lines are ignored however far they are indented |
| `EnvReading.BoundKeysAreLegal` | internal/app/envconfig/parse.go:68-81 | only portable names are ever bound |
| `EnvReading.FirstBadLine` | internal/app/envconfig/parse.go:19-28 | a file that is not read fails with the number and fault of its first bad line |
| `Endpoints.Endpoint.RegisterConnection` | internal/app/gameserver/endpoint.go:99-115 | adds a connected member with full buckets under the minted credential |
| `Endpoints.Endpoint.RemoveConnection` | internal/app/gameserver/endpoint.go:118-123 | takes back exactly that registration |
| `Endpoints.Endpoint.Membership` | internal/app/gameserver/membership.go:206-219 | finds a member, connected unless disconnected ones are allowed |
| `Endpoints.Endpoint.EndReplay` | internal/app/gameserver/membership.go:168-177 | the replay timer removes only the entry of its own nonce |
| `Endpoints.Endpoint.EndWatch` | internal/app/gameserver/traffic.go:93-98 | frees the watch of a credential |
| `Hosts.Host.Stop` | internal/app/host/host.go:105-113 | stops everything, last started first, and reports exactly what failed to stop |
| `Hosts.Host.StartedIds` | internal/app/host/host.go:116-124 | lists exactly what runs, each component once and after its dependencies |
| `Manifests.CheckDependencies` | internal/modcache/manifest.go:94-112 | dependency ids are valid, distinct and not the package itself |
| `Manifests.CheckRoots` | internal/modcache/manifest.go:128-139 | content roots are valid, undotted, unreserved and distinct |
| `Manifests.ValidateProfile` | internal/modcache/profile.go:126-145 | accepts exactly the profiles of the schema whose enabled ids are valid and distinct |
| `Manifests.ValidateLockedPackage` | internal/modcache/resolve.go:327-339 | accepts exactly the packages whose manifest is valid and agrees with the descriptor |
| `ModLocks.CheckPackages` | internal/modcache/resolve.go:260-286 | every package is a valid extension and no id occurs twice; the table gives each id its position |
| `ModLocks.CheckNamespaces` | internal/modcache/resolve.go:288-294 | the pairwise loop decides whether any two ids overlap |
| `ModLocks.CheckDependencies` | internal/modcache/resolve.go:296-323 | every dependency of a package is the base or an earlier package of its exact version |
| `Caches.Cache.Insert` | internal/cache/entries.go:19-21 | an unversioned insert is the versioned one in the empty namespace at generation zero, with the same errors and released values |
| `Caches.Cache.Retrieve` | internal/cache/entries.go:66-68 | an unversioned lookup is the versioned one in the empty namespace at generation zero, and returns the stale value it releases |
| `Caches.Cache.Remove` | internal/cache/entries.go:108-110 | an unversioned removal is the versioned one in the empty namespace |
| `MapEditor.MapDocument.RevertEntry` | internal/mapeditor/document.go:407-409 | the backward loop puts an entry's originals back |
| `AudioMixer.Mixer.ReserveSlot` | internal/audio/audio.go:151-165 | takes the most recently freed slot or a new one |
| `AudioMixer.Mixer.RetireSlot` | internal/audio/audio.go:169-183 | frees the slot under its next generation and queues a stop for the old handle |
| `AudioMixer.Mixer.ValidateSound` | internal/audio/audio.go:186-197 | accepts exactly the live handles |
| `AudioMixer.Mixer.StopOne` | internal/audio/audio.go:96-107 | retires a live sound and refuses any other handle unchanged |
| `AudioMixer.Mixer.Release` | internal/audio/audio.go:110-117 | retires a live sound and ignores any other handle |
| `AudioMixer.Mixer.IsActive` | internal/audio/audio.go:120-125 | says whether a handle is live |
| `AudioMixer.Mixer.SetSoundPan` | internal/audio/playback.go:179-194 | queues a pan in range for a live handle |
| `ClientSessions.Session.MergeReliablePresentation` | internal/app/clientsession/corrections.go:430-450 | keeps newer presented motion on the reliable structure, or takes the reliable view whole |
| `PresentationBuffers.PresentationBuffer.AppendWorld` | internal/app/clientapp/presentation_buffer.go:82-92 | appends and drops the oldest beyond the capacity |
| `PresentationBuffers.PresentationBuffer.Snapshot` | internal/app/clientapp/presentation_buffer.go:95-102 | the last entity of each identity under the current revision |
| `PresentationBuffers.PresentationBuffer.SampleBetween` | internal/app/clientapp/presentation_buffer.go:150-168 | visiting entities in any order blends each as specified |
| `PresentationBuffers.PresentationBuffer.ExtrapolateSnapshot` | internal/app/clientapp/presentation_buffer.go:172-198 | visiting entities in any order leads each as specified |
| `EnvUpdates.RewriteLines` | internal/app/envconfig/update.go:66-78 | rewrites the first line for each update and leaves exactly the updates no line took |

## Left out

- Transport, TLS, tickets, JSON and ZIP decoding, hashing and file renames: foreign code or input and output.
- Snapshot projection, its polling and its timeouts: a snapshot is an opaque value or missing.
- Durations of timers: a timer may fire at any moment after it is armed, which covers every duration.
- `Endpoints.Endpoint.Join`: authentication, admission and projection are given as outcomes.
- `Membership.FailedJoinLeavesNoTrace`: for a join that nothing interrupts; what holds when other calls come between is `ProtocolRuns.RolledBackJoinLeavesNoTrace`.
- Commands themselves, their acknowledgement and their retransmission: only their admission is modelled.
- The map value of a watch and the map value of an admitted token: both are membership in a set.
- `Reassign` and two clients sharing one credential: `ClientRecovery` follows one client per lineage.
- `ResolveExact`, store installation and the directory lock: plumbing around the same lock validator.
- `Resolvers.Resolve`: reads one fixed catalog; archives changing during resolution are not modelled.
- Concurrent callers of the cache, the mixer, the editor, the host and the buffers: each call holds one lock and is one step.
- `Caches.Cache.Clear`: released values are returned rather than passed to a handler, so a handler that calls back into the cache is a later call.
- 64-bit overflow of weights, counters, revisions and ticks: they are unbounded here. The mixer's 32-bit generations do wrap; its slot numbers do not.
- Rounding of floating-point gains, positions and token counts: they are reals.
- DS1 encoding, the saved checkpoint and the dirty flag: foreign codec.
- Bits of painted wall, floor and shadow records: the packed layout belongs to a library that is not part of this model.
- Draw order of sampled entities: a sample is a map from identity to entity, not the sorted list.
- World deltas, private, party and event views and the network clock: values passed through.
- `EnvUpdates.AssignmentReadsBack`: the double-quote escape grammar is assumed to be inverse to quoting, not modelled.
- Invalid UTF-8, line-length limits, template installation and the check of update keys against a template.
- Aliasing of byte and entity slices: values are immutable here, so that the defensive copies of the code have no counterpart.
- Localization, logging, preferences, paths and the shell: validation or plumbing with only easy members.
