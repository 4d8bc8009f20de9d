# Verification model of the auth engine

A Dafny model of the authentication engine's protocols and the properties they are meant to have.
Instants and durations are integers in milliseconds. Every effect a seam can have (a clock reading,
a provider answer, a store failure, a write that fails and lands all the same) is a parameter, so
each statement is about all of them. Nothing here runs the original program.

| part | in place | interleaved |
|---|---|---|
| single-flight token cache | `Flight`, `TokenCaches`, `ResourceTrees` | `FlightProtocol` |
| refresh-token rotation | `Rotation`, `FakeProviders` | `RotationProtocol`, `RotationRuns` (lineages in `Lineage`) |
| deferred login | `Deferred` | `DeferredProtocol`, `DeferredRuns` |
| onboarding rounds | `Onboard` | `OnboardProtocol` |
| carriers | `Carrier`, `Queries`, `WireInstant` (pure) | |
| home landscape | `Landscapes` | |
| in-memory stores | `Stores` | |

The parts in place are classes whose methods follow the source statement by statement and are
proved against specification functions. The interleaved parts are step systems: a label is one
atomic step of one goroutine with its seam's answer, a run is any sequence of labels, and the
theorems are about all runs. The two meet in lemmas: a cache call, a login, a rotation, a mint, an
exchange and an onboarding round that nothing interleaves with are runs of their step systems, with
the same answers and effects as the class methods.

## Where the promises need a condition

- `lib/authengine/flight.go:8-11` promises one mint per key per race. The code lets a caller that
  read the store before the leader's write enter the flight after the leader's delete, and mint
  again. The model follows the code: once nobody is about to mint, the promise holds of a run exactly
  when there was no such entry.
- Cache keys and registration claims are slugs, so two declared names can share one. Token
  ownership, and "a claim means a row", hold exactly when the keys, or the claims, are distinct.
- Rotation reads, then writes. One session a token under interleaving holds exactly when the provider
  rejects tokens it has rotated. A provider that returns the presented token
  (`lib/logto/client.go:148-151`) makes the replacement record overwrite the consumed one, so the
  session survives and reuse is not detected, although `lib/authengine/rotation.go:132-133` speaks of
  the presented token as consumed.
- One login per nonce holds exactly when the store consumes atomically.

## Model

| member | source | states |
|---|---|---|
| `Flight.TokenFlight.Enter` | lib/authengine/flight.go:32-40 | under the lock a caller joins the call in the table or registers a new call object of its own; the shared state changes in no other way |
| `Flight.TokenFlight.Publish` | lib/authengine/flight.go:44-45 | the mint's token and error are written into that call object and no other |
| `Flight.TokenFlight.Leave` | lib/authengine/flight.go:46-48 | exactly the key leaves the table; every call object stays as it was |
| `Flight.TokenFlight.Close` | lib/authengine/flight.go:49 | exactly that call is marked done |
| `FlightProtocol.RunKeepsInv` | lib/authengine/flight.go:31-52 | every interleaving keeps: each call object belongs to the one caller that registered it, holds what that caller has published so far, and is closed once that caller has returned |
| `FlightProtocol.OneFlightPerKey` | lib/authengine/flight.go:31-48 | in every reachable state a key is in the table exactly while one caller is between its insert and its delete, the entry is that caller's own call, and no two callers hold one key, so mints for a key never overlap |
| `FlightProtocol.AnsweredCallIsGone` | lib/authengine/flight.go:44-51 | delete comes before close: no caller that has its answer can still find the call it led or joined in the table, so a retry never joins a failed call |
| `FlightProtocol.FollowerReturnsLeadersOutcome` | lib/authengine/flight.go:33-37 | a follower returns the token and error its own leader returned, for its own key |
| `FlightProtocol.ClosedCallIsFrozen` | lib/authengine/flight.go:44-49 | after its close a call object never changes again, whatever the rest of the run does |
| `FlightProtocol.MintsAreBounded` | lib/authengine/cache.go:143-151 | the source is called for a key at most once for each caller that found nothing usable |
| `FlightProtocol.OneMintUnlessLateEntry` | lib/authengine/flight.go:8-11 | the documented promise, one mint per key per race, exactly: in every run that leaves nobody about to call the source, the source was called at most once for the key if and only if no caller entered the flight after an earlier call for the key left the table |
| `FlightProtocol.OneLeadUnlessLateEntry` | lib/authengine/flight.go:33-47 | in every run, at most one call object is registered for a key if and only if no caller enters the flight after an earlier call for the key left the table |
| `FlightProtocol.LateEntryHappens` | lib/authengine/flight.go:8-11 | a run with nothing expired or evicted in which the source is called twice for one key, the second time by a caller that entered after the first call left the table and before it was closed: the documented promise read literally is false |
| `FlightProtocol.NoLateEntryOneMint` | lib/authengine/flight.go:31-51 | without a late entry the source is called at most once, exactly once when the flight answered anyone, and everyone it answered holds one outcome |
| `FlightProtocol.StepUsesUp` | lib/authengine/flight.go:31-52 | every action of a caller decreases a measure on the program counters |
| `FlightProtocol.RunsAreFinite` | lib/authengine/flight.go:31-52 | no run holds more caller actions than that measure allows, however often the store drops entries |
| `FlightProtocol.SomeoneCanMove` | lib/authengine/flight.go:35-49 | no lost wake-up: while some caller has not returned, some caller has an enabled step |
| `FlightProtocol.StuckRunsAreComplete` | lib/authengine/flight.go:31-52 | a run that no caller can extend has answered every caller |
| `FlightProtocol.RunKeepsOwned` | lib/authengine/cache.go:203-220 | with distinct keys, every run keeps: entries under a name's key carry that name's resource, and so does every token any caller carries or returns, cached, minted, led or joined |
| `FlightProtocol.CachedTokensAreLive` | lib/authengine/cache.go:138-150 | a cached token that was returned satisfied now + skew < expiry at that caller's own clock reading |
| `FlightProtocol.SoundExactlyWhenKeysDistinct` | lib/authengine/cache.go:189-199 | every run files and returns tokens under their own resource if and only if no two usable names share a cache key |
| `FlightProtocol.SharedKeyServesAnothersToken` | lib/authengine/cache.go:189-199 | a run in which two names with one key make the second caller receive the first one's token |
| `Common.FaultsComeInOrder` | testhelper/provider.go:236-243 | a queue of outcomes scripts one operation after another, oldest first, and an empty one scripts success |
| `TokenCaches.UnreadCalls` | lib/authengine/cache.go:130-141 | an undeclared name, a name without a key and a failing clock are refused with their own problems, in that order, and nothing is touched |
| `TokenCaches.ReadCalls` | lib/authengine/cache.go:143-151 | a read uses up one store outcome; a stored token with reading + skew < expiry is served as it is and the source is not asked, and in every other case the source is asked |
| `TokenCaches.AskedCalls` | lib/authengine/cache.go:203-220 | the source's failure is handed on, the clock's and the store's reported as unavailable; otherwise the minted token, with the resource name stamped on and nothing else changed, is stored and answered; on any failure nothing is stored |
| `TokenCaches.ServeIsARun` | lib/authengine/cache.go:129-152 | one call on its own is a run of the interleaved system, from any state it can meet, with the same answer, store, call objects and mint ledger |
| `TokenCaches.TokenCache.Token` | lib/authengine/cache.go:129-152 | the call answers and leaves behind what the specification says in each of its failure, hit and mint cases, and the cache's history stays a run of the interleaved system |
| `TokenCaches.TokenCache.Mint` | lib/authengine/cache.go:203-219 | a mint made while no flight is up registers, publishes, removes and closes one call holding the answer |
| `TokenCaches.TokenCache.MintAndStore` | lib/authengine/cache.go:204-219 | the source is asked once; the token stored and answered carries the resource's name, and is stored for its remaining life or for nothing once expired; nothing is stored on any failure |
| `TokenCaches.TokenCache.All` | lib/authengine/cache.go:160-174 | on success the map's keys are exactly the declared names, each with the token its own call was answered; on failure it returns the last call's error |
| `TokenCaches.BatchAtOnce` | lib/authengine/cache.go:162-173 | in any run in which callers for the declared names, interleaved with each other and anything else, are all answered, the map built by name has exactly the names as keys, each with its own caller's token and its own resource |
| `TokenCaches.TokenCache.Invalidate` | lib/authengine/cache.go:178-188 | exactly the name's entry goes, or nothing when key derivation or the store fails |
| `TokenCaches.TokenCache.AnswersAreOwn` | lib/authengine/cache.go:129-152 | for every history of the cache with distinct keys: each answer given and each entry owned is for its own name |
| `TokenCaches.AnswerIsStored` | lib/authengine/cache.go:129-152 | after a successful call the answered token is what is stored under the key |
| `TokenCaches.SecondMintNeedsReason` | lib/authengine/cache.go:143-151 | over any sequence of calls, failures, invalidations and evictions, the source is not asked again for a key until a reading + skew reaches its token's expiry, or it is invalidated or evicted |
| `ResourceTrees.NewResourceTree` | lib/authengine/resource.go:37-67 | succeeds exactly when no name or indicator is blank and names are distinct; keeps the order; its lookup answers as linear search does for every name; otherwise names the first entry at fault |
| `ResourceTrees.BlankMeansTrimmed` | lib/authengine/resource.go:44-48 | a text is blank exactly when trimming leaves nothing, which is when all its characters are white space by code point |
| `ResourceTrees.ResourceTree.LookupIsLinearSearch` | lib/authengine/resource.go:84-87 | the index answers as a linear search of the declarations does: something exactly for the declared names, and then the declaration with that name |
| `ResourceTrees.FaultsAreNamed` | lib/authengine/resource.go:44-57 | an entry is at fault for a name that trims to nothing, then such an indicator, then a name an earlier entry carries |
| `ResourceTrees.DeclarableMeansNoFault` | lib/authengine/resource.go:43-57 | the entry-by-entry checks, each against the entries before it, all pass exactly when the whole list is declarable |
| `ResourceTrees.ResourceTree.Names` | lib/authengine/resource.go:75-81 | the declared names in declaration order |
| `Stores.MemoryTokenStore.Get` | testhelper/store.go:45-53 | pops one scripted outcome; a failure changes nothing else, otherwise the filed entry or a miss |
| `Stores.MemoryTokenStore.Set` | testhelper/store.go:58-71 | the entry is filed under its key unless the scripted outcome fails |
| `Stores.MemoryTokenStore.Delete` | testhelper/store.go:74-82 | exactly that key goes unless the scripted outcome fails |
| `Stores.MemoryRefreshStore.Read` | testhelper/store.go:113-124 | the record filed under the fingerprint, a miss, or the scripted failure |
| `Stores.MemoryRefreshStore.Write` | testhelper/store.go:127-139 | the record replaces whatever is filed under its fingerprint, unless the scripted outcome fails |
| `Stores.MemoryDeferredStore.Put` | testhelper/store.go:174-182 | the record is filed under its digest unless the scripted outcome fails |
| `Stores.MemoryDeferredStore.Consume` | testhelper/store.go:186-200 | in one step the record is marked consumed and answered as it was before; a miss or failure changes nothing |
| `Lineage.CoherentMeansOneLive` | lib/authengine/rotation.go:132-137 | a coherent store holds at most one unconsumed record in each lineage, and it is the deepest |
| `Rotation.Rotator.Issue` | lib/authengine/rotation.go:106-130 | answers and leaves behind what the specification says, including the zero expiry that falls back to the lifetime |
| `Rotation.Rotator.Rotate` | lib/authengine/rotation.go:138-184 | answers, store, error queue and provider ledger are those of the specification in every refusal, failure and success case |
| `Rotation.UnreadRotations` | lib/authengine/rotation.go:139-155 | a failing clock, a blank token, a failing read and an absent record are refused with their own problems, in that order, with no record changed and the provider not reached |
| `Rotation.JudgedRotations` | lib/authengine/rotation.go:156-165 | a consumed record is answered reused even when expired, an unconsumed one expired from its expiry on, and the provider is reached exactly when the record is unconsumed and the reading is before its expiry |
| `Rotation.ReachedRotations` | lib/authengine/rotation.go:167-182 | the provider's failure is handed on and a failed mark reported, with no record changed; after the mark, whatever fails, exactly the presented record is consumed |
| `Rotation.YieldedSessions` | lib/authengine/rotation.go:167-183 | the session returned has the provider's access token, refresh token and expiry, and the provider's subject or the record's where that is blank; its live record runs to the provider's expiry or for the lifetime |
| `Rotation.IssuedSessions` | lib/authengine/rotation.go:106-130 | a failing clock, a blank token and a failed write are refused in that order with no record changed; otherwise exactly the session's own record is filed |
| `Rotation.RunKeepsCoherent` | lib/authengine/rotation.go:106-184 | after any sequence of issues, rotations, store failures and evictions, with a provider that returns unrecorded tokens for a blank or equal subject: one live record a lineage, every token with a recorded descendant consumed, one subject along the chain |
| `Rotation.RetiredTokensStayRetired` | lib/authengine/rotation.go:156-160 | a consumed record stays consumed in all later states and no rotation of its token reaches the provider, while the provider never hands it out again |
| `Rotation.ReuseDetectedExactlyWhenReplaced` | lib/authengine/rotation.go:167-183 | after a successful rotation the presented token's record is consumed if and only if the provider returned a different token |
| `Rotation.CarriedTokenSurvives` | lib/logto/client.go:148-156 | with a provider that carries the presented token forward, any number of timely rotations succeed, each leaving the same record live with the expiry that turn set |
| `Rotation.RotatedSessionSurvives` | lib/authengine/rotation.go:167-183 | with a provider that hands out fresh tokens, any number of timely rotations succeed, each leaving the new token live with its own expiry and the session's subject, and every token presented so far consumed |
| `RotationProtocol.RunKeepsInv` | lib/authengine/rotation.go:138-184 | every interleaving over the read-then-write store, with any call failing and failed writes possibly landing, keeps the lineages coherent while the provider rejects tokens it has rotated |
| `RotationProtocol.SafeExactlyWhenRejecting` | lib/authengine/token.go:105-107 | one live record a lineage and one session a token hold on all interleaved runs if and only if the provider keeps its contract to reject a rotated token |
| `RotationProtocol.LaxProviderForks` | lib/authengine/token.go:105-107 | a provider without that contract has a run in which two rotations of one token both succeed and leave two live records |
| `RotationProtocol.ReplayIsRefused` | lib/authengine/rotation.go:152-160 | a rotation of a retired token started at any moment never reaches the provider and is answered reused, unknown or unavailable, whatever runs or is evicted meanwhile |
| `RotationProtocol.EvictedRecordsHaveExpired` | lib/authengine/rotation.go:115-128 | no refresh record is evicted before its expiry, although each ttl comes from a clock reading older than the write |
| `RotationRuns.ReplayInTimeIsReused` | lib/authengine/rotation.go:147-160 | a replay answered before the consumed record's expiry is answered reused, or unavailable when a seam failed, never unknown, whatever runs or is evicted meanwhile; and that stays its answer |
| `RotationRuns.SoloRotate` | lib/authengine/rotation.go:138-184 | a rotation nothing interleaves with ends, for every answer of its seams, with the answer and records of the rotator's |
| `RotationRuns.SoloLogin` | lib/authengine/rotation.go:106-130 | recording a session with nothing interleaved ends with the records and failure of the rotator's issue |
| `FakeProviders.FakeProvider.Refresh` | testhelper/provider.go:176-192 | records the call, pops one scripted failure, and otherwise grants a session with the presented token extended or carried on |
| `FakeProviders.FakeProvider.ResourceToken` | testhelper/provider.go:147-158 | records the whole request; a scripted failure mints nothing, otherwise exactly one token is minted, for the requested resource |
| `FakeProviders.GrantCarries` | testhelper/provider.go:220-229 | a grant is for the resource asked for, with its scopes, from the provider's clock on for ten minutes |
| `FakeProviders.RefreshCarries` | testhelper/provider.go:183-191 | a refresh names nobody, lasts fourteen days, and carries or extends the presented token |
| `FakeProviders.GrantsDiffer` | testhelper/provider.go:220-229 | two grants for one resource have the same value if and only if they are the same grant |
| `FakeProviders.RotatingFakeKeepsContract` | testhelper/provider.go:183-191 | every sequential run against the rotating fake keeps the freshness contract and so the one-live-record guarantee, although the fake answers from the presented token alone |
| `Deferred.ConsumeRedeems` | lib/deferred/mint.go:165-182 | the store's consume with the verdict on its answer is one step of a nonce's life (absent, fresh, spent), and moves no other nonce |
| `Deferred.MintedNonces` | lib/deferred/mint.go:119-141 | a mint for nobody and a failing clock or store are refused and file nothing; otherwise exactly the request's unconsumed record is filed, for the lifetime |
| `Deferred.UnreadNonces` | lib/deferred/mint.go:152-164 | a blank nonce and a failing clock or store are refused with their own problems and consume nothing |
| `Deferred.ExchangedNonces` | lib/deferred/mint.go:165-182 | an absent nonce is answered unknown, a consumed one consumed, an unconsumed one expired from its expiry on, and before it the provider's answer for its subject and email; whatever the answer, the record is consumed afterwards |
| `Deferred.Minter.Mint` | lib/deferred/mint.go:118-142 | a minted nonce is fresh, bound to the subject and email, for the lifetime; every failure leaves the records alone |
| `Deferred.Minter.Exchange` | lib/deferred/mint.go:151-183 | the nonce's life, the answer and the provider ledger move as the redemption automaton says; no other nonce moves |
| `DeferredProtocol.RunKeepsInv` | lib/deferred/mint.go:118-183 | every interleaving over an atomic consume, any call failing and failed writes possibly landing, keeps: stored records are what the logged events leave, each verdict is the one the events before it give, each acknowledged mint has its fresh record stored, and a nonce is stored once and won once |
| `DeferredRuns.OperationsLinearize` | lib/deferred/mint.go:118-183 | in every interleaving over an atomic consume, each answered mint and exchange took effect at one log event: the mint stored the fresh record of its own request that its handoff opens, the exchange redeemed its own nonce with the verdict it gets when the events are carried out one by one, each with its own clock reading; and the events leave exactly the stored records |
| `DeferredRuns.OrderIsRealTime` | lib/deferred/mint.go:137-178 | that order is real-time for mints and exchanges alike: an operation answered before another began comes before it, and each takes effect once |
| `DeferredRuns.FirstExchangeIsAccepted` | lib/deferred/mint.go:160-182 | an exchange begun after its nonce's mint was answered, the nonce neither consumed nor evicted before it, waits for or was answered by the provider for the mint's own subject and email if its clock reading is before the handed-out expiry, and otherwise is answered expired |
| `DeferredRuns.SoloMint` | lib/deferred/mint.go:118-142 | a mint nothing interleaves with ends with the answer and records of the minter's |
| `DeferredRuns.SoloExchange` | lib/deferred/mint.go:151-183 | an exchange nothing interleaves with ends with the answer, records and provider calls of the minter's |
| `DeferredProtocol.OneCallExactlyWhenAtomic` | lib/deferred/mint.go:37-48 | a nonce leads to at most one provider call on all runs if and only if consume is atomic |
| `DeferredProtocol.ReadThenWriteBothWin` | lib/deferred/mint.go:37-48 | over a store that reads and then writes, a run in which two exchanges of one nonce both reach the provider |
| `DeferredRuns.CallsCarryTheMint` | lib/deferred/mint.go:128-136 | every provider call carries the subject and email of the request of the one mint operation that drew its nonce, on a clock reading before the expiry that mint handed out; no other operation handed that nonce out |
| `DeferredProtocol.LaterExchangesAreRefused` | lib/deferred/mint.go:165-178 | after the first exchange that found the nonce every later one has been answered with the consumed problem, even when the first expired or its provider call failed; only an eviction in between makes the answer unknown |
| `DeferredProtocol.EvictedRecordsHaveExpired` | lib/deferred/mint.go:124-141 | no handoff record is evicted before its expiry |
| `Onboard.Sync.Run` | lib/onboard/sync.go:148-159 | no subject: an error and no effect; otherwise the states, rows, claims and calls of the specified round |
| `Onboard.Sync.Reconcile` | lib/onboard/sync.go:162-202 | one backend's state, the world and the calls made, for every combination of answers its seams can give |
| `Onboard.Sync.Settle` | lib/onboard/sync.go:207-227 | a registered backend is ready unless it has a configuration step that fails or is not done |
| `Onboard.RoundState` | lib/onboard/sync.go:162-227 | what one backend's state reports in each case: the phase, the problem of the first seam to fail, and the progress made before it |
| `Onboard.RoundWorld` | lib/onboard/sync.go:162-202 | a backend's round adds its row once a creation took effect and its claim once a write-back did, and changes nothing else |
| `Onboard.RoundIsAddressed` | lib/onboard/sync.go:167-188 | every call is for this caller at this backend with the token resolved for it, and what is written is the backend's own claim as the text true |
| `Onboard.RegistrationIntroduces` | lib/onboard/sync.go:232-244 | a registration carries the principal's subject, username and email, blank where the token has none, the access token, and the raw ID token claim's text |
| `Onboard.RoundOneMore` | lib/onboard/sync.go:153-157 | a round takes the backends in order, each from the world the ones before it left |
| `Onboard.ClaimReads` | lib/authengine/claims.go:58-74 | a claim holds for the flag true and the text true and for nothing else, absent included |
| `Onboard.ClaimSpelling` | lib/authengine/principal.go:74-76 | a registration claim is the backend's slug with an underscore for each dash and otherwise letter for letter |
| `Onboard.CallsTellTheRound` | lib/onboard/sync.go:167-196 | a round calls its seams in order, each at most once; a row is created only where the probe found none, with the principal's subject, username, email and ID token and the token the backend was probed with; the state says exactly which writes were acknowledged |
| `Onboard.BackendsAreIsolated` | lib/onboard/sync.go:143-159 | exactly one state a backend, and each backend's state, row and claim are those of a round on it alone with the same responses |
| `Onboard.ReconcileKeepsBacked` | lib/onboard/sync.go:162-202 | whatever fails, a backend's round leaves every claim at the provider backed by a row |
| `Onboard.OneHealthyRoundRecovers` | lib/onboard/sync.go:25-29 | from any world where claims are backed by rows, one round without failures settles every backend with row and claim present |
| `Onboard.NextRoundIsQuiet` | lib/onboard/sync.go:93-99 | a round on the refreshed principal changes nothing and makes no Exists, Create, SetClaim or Refresh call |
| `OnboardProtocol.RunKeepsInv` | lib/onboard/sync.go:162-202 | every interleaving of rounds, any call failing and failed writes possibly landing: claims backed by rows, every reported state true of the world, rows and claims only added |
| `OnboardProtocol.SafeExactlyWhenClaimsDistinct` | lib/authengine/principal.go:66-76 | claims are backed by rows and finished rounds report the truth on all runs if and only if no two backends share a registration claim |
| `OnboardProtocol.SharedClaimLies` | lib/authengine/principal.go:66-76 | two names with one claim key have a run that leaves one of them with a claim and no row |
| `OnboardProtocol.SoloRound` | lib/onboard/sync.go:148-202 | a round nothing interleaves with ends, for every answer of its seams, in exactly the world and states of the round method |
| `OnboardProtocol.AnyRunRecovers` | lib/onboard/sync.go:25-29 | after any interleaved run cut short anywhere, one healthy round settles every backend and the next one is quiet |
| `OnboardProtocol.RunsAreFinite` | lib/onboard/sync.go:153-157 | no run is longer than its rounds' remaining steps |
| `OnboardProtocol.StuckRunsAreComplete` | lib/onboard/sync.go:153-157 | a run that cannot go on has finished every round with a state for each backend |
| `WireInstant.WireFormRoundTrips` | lib/deferred/carrier.go:110-114 | a text parses to an instant if and only if it is that instant's wire form (RFC 3339, section 5.6, UTC with milliseconds) |
| `WireInstant.WireText` | lib/deferred/carrier.go:110-114 | the wire form of a moment: twenty-four characters with year, month, day, T, time to the millisecond and Z at their places |
| `WireInstant.PadSpelling` | lib/deferred/carrier.go:110-114 | a field's digits, the highest first, with zeroes in front |
| `WireInstant.DaysFollow` | lib/deferred/carrier.go:110-114 | each date is followed by the next of its month, or the first of the next month or year, counted from 1 January 1970 |
| `WireInstant.MonthLengths` | lib/deferred/carrier.go:110-114 | the length of each month |
| `WireInstant.LeapYears` | lib/deferred/carrier.go:110-114 | which years are leap years |
| `Queries.EscapeRoundTrips` | lib/deferred/carrier.go:42-46 | percent-encoding is undone for every byte string |
| `Queries.EscapeSpelling` | lib/deferred/carrier.go:42-46 | an unreserved octet (RFC 3986, section 2.3) is written as itself, a space as a plus, and any other as a percent sign and two upper-case hex digits |
| `Queries.EscapeJoins` | lib/deferred/carrier.go:42-46 | a text is escaped byte by byte |
| `Queries.UnescapeRefuses` | lib/deferred/carrier.go:55-58 | an escaped text is refused exactly when some percent sign has no two hex digits after it |
| `Queries.UnescapeReads` | lib/deferred/carrier.go:55-58 | an escape in either case of hex is read as the byte it spells, a plus as a space, and any other byte as itself |
| `Queries.QueryRefuses` | lib/deferred/carrier.go:55-58 | a query is refused exactly when a non-empty segment holds a semicolon or a bad escape |
| `Queries.SegmentReads` | lib/deferred/carrier.go:55-58 | a segment is cut at its first equals sign; without one the value is blank |
| `Queries.QueryRoundTrips` | lib/deferred/carrier.go:55-58 | every list of key and value pairs, of any bytes, comes back from its query string in order |
| `Queries.Sorted` | lib/deferred/carrier.go:46 | the encoder's key order: every key once, in strictly ascending byte order |
| `Queries.ValuesRoundTrip` | lib/deferred/carrier.go:42-46 | a table of values, encoded in key order, comes back key by key with its values in order, all but keys without values |
| `Queries.GetIsFirst` | lib/deferred/carrier.go:59 | what is got under a key is the value of the first pair with that key |
| `Carrier.FieldsSurviveCompany` | lib/deferred/carrier.go:54-68 | a handoff's fields are read back among any other parameters, in any order, wherever each is the first with its key; without the mount field the default mount is read |
| `Carrier.ReferrerRoundTrips` | lib/deferred/carrier.go:37-68 | a referrer is built exactly for the expiries with a wire form, and parses to the same token and expiry and to the mount or its default; a blank token alone is lost, naming the token field |
| `Carrier.ClipboardRoundTrips` | lib/deferred/carrier.go:77-93 | the same for the clipboard payload |
| `Carrier.MountsSurvive` | lib/deferred/carrier.go:37-93 | for a non-blank token, both carriers give back a non-blank mount as it was given, and /app-handoff for a blank one |
| `Carrier.WireContract` | lib/deferred/carrier.go:37-47 | the referrer is the three field names with the escaped token, expiry and mount, in this order; the clipboard payload is the same behind the marker |
| `Carrier.FieldNames` | lib/deferred/carrier.go:15-29 | the names of the fields and the marker |
| `Carrier.ReferrerUnbuilt` | lib/deferred/carrier.go:37-41 | no referrer or payload is built exactly for an expiry outside the four-digit years |
| `Carrier.ReferrerRefused` | lib/deferred/carrier.go:54-68 | a referrer is refused for a malformed query, then for a blank token, naming its field, then for an expiry that is no wire form; otherwise that token and expiry are read |
| `Carrier.PayloadRefused` | lib/deferred/carrier.go:87-93 | a payload without the marker is refused naming the marker, and one with it reads as the referrer behind it |
| `Carrier.ReferrersAreUnambiguous` | lib/deferred/carrier.go:37-47 | two handoffs with one referrer are one handoff with one mount, where a blank one stands for /app-handoff |
| `Carrier.AcceptedCarriersRebuild` | lib/deferred/carrier.go:54-68 | whatever text is accepted (with the instant in its canonical form), a carrier built from what was read reads the same |
| `Carrier.UnmarkedIsRejected` | lib/deferred/carrier.go:87-92 | a payload is refused for its marker if and only if it lacks the marker |
| `Landscapes.Selector.Pick` | lib/onboard/landscape.go:99-123 | the one first of the lowest-latency candidates among the healthy that answered; pings each healthy one once, in order, and no other; fails exactly when none answered |
| `Landscapes.Selector.Home` | lib/onboard/landscape.go:79-91 | with a claim nobody is pinged and the claim's landscape, declared or synthesized, is returned; without one it is the pick |
| `Landscapes.HealthyOnceEach` | lib/onboard/landscape.go:105-109 | the pinged list holds each healthy candidate as often as it is declared and no unhealthy one |
| `Landscapes.HealthyInOrder` | lib/onboard/landscape.go:105-109 | the pinged list keeps the declared order: of two lists in a row, the healthy ones of the first, then those of the next |
| `Landscapes.Find` | lib/onboard/landscape.go:150-158 | the first candidate declared under the name, or none when there is none |

## Left out

- Interleaved rotations against a provider that carries tokens forward: modelled one at a time only; interleaved, the provider hands out fresh tokens.
- `Slugify` and `NamespacedKey`: their library is not part of this model; they are arbitrary maps from names, and injectivity is a stated condition, never assumed.
- WireInstant.WireFormRoundTrips: the library that formats instants is not part of this model; instants are whole milliseconds, years 0000 to 9999, and the parser reads the canonical form only, so sub-millisecond expiries and other accepted spellings are not captured.
- Carrier.AcceptedCarriersRebuild: says nothing of texts whose instant is spelt otherwise than canonically, for the same reason.
- Carrier.ParseAndroidReferrer: the kind of a malformed-query error and Go's limit on the number of parameters are not modelled.
- Hashing and randomness: a digest is an injective constructor and a nonce is fresh; nothing is said of SHA-256.
- TokenCaches.TokenCache.All: resolves the names one after the other, stopping at the first failure, because the internals of `MapConcurrent` are not part of this model; a batch run at once is the subject of `BatchAtOnce`.
- Contexts, cancellation, logging and a panic inside a mint.
- JWT parsing, signatures, key sets, the HTTP adapter, guard and policy, onboarding-token extraction.
- Problem envelopes: errors are problem ids without their detail maps; an unregistered resource does not list the declared names.
- Constructors' nil checks and option defaults: seams are assumed present.
- `FakeBackend`, `FakeRefresher`, `FakePinger`: their answers are the seam parameters of the rounds and of the selector; the fake provider's remaining operations only append to a ledger.
- `Selector.Claim` and the failure payload's list of names: one branch each.
- Other writers of onboarding claims and rows: claims are written by the rounds alone and rows are never deleted.
