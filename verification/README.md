# LabView, modelled and proved

LabView scans a fleet of compose stacks, reads Docker, a reverse proxy and an identity provider beside it, and
publishes one payload: who can reach each service, what gate stands in front of it, and how the services relate. This
project models the parts of it where separate pieces of code have to agree, and proves that they do:

- **The build cache** (`build_cache`, `cache_protocol`, `cache_invariant`, `cache_theorems`, `cache_counterexamples`,
  `cache_delay`, `cache_queue`, `cache_admission`): requests, drains, a running build, a queue, two mutexes and a listener, as a step
  system with one step per critical section or blocking point, over a clock that never goes back. History fields record
  publications, joins and deliveries.
- **Access** (`usernames`, `base64url`, `tokens`, `revocations`, `sessions`, `throttling`, `login`,
  `login_counts`): signed sessions with a bounded revocation set and a throttle bounded by first-in-first-out eviction, each against the unbounded
  history it stands for.
- **Gates** (`middlewares`, `middleware_accounts`, `chains`, `posture`, `posture_meanings`): the depth-capped walk over middleware chains with one shared `seen`
  map, and the reduction of every account of a gate to the one posture reported.
- **The fleet** (`fleet`, `networks`, `ingress`, `fleet_index`, `scan_order`, `origins`, `fleet_meanings`,
  `depends`, `dependency_laws`, `reference_laws`, `graph`, `graph_builder`, `graph_laws`, `graph_theorems`,
  `graph_contents`, `graph_auth`, `graph_order`, `route_paths`, `collapsing_routes`, `pipeline`): the
  membership index, tunnel origins, dependencies, and the one graph every view reads, built from the pipeline's stages.
- **Verdicts and counters** (`declare`, `declare_meanings`, `stats`, `conservation`): the exposure verdict, drift, and the sums the
  overview promises across code that counts in different places.
- **The identity provider's applications** (`authentik_read`, `authentik_accounts`, `authentik_match`,
  `matching_laws`, `authentik_meanings`): assembling listed and withheld applications, tying each to at most one service, and what that says of
  the service's gate.
- `options`, `text`, `lists`, `grouping`, `ordering` and `vocabulary` hold what the others share.

Code that changes things step by step is written so: the cache, the revocation set, the signer, the throttle, the login
gate and the graph builder are classes whose methods state their whole new state, and the walks are loops proved against
a function, about which the laws are then proved. What such a function answers is fixed by laws that do without it, in
the terms of the records it reads: the `_meanings` files, `cache_admission`, `login_counts`, `middleware_accounts`,
`reference_laws`, `graph_contents`, `graph_auth` and `graph_order` hold those.

## Where the code says less than its comments

The model follows the code. These are the places where the two differ, each with the exact condition.

- `at` can go back: a forced request reads the clock before the lock, so one delayed there may start a build stamped
  earlier than the one held (`AtMayGoBack`, `AtGoesBackOnlyByALateLock`). What holds is that a build begins no earlier
  than its stamp.
- There are not at most two builds at any moment: the queue holds up to three, one for each override, and more than one
  exactly when two requests in it disagree about the probe (`OneBuildAtATime`, `QueueCanHoldThree`,
  `QueueExceedsOneExactly`).
- A promoted build can wait for a listener's callback: the flush takes the notify lock rather than trying it
  (`PromotedBuildMayWaitForACallback`). The comment says two drains only meet there when both have run their chains to
  the end; only the one that holds the lock has (`KeptByAFinishedChain`). It happens exactly to a drain started while an
  earlier one has not returned (`KeptExactly`, `WaitsForACallbackExactly`), and never in a run without such a start
  (`NeverKept`).
- The throttle evicts in insertion order, which is not window order once a window is reopened in place
  (`WindowOrderCanBreak`, `WindowOrderKeptExactly`).
- A lock does not last one window from the failure that triggered it but ends one window after the window's first
  failure (`LockCanBeShorter`, `LockLastsAWindowExactly`), and the retry-after is rounded to nearest rather than up
  (`RetryAfterCanFallShort`, `RetryAfterIsNearest`).
- A chain walk can miss a near gate that a longer way round marked at the depth cap (`NearGateIsMissed`). It misses
  exactly the gates that lie beyond a name the cap turned away and were marked nowhere else (`MissedExactlyBeyondACut`,
  `CompleteExactly`), and nothing is turned away when no repetition-free path exceeds the cap (`ShallowIsComplete`). Read
  off the registry alone: it is complete when nothing past the cap leads to a gate (`HarmlessDepthIsComplete`), and
  where chains never join it reports exactly the gates within the cap (`TreeIsCutAtTheCap`).
- Ingress is drawn as one path per source, target and label, which is not always one per route: tunnel routes that
  differ in their URL path alone collapse, and so does a router called `tunnel` beside them (`RoutesMayCollapse`,
  `RoutesCollapse`, `TunnelsShare`, `TunnelAndRouterShare`, `RoutersShare`).
- A stale acceptance is one on an unreachable service, not one without an exposure (`StaleAsksOnlyReachability`,
  `AcceptanceOutlivesExposure`).
- A contested matching rule adds nothing but stops no later rule (`MatchIsTheStrongest`); only within the name rule does
  a contested name end the search, and a wider form then hides a service a narrower one would have found
  (`SoleNameMayBeLost`, `SoleNameIsLostExactly`).
- The evidence of an address match is the first address forwarded to, not the one that resolved
  (`CitedAddressMayBeSilent`, `AddressRuleMeans`).

## Assumptions

- Stack ids are unique and hold no `/`; service names are unique in a stack (`WellNamed`). Where edge ids must tell
  edges apart, node names hold no `|`. A pair of services is a pair here, where the source joins the two keys with an
  arrow.
- The MAC gives 32 bytes and the JSON reader reads back what was marshalled of the claims a signer can mint, which need
  no escaping and hold only 64-bit numbers (`Ideal`, `Mintable`); identifiers drawn at random are fresh; and a right MAC
  is presented only of a text signed earlier (`Unforged`). Addresses arrive taken apart; for the identity provider's URLs and name stripping the
  parser is a parameter.
- The stages between dependency resolution and the graph write of a service only what `Enriched` lists; of the
  declaration walk that is shown (`JudgingEnriches`).
- A string is its characters, trimmed and folded as ASCII. Times are integers.

## Model

| member | source | states |
|---|---|---|
| `BuildCache.Cache.GetLocked` | labview/internal/cache/cache.go:146-210 | The locked part of `Get` leaves exactly the state and outcome of `Admit`, the reducer of the step system; what that outcome must be is `LockDecides` and `CreatesExactly` |
| `CacheAdmission.LockDecides` | labview/internal/cache/cache.go:146-210 | In every reachable state the locked part of `Get` joins the first queued build whose override suits; else the running one, when it suits and a forced request arrived no later than its stamp; else answers an unforced request in the same step with the last publication, when that is younger than the TTL and suits; else creates a build; and does nothing more |
| `CacheAdmission.CreatesExactly` | labview/internal/cache/cache.go:158-198 | It creates a build if and only if no queued build suits, no running one both suits and is recent enough for a forced request, and the request is forced, or nothing is published, or the last publication is too old or ran with an override that does not suit |
| `BuildCache.Cache.PublishLocked` | labview/internal/cache/cache.go:251-275 | One turn of `drain` under the lock publishes the finished build, promotes the head of the queue with a fresh stamp, and queues the notice when a listener is set |
| `BuildCache.Cache.TakeNotice` | labview/internal/cache/cache.go:291-309 | Taking a notice removes the oldest pending one, or nothing when none is pending |
| `BuildCache.Cache.PeekOrEmpty` | labview/internal/cache/cache.go:315-325 | A cancelled caller gets what the cache holds, or the zero payload |
| `CacheInvariant.StepKeeps` | labview/internal/cache/cache.go:146-325 | Every step of every interleaving keeps the protocol's whole invariant |
| `CacheTheorems.BeganIsHonest` | labview/internal/cache/cache.go:250-275 | The history field that says when a build began is the clock of an earlier step of the run that really entered that build |
| `CacheTheorems.ForcedIsAnsweredByALaterBuild` | labview/internal/cache/cache.go:146-210 | In every run with a clock that never goes back, an uncancelled forced reply is the result of a published build stamped, and really entered, no earlier than the request arrived |
| `CacheTheorems.OneBuildAtATime` | labview/internal/cache/cache.go:158-198 | At most one drain is in the build function; a queue stands only behind a running build, owned by exactly one drain; at most three builds are queued, with distinct overrides and none only at the head |
| `CacheQueue.QueueCanHoldThree` | labview/internal/cache/cache.go:10-14 | A reachable state with one build running and three queued |
| `CacheQueue.QueueExceedsOneExactly` | labview/internal/cache/cache.go:64-67 | In every run the queue holds more than one build if and only if two requests that joined queued builds disagree about the probe |
| `CacheTheorems.QueueIsFirstInFirstOut` | labview/internal/cache/cache.go:268-275 | A build at queue index k is running after exactly k+1 more publishes and is published next after that: never overtaken, never stranded |
| `CacheTheorems.AtGoesBackOnlyByALateLock` | labview/internal/cache/cache.go:198 | A newly running build is stamped earlier than the one held exactly when a request that had arrived before that stamp took the lock and started it |
| `CacheCounterexamples.AtMayGoBack` | labview/internal/cache/cache.go:150-198 | A reachable state in which the running build's stamp is earlier than the one published: `at` is not monotone |
| `CacheTheorems.ReplyProvenance` | labview/internal/cache/cache.go:158-187 | A reply waited on or held comes from a published build run with the override asked for; a held one answers only an unforced request younger than the TTL; a cancelled caller gets the newest build when it looked |
| `CacheTheorems.HeldIsTheLatest` | labview/internal/cache/cache.go:255-266 | `current`, `at` and `probe` always belong to the latest published build, and to the same one |
| `CacheTheorems.LogIsFaithful` | labview/internal/cache/cache.go:258-266 | Each publication's `previous` is the one before it, and it is marked forced if and only if some forced request created or joined its build |
| `CacheTheorems.DeliveryIsExact` | labview/internal/cache/cache.go:291-309 | Told, in hand and pending are together the publication history, in order; pending notices always have a drain that will still look |
| `CacheTheorems.TellIsNext` | labview/internal/cache/cache.go:300-308 | Each callback gets the next publication in order, and the cache then holds that build or a later one |
| `CacheTheorems.StepsUseUpWork` | labview/internal/cache/cache.go:250-325 | Every step other than a clock tick or an arrival lowers a bound on the work left |
| `CacheTheorems.NothingIsLeftUndone` | labview/internal/cache/cache.go:250-325 | When the server can take no further step every request is answered, nothing runs or waits, and every publication has been told |
| `CacheCounterexamples.PromotedBuildMayWaitForACallback` | labview/internal/cache/cache.go:280-295 | A reachable state in which a promoted build stands at the notify lock while another drain is inside the listener |
| `CacheDelay.KeptByAFinishedChain` | labview/internal/cache/cache.go:82-86 | In every reachable state a drain holding a promoted build stands still at the notify lock if and only if another drain holds the lock, and that one is in its last flush, its chain run to the end and no build its own |
| `CacheDelay.WaitsForACallbackExactly` | labview/internal/cache/cache.go:280-309 | The drain a request starts can come to stand, a promoted build in hand, behind a listener's callback if and only if some earlier drain has still to look at the pending notices when it is started |
| `CacheDelay.KeptExactly` | labview/internal/cache/cache.go:82-86 | And it can find the notify lock held at all, a promoted build in hand, if and only if some earlier drain has not returned when it is started |
| `CacheDelay.NeverKept` | labview/internal/cache/cache.go:82-86 | In a run where every drain is started after all earlier ones returned, no drain ever finds the notify lock held |
| `Usernames.KeysFoldCase` | labview/internal/access/username.go:25-57 | Two names count as one throttle key if and only if both are valid and differ only in case, or both are invalid |
| `Base64Url.RoundTrip` | labview/internal/access/session.go:265-266 | Unpadded base64url (RFC 4648, section 5) decodes to the bytes it encoded |
| `Base64Url.EncodeShape` | labview/internal/access/session.go:265 | Encoded text never holds a `.` and has the unpadded length |
| `Tokens.MarshalInjective` | labview/internal/access/session.go:50-66 | Different claims never marshal to the same text |
| `Tokens.CutRoundTrip` | labview/internal/access/session.go:248-263 | Cutting a joined token gives back its three parts |
| `Tokens.IdealCodecExists` | labview/internal/access/session.go:170-216 | The hypothesis put on the MAC and the JSON reader, over sanitised names, base64url identifiers and 64-bit times, can be met by some reader |
| `Sessions.Signer.Mint` | labview/internal/access/session.go:138-160 | A minted token is the version, the encoded claims and the encoded MAC, over claims that expire one TTL later |
| `Sessions.Signer.Verify` | labview/internal/access/session.go:170-216 | The method gives the verdict of the specification over its own book: length, shape, version, MAC, payload, expiry, revocation; what a verdict means of the token's text is `VerdictMeans` and `SignatureMeans` |
| `Sessions.VerdictMeans` | labview/internal/access/session.go:170-216 | Claims are accepted, or refused as expired or revoked, if and only if the token is the version, a body and a tag joined by dots, the tag decodes to the MAC of that very body and the body to those claims; and of such a token the clock decides first, the revocation set second |
| `Sessions.VerdictsOfClaims` | labview/internal/access/session.go:170-216 | No other verdict carries claims, and every one that does is of a token whose tag decodes to the MAC of its body |
| `Sessions.SignatureMeans` | labview/internal/access/session.go:170-195 | A token is refused for its signature if and only if it is well shaped and its last part is base64url of anything but the MAC of its body |
| `Sessions.MintedClaimsSay` | labview/internal/access/session.go:138-160 | A session's claims are the name or `?`, the method, the random bytes, and the whole seconds of the time of minting and of one TTL later |
| `Sessions.MintedTokenLives` | labview/internal/access/session.go:138-216 | With nothing revoked a minted token is accepted with its claims at every time before its end, and expired from then on |
| `Sessions.ActsOnlyOnMinted` | labview/internal/access/session.go:170-216 | When a right MAC is presented only of a text signed earlier, every logout of a run acts on claims minted earlier in it: that no session is forged follows from what is assumed of the MAC alone |
| `Sessions.MintedTokenFits` | labview/internal/access/session.go:170-180 | Every token minted from a sanitised name and 64-bit times fits the length bound of `Verify` |
| `Sessions.MintedTokenReads` | labview/internal/access/session.go:138-216 | A minted token reads back to exactly its claims; only a zero expiry is refused |
| `Sessions.ClaimsAreMintable` | labview/internal/access/session.go:138-160 | What `Mint` signs is always a sanitised name, a base64url identifier of at most 22 characters and 64-bit times, while the clock fits a Unix time |
| `Sessions.SessionIsItsHistory` | labview/internal/access/session.go:138-216 | Over any run of mints and logouts a minted token is accepted with its claims until it expires unless it was signed out; once signed out it is refused if and only if it is among the last `MaxRevocations` unexpired signed-out sessions in eviction order, which is always so under the cap |
| `Sessions.LogoutSignsOut` | labview/internal/access/login.go:143-157 | Presenting a live minted token to logout signs exactly that session out |
| `Sessions.Signer.Logout` | labview/internal/access/session.go:219 | A token that verifies, or was already revoked, is written to the revocation set; anything else writes nothing |
| `Revocations.RevocationSet.Add` | labview/internal/access/session.go:303-324 | Adding prunes what expired, records the identifier and keeps the top of the result by expiry and identifier; an empty identifier changes nothing |
| `Revocations.RevocationSet.Evict` | labview/internal/access/session.go:332-352 | Eviction leaves exactly the cap's worth of latest-expiring entries |
| `Revocations.TopIsUnique` | labview/internal/access/session.go:332-352 | A map has only one top of a given size, so eviction has one answer whatever the iteration order of the map |
| `Revocations.TopHas` | labview/internal/access/session.go:332-352 | An entry is in the top if and only if fewer entries than the cap are to be given up after it |
| `Revocations.BoundedRefinesHistory` | labview/internal/access/session.go:286-352 | After any orderly run the bounded set is the top `MaxRevocations` of every identifier ever revoked that has not expired, now and at any later time |
| `Throttling.Throttle.Allow` | labview/internal/access/throttle.go:80-101 | Reading the verdict changes nothing and refuses exactly an open window whose count reached the maximum |
| `Throttling.Throttle.Failed` | labview/internal/access/throttle.go:108-142 | A failure makes room, inserts or reopens or counts, and reports the lock it leaves |
| `Throttling.Throttle.Succeeded` | labview/internal/access/throttle.go:149-164 | A success removes the key from both the table and the order |
| `Throttling.EvictedIs` | labview/internal/access/throttle.go:176-182 | In a valid table eviction drops the oldest inserted key, and only when the table is full |
| `Throttling.RetryAfterIsNearest` | labview/internal/access/throttle.go:92-101 | The retry-after is whole seconds within half a second of what is left, and waits the lock out if and only if the rest is under a second, whole, or rounds up |
| `Throttling.RetryAfterCanFallShort` | labview/internal/access/throttle.go:70-73 | With 1.4 seconds left the retry-after is one second, after which the name is still locked: it is not rounded up |
| `Throttling.LockEndsWithItsWindow` | labview/internal/access/throttle.go:80-142 | After a failure that reaches the limit the name is locked at a time if and only if that is before one window after the window's first failure |
| `Throttling.LockLastsAWindowExactly` | labview/internal/access/throttle.go:52-59 | The lock lasts one window from the failure that triggered it if and only if the window opened with that failure: the key absent, expired, or first counted now |
| `Throttling.LockCanBeShorter` | labview/internal/access/throttle.go:52-59 | All but one failure at 0 and the last one later, inside the window: the name is free again that much before a window has passed |
| `Throttling.WindowOrderKeptExactly` | labview/internal/access/throttle.go:126-129 | A failure keeps the eviction order sorted by window start if and only if it does not reopen a closed window in front of an older one |
| `Throttling.WindowOrderCanBreak` | labview/internal/access/throttle.go:173-182 | Three failures of two names already leave the order unsorted by window start |
| `Logins.Gate.Attempt` | labview/internal/access/login.go:57-108 | The method answers and leaves the throttle as the judgement of an attempt says: unavailable, then locked before the password is looked at, then counted, then unavailable when no identifier can be made, then cleared; what a run of them counts and answers is `CountIsWrongs` and `EveryTryIsAnswered` |
| `LoginCounts.CountIsWrongs` | labview/internal/access/throttle.go:108-142 | While a window is open and its entry is not evicted, the count of a name is the number of live wrong attempts on any case of it since the window opened, as far as the limit |
| `LoginCounts.EveryTryIsAnswered` | labview/internal/access/login.go:57-108 | Inside a window every wrong attempt before the limit is answered 401, the one that reaches it 429 with the name locked, every later live one 429, and a right one before that 200 with the name forgotten |
| `LoginCounts.OpeningIsAnswered` | labview/internal/access/login.go:75-92 | The wrong attempt that opens a window is answered 401, or 429 when the limit is one |
| `LoginCounts.RightIsForgiven` | labview/internal/access/login.go:94-108 | A right attempt on a name without an open window is answered 200 and leaves no entry |
| `LoginCounts.NoLimitNoLock` | labview/internal/access/throttle.go:80-142 | Without a limit a wrong password is always answered 401 and nothing is counted |
| `LoginCounts.PlaceIsKept` | labview/internal/access/throttle.go:176-182 | An entry keeps its place until a success on its name or until the keys behind it and those inserted since fill the table |
| `Logins.Gate.Accept` | labview/internal/access/login.go:116-136 | A sign-in proved elsewhere mints the same session and leaves the throttle as it was |
| `Logins.Gate.Logout` | labview/internal/access/login.go:143-157 | Logging out revokes what the cookie carries and nothing without one |
| `Logins.RunIsSound` | labview/internal/access/throttle.go:108-182 | Over any run from an empty table, `order` lists the keys once each, never more than 4096, and no count passes the maximum |
| `Logins.LockedIsRefused` | labview/internal/access/login.go:66-80 | A locked name is refused whatever its case and the password, without being counted, and an uncounted refusal as throttled happens only when it is locked |
| `Logins.EntryOutlivesInsertions` | labview/internal/access/throttle.go:176-182 | A locked entry stands until as many keys were inserted behind it as the table holds |
| `Logins.LockHolds` | labview/internal/access/login.go:57-108 | While its window is open and the table has not turned over, every live attempt on any case of a locked name answers 429 and changes nothing |
| `Middlewares.BuildRegistry` | labview/internal/labels/registry.go:59-68 | The registry holds, for every name, the first gate defined under it, or the first definition when none is a gate |
| `PostureMeanings.RegisteredIs` | labview/internal/labels/registry.go:59-68 | The definition registered under a name is, by position, the first gate of that name in scan order when there is one and the first definition of it otherwise |
| `Middlewares.ClassifyInto` | labview/internal/labels/posture.go:91-154 | The walk over one mutable `seen` map returns the accounts and notes of the reference walk and leaves the map it says; what each account says is `AccountsTell` |
| `MiddlewareAccounts.AccountsTell` | labview/internal/labels/posture.go:91-186 | Every account of a walk is read off the registry and the hints at its gate: a defined forward is observed, at its trimmed address, and Authentik's if and only if a hint matches that address; a password prompt is `basic-auth` with no address; an undefined name is inferred, and Authentik's if and only if the name says so; and its further evidence is a chain path from the reference to the gate |
| `PostureMeanings.OneReferenceMeans` | labview/internal/labels/posture.go:91-186 | A defined forward-auth, basic or digest prompt gives one account, another definition but a chain none, and an undefined name one account and one note exactly when it reads as a gate |
| `Chains.ReportsAreReachableGates` | labview/internal/labels/posture.go:91-154 | One reference's accounts are of distinct gates, each at most eight chain links away |
| `Chains.ShallowIsComplete` | labview/internal/labels/posture.go:91-154 | When no repetition-free chain path from the reference is longer than the cap nothing is turned away, and a gate is reported if and only if it is reachable |
| `Chains.HarmlessDepthIsComplete` | labview/internal/labels/posture.go:91-154 | When no gate is reachable from the end of any repetition-free chain path one link past the cap, exactly the reachable gates are reported: a condition on the registry alone |
| `Chains.SafeIsReported` | labview/internal/labels/posture.go:91-154 | A gate at the end of a chain path none of whose names ends such a path is reported, wherever else the walk meets the cap |
| `Chains.TreeIsCutAtTheCap` | labview/internal/labels/posture.go:91-154 | Where chains branch but never join, a gate is reported if and only if it is at most eight links away |
| `Chains.MissedExactlyBeyondACut` | labview/internal/labels/posture.go:91-154 | A reachable gate goes unreported if and only if the walk never marked it and it is reachable from a name the depth cap turned away and nothing marked later |
| `Chains.CompleteExactly` | labview/internal/labels/posture.go:91-154 | The walk reports every reachable gate if and only if every gate reachable from such a name was marked some other way |
| `Chains.CutIsReached` | labview/internal/labels/posture.go:93-96 | A name turned away stands at the end of a repetition-free chain path one link longer than the cap |
| `Chains.NearGateIsMissed` | labview/internal/labels/posture.go:93-96 | In a ladder of ten definitions a gate two links away is not reported, because a long way round marked its chain at the cap |
| `Chains.LadderExists` | labview/internal/labels/posture.go:93-96 | A registry with that ladder exists |
| `Posture.Collapse` | labview/internal/labels/posture.go:433-449 | Collapsing through the index map is the fold that merges accounts of one method, detail and confidence |
| `Posture.CollapseGathers` | labview/internal/labels/posture.go:433-449 | Each key comes out once, with every line of the accounts that had it and no line of any other |
| `Posture.FromLabels` | labview/internal/labels/posture.go:68-83 | The collapsed accounts gather exactly what the routers and the other sources said, and the notes are those of the walks, each once |
| `PostureMeanings.EveryReferenceIsRead` | labview/internal/labels/posture.go:68-84 | An account comes of the labels if and only if some middleware of some router gives it in a walk with nothing marked before it |
| `Posture.GuessesAreNoted` | labview/internal/labels/posture.go:68-83 | A note that a middleware is undefined is there if and only if some account rests on that name alone |
| `Posture.Resolve` | labview/internal/labels/posture.go:348-377 | The report is the winner of the stable order with all evidence deduplicated, or the no-gate report when nothing names a method |
| `Posture.ResolveReportsTheStrongest` | labview/internal/labels/posture.go:348-412 | For any grouping no account outranks the one reported, evidence repeats nothing, keeps every line of every account that names a method, and names every account that disagrees |
| `PostureMeanings.ReportedByPrecedence` | labview/internal/labels/posture.go:393-412 | The account reported is confirmed if any is, else observed if any is, else inferred if any is; of those it has the first method of the precedence list that any has; and it is live if any of those is |
| `PostureMeanings.WeighedAre` | labview/internal/labels/posture.go:393-402 | What is weighed is every account of every group that names a method, and nothing else |
| `PostureMeanings.EvidenceIsGrounded` | labview/internal/labels/posture.go:348-380 | The evidence opens with the winner's own lines, and every line is some weighed account's or names one that disagrees; the line that no gate was named stands alone |
| `Posture.RanksDoNotDependOnOrder` | labview/internal/labels/posture.go:393-412 | The reported confidence, method rank and liveness are the same for every grouping and permutation of the same accounts |
| `Posture.TiesGoToTheFirst` | labview/internal/labels/posture.go:393-412 | Among accounts that tie, the first in the caller's order is reported |
| `Posture.GateAddress` | labview/internal/labels/posture.go:419-426 | The address is that of a strongest account that has one, and empty if and only if none has |
| `Networks.NewNetworks` | labview/internal/fleet/networks.go:67-103 | The index built in the loops holds the networks in first-seen order and each side's members, as a grouping of the fleet's attachments |
| `Networks.SharedNetworks` | labview/internal/fleet/networks.go:132-143 | The loop returns the shared networks in the first service's compose order |
| `Networks.HasNeighbour` | labview/internal/fleet/networks.go:168-175 | The search answers whether some network of the service has a second member |
| `Networks.IndexAgreesBothWays` | labview/internal/fleet/networks.go:67-103 | A service lists a network if and only if the network lists the service, if and only if the fleet attaches them; nothing repeats |
| `Networks.SharedIsBoth` | labview/internal/fleet/networks.go:132-143 | A network is shared by a pair if and only if they are two services both attached to it |
| `Networks.SharingIsSymmetric` | labview/internal/fleet/networks.go:148 | Sharing is symmetric and means a common network |
| `Networks.NeighbourIsAnotherService` | labview/internal/fleet/networks.go:153-175 | A service has a neighbour if and only if another service is on one of its networks |
| `Networks.AttachmentsKeepTheirStack` | labview/internal/fleet/networks.go:67-103 | Under the naming rules a key is attached from one stack only |
| `Networks.CrossStackConnects` | labview/internal/fleet/networks.go:31-34 | A network in two stacks connects two services |
| `FleetMeanings.AttachedMeans` | labview/internal/fleet/networks.go:67-103 | A service is on a network if and only if its compose entry names it and the name is not empty |
| `FleetMeanings.NetworkMeans` | labview/internal/fleet/networks.go:22-48 | A network is connecting, across stacks, or one service's alone exactly by how many services and stacks are on it and whether it is declared external |
| `FleetMeanings.SharedKeepsOrder` | labview/internal/fleet/networks.go:132-143 | The networks a pair shares come in the order the first of the two names them |
| `Ingress.BuildIngressSet` | labview/internal/fleet/ingress.go:15-46 | The loops build the canonical set |
| `Ingress.SetSaysOneThing` | labview/internal/fleet/ingress.go:15-46 | A set keeps every external kind, is `internal` only when nothing external was given, is `none` only when nothing was, and repeats nothing |
| `FleetMeanings.MostExposedFirst` | labview/internal/fleet/ingress.go:34-46 | Every set is written from the most exposed kind to the least |
| `Ingress.ServiceIngress` | labview/internal/fleet/ingress.go:57-79 | The evidence loops give the set of public, router, port and neighbour evidence |
| `Ingress.InternalMeansOnlyNeighbours` | labview/internal/fleet/ingress.go:57-79 | A service is `internal` if and only if it has no external evidence and exposes a port or shares a network with another service |
| `FleetMeanings.EachTagHasItsSource` | labview/internal/fleet/ingress.go:57-79 | `public` is tagged exactly for a tunnel hostname, `traefik` exactly for a router with hosts or a rule, `lan` exactly for a published port |
| `Ingress.MissingAndUnexpected` | labview/internal/fleet/ingress.go:158-168 | One pass gives both differences in canonical order |
| `Ingress.MissingIs` | labview/internal/fleet/ingress.go:158-168 | A kind is missing if and only if it is expected and not detected |
| `FleetIndex.NewIndex` | labview/internal/fleet/index.go:38-91 | The maps filled in the loops are groupings of the fleet by each kind of lookup |
| `FleetIndex.LookupsAgreeWithTheFleet` | labview/internal/fleet/index.go:96-136 | Port and container-name lookups return, once each, exactly the services a scan of the fleet finds |
| `FleetIndex.AddressLookupsAgree` | labview/internal/fleet/index.go:139-142 | So do the address and hostname lookups |
| `FleetMeanings.LookupsMean` | labview/internal/fleet/index.go:38-142 | A service is found by a host port it or its container publishes, by its compose, container or engine name, by an address of its container, and by a hostname of its tunnels or routers, each folded; and by nothing else |
| `FleetMeanings.URLMeans` | labview/internal/fleet/index.go:149-161 | An address is answered by whoever announces its host, and when nobody does by whoever holds it as an address or goes by it as a name, as the host itself says; never by a port |
| `ScanOrder.LookupsAreInScanOrder` | labview/internal/fleet/index.go:38-142 | Under the naming rules every lookup is, element for element, the scan of the fleet for it in fleet order; without them, that scan with repeated keys dropped |
| `FleetIndex.GateIsTheOnlyOne` | labview/internal/fleet/index.go:149-194 | An address has a gate service if and only if exactly one service answers it, a declared hostname first, then a container address or name |
| `FleetIndex.InStackIs` | labview/internal/fleet/index.go:166-169 | A name resolves inside a stack if and only if the stack has it, to that service's key |
| `FleetIndex.ReachableIs` | labview/internal/fleet/index.go:174-182 | Reachable candidates are the others that share a network |
| `Fleet.SplitOfKey` | labview/internal/fleet/fleet.go:27-33 | A key splits back into its stack and service |
| `Origins.Origins` | labview/internal/fleet/origins.go:16-37 | The walk resolves every route of every service and returns exactly the hops as proxies |
| `Origins.ProxiesAreTheHops` | labview/internal/fleet/origins.go:16-37 | A service is a proxy if and only if some route resolved to it |
| `Origins.HopIsTheOnlyForwarder` | labview/internal/fleet/origins.go:43-157 | An origin names a hop if and only if the table follows the address and exactly one other service answers it and shares a network; a hop is never the service itself; an unresolved origin, and no other, leaves a note |
| `FleetMeanings.SelfMeans` | labview/internal/fleet/origins.go:43-113 | An origin is the service's own network if and only if its host is a name of the service and no address, and its own host port if and only if the host is an address whose port the service publishes; the target carries the address |
| `FleetMeanings.OnlyOriginsChange` | labview/internal/fleet/origins.go:16-37 | Resolution changes of a service its routes' origins and its notes alone, and of a route without a declared origin nothing |
| `FleetMeanings.UnresolvedIsNoted` | labview/internal/fleet/origins.go:16-37 | The notes before stand, and one follows if and only if it is of a declared origin left unresolved |
| `Depends.ResolveRef` | labview/internal/fleet/depends.go:125-168 | The candidate loop computes the resolution table |
| `Depends.Add` | labview/internal/fleet/depends.go:67-83 | Through the index map a claim merges onto its pair or appends one, and the map still finds every pair |
| `Depends.Dependencies` | labview/internal/fleet/depends.go:61-121 | The nested walk resolves, refuses and notes exactly what its outcomes say, in order, and then the unreachable pairs |
| `DependencyLaws.ReferenceMeansOneService` | labview/internal/fleet/depends.go:125-168 | A reference resolves to a service if and only if that is another service and either the one spelled out, a sibling of that name, or the only one of that name in the fleet |
| `DependencyLaws.RefusalIsAnswerable` | labview/internal/fleet/depends.go:158-167 | An ambiguous refusal carries at least two candidates, and they are all the services of that name |
| `ReferenceLaws.CutMeans` | labview/internal/fleet/depends.go:172-183 | A reference is qualified if and only if something stands on both sides of its first slash, and those are its halves |
| `ReferenceLaws.RefusalMeans` | labview/internal/fleet/depends.go:125-168 | A reference is refused as its own service, as no service, or as several if and only if it spells the writer, spells nobody, or is a bare name of several services none of them a sibling |
| `DependencyLaws.MergeIsFaithful` | labview/internal/fleet/depends.go:67-83 | Whatever is claimed, pairs are distinct, exactly the claimed ones stand, each with both provenances as claimed and the networks shared in the dependent's order |
| `DependencyLaws.ResolvedIsTheRelation` | labview/internal/fleet/depends.go:61-121 | A pair is resolved if and only if compose or a declaration names it; observed and declared each hold if and only if that source does; pairs are distinct, irreflexive, of scanned services, and `via` is what they share |
| `DependencyLaws.ReferencesAreConserved` | labview/internal/fleet/depends.go:103-117 | Refusals and resolved references together are as many as the declared references |
| `DependencyLaws.EachReferenceLands` | labview/internal/fleet/depends.go:103-117 | Each declared reference is refused with its file and reason, when it means no service, or stands as a declared pair with the one it means |
| `DependencyLaws.DetailIsTheFirst` | labview/internal/fleet/depends.go:70-80 | Whatever accounts a pair has, it carries the detail and the file of one claim: the first that gives a detail, or the latest when none does |
| `DependencyLaws.UnreachableIs` | labview/internal/fleet/depends.go:185-198 | A service is noted about a target if and only if it resolved to it across no shared network |
| `ReferenceLaws.NotInStackIs` | labview/internal/fleet/depends.go:85-101 | A service is noted about a name if and only if compose gives it that name and its stack has no such service |
| `GraphBuilding.Builder.AddNode` | labview/internal/fleet/graph.go:77-83 | A node is added once per id and the first spelling wins |
| `GraphBuilding.Builder.AddEdge` | labview/internal/fleet/graph.go:86-92 | An edge is added once per id, through the same set |
| `GraphBuilding.Builder.LegOf` | labview/internal/fleet/graph.go:195-243 | The flag loop over the dependencies decides the leg |
| `GraphBuilding.BuildGraph` | labview/internal/fleet/graph.go:52-66 | The nested loops build the graph of the emitted items, section by section; what its nodes and edges say is fixed by `ScannedNodesAre`, by the edge theorem of each kind, and by `GraphIsGrouped` |
| `GraphContents.NodesKept` | labview/internal/fleet/graph.go:52-66 | Every node is one that something of the scan says, and whatever the scan says has a node of its id: services, networks, volumes, the outside and its hostnames, applications, providers, outposts and unmatched routers |
| `GraphContents.ScannedNodesAre` | labview/internal/fleet/graph.go:106-166 | The service, network and volume nodes are exactly the scanned services, the networks that are not one service's alone and the declared volumes, each with its stack, method, most exposed kind, running state, role and counts as the scan says |
| `GraphContents.MembershipEdgesAre` | labview/internal/fleet/graph.go:170-243 | A membership edge, every field of it, is in the graph if and only if the service is on the network and that is drawn; its flow and provenance are read off the dependencies that cross there |
| `GraphContents.DependencyEdgesAreThose` | labview/internal/fleet/graph.go:248-283 | A dependency edge, every field of it, is in the graph if and only if it is of a resolved dependency: from the dependent to its target, captioned with their networks, and carrying the file only when nothing but a declaration speaks for it |
| `GraphContents.VolumeEdgesAre` | labview/internal/fleet/graph.go:289-321 | Every volume edge is a named-volume mount of the first volume the stack declares under its source, in full or with the project before it, and each such service and volume have one |
| `GraphContents.HostEdgesAre` | labview/internal/fleet/graph.go:364-377 | One edge leads from outside into each hostname some route answers on, and no other leaves the outside |
| `GraphAuth.AuthEdgesEmitted` | labview/internal/fleet/graph.go:392-485 | The auth edges emitted are exactly those of the gate map, the matches, the providers and the outposts, with direction and caption |
| `GraphAuth.AuthEdgesKept` | labview/internal/fleet/graph.go:392-485 | Every auth edge of the graph is of one of those relations, and every pair they relate has one |
| `GraphAuth.GateEdgesAre` | labview/internal/fleet/graph.go:393-406 | An auth edge between two services is there if and only if the gate map sends the service at its target to the one at its source, two different scanned services; it carries the target's method |
| `GraphAuth.MatchEdgesAre` | labview/internal/fleet/graph.go:408-430 | An auth edge from an application to a service is there if and only if the application is among the service's matches, and carries the strength of such a match, by name past the list |
| `GraphAuth.OneMatchOneEdge` | labview/internal/fleet/graph.go:408-430 | And it carries exactly that match's strength when the service has one match of that slug |
| `GraphAuth.ProviderEdgesAre` | labview/internal/fleet/graph.go:448-466 | An auth edge from a provider to an application is there if and only if a shown application has a provider of that name, and carries the kind of such a one |
| `GraphAuth.OutpostEdgesAre` | labview/internal/fleet/graph.go:466-485 | An auth edge from an outpost to a provider is there if and only if a shown provider of that name is carried by that outpost |
| `GraphOrder.GraphIsGrouped` | labview/internal/fleet/graph.go:46-66 | Nodes come out services, networks, volumes, then everything outside, and edges in the order of the closed set of kinds |
| `GraphOrder.ServicesInScanOrder` | labview/internal/fleet/graph.go:46-66 | The services open the graph, each by its key, in the order of the scan |
| `GraphLaws.PutAllKeeps` | labview/internal/fleet/graph.go:77-92 | After any emissions ids are unique among nodes, among edges and between them, everything kept was emitted and every emitted id is kept |
| `GraphTheorems.GraphIsClosed` | labview/internal/fleet/graph.go:52-66 | For every fleet both ends of every edge are nodes of the graph, origin hops, gates and outposts included, and no id is shared |
| `GraphTheorems.ScanIsWellFed` | labview/internal/fleet/graph.go:28-46 | What the earlier stages hand over meets the graph's needs, known hops included, since the routes are what origin resolution leaves |
| `Pipeline.PipelineIsOneScan` | labview/internal/pipeline/pipeline.go:179-372 | The networks, origins and dependencies the pipeline computed on the way are those of the fleet it ends with: no later stage touches what they were read from |
| `Pipeline.PipelineGraphIsClosed` | labview/internal/pipeline/pipeline.go:361-372 | The graph of the pipeline's own output has unique ids and both ends of every edge |
| `Pipeline.JudgingEnriches` | labview/internal/declare/drift.go:26-64 | The declaration walk writes nothing the earlier stages read |
| `GraphTheorems.HopsAreScanned` | labview/internal/fleet/origins.go:16-37 | Every hop origin resolution records is another scanned service |
| `GraphTheorems.MembershipIsDrawn` | labview/internal/fleet/graph.go:170-188 | Every service has its own edge to every drawn network it is on |
| `GraphTheorems.DependencyHasItsArrows` | labview/internal/fleet/graph.go:170-243 | Every network in a resolved `via` is drawn and both membership edges are there, flowing out of the dependent and into its target |
| `GraphTheorems.ViaIsDrawn` | labview/internal/fleet/networks.go:43-48 | A network in a resolved `via` has two members and both services on it |
| `GraphTheorems.ArrowsHaveDependencies` | labview/internal/fleet/graph.go:195-243 | A membership edge flows in a direction if and only if a resolved dependency of that service crosses that network in it, and is dashed if and only if none of those was observed |
| `GraphTheorems.EveryRouteIsDrawn` | labview/internal/fleet/graph.go:329-387 | Whatever the routes emit is in the graph as emitted: no ingress edge gives way to a different edge with its id |
| `RoutePaths.PathsAreTheRoutes` | labview/internal/fleet/graph.go:329-358 | The ingress paths in the graph are exactly those of the fleet's routes: for a tunnel its hostname to its first stop and the hop on to the service, for a router each host to its service |
| `RoutePaths.PathsShareExactly` | labview/internal/fleet/graph.go:98-104 | Two paths have one edge if and only if source, target and label agree |
| `RoutePaths.TunnelsShare` | labview/internal/fleet/graph.go:329-347 | Two tunnel routes share a path if and only if they lead one hostname to one first stop, or run from one hop to one service by one address: their URL paths play no part |
| `RoutePaths.TunnelAndRouterShare` | labview/internal/fleet/graph.go:329-358 | A tunnel route and a router share a path if and only if the router is called `tunnel`, serves the hostname and belongs to the route's first stop |
| `RoutePaths.RoutersShare` | labview/internal/fleet/graph.go:349-357 | Two routers share a path if and only if they belong to one service, have one name and serve a host in common |
| `RoutePaths.RoutesCollapse` | labview/internal/fleet/graph.go:98-104 | Two tunnel routes of one hostname to one service on different URL paths are drawn as one edge |
| `CollapsingRoutes.RoutesMayCollapse` | labview/internal/fleet/graph.go:98-104 | A scan the pipeline can produce: one service, two tunnel routes of one hostname on different URL paths, each resolved to the service itself, and one path drawn for both |
| `GraphTheorems.EveryDependencyIsDrawn` | labview/internal/fleet/graph.go:248-266 | Every resolved dependency has its edge, and carries `declaredBy` if and only if only a declaration speaks for it |
| `GraphTheorems.NetworksDrawnOnce` | labview/internal/fleet/graph.go:139-154 | The graph has exactly one network node per network that is not solo-local |
| `GraphTheorems.DrawnNetworkNodes` | labview/internal/fleet/stats.go:134-142 | The loop counts the network nodes |
| `Declare.Compare` | labview/internal/declare/compare.go:92-174 | The search loops decide the first of the outcomes in the stated order |
| `Declare.AgreementMeans` | labview/internal/declare/compare.go:92-174 | Each agreement holds if and only if: supplied when it would be exposed; redundant, conflicting or supplementing by family and layer otherwise, in that order |
| `DeclareMeanings.AgreementComparesMethods` | labview/internal/declare/compare.go:36-174 | Told by the methods themselves: supplied on an exposed service; redundant when a declared OIDC, LDAP or proxy login is what was detected; conflicting when OIDC was declared and a directory found or the other way; supplementary when one is the application's own and the other stands at the proxy |
| `DeclareMeanings.FirstMechanismIsNamed` | labview/internal/declare/compare.go:92-174 | The mechanism named beside an agreement is the first declared one that gives it |
| `DeclareMeanings.UnconfirmedMeans` | labview/internal/declare/drift.go:95-112 | The unconfirmed entries are one for the declared mechanisms nothing was detected beside, exactly when there are any, and one exactly when the declaration is the only gate and the probe read the page and met no login |
| `Declare.UnconfirmedMechanisms` | labview/internal/declare/compare.go:182-200 | The loop keeps the mechanisms of a layer where nothing was detected |
| `Declare.DriftIsNotUnconfirmed` | labview/internal/declare/compare.go:132-200 | A conflicting or redundant mechanism is never unconfirmed, a supplementing one always is, and under a supplied verdict every mechanism with a family is |
| `Declare.Apply` | labview/internal/declare/drift.go:26-114 | The walk rewrites each service in place to its judgement, with the refusals of its own key in order, and touches nothing else |
| `Declare.DetectionsStand` | labview/internal/declare/drift.go:26-64 | A declaration changes no detection and no verdict of a second walk |
| `Declare.DriftHas` | labview/internal/declare/drift.go:66-96 | A drift entry is there if and only if its check holds |
| `DeclareMeanings.DriftMeans` | labview/internal/declare/drift.go:66-93 | The drift a service is left with has an entry if and only if the acceptance is stale, the mechanism contradicts, a reference of its was refused, or the ingress differs from the expected |
| `DeclareMeanings.RefusedByMeans` | labview/internal/declare/drift.go:118-124 | The refusals a service is told of are exactly those it wrote |
| `Declare.StaleAsksOnlyReachability` | labview/internal/declare/drift.go:66-73 | An acceptance is stale if and only if the service is unreachable, so it outlives its exposure unreported exactly on a reachable service with a gate |
| `Declare.AcceptanceOutlivesExposure` | labview/internal/declare/drift.go:66-73 | A service whose accepted exposure ended with a new gate, with nothing in drift or unconfirmed |
| `Declare.ExposureIsSettledOnce` | labview/internal/declare/drift.go:40-51 | A reachable service without edge authentication is either exposed or declared-protected, never both, and no other is either |
| `DeclareMeanings.ExposedMeans` | labview/internal/payload/types.go:200-214 | A service is reported exposed if and only if it is public, behind a router or published, no method was detected, no provider that enforces stands behind it, the probe read no gate, and no gate was declared |
| `Stats.Tally` | labview/internal/fleet/stats.go:19-108 | Every counter is the number of services, or entries, a reader would filter |
| `Stats.CountNetworks` | labview/internal/fleet/stats.go:115-126 | The network counters count what the index says of each network |
| `Stats.DeclaredDependencies` | labview/internal/fleet/stats.go:110-113 | Declared dependencies are the resolved pairs a declaration names |
| `Conservation.VerdictIsConserved` | labview/internal/declare/drift.go:40-64 | After the walk the exposed and declared-protected counters sum to the externally reachable services with no edge authentication |
| `Conservation.MethodsAddUp` | labview/internal/fleet/stats.go:60-67 | The method distribution sums to the services, and the protected are the services less those counted as `none` |
| `Conservation.IngressAddsUp` | labview/internal/fleet/stats.go:38-53 | For sets from the one constructor, internal, no-ingress and external services sum to all services |
| `Conservation.NetworkIdentityHolds` | labview/internal/fleet/stats.go:144-152 | Drawn network nodes and solo-local networks sum to all networks |
| `AuthentikRead.Assemble` | labview/internal/authentik/read.go:481-544 | There are as many applications as listed and recovered: the listed ones sorted by slug as the list told them, group and backchannel marks included, then the rebuilt ones in strictly ascending slug, none listed, each with exactly its slug's provider records in order and its first record's name |
| `AuthentikRead.NoRecordIsLost` | labview/internal/authentik/read.go:508-544 | A provider record that names an unlisted application is in the one rebuilt for it, and none is rebuilt for a listed slug |
| `AuthentikRead.RebuildsRight` | labview/internal/authentik/read.go:508-537 | A slug is rebuilt if and only if some provider names it and the list did not, and once |
| `AuthentikMeanings.ListedMeans` | labview/internal/authentik/read.go:498-507 | A listed application has its own name, slug and group, its launch URL or that of its metadata when blank, and the provider in front of it before those behind |
| `AuthentikMeanings.BackMeans` | labview/internal/authentik/read.go:552-592 | Each provider behind it has the name and kind of the application's view, and of the last record under its key what the view lacks and all the rest; its outposts are those that carry it, once each, sorted |
| `AuthentikMeanings.RecordMeans` | labview/internal/authentik/read.go:508-537 | A provider rebuilt from its record keeps every field, and stands behind its application if and only if the record names none in front |
| `AuthentikMatching.NewNameIndex` | labview/internal/authentik/match.go:421-448 | The loops fill the raw and the tight lookup, kept apart |
| `AuthentikMatching.NamesFindServices` | labview/internal/authentik/match.go:421-459 | A name finds, once each, exactly the services whose stack, compose or container name it is, in its own form only |
| `AuthentikMatching.FindMatch` | labview/internal/authentik/match.go:130-153 | The rules run in order until one finds a service, each leaving its line in the trace, after a line for a rebuilt record |
| `MatchingLaws.TraceTellsAll` | labview/internal/authentik/match.go:130-153 | A match's trace ends in the rule that found it with no finding rule before; an unmatched application's has all four rules in order |
| `AuthentikMatching.Explain` | labview/internal/authentik/match.go:516-556 | The loop shows the first contested line, else the first blocked one |
| `MatchingLaws.ReasonIsTheWorst` | labview/internal/authentik/match.go:516-556 | The reason is ambiguity if and only if some rule was contested, and the rule shown is a contested one, else a blocked one, when there is any |
| `AuthentikMatching.NameRule` | labview/internal/authentik/match.go:294-338 | The nested loops of the name rule stop at the first form and name with an entry |
| `AuthentikMatching.Apply` | labview/internal/authentik/match.go:64-93 | The walk places each application by its verdict: on its service with its accounts and notes, or among the unmatched with its reason |
| `MatchingLaws.EachApplicationLandsOnce` | labview/internal/authentik/match.go:64-93 | A service holds exactly the applications whose match named it, in order, with their evidence, strength, accounts and notes; the others are unmatched, in order, each with its reason |
| `MatchingLaws.MatchesAreParallel` | labview/internal/authentik/match.go:26-30 | The three lists of a match are always parallel |
| `AuthentikAccounts.AccountsFor` | labview/internal/authentik/match.go:575-624 | One pass gives the accounts of the providers and a note for each that lacks an outpost |
| `AuthentikAccounts.UnpassedOutposts` | labview/internal/authentik/match.go:649-681 | The nested loops note every tunnel route straight into a service that an enforcing outpost forwards to |
| `AuthentikAccounts.AccountsAreTheEnforced` | labview/internal/authentik/match.go:575-624 | An account is there if and only if it is of an enforced provider, as the exposure verdict counts them, of a kind with a method |
| `AuthentikMeanings.AccountMeans` | labview/internal/authentik/match.go:594-622 | The account of a provider has the method of its kind, is confirmed unless the application was tied by name alone, is reached where the provider forwards, and rests on the match and on the outposts that carry it |
| `AuthentikAccounts.NotesAreTheUnenforced` | labview/internal/authentik/match.go:575-624 | A note that a provider lacks an outpost is there if and only if such a provider enforces nothing |
| `AuthentikAccounts.ProvidersAreAccountedFor` | labview/internal/authentik/match.go:575-624 | Every provider of a kind with a method is accounted for once, as an account or as a note |
| `AuthentikAccounts.GateWithoutAnAccount` | labview/internal/authentik/wire.go:339-356 | An application with an enforced provider leaves no account if and only if every enforced one is SAML or RADIUS |
| `AuthentikAccounts.SecondDoorIsNoted` | labview/internal/authentik/match.go:626-681 | A second way in is noted if and only if an enforced proxy provider forwards to this service alone while a tunnel route leads straight in |
| `MatchingLaws.MatchIsPlaced` | labview/internal/authentik/match.go:130-153 | Whatever rule finds it, a matched service is one of those scanned |
| `MatchingLaws.ApplicationsAreConserved` | labview/internal/authentik/match.go:64-93 | Over the scanned services, the applications held and those unmatched together are as many as were read |
| `MatchingLaws.AddressRuleMeans` | labview/internal/authentik/match.go:158-187 | The first rule ties to a service if and only if it alone answers any of the addresses the proxy providers forward to; it cites the first of them, which the service answers if and only if anything does |
| `AuthentikMeanings.ForwardedAre` | labview/internal/authentik/match.go:158-170 | The addresses the first rule asks about are those the proxy providers forward to |
| `MatchingLaws.CitedAddressMayBeSilent` | labview/internal/authentik/match.go:170-177 | An application tied by its second forwarded address with the first cited, which nothing answers |
| `MatchingLaws.CitedURLsAnswer` | labview/internal/authentik/match.go:195-285 | What the second and third rules cite is always something the service found answers |
| `MatchingLaws.URLRuleMeans` | labview/internal/authentik/match.go:195-243 | The second does over the bare names in the URLs handed out |
| `AuthentikMeanings.HandedOutMeans` | labview/internal/authentik/match.go:368-405 | The URLs are the launch URL unless it is written per user, the external hosts unless one domain serves all, and the redirects; something is declined exactly when one of the two exceptions is met |
| `AuthentikMeanings.BlockedMeans` | labview/internal/authentik/match.go:195-243 | The second rule is blocked if and only if everything was declined, or it found nobody and a host was no bare name |
| `MatchingLaws.HostnameRuleMeans` | labview/internal/authentik/match.go:250-285 | The third does over the declared hostnames |
| `AuthentikMeanings.HostnamesAre` | labview/internal/authentik/match.go:250-270 | The hostnames it asks about are the hosts of those URLs that are no addresses |
| `MatchingLaws.DecidedIsTheSoleOffer` | labview/internal/authentik/match.go:173-187 | Gathered candidates decide if and only if exactly one service is offered, and are contested if and only if two are |
| `MatchingLaws.MatchIsTheStrongest` | labview/internal/authentik/match.go:130-153 | An application is unmatched if and only if no rule finds a service, and otherwise carries the strongest evidence any rule found: a contested rule stops none of the others |
| `MatchingLaws.SoleNameIsLostExactly` | labview/internal/authentik/match.go:294-338 | When some name in some form is one service's alone, the name rule still finds nobody if and only if two services go by the first name, in the first form, that any service goes by |
| `MatchingLaws.StackNameHides` | labview/internal/authentik/match.go:294-338 | An application whose slug is the name of a stack of two services is never found by name |
| `MatchingLaws.SoleNameMayBeLost` | labview/internal/authentik/match.go:294-338 | An application lost that way though its own name is one service's alone |
| `MatchingLaws.NameRuleMeans` | labview/internal/authentik/match.go:294-338 | The name rule ties to a service if and only if it alone goes by the first name, of three characters or more, that any service goes by |
| `AuthentikMeanings.TrialsAre` | labview/internal/authentik/match.go:294-338 | The names tried are the slug, the name and the providers' names, all as written, then all tightened, then all stripped and tightened |
| `AuthentikMeanings.CalledMeans` | labview/internal/authentik/match.go:421-448 | A service goes by its stack's name, its own and its container's, folded, and tightened in the other lookup |

## Left out

- Sessions.SessionIsItsHistory: that a MAC cannot be presented before its text is signed is a hypothesis, since the MAC is a library call.
- Posture.FromLabels: the accounts of access policies and of the environment are a parameter, since what they say is read by hint matching.
- Routing, cookies, headers, static assets, start-up and logging: plumbing over the standard library.
- The OpenID handshake, key sets and password hashing: whether a credential verifies is an input of an attempt.
- Reading Docker, the proxy and the identity provider over the network, paging and error wording.
- Configuration files, the environment overlay and the password file: input decoding.
- Parsing labels, router rules, hints and addresses, and token matching: their results are inputs or opaque predicates.
- The wording of notes, evidence, drift and traces: each is a tagged value with what it is about.
- Unicode folding and trimming beyond ASCII.
- The starting of a drain goroutine is one step with the locked section that creates its build.
- Unstable library sorts are modelled by a stable insertion sort; where it matters the keys are distinct.
- The key order of the gate map is given: gates arrive as a list in that order. Network scopes are not carried.
- Stack roll-ups of ingress, the withheld and invisible counts, and the stack count: plain arithmetic over what is modelled.
- The scan result itself, the change note and the probe run: a build's result is opaque.
