# Open KMIP server: a verified model

A Dafny model of the key server and proofs about it. The parts modelled are the two key
stores, the KMIP 1.4 request handler above them, the REST rate limiter and counters, the
dashboard's sessions and login limiter, the audit queue, and the connection server.

`dafny verify dfyconfig.toml` checks everything.

## How the model is laid out

| file | what it holds |
|---|---|
| `KeyTypes.dfy` | bytes, key states, key records, the cryptographic primitives as arbitrary functions |
| `StoreModel.dfy`, `MemoryStore.dfy` | the in-memory store as a value, and as a heap of mutable records that refines it |
| `SqlModel.dfy`, `SqliteStore.dfy` | the SQL store as tables and statements, and as an object that issues them |
| `Backends.dfy`, `Calls.dfy`, `Storage.dfy` | the simulation between the two, what each call does in plain numbers, and one entry point for both |
| `Kmip.dfy` | decoded requests and responses, the lifecycle gate, every operation, batches, the handler object |
| `Lifecycle.dfy`, `Answers.dfy`, `Births.dfy`, `RoundTrips.dfy`, `ItemAttributes.dfy`, `Requests.dfy`, `Material.dfy`, `Attributes.dfy` | whole runs, one request at a time |
| `Concurrency.dfy`, `ConcurrentRecords.dfy`, `ConcurrentRank.dfy`, `ConcurrentRekey.dfy`, `ConcurrentMaterial.dfy`, `Counters.dfy`, `Scenarios.dfy` | whole runs with KMIP and REST requests interleaved between their storage calls and inside them |
| `RateLimiter.dfy`, `DashAuth.dfy` | token bucket, login limiter, sessions |
| `AuditQueue.dfy`, `Framing.dfy`, `Connections.dfy` | audit queue, framing loop, semaphore and tracker |

An operation is modelled as the storage calls it makes: `Start` runs up to the first call,
`Continue` between the first and the second, `Finish` after the second. Sequential runs glue
the three together (`ProcessItem`); interleaved runs put other requests between them, and also
split each storage call where the code releases its lock or issues a second statement.
Generated uids, random bytes, key pairs and clock readings are parameters, so a statement over
all runs is a statement over all of them. The cryptographic primitives are arbitrary functions;
where a law is needed (opening undoes sealing, HKDF returns as many bytes as asked) it is the
premise `Lawful`, which `TransparentSuite` shows can be met.

What the code computes is stated a second time without the code's own functions: by position in
a template (`GivesNumber`, `GivesName`), by the responses a run has given so far (`Made`,
`Successes`, `PhaseAt`), byte by byte (`Drawn`, `IsNonce`, `Announced`), and in the literal numbers
of KMIP 1.4 and of the server's limits.

## What turned out not to hold

- The lifecycle order PreActive < Active < Compromised < Destroyed holds for requests one at a
  time (`RankRises`) but not between concurrent ones: an Activate checked before a Revoke and
  carried out after it makes the Compromised key Active again (`ActivateOvertakesRevoke`, a run
  from an empty store of either kind), and the REST endpoint does so without any check. `RankDropsIffReactivated` shows that this is the
  only way: an action lowers a key's rank if and only if it carries out Activate on a
  Compromised key.
- A version of 1 at creation plus the successful rekeys always holds in memory (`VersionExactInMemory`). On SQLite the
  version is at most that, and equal to it if and only if no completed rekey had another
  successful rekey, or the Destroy, of the same key between its read and its write
  (`VersionCountsRekeys`, over every interleaving). Two overlapping rekeys both report success and
  advance the version once (`OverlappingRekeysFromEmpty`); a third one can even make it go down
  (`VersionDropsFromEmpty`). A rekey whose key is destroyed in between reports success and changes
  nothing (`RekeyAfterDestroyReportsSuccess`).
- A batch equals its items sent one by one if and only if it has 1 to 100 items or, under a
  protocol version the server refuses, just one (`BatchIsComposition`).
- The login limiter admits five failures a minute only for logins one at a time. With k in
  flight the bound is 4 + k (`LoginBound`), and it is reached for every k (`LoginBoundIsTight`).
- The token bucket does not admit 100 calls per minute. It forgets the fraction of a token earned
  in each gap, so a client that waits 300 and 900 ms in turn, never more than 100 calls in a
  minute, is refused at its 200th call (`SteadyHundredIsRefused`). `ExactVerdict` says when a call
  is let through: if and only if, since every earlier call of its address, fewer were let through
  than 100 plus the whole tokens earned gap by gap. Hence a client that always waits 600 ms is
  never refused (`RefusedCameSoon`), and one that never does is let through 100 times and then
  never again while it keeps calling (`DenseTraffic`).
- Archive and Recover are offered but never succeed (`TransitionsHappenOnce`): the gate wants a
  Deactivated or Archived key and no operation produces one. Revoke always yields Compromised.

## Model

| member | source | states |
|---|---|---|
| `Backends.BackendsAgree` | internal/storage/sqlite.go:139-422 | for every sequence of storage calls with the same uid, clock and random streams, both stores succeed or fail alike, return equal values (Locate and List as multisets) and end with the same keys and attributes |
| `Backends.StepSimulated` | internal/storage/memory.go:29-246 | on agreeing stores one call, whichever of the sixteen, gives equal replies and agreeing stores |
| `Backends.UpdateSimulated` | internal/storage/sqlite.go:229-249 | a guarded UPDATE on one uid changes exactly the record the map lookup would, and its row count is zero exactly when the lookup fails |
| `Backends.RekeySimulated` | internal/storage/sqlite.go:291-313 | uninterrupted, the read-then-write rekey equals the locked in-memory rekey |
| `Backends.ListsAgree` | internal/storage/sqlite.go:206-227 | the SELECT over live rows lists each live record of the map once |
| `Backends.LocatesAgree` | internal/storage/sqlite.go:190-204 | the SELECT by name lists each live uid of that name once |
| `Backends.AttrReadsAgree` | internal/storage/sqlite.go:389-405 | scanning the attribute rows of a uid rebuilds its inner map, absent inner map included |
| `Backends.UpsertAgrees` | internal/storage/sqlite.go:407-414 | upsert on the pair key matches the nested map write |
| `Backends.DeleteAgrees` | internal/storage/sqlite.go:416-422 | row deletion matches deletion from a possibly absent inner map |
| `Calls.CallInNumbers` | internal/storage/memory.go:29-246 | on either store each of the sixteen calls fails exactly in the stated cases, and otherwise leaves the stated keys, field by field with literal state codes and limits, and gives the stated reply |
| `MemoryBackend.MemoryStore.constructor` | internal/storage/memory.go:22-27 | a new store is valid and empty |
| `MemoryBackend.MemoryStore.Revalidate` | internal/storage/memory.go:82-106 | changing one record and at most its own array keeps every other record and array, so the no-sharing invariant survives in-place writes |
| `MemoryBackend.MemoryStore.Create` | internal/storage/memory.go:29-46 | refuses lengths outside 1..32768 bits and a failed random source, else adds one PreActive record of length/8 random bytes |
| `MemoryBackend.MemoryStore.Get` | internal/storage/memory.go:48-56 | finds exactly the stored records that are not Destroyed |
| `MemoryBackend.MemoryStore.Locate` | internal/storage/memory.go:58-68 | each live uid with the name once, in no fixed order |
| `MemoryBackend.MemoryStore.List` | internal/storage/memory.go:70-80 | each live record once, in no fixed order |
| `MemoryBackend.MemoryStore.Activate` | internal/storage/memory.go:82-91 | a live record becomes Active, whatever its state; nothing else changes |
| `MemoryBackend.MemoryStore.Destroy` | internal/storage/memory.go:93-106 | zeroes the key's own bytes in place, drops them, marks the record Destroyed, and leaves every other key's bytes alone |
| `MemoryBackend.MemoryStore.Register` | internal/storage/memory.go:108-122 | takes over the caller's record under a new uid, always PreActive, version at least set to 1; refuses a negative length unless it is a certificate |
| `MemoryBackend.MemoryStore.Revoke` | internal/storage/memory.go:124-134 | a live record becomes Compromised with the given reason |
| `MemoryBackend.MemoryStore.Rekey` | internal/storage/memory.go:138-155 | new array of Length/8 bytes and version + 1, or no change |
| `MemoryBackend.MemoryStore.Archive` | internal/storage/memory.go:157-166 | a live record becomes Archived |
| `MemoryBackend.MemoryStore.Recover` | internal/storage/memory.go:168-177 | only an Archived record becomes PreActive |
| `MemoryBackend.MemoryStore.DeriveKey` | internal/storage/memory.go:179-206 | a new key from HKDF over a live source, or no change |
| `MemoryBackend.MemoryStore.GetCustomAttributes` | internal/storage/memory.go:208-223 | a copy of the attributes, empty when none were ever set |
| `MemoryBackend.MemoryStore.SetCustomAttribute` | internal/storage/memory.go:225-236 | sets one attribute, building the inner map on first use |
| `MemoryBackend.MemoryStore.DeleteCustomAttribute` | internal/storage/memory.go:238-246 | removes one attribute if it is there |
| `MemoryBackend.Zeroize` | internal/storage/memory.go:100-102 | every byte is overwritten with zero |
| `SqlModel.Select` | internal/storage/sqlite.go:190-227 | a SELECT returns exactly the rows its WHERE clause matches |
| `SqlModel.DeleteAttr` | internal/storage/sqlite.go:416-422 | exactly the row of the pair key is gone |
| `SqliteBackend.SqliteStore.Create` | internal/storage/sqlite.go:139-177 | same refusals as in memory, then an INSERT that fails on a taken uid |
| `SqliteBackend.SqliteStore.Get` | internal/storage/sqlite.go:179-188 | the row of the uid unless Destroyed |
| `SqliteBackend.SqliteStore.Locate` | internal/storage/sqlite.go:190-204 | the row loop collects the uid of every selected row |
| `SqliteBackend.SqliteStore.List` | internal/storage/sqlite.go:206-227 | the row loop collects every live row |
| `SqliteBackend.SqliteStore.Activate` | internal/storage/sqlite.go:229-238 | guarded UPDATE; fails exactly when no row was touched |
| `SqliteBackend.SqliteStore.Destroy` | internal/storage/sqlite.go:240-249 | guarded UPDATE to Destroyed with empty material |
| `SqliteBackend.SqliteStore.Register` | internal/storage/sqlite.go:251-276 | same refusal as in memory, caller's state ignored, then INSERT |
| `SqliteBackend.SqliteStore.Revoke` | internal/storage/sqlite.go:278-288 | guarded UPDATE to Compromised with the reason |
| `SqliteBackend.SqliteStore.Rekey` | internal/storage/sqlite.go:291-313 | read, then guarded UPDATE whose row count is ignored |
| `SqliteBackend.SqliteStore.Archive` | internal/storage/sqlite.go:315-324 | guarded UPDATE to Archived |
| `SqliteBackend.SqliteStore.Recover` | internal/storage/sqlite.go:326-335 | UPDATE of an Archived row to PreActive |
| `SqliteBackend.SqliteStore.DeriveKey` | internal/storage/sqlite.go:338-385 | HKDF over a live row, then INSERT |
| `SqliteBackend.SqliteStore.GetCustomAttributes` | internal/storage/sqlite.go:389-405 | the row loop builds the map of the key's rows |
| `SqliteBackend.SqliteStore.SetCustomAttribute` | internal/storage/sqlite.go:407-414 | upsert on (uid, name) if the key is live |
| `SqliteBackend.SqliteStore.DeleteCustomAttribute` | internal/storage/sqlite.go:416-422 | delete on (uid, name) if the key is live |
| `StoreModel.DerivedBytes` | internal/storage/memory.go:184-187 | length/8 bytes for 8 bits or more, otherwise 32, negative lengths included |
| `KeyTypes.BytesIn` | internal/storage/sqlite.go:344 | division by eight truncates toward zero |
| `Storage.InvokeMatches` | internal/storage/types.go:37-55 | matching backends give equal replies behind the storage interface |
| `Storage.Dispatch` | internal/storage/types.go:37-55 | a call through the interface does to the heap object what the value model says, on either backend |
| `Kmip.ReadTemplate` | internal/kmip/handler.go:402-422 | by position: the last attribute of a name that has a value decides, without one the default; ones without name or value are skipped |
| `Kmip.NumberGiven` | internal/kmip/handler.go:402-422 | a number is what the template gives if and only if the operations use it |
| `Kmip.NameGiven` | internal/kmip/handler.go:411-414 | the same for the name |
| `Kmip.Handler.ProcessBatchItem` | internal/kmip/handler.go:289-363 | one item on the real store objects does what the value model of that operation says |
| `Kmip.Handler.HandleRequest` | internal/kmip/handler.go:237-287 | decode error, wrong tag, newer version, empty and oversize batches are refused whole; otherwise items are processed in order and counted |
| `Lifecycle.EveryItemEffect` | internal/kmip/handler.go:289-363 | whatever an item does is one of: nothing, one gated change of the named key, or new PreActive keys; a successful use found its key Active |
| `Lifecycle.TransitionOutcome` | internal/kmip/handler.go:611-653 | not found, refused by the gate, or carried out: the three ways a transition ends |
| `Answers.GateTable` | internal/kmip/handler.go:180-234 | the gate as a table over all state numbers, reachable or not |
| `Answers.StoredIffMade` | internal/kmip/handler.go:289-363 | at every point of a run the store holds exactly the keys its responses reported |
| `Answers.AnsweredByHistory` | internal/kmip/handler.go:531-1283 | on either store every operation on a key gets the response its payload, the key's history of responses and the stored record make due, success with content or the exact failure reason |
| `Answers.ChangeSucceedsIff` | internal/kmip/handler.go:611-775 | Activate succeeds if and only if the key was made and never activated, revoked or destroyed; Revoke if never revoked or destroyed; Destroy if never destroyed; Archive and Recover never |
| `Answers.ReadSucceedsIff` | internal/kmip/handler.go:531-799 | Get, Check, GetAttributes, GetAttributeList and ObtainLease succeed if and only if the key was made and not destroyed |
| `Answers.UseSucceedsIff` | internal/kmip/handler.go:849-1101 | uses and ReKey succeed if and only if the key was activated and neither revoked nor destroyed, and type, size, nonce and primitive conditions hold |
| `Answers.EncryptDrawsNonce` | internal/kmip/handler.go:881-883 | the nonce is twelve bytes of the random source in order, zeros only if it fails, and the data is sealed under it with the stored key |
| `Answers.FixedAnswers` | internal/kmip/handler.go:289-363 | Query, Poll and DiscoverVersions always succeed; unknown codes and a missing operation are refused with reasons 5 and 4 |
| `Lifecycle.RunIsTrace` | internal/kmip/handler.go:289-363 | every run is a trace of such effects |
| `Lifecycle.HistoryConsistent` | internal/kmip/handler.go:180-234 | at every point the state of a key and the operations that succeeded on it determine each other; Archive and Recover never succeeded |
| `Lifecycle.UseIsSound` | internal/kmip/handler.go:849-1101 | on either store each successful Encrypt, Decrypt, Sign, SignatureVerify, MAC or ReKey comes after exactly one successful Activate and before any successful Revoke or Destroy |
| `Lifecycle.TransitionsHappenOnce` | internal/kmip/handler.go:633-653 | on either store at most one successful Activate, Revoke and Destroy per key; no Archive or Recover |
| `Lifecycle.RankRises` | internal/storage/types.go:8-18 | over any stretch of a run on either store no key is lost, each state change strictly raises the rank, and no fifth state is reached |
| `Lifecycle.DecryptInvertsEncrypt` | internal/kmip/handler.go:849-945 | on either store data and nonce from Encrypt decrypt to the plaintext after any further requests with no successful ReKey, Revoke or Destroy of that key |
| `Lifecycle.RunsMatch` | internal/kmip/handler.go:289-363 | a KMIP client cannot tell the stores apart: every run gets the same responses |
| `Requests.FailedCallKeepsStore` | internal/storage/sqlite.go:229-335 | a storage call that fails has changed nothing, on either store |
| `Requests.SecondRegisterSucceeds` | internal/kmip/handler.go:512-523 | once the private half is registered the public half cannot be refused |
| `Requests.FailedItemChangesNothing` | internal/kmip/handler.go:289-363 | every item answered with failure leaves all keys and attributes unchanged, on either store |
| `Requests.BatchIsComposition` | internal/kmip/handler.go:250-287 | a batch leaves the same store and the same answers in the same order as its items sent one by one, if and only if it has 1 to 100 items or, under a version later than 1.4, exactly one |
| `Requests.VersionRefusedIff` | internal/kmip/handler.go:249-266 | a message is refused with reason 8 if and only if it gives a version with major above 1, or major 1 and minor above 4, an absent minor counting as 0 |
| `Requests.RefusedWhole` | internal/kmip/handler.go:238-280 | undecodable or wrongly tagged messages and empty batches get reason 4, more than 100 items reason 2, and nothing is processed |
| `Requests.ConversationIsRun` | internal/kmip/handler.go:237-287 | any sequence of requests is the run of its processed items; refused messages and batch boundaries leave no trace |
| `RoundTrips.RegisterThenGet` | internal/kmip/handler.go:531-590 | on either store a registered object of any type, with the defaults for what its payload leaves out, reads back as registered until rekeyed or destroyed |
| `RoundTrips.RegisterAnswered` | internal/kmip/handler.go:670-746 | when a registration succeeds and the reason when it does not |
| `RoundTrips.PairAnswered` | internal/kmip/handler.go:436-529 | when a key pair is created and the reason when it is not |
| `RoundTrips.DeriveAnswered` | internal/kmip/handler.go:1177-1218 | a derivation succeeds if and only if its source was made and not destroyed and at most 512 bytes are asked |
| `RoundTrips.CreateReports` | internal/kmip/handler.go:392-434 | a Create succeeds if and only if its template gives 1 to 32768 bits and the random source works |
| `RoundTrips.CreateThenGet` | internal/storage/memory.go:29-46 | on either store a created key reads back as length/8 bytes of the random source in order, with the length and algorithm of its template |
| `RoundTrips.RekeyThenGet` | internal/storage/memory.go:138-155 | on either store a rekeyed key reads back as length/8 fresh bytes of the random source in order |
| `RoundTrips.BornThenGetAttributes` | internal/kmip/handler.go:670-746 | on either store a created, registered, paired or derived key shows the name, type, algorithm, length and usage its template and payload gave it, and the state its history adds up to |
| `RoundTrips.BornThenGet` | internal/kmip/handler.go:531-590 | the same for its material, until rekeyed or destroyed |
| `RoundTrips.BornThenLocate` | internal/kmip/handler.go:592-609 | the same for its name: Locate lists it once under that name and under no other until destroyed |
| `RoundTrips.LocateShowsOnlyLive` | internal/kmip/handler.go:592-609 | Locate lists no key that was not made or is destroyed |
| `RoundTrips.CreateThenGetAttributes` | internal/kmip/handler.go:392-434 | on either store the attributes are those the deciding template attributes give by position, with creation time and the state its history adds up to |
| `RoundTrips.CreateThenLocate` | internal/kmip/handler.go:592-609 | on either store a created key is located once, under its own name only, until destroyed |
| `RoundTrips.SignatureVerifies` | internal/kmip/handler.go:947-1046 | on either store a signature by one half of a created pair is found valid with the other |
| `RoundTrips.MacRepeats` | internal/kmip/handler.go:1048-1078 | on either store the same data gives the same MAC while the key is left alone |
| `RoundTrips.DeriveRepeats` | internal/kmip/handler.go:1177-1218 | on either store deriving again with the same request gives a new key that reads back with the same material, algorithm and length |
| `RoundTrips.DestroyedKeyIsUseless` | internal/kmip/handler.go:611-631 | on either store after a successful Destroy every later operation that needs the key fails |
| `RoundTrips.IdentityKept` | internal/storage/memory.go:82-177 | uid, name, type, algorithm, length, usage, owner and creation time never change |
| `RoundTrips.MaterialKept` | internal/kmip/handler.go:1080-1101 | material changes only by a successful ReKey or Destroy of that key |
| `Attributes.StoredIsLastWrite` | internal/storage/memory.go:225-246 | after any sequence of storage calls each attribute of each key has the value last successfully written to it, or none if it was deleted or never set |
| `Attributes.ReadsLastWrites` | internal/storage/memory.go:208-223 | a read of a live key returns those values for every name, and fails for any other key |
| `Attributes.AttributeRoundTrip` | internal/storage/memory.go:208-246 | the value set is the value read, and a deleted one is not, after any storage calls that do not write that attribute |
| `Attributes.AttributeRoundTripOnSqlite` | internal/storage/sqlite.go:389-422 | the same against the SQL store |
| `ItemAttributes.AttributesByItems` | internal/kmip/handler.go:1128-1175 | after any KMIP run on either store each custom attribute has the value of the last successful Add or Modify item for that key and name, or none after a Delete |
| `ItemAttributes.AttributeAnswered` | internal/kmip/handler.go:1128-1175 | when an attribute item succeeds and the reason when it does not |
| `Material.MaterialInvariant` | internal/storage/memory.go:29-206 | at every point after its birth a key has its birth version plus its successful rekeys, Length/8 bytes if created or rekeyed, the requested bytes if derived, none if destroyed |
| `Material.MaterialInvariantOnSqlite` | internal/storage/sqlite.go:139-385 | the same for the row of the key |
| `Material.MaterialBounds` | internal/storage/types.go:57-61 | at most 4096 bytes created; 1 to 512 derived, below the limit of section 2.3 of RFC 5869 |
| `Concurrency.UninterruptedCall` | internal/storage/memory.go:179-246 | the split of each call into atomic actions is the call when nothing comes between |
| `Concurrency.CallsAreSplit` | internal/storage/memory.go:179-246 | attribute calls, derivations and SQL rekeys do let other requests in between their lookup and their write |
| `Concurrency.TraceSound` | internal/storage/sqlite.go:229-335 | in every interleaving: one record per uid, only four states reachable, no material once Destroyed |
| `Concurrency.SecondCallAllowed` | internal/kmip/handler.go:1241-1283 | even with stale lookups the gate never lets Archive or Recover through |
| `Concurrency.DestroyIsAbsorbing` | internal/storage/sqlite.go:240-313 | in every interleaving of KMIP and REST requests a Destroyed record stays Destroyed and empty, and Get, Locate and List never show it again |
| `Concurrency.ListedStates` | internal/storage/memory.go:70-80 | every listed record is PreActive, Active or Compromised |
| `ConcurrentRekey.VersionCountsRekeys` | internal/storage/sqlite.go:291-313 | in every interleaving a key's version is at most its birth version plus its successful rekeys, and equal if and only if no completed rekey had another successful rekey or the Destroy of that key between its read and its write |
| `ConcurrentRekey.VersionExactInMemory` | internal/storage/memory.go:138-155 | in memory, where a rekey holds the lock throughout, it is always equal |
| `Scenarios.VersionCanDrop` | internal/storage/sqlite.go:291-313 | any SQL run that reaches an Active key can go on with three overlapping rekeys, the last of which lowers the version |
| `Scenarios.VersionDropsFromEmpty` | internal/storage/sqlite.go:291-313 | such a run from an empty store: create, activate, and the version goes from three to two |
| `Concurrency.OverlappingRekeysLoseOne` | internal/storage/sqlite.go:291-313 | two overlapping rekeys of any live row both succeed and advance the version once |
| `Scenarios.OverlappingRekeysFromEmpty` | internal/storage/sqlite.go:291-313 | such a run from an empty store: create, activate, two successes, version two |
| `Concurrency.RekeyAfterDestroyReportsSuccess` | internal/storage/sqlite.go:305-312 | a rekey overtaken by Destroy changes nothing and reports success |
| `Scenarios.ActivateOvertakesRevoke` | internal/kmip/handler.go:633-653 | from an empty store of either kind, a run of five actions in which an Activate checked before a Revoke is carried out after it and makes the Compromised key Active |
| `ConcurrentRecords.NextState` | internal/storage/sqlite.go:229-313 | every action of every request keeps every record and leaves it, field by field, as the call it begins or completes makes it |
| `ConcurrentMaterial.CreatedKeyKeepsSize` | internal/storage/sqlite.go:291-313 | in every interleaving a created key keeps its identity and, until destroyed, exactly Length/8 bytes, through any overlapping rekeys |
| `ConcurrentMaterial.MaterialIsDelivered` | internal/storage/sqlite.go:291-313 | in every interleaving a live key's material and version are its birth pair or the pair one successful rekey reported to its client |
| `ConcurrentMaterial.AnswerIsFixed` | internal/kmip/handler.go:849-945 | what a use of a key answers is fixed by its lookup, whatever happens before it is sent |
| `ConcurrentMaterial.InterleavedDecryptInverts` | internal/kmip/handler.go:849-945 | in every interleaving Decrypt inverts Encrypt, whose nonce is twelve bytes of the random source, if no Rekey, Revoke or Destroy of the key comes between their lookups |
| `ConcurrentRank.RankDropsIffReactivated` | internal/api/api.go:409-419 | in every interleaving on either store no record is lost, and an action lowers its rank if and only if it carries out Activate on it while Compromised |
| `ConcurrentRank.RankRisesUnlessReactivated` | internal/api/api.go:409-444 | without such actions the lifecycle order survives every interleaving |
| `Counters.CountStatus` | internal/api/api.go:848-862 | four exact counts; they add up to the total if and only if every record is in one of those states |
| `Counters.CountMetrics` | internal/api/api.go:895-907 | three exact counts; likewise |
| `Counters.CountersAddUp` | internal/api/api.go:848-907 | after any interleaving of KMIP and REST requests total = pre_active + active + compromised |
| `RateLimiter.Refill` | internal/api/api.go:64-65 | whole tokens at five per three seconds, fraction dropped |
| `RateLimiter.IpRateLimiter.Allow` | internal/api/api.go:53-77 | the bucket update on shared mutable buckets; other addresses' buckets do not move |
| `RateLimiter.TokensBounded` | internal/api/api.go:53-77 | tokens stay within 0..100 |
| `RateLimiter.AlwaysTight` | internal/api/api.go:57-76 | the tokens of an address are exactly the least, over its calls so far, of 100 plus the gain since that call less the calls let through since |
| `RateLimiter.ExactVerdict` | internal/api/api.go:53-77 | a call is let through if and only if, since every earlier call of its address, fewer were let through than 100 plus the whole tokens earned gap by gap |
| `RateLimiter.Budget` | internal/api/api.go:57-76 | tokens left plus calls let through never exceed 100 plus what the elapsed time earned |
| `RateLimiter.BucketBound` | internal/api/api.go:53-77 | between any two calls of an address, both included, at most 100 + floor(5t/3) are let through, t seconds apart, however other addresses interleave |
| `RateLimiter.RefusedCameSoon` | internal/api/api.go:63-73 | a refused call came less than 600 ms after the previous one of its address |
| `RateLimiter.DenseTraffic` | internal/api/api.go:57-76 | with gaps under 600 ms exactly the first 100 calls are let through, however long it lasts |
| `RateLimiter.SteadyHundredIsRefused` | internal/api/api.go:63-65 | a client that never makes more than 100 calls in a minute is refused at its 200th |
| `DashboardAuth.DashAuth.HandleLogin` | internal/dashauth/dashauth.go:136-162 | a check event and then a failure or a leave, in any state of the limiter; limit first, then parsing, then the key: only a wrong key is recorded, only a right one opens a session |
| `DashboardAuth.DashAuth.CreateSession` | internal/dashauth/dashauth.go:228-245 | the creation event of the session history: the token is accepted until eight hours from now, and every other token as before |
| `DashboardAuth.DashAuth.ValidSession` | internal/dashauth/dashauth.go:247-258 | the validation event and, for an expired session, the deletion; true exactly for a stored, unexpired session |
| `DashboardAuth.DashAuth.Logout` | internal/dashauth/dashauth.go:186-189 | the logout event: the token is not accepted at any time, and every other token as before |
| `DashboardAuth.DashAuth.AllowLogin` | internal/dashauth/dashauth.go:294-309 | the check event in any state of the limiter: prunes to the past minute and admits below five |
| `DashboardAuth.DashAuth.RecordFailedLogin` | internal/dashauth/dashauth.go:311-315 | the failure event of a login past its check: one more failure in exactly the minutes that hold now |
| `DashboardAuth.DashAuth.Cleanup` | internal/dashauth/dashauth.go:260-290 | visit, delete and clean events: keeps exactly the unexpired sessions and the non-empty pruned lists, and changes no answer from then on |
| `DashboardAuth.Recent` | internal/dashauth/dashauth.go:299-305 | the pruning loop keeps exactly the attempts after the cutoff, in order |
| `LoginLimiter.StoredIsHistory` | internal/dashauth/dashauth.go:272-288 | the stored list is always the full failure history after some cutoff at least a minute old |
| `LoginLimiter.CheckSeesHistory` | internal/dashauth/dashauth.go:294-309 | a login passes the check if and only if the full history shows fewer than five failures in the past minute |
| `LoginLimiter.LoginBound` | internal/dashauth/dashauth.go:137-158 | with at most k logins of an address between check and record, every half-open minute holds at most 4 + k of its failures |
| `LoginLimiter.LoginBoundIsTight` | internal/dashauth/dashauth.go:137-158 | for every k at least one some run reaches 4 + k |
| `SessionHistory.TableAgrees` | internal/dashauth/dashauth.go:228-270 | a token is in the table only while open, missing only when logged out or expired |
| `SessionHistory.SessionsRefineHistory` | internal/dashauth/dashauth.go:186-270 | a token is accepted if and only if it was created at most eight hours ago and not logged out since, with lazy deletion, logout and cleanup interleaved |
| `AuditQueue.Logger.Log` | internal/audit/audit.go:81-90 | stamps a missing time; drops exactly when 256 are queued |
| `AuditQueue.Logger.Drain` | internal/audit/audit.go:63-78 | after the close the writer hands over everything left, in order, by take, insert and finish events |
| `AuditQueue.Logger.Close` | internal/audit/audit.go:132-135 | a close event and the writer's events; returns with the queue empty and every entry handed over |
| `AuditQueue.Conservation` | internal/audit/audit.go:54-90 | in every interleaving submitted = dropped + queued + in hand + handed over, at most 256 queued, accepted entries in submission order |
| `AuditQueue.DropsOnlyWhenFull` | internal/audit/audit.go:81-90 | an entry is dropped if and only if 256 are queued |
| `AuditQueue.Stamped` | internal/audit/audit.go:82-84 | a missing time is filled in, a given one and all other fields are kept |
| `AuditQueue.InsertsInOrder` | internal/audit/audit.go:63-78 | the inserts are a subsequence of the submissions and a prefix of the entries not dropped |
| `AuditQueue.AcceptedIsKept` | internal/audit/audit.go:63-90 | at every point, what was inserted, is in hand or queued is exactly the entries whose Log was not dropped, in order |
| `AuditQueue.CloseLosesNothing` | internal/audit/audit.go:132-135 | once the writer is done the inserts are exactly the entries whose Log was not dropped, each once and in order |
| `Framing.BodyLengthIs` | internal/kmip/server.go:149 | the length is the fifth to eighth byte, most significant first |
| `Framing.FramingInvertsConcat` | internal/kmip/server.go:136-170 | any messages laid end to end read back as exactly those messages, then whatever the rest holds |
| `Framing.SentIsRead` | internal/kmip/server.go:136-170 | whatever a peer sends, a tag and type, the four length bytes of a body of at most 10485760 bytes, and the body, any number of times, is read as sent |
| `Framing.MessageIffEncoded` | internal/kmip/server.go:149-164 | messages are exactly what can be sent in that form |
| `Framing.OversizeStops` | internal/kmip/server.go:150-154 | at an oversize header exactly the earlier messages were handled |
| `Framing.FramesArePrefix` | internal/kmip/server.go:136-170 | whatever is read is a prefix of the stream, and the loop stops only where no acceptable message starts |
| `Framing.Conn.ReadFull` | internal/kmip/server.go:139-160 | fills the buffer however the bytes arrive, or fails exactly when there are too few |
| `Framing.Conn.Serve` | internal/kmip/server.go:136-170 | hands over exactly the messages of the stream up to the first exchange that breaks; whatever a peer sends is handed over whole, whatever chunks its bytes arrive in |
| `Connections.ConnectionTracker.Add` | internal/kmip/connections.go:47-56 | the tracker of any server state after a finished handshake: one new entry with no operations |
| `Connections.ConnectionTracker.Remove` | internal/kmip/connections.go:59-63 | the tracker of any server state after the exit of the handler serving that id |
| `Connections.ConnectionTracker.RecordOp` | internal/kmip/connections.go:66-76 | the tracker after an operation of the handler serving that id; counts on that entry only, and an unknown id is ignored |
| `Connections.ConnectionTracker.Count` | internal/kmip/connections.go:91-95 | the number of entries |
| `Connections.ConnectionAccounting` | internal/kmip/server.go:86-134 | in every interleaving of accept, handshake, request, panic and exit the slots taken equal the running handlers, at most 1000, and bound the tracker; the tracker is empty once nobody is serving, and every slot free once all handlers are gone |
| `Connections.AcceptedIffFree` | internal/kmip/server.go:86-104 | a connection gets a handler if and only if fewer than 1000 are running |
| `Connections.ReleaseNeverBlocks` | internal/kmip/server.go:95-98 | a handler on its way out always finds its slot to give back |
| `Connections.TrackerListsServed` | internal/kmip/server.go:126-134 | with unique connection ids the tracker lists exactly the connections being served |
| `Connections.EntriesByHistory` | internal/kmip/connections.go:47-76 | with unique ids each entry shows its handshake data, how many operations the connection has made, and the latest with its time |

## Left out

- The TTLV codec, in kmip-go, is not part of this model: requests and responses are values already decoded. Codes for algorithms, object types and usage masks follow KMIP 1.4.
- Response message texts, the Query capability list and the fixed attribute name list are not modelled; result status, reason, operation and payload values are.
- AES-GCM, HMAC, RSA, ECDSA, HKDF and key-pair generation are arbitrary functions or outcomes drawn from outside.
- `Kmip.Handler.ProcessBatchItem`: the audit entry and the tracker update at the end of an item are not part of its effect; they touch no key.
- Database errors: every statement succeeds, except an INSERT on a taken uid. A nil material slice, which the NOT NULL column would refuse, is not told apart from an empty one; the handler never passes one.
- `SqliteBackend.SqliteStore.List`: the ORDER BY, on a text column, is not modelled; Locate and List are compared as multisets, because the in-memory store has no order.
- `MemoryBackend.MemoryStore.Get`: returns a snapshot. Reads and writes through the returned pointer without the lock are not modelled.
- `MemoryBackend.MemoryStore.List`: returns snapshots, for the same reason.
- `MemoryBackend.MemoryStore.Register`: asks for a record, and an array, that the store does not hold yet. Every caller builds both anew; registering one object twice would put one record under two uids and break the own-uid rule everything else rests on.
- A material slice is a whole array; slices that share a request buffer in disjoint parts are not modelled.
- Integer widths are not modelled: lengths, versions and counters are unbounded.
- `RateLimiter.Refill`: an exact rational floor, without the rounding of floating point.
- Clocks never run backwards; generated uids, connection ids and session tokens never repeat.
- `Concurrency.DestroyIsAbsorbing`: REST requests are their storage calls, without the checks some REST handlers make first, so it covers more than the code does.
- REST handlers for wrapping, encryption, signing and import: they duplicate the KMIP ones above the same storage calls.
- `AuditQueue.Logger.Log`: only before Close; logging to a closed channel panics.
- `Kmip.ReadTemplate`: the other operations use its specification function, not the loop.
- `Connections.ConnectionTracker.Count`: the List method, a loop that copies entries, and a server without a tracker are not modelled.
- Development mode of the dashboard, cookies, headers, JSON, TLS, certificates, routing, the asset inventory, audit queries, start-up and the static dashboard.
