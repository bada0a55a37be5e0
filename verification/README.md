# A verified model of the secure gateway

The gateway pairs a phone with a desktop. A relay carries their frames, the two ends
encrypt end to end, and an auth service hands out tokens under licenses that follow Stripe
subscriptions. This project models the parts of it that carry state across calls, and proves
what they keep over every run.

- **Relay.** `Slots`, `RedisSlots`: the registry of one connection per pair and role, in memory
  and as Redis scripts over strings. `Relay`, `RelaySlots`, `RelayRouting`, `RelayOutcomes`,
  `RelayIndex`: any number of instances, with claim, close-old, index-store, notices, renewals,
  routing, publishing and delivery as separate steps in any order. `Hub`: one instance with each hub call as a step.
  `Sessions`: the queue, the close and the monitor of one connection.
- **End to end.** `Replay`, `E2ee`, `Handshake`: the sliding replay window in 64-bit arithmetic,
  role-directed keys, and the coordinator that keeps or rebuilds a session. Cryptography is
  symbolic: X25519 (section 5 of RFC 7748) is an unordered pair of private values, HKDF
  (sections 2.2 and 2.3 of RFC 5869) and the AEAD are injective constructors.
- **Auth and billing.** `AuthStore`: the in-memory store. `AuthRaces`: the handlers as sequences
  of atomic store operations under every interleaving. `AuthHandlers`, `AuthSerial`,
  `AuthPairing`, `AuthLockout`, `AuthAnswers`: the handlers one at a time, together with all billing
  events, and their answers told by the fields of the records.
  `AuthAlone`: the two views of a handler agree. `AuthOverlap`: what overlapping requests can do
  to each other, and what they cannot. `Billing`, `BillingSync`, `BillingStops`,
  `BillingRuns`, `BillingAnswers`, `Reconciliation`: mirrors, licenses, enforcement, grace and
  reconciliation.
  `Webhooks`, `WebhookRuns`: the retry queue.
- **Abuse.** `BanTracker`: strikes, bans, and what a sweep may forget.

Code that changes state in place is a class whose methods are proved against functions on
values; the properties are lemmas about those functions. A run is a sequence of steps, where
a step that is not enabled does nothing, and every result about runs holds for all of them.
Ids and secrets are drawn from a counter. License keys are random in the code and enforcement
goes through them in order, so they are an input: any unused key may come up. Hashes stand for
their secrets, time is an integer with 0 for the zero time, and the clock is positive where a
zero time would be mistaken for "unset".

Six properties the code might be expected to have do not hold without a condition. The
condition is proved exact:

- Reordering inside the replay window fails where the 64-bit floor wraps
  (`Replay.ReorderingToleratedExactlyWhen`).
- One sealed frame can be delivered twice when an ephemeral key returns
  (`Handshake.DoubleDeliveryExactlyOnReturn`).
- Redis and memory differ when an owner renews a lapsed slot, or when an instance id contains
  the separator (`RedisSlots.RedisRefinesMemory`, `RedisSlots.InstanceIdSafeExactlyWhen`).
- A sweep of the ban tracker can be observed when it drops an entry at its very deadline
  (`BanTracker.SweepInvisibleExactlyWhen`).
- A reconciliation pass in which a revocation could not be announced is idempotent only if
  that announcement was the last thing to do, which may depend on the license keys drawn
  (`Reconciliation.ReconcileIdempotentExactlyWhen`); whatever keys are drawn, only if the
  subscription lacks no license, too (`Reconciliation.IdempotentForEveryDrawExactlyWhen`).
- A desktop can end up with two active pairings on one license when two completions overlap,
  under any plan for more than one pairing (`AuthOverlap.OnePerDesktopExactlyWhen`).

One comment of the code is contradicted by the code: reactivation is said never to be reached
for a canceled subscription, but a paid invoice reaches it (`BillingRuns.PaidAgreesExactlyWhen`).
Issuing stays refused all the same, since it evaluates the mirror as well.

`dafny verify dfyconfig.toml` checks the project.

## Model

| member | source | states |
|---|---|---|
| `Replay.ReplayGuard.constructor` | internal/e2ee/e2ee.go:141-143 | a new guard has seen nothing and holds no high-water mark |
| `Replay.ReplayGuard.Check` | internal/e2ee/e2ee.go:145-167 | the check with its pruning loop takes the guard to the state, and gives the answer, of the step function whose agreement with the full history is proved below |
| `Replay.ReplayGuard.Forget` | internal/e2ee/e2ee.go:158-164 | the pruning loop leaves exactly the ids whose timestamp is not below the floor |
| `Replay.HighWaterIsMaximum` | internal/e2ee/e2ee.go:133-139 | the reference high-water mark is the largest accepted timestamp, reached by some accepted envelope |
| `Replay.MirrorsStep` | internal/e2ee/e2ee.go:145-167 | one check keeps the pruned map equal to the accepted history restricted to the window, also when the 64-bit floor wraps |
| `Replay.PrunedAgreesWithFullHistory` | internal/e2ee/e2ee.go:133-167 | on every call sequence the pruned guard gives the accept, stale or replay answers of a guard that forgets nothing |
| `Replay.NeverAcceptedTwice` | internal/e2ee/e2ee.go:133-167 | no call sequence has the same (id, ts) accepted twice, wrap-around included |
| `Replay.ReorderingToleratedExactlyWhen` | sdk/core/src/main/java/com/contextsolutions/securegateway/core/Session.java:147-165 | distinct ids within one window of each other are all accepted in any order if and only if there is at most one or the first timestamp is at least the smallest 64-bit integer plus the window |
| `Replay.WrappedFloorRefuses` | internal/e2ee/e2ee.go:145-150 | the failing family: below that bound the floor wraps and the next envelope is refused as stale |
| `E2ee.AadInjective` | internal/e2ee/e2ee.go:307-312 | different (id, ts) give different associated data |
| `E2ee.LiveSession.constructor` | internal/e2ee/e2ee.go:176-240 | a session object starts with the role-directed key pair of the value-level session and an empty replay window |
| `E2ee.LiveSession.OpenWire` | internal/e2ee/e2ee.go:284-305 | the object opens a frame, and moves its window, as the value-level open does: length, authenticity, then replay |
| `E2ee.KeysAgreeExactlyWhenMutual` | internal/e2ee/e2ee.go:176-256 | mobile send key equals desktop receive key, and the reverse, if and only if each side holds the other's identity and current ephemeral |
| `E2ee.KeysSeparate` | internal/e2ee/e2ee.go:246-256 | a session's send and receive keys differ, and a different peer ephemeral changes the receive key |
| `E2ee.SealedFrameOpensOnlyAsSealed` | sdk/core/src/main/java/com/contextsolutions/securegateway/core/Session.java:121-145 | a sealed frame authenticates to its plaintext exactly at the holder of the matching receive key under its own (id, ts); the sender itself cannot open it |
| `E2ee.RefusedFrameChangesNothing` | sdk/core/src/main/java/com/contextsolutions/securegateway/core/Session.java:134-145 | a frame that does not open leaves the session and its replay state as they were |
| `E2ee.DirectionsFollowRoles` | internal/e2ee/e2ee.go:176-240 | a phone seals towards the desktop and opens the other direction, a desktop the reverse, with an empty window of five minutes |
| `E2ee.KeyTakesInAllAgreements` | internal/e2ee/e2ee.go:176-256 | a derived key takes in the agreements of the identities, of the ephemerals, and both crosswise ones in their places, and both ephemeral keys |
| `E2ee.SealsExactlyWhen` | internal/e2ee/e2ee.go:258-282 | a message is sealed if and only if the nonce has 24 bytes, under the send key and bound to id and timestamp, with the nonce in front |
| `Handshake.HandshakeCoordinator.constructor` | sdk/core/src/main/java/com/contextsolutions/securegateway/core/HandshakeCoordinator.java:35-43 | a new coordinator has no session |
| `Handshake.HandshakeCoordinator.Feed` | sdk/core/src/main/java/com/contextsolutions/securegateway/core/HandshakeCoordinator.java:55-73 | feeding a frame to the object has the outcome and the new state of the value-level coordinator, malformed frames included |
| `Handshake.HandshakeCoordinator.Accept` | sdk/core/src/main/java/com/contextsolutions/securegateway/core/HandshakeCoordinator.java:90-110 | the same ephemeral keeps the session and its replay window, a different one replaces both |
| `Handshake.HandshakeCoordinator.SealFrame` | sdk/core/src/main/java/com/contextsolutions/securegateway/core/HandshakeCoordinator.java:75-80 | a data frame is the current session's seal; without a session there is none |
| `Handshake.RefusedInputChangesNothing` | sdk/core/src/main/java/com/contextsolutions/securegateway/core/HandshakeCoordinator.java:55-73 | only a new key or a delivery changes the coordinator |
| `Handshake.EveryFrameAnswered` | sdk/core/src/main/java/com/contextsolutions/securegateway/core/HandshakeCoordinator.java:55-73 | every frame gets the answer its parts call for: each refusal exactly for its reason, a session built if and only if the key is not the current one, data delivered as it was sealed |
| `Handshake.DeliveryFacts` | sdk/core/src/main/java/com/contextsolutions/securegateway/core/HandshakeCoordinator.java:55-73 | a delivered frame was sealed under the current receive key for exactly this (id, ts) and passed the replay window |
| `Handshake.SoundRun` | sdk/core/src/main/java/com/contextsolutions/securegateway/core/HandshakeCoordinator.java:55-110 | over every run the session is the one of the last accepted key, its window is the log of what it accepted, and it delivered nothing twice |
| `Handshake.AgreementAfterAnyRuns` | sdk/core/src/main/java/com/contextsolutions/securegateway/core/HandshakeCoordinator.java:75-110 | after any two runs the directional keys of the two sides match if and only if each accepted the other's current ephemeral |
| `Handshake.SealedFrameReachesPeer` | sdk/core/src/main/java/com/contextsolutions/securegateway/core/Session.java:121-165 | once keys match, a sealed frame is delivered as its plaintext unless the receiver's full history rules it out; under any other (id, ts), and at its sender, it is refused as not authentic |
| `Handshake.AtMostOnceWithoutReturn` | sdk/core/src/main/java/com/contextsolutions/securegateway/core/HandshakeCoordinator.java:55-110 | with a relay that drops, duplicates, reorders, forges and re-sends handshakes, no sealed frame is delivered twice, provided no ephemeral returns after a different one |
| `Handshake.ReturnLetsAFrameThroughTwice` | sdk/core/src/main/java/com/contextsolutions/securegateway/core/HandshakeCoordinator.java:90-110 | for every handshake sequence in which an ephemeral returns, a run that delivers one frame twice |
| `Handshake.DoubleDeliveryExactlyOnReturn` | sdk/core/src/main/java/com/contextsolutions/securegateway/core/HandshakeCoordinator.java:55-110 | double delivery is possible for a handshake sequence if and only if an ephemeral returns after a different one |
| `Slots.MemoryBackplane.constructor` | internal/backplane/memory/memory.go:40-56 | no slots; a queue size that is not positive becomes 256 |
| `Slots.NewestClaimWins` | internal/backplane/memory/memory.go:58-74 | the newest claimer gets the slot for a full lifetime; it is told of a holder if and only if another connection's entry has not expired, and that holder's instance is notified if and only if it is another one |
| `Slots.MemoryBackplane.Claim` | internal/backplane/memory/memory.go:58-74 | a claim always wins, reports the live holder it displaced and whether that one is on this instance, and notifies only another instance, if its channel has room |
| `Slots.MemoryBackplane.NotifyEviction` | internal/backplane/memory/memory.go:184-196 | a notice is queued for a subscribed instance with room and lost otherwise |
| `Slots.MemoryBackplane.Renew` | internal/backplane/memory/memory.go:76-86 | only the owner renews, lapsed or not |
| `Slots.MemoryBackplane.Release` | internal/backplane/memory/memory.go:88-95 | only the owner's entry is removed |
| `Slots.MemoryBackplane.Lookup` | internal/backplane/memory/memory.go:97-104 | the instance of a live entry, or none |
| `RedisSlots.SlotRedisKeyInjective` | internal/backplane/redis/redis.go:54 | different slots have different Redis keys |
| `RedisSlots.SlotValueRoundTripsExactlyWhen` | internal/backplane/redis/redis.go:57-66 | a stored value splits back into what was stored if and only if the instance id has no separator |
| `RedisSlots.RedisBackplane.constructor` | internal/backplane/redis/redis.go:50-52 | an empty key space |
| `RedisSlots.RedisBackplane.Claim` | internal/backplane/redis/redis.go:111-137 | the object runs the claim script: its keys, its report and its notice are those of the trace semantics |
| `RedisSlots.RedisBackplane.Renew` | internal/backplane/redis/redis.go:139-148 | the object runs the renew script |
| `RedisSlots.RedisBackplane.Release` | internal/backplane/redis/redis.go:150-152 | the object runs the release script |
| `RedisSlots.StepRefines` | internal/backplane/redis/redis.go:69-164 | one operation: the results agree unless an owner renews a lapsed entry, and then they differ; otherwise the encoding is kept |
| `RedisSlots.RedisRefinesMemory` | internal/backplane/redis/redis.go:57-164 | on every trace of claims, renewals, releases, lookups and time the Redis results equal the in-memory ones if and only if no owner renews a lapsed entry; the unexpired strings then encode exactly the live entries |
| `RedisSlots.SeparatorInInstanceBreaksRenewal` | internal/backplane/redis/redis.go:57-97 | for every instance id with a separator, every slot, connection, clock and positive lifetime, and from any corresponding states: the owner can renew in memory what it has just claimed, but not in Redis |
| `RedisSlots.InstanceIdSafeExactlyWhen` | internal/backplane/redis/redis.go:57-164 | an instance id gives the in-memory results on every trace without a lapsed renewal if and only if it has no separator |
| `RelaySlots.SlotHeldByLastClaimer` | internal/backplane/memory/memory.go:58-95 | for any number of instances and any interleaving, a slot is empty or held by the last claimer |
| `RelaySlots.RenewalsConverge` | internal/relay/hub/hub.go:59-112 | once every connection open on a slot has finished a renewal since the last claim, whatever it was answered, at most one is open, the last claimer, whatever notices were lost or late |
| `RelaySlots.SupersededRenewalCloses` | internal/relay/session/session.go:308-317 | a superseded connection that renews is closed without any eviction notice |
| `RelayRouting.ReceivedIsSubsequenceOfSent` | internal/relay/hub/hub.go:145-174 | on every run, local and cross-instance, what a session receives from a sender is an in-order subsequence of the bytes sent, each at most once, and only from the same pair and the opposite role; no frame that was received is reported peer-offline |
| `RelayRouting.EveryFrameReportedOnce` | internal/relay/hub/hub.go:145-174 | every routed frame is reported exactly once, as relayed or peer-offline |
| `RelayOutcomes.OutcomeTellsWhatHappened` | internal/relay/hub/hub.go:144-174 | on every run a frame is reported relayed if and only if some step queued it at a session of the peer's slot or published it to another instance without an error, and peer-offline if and only if the peer's queue refused it, publishing failed, or no live entry of the peer's slot named another instance |
| `RelayOutcomes.LookupGivesUpExactlyWhen` | internal/relay/hub/hub.go:163-174 | a look-up gives up at once if and only if no live entry of the peer's slot names another instance; otherwise the frame heads for that instance |
| `RelayOutcomes.SendHeadsForThePeer` | internal/relay/hub/hub.go:144-163 | a frame heads for the indexed session of the peer's slot, and the instance is looked up if and only if there is none |
| `RelayOutcomes.LocalFrameArrives` | internal/relay/hub/hub.go:144-156 | a frame to a peer on the same instance is received, if queue and socket take it |
| `RelayOutcomes.RemoteFrameArrives` | internal/relay/hub/hub.go:144-170 | a frame to a peer on another instance is received, if channel, queue and socket take it |
| `RelayIndex.IndexShowsTheLatest` | internal/relay/hub/hub.go:59-112 | on every run an index shows a connection for a slot if and only if it was the last to enter there and still serves |
| `RelayIndex.ClosedExactlyWhen` | internal/relay/hub/hub.go:59-189 | an open connection is closed by a step if and only if it was displaced and is still indexed, a notice finds it, its renewal found the slot lost, its queue refused a frame, a write to it failed, or it closes for its own reasons |
| `RelayIndex.ClaimTells` | internal/relay/hub/hub.go:59-79 | a displaced live holder is remembered for closing if it is on the same instance, else its instance gets a notice unless that is lost; with nobody displaced there is neither |
| `RelayIndex.RenewalTells` | internal/relay/hub/hub.go:183-189 | a renewal extends the entry of the slot's owner from now and answers whether the caller is the owner |
| `RelayIndex.ReleaseTells` | internal/relay/hub/hub.go:93-112 | a leaving connection gives back its own slot and no other |
| `RelayRouting.FrameStepOrder` | internal/relay/hub/hub.go:218-223 | every step that moves a frame keeps the frames of each sender in order along the whole way to the receiver |
| `RelayRouting.FrameStepPlaces` | internal/backplane/memory/memory.go:106-121 | every step that moves a frame keeps each frame on its way to a connection of its target slot |
| `Hub.FirstCloseWins` | internal/relay/session/session.go:174-192 | a second close changes nothing |
| `Hub.RelayHub.constructor` | internal/relay/hub/hub.go:41-44 | a hub starts with an empty index |
| `Hub.RelayHub.Register` | internal/relay/hub/hub.go:59-91 | claim, close the displaced local holder, enter the index, announce: the new state is that of the value-level registration |
| `Hub.RelayHub.Close` | internal/relay/session/session.go:174-192 | the session leaves the open ones and keeps its first close code |
| `Hub.RelayHub.Enter` | internal/relay/hub/hub.go:81-84 | the index and the open sessions gain the connection |
| `Hub.RelayHub.Tell` | internal/relay/session/session.go:398-410 | the notice becomes the last one addressed to the session; its queue takes it or refuses, and the answer says which |
| `Hub.RelayHub.AnnouncePresence` | internal/relay/hub/hub.go:115-129 | both ends hear online when the peer is indexed; only the new one when it is on another instance |
| `Hub.RelayHub.Deregister` | internal/relay/hub/hub.go:93-112 | only the present holder leaves the index, its slot is released if still its own, and its peer is told |
| `Hub.RelayHub.Renew` | internal/relay/hub/hub.go:183-189 | a renewal by a connection that lost its slot closes it |
| `Hub.IndexAlwaysMatchesSlots` | internal/relay/hub/hub.go:59-112 | after any sequence of hub calls the index and the slots hold the same keys and connections |
| `Hub.PresenceAlwaysTrue` | internal/relay/hub/hub.go:93-129 | after any reconnects and late deregisters the last notice to every indexed session says online if and only if its peer is indexed |
| `Hub.EvictionClosesExactlyTheDisplaced` | internal/relay/hub/hub.go:59-79 | after any calls, a registration that reports an eviction closes exactly the displaced session, and one that reports none closes nothing |
| `Hub.RegistrationTells` | internal/relay/hub/hub.go:59-129 | both ends hear online if the peer is indexed, the newcomer alone if a live entry of the peer's slot is at another instance, nobody otherwise |
| `Hub.RenewalMeans` | internal/relay/hub/hub.go:183-189 | a renewal by the owner extends its entry and closes nobody; by anyone else it changes no entry and closes that session |
| `Sessions.Session.constructor` | internal/relay/session/session.go:90-121 | an open session with an empty queue, 64 places by default |
| `Sessions.Session.Enqueue` | internal/relay/session/session.go:158-167 | never waits: a frame is appended or refused, and refused when the queue is full |
| `Sessions.Session.CloseWith` | internal/relay/session/session.go:174-192 | only the first close records its code |
| `Sessions.Session.WritePump` | internal/relay/session/session.go:367-379 | frames leave in queue order; the first failed write closes the session with the protocol code; on a closed session any number of frames may still leave before the close is seen |
| `Sessions.Session.Monitor` | internal/relay/session/session.go:232-269 | the loop with its miss counter closes at the first of: a second unanswered ping in a row, a lost slot, an expired token; with that reason's code, and never without a reason |
| `BanTracker.Tracker.constructor` | internal/ratelimit/ratelimit.go:110-118 | no entries |
| `BanTracker.Tracker.StrikeKey` | internal/ratelimit/ratelimit.go:123-149 | the strike on the table is the value-level strike |
| `BanTracker.Tracker.CountBans` | internal/ratelimit/ratelimit.go:167-182 | the loop counts exactly the keys still banned |
| `BanTracker.Tracker.SweepIdle` | internal/ratelimit/ratelimit.go:185-200 | the loop removes exactly the idle entries |
| `BanTracker.SweepingIsUnobservable` | internal/ratelimit/ratelimit.go:123-200 | any trace of strikes, queries and counts gives the same answers with its sweeps removed, provided the clock moves between a sweep and the next strike |
| `BanTracker.SweepInvisibleExactlyWhen` | internal/ratelimit/ratelimit.go:185-200 | no continuation at all can tell a sweep if and only if every dropped entry is strictly past its ban deadline or every single strike bans |
| `BanTracker.BanBackedByStrikes` | internal/ratelimit/ratelimit.go:123-149 | after any trace a ban on a key past its deadline is backed by at least threshold strikes within the strike window |
| `BanTracker.ThresholdBans` | internal/ratelimit/ratelimit.go:123-149 | strikes on a key that starts anew, all within the strike window of the first: the one numbered threshold bans, and none before it |
| `BanTracker.BanLastsItsWindow` | internal/ratelimit/ratelimit.go:152-165 | however a run goes on without a strike on the key, a ban is reported with the time left until its window has passed, and not from then on |
| `BanTracker.CountIsOfReported` | internal/ratelimit/ratelimit.go:167-182 | the number of active bans is the number of keys reported as banned |
| `BanTracker.OnlyStrikesBan` | internal/ratelimit/ratelimit.go:152-165 | a key without an entry is not banned, and a disabled tracker bans nobody |
| `AuthStore.MemoryStore.CountActivePairs` | internal/authstore/memory/memory.go:347-357 | the loop counts the active pairings of the license |
| `AuthStore.MemoryStore.CreateWithinCapacity` | internal/authstore/memory/memory.go:266-285 | count and insert are one: success leaves exactly one more active pairing, within max_pairs |
| `AuthStore.MemoryStore.RevokeDevice` | internal/authstore/memory/memory.go:407-417 | the loop leaves every token of the device revoked and the others as they were |
| `AuthStore.MemoryStore.ConsumeRefresh` | internal/authstore/memory/memory.go:392-405 | a refresh token is consumed once; unknown and already revoked are told apart |
| `AuthStore.MemoryStore.ConsumeToken` | internal/authstore/memory/memory.go:441-455 | a pairing token is consumed once and records its pair |
| `AuthStore.ActiveAfterInsert` | internal/authstore/memory/memory.go:266-285 | inserting an active pairing adds it, and only it, to its license |
| `AuthStore.ActiveAfterChange` | internal/authstore/memory/memory.go:322-345 | changing devices or revoking never adds an active pairing to any license |
| `Entitlement.IssuableOrEnforced` | internal/license/license.go:48-75 | tokens are issued if and only if the subscription is trialing, active, or past due without a deadline or before it; otherwise sessions are cut off: Suspended exactly when it is paused, Revoked exactly when it is canceled, unpaid, expired, unknown or past its deadline |
| `AuthRaces.StepEvolves` | internal/authstore/memory/memory.go:266-345 | no operation of any interleaving undoes a revocation or a consumption; licenses keep their subscription, pairings their license, refresh tokens their device |
| `AuthRaces.RevokedForEver` | internal/authstore/memory/memory.go:322-345 | a revoked pairing is never active again on any run |
| `AuthRaces.NoTokenAfterRevocation` | internal/authservice/handlers.go:227-338 | a revoked pairing is never active again, and no issue or refresh request that begins after the revocation ever mints a token for it, whatever a re-pairing still in flight writes to it |
| `AuthRaces.TokenCompletesAtMostOnce` | internal/authservice/pairing.go:149-311 | under any interleaving each pairing token leads to at most one successful completion |
| `AuthRaces.RefreshMintsAtMostOnce` | internal/authservice/handlers.go:272-338 | under any interleaving each refresh token yields at most one new pair |
| `AuthRaces.PairingsNeverExceedPeak` | internal/authservice/pairing.go:149-311 | under any interleaving of completions, re-pairs, unpairs, enforcement and plan changes the active pairings of a license never exceed the largest max_pairs its subscription has carried |
| `AuthRaces.LiveTokensNeverExceedIssuances` | internal/authservice/handlers.go:272-366 | under any interleaving a device's live tokens plus its rotations in flight never exceed its issuances |
| `AuthOverlap.RivalsBothPair` | internal/authservice/pairing.go:205-285 | two completions with tokens of one license and desktop that both pass their checks before either writes both insert, if there is room for two |
| `AuthOverlap.OnePerDesktopExactlyWhen` | internal/authservice/pairing.go:205-285 | every interleaving keeps at most one active pairing per license and desktop if and only if no plan allows more than one pairing |
| `AuthOverlap.ReplacedPhoneGetsNoToken` | internal/authservice/handlers.go:227-338 | under any interleaving, once a pairing has another phone and until the old one is written back, no issue or refresh request that begins from then on mints a token for the old phone on that pairing |
| `AuthHandlers.OpeningTwiceIsOpeningOnce` | internal/authservice/handlers.go:110-139 | provisioning an open license again, at any time, returns the same license and creates nothing |
| `AuthHandlers.RegisterOrFind` | internal/authservice/handlers.go:194-213 | the device returned has the asked account and role, and only the device table grows |
| `AuthHandlers.FirstMatchIsLowest` | internal/authservice/pairing.go:427-438 | the first match in the sorted listing is the lowest pairing of the license with the desktop |
| `AuthHandlers.AuthService.constructor` | internal/authstore/memory/memory.go:35-49 | an empty store |
| `AuthHandlers.AuthService.FindOrRegister` | internal/authservice/handlers.go:194-213 | find by key, else insert under the account's device cap |
| `AuthHandlers.AuthService.FindDevice` | internal/authstore/memory/memory.go:230-252 | the lowest device with the account, role and key, if there is one |
| `AuthHandlers.AuthService.CountDevices` | internal/authstore/memory/memory.go:218-228 | the loop counts the account's devices |
| `AuthHandlers.AuthService.ProvisionOpenLicense` | internal/authservice/handlers.go:110-139 | the first active license of the account, else a new one with its own subscription |
| `AuthHandlers.AuthService.ActivePairingForDesktop` | internal/authservice/pairing.go:427-438 | the lowest active pairing of the license with the desktop, or none |
| `AuthHandlers.AuthService.CreateToken` | internal/authservice/pairing.go:44-113 | the checks in order, the key stored, and a token only if all pass |
| `AuthHandlers.AuthService.Complete` | internal/authservice/pairing.go:149-225 | the checks in order, then the writes: answer and new state are those of the completion function; exactly when it succeeds and what it writes is stated in AuthAnswers |
| `AuthHandlers.AuthService.MobileFor` | internal/authservice/pairing.go:183-198 | the named phone if it is the account's, else the one with the key, registered if need be |
| `AuthHandlers.AuthService.WritePairing` | internal/authservice/pairing.go:230-305 | token, key, pairing (counted again at the insertion), eviction and credential, in that order, add up to the writes of the completion function, the refused insertion included |
| `AuthHandlers.RecountAccepts` | internal/authservice/pairing.go:218-285 | one at a time, the count at the insertion never refuses what the advisory count let pass, and the new pairing fits under max_pairs |
| `AuthHandlers.AuthService.UnpairDevices` | internal/authservice/pairing.go:370-406 | pairing and credential are revoked for a caller of the pairing's account, and nothing happens otherwise |
| `AuthHandlers.AuthService.Issue` | internal/authservice/handlers.go:227-266 | a token only for a member device of an active pairing whose license allows it; a pair credential only for its own pair and phone; how long the token is good for is stated in AuthAnswers |
| `AuthHandlers.AuthService.JudgeRefresh` | internal/authservice/handlers.go:272-330 | the checks of a refresh in the handler's order |
| `AuthHandlers.AuthService.Refresh` | internal/authservice/handlers.go:272-366 | rotate, withdraw, revoke the chain, or refuse, each exactly when AuthAnswers says |
| `AuthSerial.StepSound` | internal/authservice/pairing.go:149-311 | every handler and every billing event keeps ownership, one active pairing per license and desktop, and live credentials |
| `AuthSerial.EveryRunKeepsOwnership` | internal/authservice/pairing.go:44-311 | after any serial run the license and both devices of every pairing belong to its account in the right roles, a license has at most one active pairing per desktop, and each active pairing has a live credential naming its present phone |
| `AuthSerial.ReuseRevokesAll` | internal/authservice/handlers.go:282-298 | presenting a revoked refresh token is refused and revokes every token of its device |
| `AuthSerial.ReuseKillsTheDevice` | internal/authservice/handlers.go:272-338 | from then on, until a new issuance to that device, every refresh with one of its tokens is refused, however the run goes on |
| `AuthSerial.BillIsFramed` | internal/billing/stripe.go:191-470 | no billing event touches devices, tokens or credentials, revives a pairing, or moves a license to another account |
| `AuthPairing.CompletionMeans` | internal/authservice/pairing.go:149-311 | a successful completion leaves one active pairing of the token's desktop, license and account with the phone and its key, touches no other pairing, and spends the token for good |
| `AuthPairing.EvictedPhoneIsLockedOut` | internal/authservice/pairing.go:245-300 | at the moment a phone is replaced all its refresh tokens are revoked, no caller gets it a token for the pair, and the pair's old secret is refused |
| `AuthLockout.ReplacedPhoneStaysLockedOut` | internal/authservice/pairing.go:245-300 | after any serial run and on every continuation in which no completion pairs the replaced phone with the pair again: no caller and no refresh gets it a token for the pair, and the secret it held is refused |
| `AuthLockout.StepKeepsOut` | internal/authservice/pairing.go:149-311 | no handler and no billing event lets a locked-out phone back in, save a completion that pairs it again |
| `AuthAlone.RefreshAloneIsHandler` | internal/authservice/handlers.go:272-366 | a refresh of the race model stepped alone leaves the store and the answer of the refresh handler |
| `AuthAlone.IssueAloneIsHandler` | internal/authservice/handlers.go:227-266 | an issuance stepped alone is the issue handler for every caller within its scope, and the others are refused at once |
| `AuthAlone.UnpairAloneIsHandler` | internal/authservice/pairing.go:370-406 | an unpairing stepped alone is the unpair handler |
| `AuthAlone.CompletionAloneIsHandler` | internal/authservice/pairing.go:149-311 | a completion that names its phone, stepped alone, leaves the store and the answer of the completion handler |
| `AuthAlone.RegisteredCompletionIsHandler` | internal/authservice/pairing.go:149-311 | a completion that names no phone is the registration of its phone followed by a completion stepped alone |
| `AuthPairing.RefreshTokensStayInAccount` | internal/authservice/handlers.go:342-360 | after any serial run the pair and the device of every refresh token belong to the token's account |
| `AuthPairing.RefusedCompletionWritesNothing` | internal/authservice/pairing.go:149-240 | a refused completion has at most registered the phone; no token, pairing, refresh token or credential changed |
| `AuthPairing.IssuedExactlyWhenEntitled` | internal/authservice/handlers.go:227-266 | an account is issued a token if and only if the pairing is its own and active, the device is that pairing's phone or desktop, the license is active and, with billing, its subscription trialing, active, or past due without a deadline or before it |
| `AuthPairing.PhoneIssuedExactlyWhenEntitled` | internal/authservice/auth.go:77-112 | a bearer of a pair secret is issued a token if and only if it is the live secret of that very pair and asks for the pair's phone, and that phone is entitled |
| `AuthPairing.RefreshedExactlyWhenEntitled` | internal/authservice/handlers.go:272-366 | a refresh is granted if and only if its token is neither revoked nor expired and its device is still entitled |
| `AuthAnswers.RegistersExactlyWhen` | internal/authservice/handlers.go:194-213 | a device is found if one of the account has the key in that role, the oldest one; else registered with just these fields if and only if the account is under its cap |
| `AuthAnswers.DeviceCapHolds` | internal/authservice/handlers.go:194-213 | after any serial run no account has more devices than the cap |
| `AuthAnswers.TokenMadeExactlyWhen` | internal/authservice/pairing.go:44-113 | a pairing token is made if and only if the license is the account's own and good, the desktop the account's own with a key, and the desktop is paired there already or the license has room |
| `AuthAnswers.TokenMadeIs` | internal/authservice/pairing.go:84-113 | the token is for just that license and desktop and expires after the pairing-token lifetime; a key given along is stored |
| `AuthAnswers.CompletesExactlyWhen` | internal/authservice/pairing.go:149-240 | a pairing is completed if and only if the token is unspent and before its expiry, its license good, the phone's key given, the phone the account's own or to be found or registered under the cap, the desktop keyed, and the desktop paired there already or the license with room |
| `AuthAnswers.CompletionWrites` | internal/authservice/pairing.go:230-305 | all that a success writes: the pairing, the key, the spent token, a credential with a secret drawn now, and the revocation of the replaced phone's tokens if and only if the phone is another one |
| `AuthAnswers.PairingTokenLives` | internal/authservice/pairing.go:84-163 | after any serial run a pairing token made at an instant completes a pairing at any time of any continuation if and only if it is unspent, its lifetime has not passed, and the other conditions hold |
| `AuthAnswers.IssuedTokenLives` | internal/authservice/handlers.go:227-366 | after any serial run a token issued at an instant can be refreshed at any time of any continuation if and only if it is unrevoked, the refresh lifetime has not passed since, and the device asked for is entitled on the pair asked for |
| `AuthAnswers.RotatedTokenLives` | internal/authservice/handlers.go:272-366 | the same for a token that a refresh hands out, with the old token's device and pair |
| `AuthAnswers.RefreshLeaves` | internal/authservice/handlers.go:272-338 | a grant revokes the old token and adds one; a live token of a device no longer entitled is revoked; an expired or unknown one changes nothing; a revoked one takes the tokens of its device with it and no others |
| `AuthAnswers.UndoneExactlyWhen` | internal/authservice/pairing.go:370-406 | a pairing is undone if and only if the caller is its account or bears the pair's live secret; then it is revoked, no secret of it is good, and nothing else changes |
| `AuthAnswers.OpenLicenseMeans` | internal/authservice/handlers.go:110-139 | without billing an account gets its first active license, or a new one for one pairing under a subscription that stays in good standing |
| `Billing.Sorted` | internal/authstore/memory/memory.go:165-176 | a listing has exactly the given ids, strictly ascending |
| `Billing.Processor.constructor` | internal/billing/stripe.go:63-77 | the processor works on the given store with the given grace period |
| `Billing.Processor.FindAccount` | internal/billing/stripe.go:457-470 | the customer's account, created on first sight; no customer, no account |
| `Billing.Processor.Provision` | internal/billing/stripe.go:369-400 | the loop adds the missing licenses and no more, under the keys that are drawn |
| `Billing.Processor.CutLicense` | internal/billing/stripe.go:415-434 | the inner loop revokes and announces the active pairings in order, stops at the first failed announcement, and publishes those before it |
| `Billing.Processor.EnforceLicense` | internal/billing/stripe.go:409-434 | the body of that loop: the license is marked, then its pairings are cut |
| `Billing.Processor.EnforceLicenses` | internal/billing/stripe.go:404-437 | the loop over the licenses, with the state and the published announcements a failure leaves behind |
| `Billing.Processor.ReactivateLicenses` | internal/billing/stripe.go:440-453 | the loop makes the subscription's licenses active |
| `Billing.Processor.Sync` | internal/billing/stripe.go:330-365 | mirror, provision, then enforce or reactivate |
| `Billing.Processor.OnSubscriptionUpserted` | internal/billing/stripe.go:249-259 | resolve the account and sync |
| `Billing.Processor.OnSubscriptionDeleted` | internal/billing/stripe.go:261-280 | mirror as canceled and enforce |
| `Billing.Processor.OnCheckoutCompleted` | internal/billing/stripe.go:191-231 | link the account and sync what was fetched |
| `Billing.Processor.OnPaymentFailed` | internal/billing/stripe.go:282-299 | past due, with a deadline only if there is none |
| `Billing.Processor.OnInvoicePaid` | internal/billing/stripe.go:301-323 | the deadline is cleared and the licenses are reactivated |
| `Billing.Processor.Reconcile` | internal/billing/reconcile.go:14-41 | the loop goes on after errors; it reports success exactly when every listed subscription was healed |
| `BillingSync.ProvisionTopsUp` | internal/billing/stripe.go:369-400 | provisioning leaves max(had, max_pairs) licenses, keeps every existing one, and touches no other subscription's, whatever keys are drawn |
| `BillingSync.EnforceIs` | internal/billing/stripe.go:404-437 | enforcement succeeds if and only if no affected pairing's announcement fails; then it is one cutoff of all licenses and pairings; failed, it has only revoked |
| `BillingSync.ReactivateIs` | internal/billing/stripe.go:440-453 | reactivation is one update of the subscription's licenses |
| `BillingSync.SyncSettles` | internal/billing/stripe.go:330-365 | after an error-free sync Revoked means every license revoked and no active pairing, Valid or Grace means every license active; Suspended changes neither |
| `BillingSync.SyncFailsExactlyWhen` | internal/billing/stripe.go:330-365 | a sync fails if and only if it cuts off and announcing one of the affected active pairings fails |
| `BillingSync.SyncMirrors` | internal/billing/stripe.go:330-350 | the mirror has Stripe's status, max_pairs and period end under the account, with the deadline kept, set or cleared as past due demands; no other mirror changes |
| `BillingSync.SyncMeans` | internal/billing/stripe.go:330-365 | in statuses and times: in good standing every license is active and no pairing touched; paused, neither changes; over, an error-free sync leaves every license revoked and no pairing active |
| `BillingSync.SyncAnnouncesExactly` | internal/billing/stripe.go:355-437 | a sync is an error if and only if the mirror is not in good standing and a pairing active under the subscription cannot be announced |
| `BillingSync.SyncPublishes` | internal/billing/stripe.go:355-437 | a sync in good standing announces nothing; any other announces only pairings active under the subscription, and every one of them unless it is an error |
| `BillingSync.SyncCounts` | internal/billing/stripe.go:330-400 | however it ends, a sync leaves max(had, max_pairs) licenses, only revokes pairings, and leaves other subscriptions alone |
| `BillingRuns.GraceCountsFromSpellStart` | internal/billing/stripe.go:261-365 | after any history of events and reconciliations a mirror has the last announced status, a deadline if and only if it is past due, equal to the start of the current past-due spell plus the grace period; there evaluation turns from Grace to Revoked |
| `BillingRuns.LicensesMatchLargestPlan` | internal/billing/stripe.go:330-400 | after any history the number of licenses of a subscription is the largest max_pairs a sync carried |
| `BillingRuns.EverySyncSettles` | internal/billing/stripe.go:249-453 | after any history every error-free subscription event leaves the licenses saying what the mirror evaluates to |
| `BillingRuns.DeletionCutsOff` | internal/billing/stripe.go:261-280 | an error-free cancellation leaves the mirror canceled, every license revoked and no pairing of theirs active |
| `BillingRuns.CheckoutSettles` | internal/billing/stripe.go:191-231 | an error-free checkout links the customer to the given account, mirrors the fetched subscription under it, and leaves its licenses saying what the mirror evaluates to |
| `BillingRuns.PaidAgreesExactlyWhen` | internal/billing/stripe.go:301-323 | after a paid invoice the licenses agree with a revoking mirror if and only if the status was not terminal or there are no licenses |
| `BillingAnswers.AccountResolved` | internal/billing/stripe.go:457-470 | a known customer keeps its account and nothing changes; a new one gets a new account linked both ways |
| `BillingAnswers.UpsertAnswers` | internal/billing/stripe.go:249-259 | without a customer an error that changes nothing; else the mirror is Stripe's report under the customer's account, and an error if and only if it is not in good standing and an active pairing cannot be announced |
| `BillingAnswers.DeletedAnswers` | internal/billing/stripe.go:261-280 | a canceled mirror without a deadline, no new license, and an error if and only if an active pairing cannot be announced |
| `BillingAnswers.DeletedPublishes` | internal/billing/stripe.go:261-280 | a cancellation announces only pairings active under the subscription, and every one of them unless it is an error |
| `BillingAnswers.CheckoutAnswers` | internal/billing/stripe.go:191-231 | the customer is linked to the named account or its own even if the handler then fails; it fails without a customer, without a subscription, or as a sync fails |
| `BillingAnswers.FailedAnswers` | internal/billing/stripe.go:282-299 | a mirrored subscription becomes past due and keeps a deadline it had; an unknown one is an error |
| `BillingAnswers.PaidAnswers` | internal/billing/stripe.go:301-323 | the deadline is cleared, past due becomes active, the licenses become active, no pairing changes; an unknown subscription is no error |
| `BillingStops.EnforcementCompleteExactlyWhen` | internal/billing/stripe.go:404-437 | revoking enforcement, interrupted or not, leaves every license revoked with no active pairing if and only if each announcement that fails is the last thing it would do |
| `Reconciliation.PassHealsExactly` | internal/billing/reconcile.go:14-41 | a pass heals exactly the listed subscriptions that settle when their turn comes: no failing announcement of a revoked one is followed by anything left to enforce, on a license it has or on one whose key will be drawn |
| `Reconciliation.ReconcileIdempotentExactlyWhen` | internal/billing/reconcile.go:14-41 | for distinct ids and a fixed clock a second pass in which nothing fails leaves the whole store unchanged if and only if in the first pass every failing announcement of a revoked subscription was the very last thing its sync would do, given the keys drawn; then no second pass changes anything, whatever fails in it |
| `Reconciliation.IdempotentForEveryDrawExactlyWhen` | internal/billing/reconcile.go:14-41 | the second pass changes nothing for every draw of license keys if and only if, on the store before the first, each failing announcement of a revoked subscription comes last and that subscription lacks no license |
| `Reconciliation.ReconcileIsIdempotent` | internal/billing/reconcile.go:14-41 | in particular a second pass changes nothing after a pass in which no announcement failed or no error was reported |
| `AuthSerial.ReconcilingTwiceAfterAnyRun` | internal/billing/reconcile.go:14-41 | both equivalences, for the drawn keys and for every draw, for the store after any serial run |
| `Reconciliation.ErrorFreePassMirrors` | internal/billing/reconcile.go:14-41 | after an error-free pass every listed subscription is mirrored with Stripe's status and max_pairs |
| `Reconciliation.StoppedPassLeavesWork` | internal/billing/stripe.go:404-437 | a family of the failing side: when announcing the lower of two active pairings of one license of a revoked subscription fails, the next pass still changes the store, whatever keys are drawn |
| `Webhooks.CountChances` | internal/billing/stripe.go:119-147 | a failed event has 5 - attempts chances left |
| `Webhooks.ReplaceChances` | internal/billing/stripe.go:119-147 | changing one event changes the sum of (5 - attempts) by that event's share |
| `Webhooks.PassCosts` | internal/billing/stripe.go:119-147 | every pass lowers the sum of (5 - attempts) by at least one per listed event and keeps attempts within 1 to 4 |
| `Webhooks.Processor.constructor` | internal/billing/stripe.go:63-77 | no events |
| `Webhooks.Processor.Record` | internal/billing/stripe.go:94-102 | an event id is recorded once, as pending |
| `Webhooks.Processor.Process` | internal/billing/stripe.go:107-115 | success is processed, failure is failed with one attempt, and no other event changes |
| `Webhooks.Processor.ListFailed` | internal/authstore/memory/memory.go:611-626 | the oldest failed events first, as many as the limit allows |
| `Webhooks.Processor.Oldest` | internal/authstore/memory/memory.go:611-626 | an event received no later than any other of the given ones |
| `Webhooks.Processor.RetryOne` | internal/billing/stripe.go:125-144 | processed if and only if it can be decoded and its dispatch succeeds, dead if and only if it cannot or fails with four attempts behind it, else failed with one more attempt |
| `Webhooks.Processor.RetryListed` | internal/billing/stripe.go:124-146 | the loop retries every listed event once; processed counts the listed decodable ids whose dispatch succeeds, dead those that cannot be decoded or fail with four attempts behind them |
| `Webhooks.Processor.RetryFailed` | internal/billing/stripe.go:119-147 | the same counts for the pass over a listing, which costs at least one chance per listed event |
| `Webhooks.PassMeans` | internal/billing/stripe.go:119-147 | a pass makes of every listed event what its own dispatch says and leaves the others alone |
| `Webhooks.PassCountsMean` | internal/billing/stripe.go:119-147 | the events a pass ends as processed or dead are those told from the store before it |
| `Webhooks.QueueDrains` | internal/billing/stripe.go:119-147 | as many passes as there are chances left leave nothing failed |
| `WebhookRuns.StepSound` | internal/authservice/handlers.go:401-421 | every delivery, listing and retry, in any interleaving, keeps the count of dispatches in step with the recorded attempts |
| `WebhookRuns.AtMostFiveDispatches` | internal/billing/stripe.go:107-147 | on every run no event is dispatched more than five times, and a failed one has 1 to 4 attempts, as many as its dispatches |
| `WebhookRuns.StatusTellsTheDispatches` | internal/billing/stripe.go:107-147 | on every run an event is processed if and only if its last dispatch succeeded, dead if and only if a retry could not decode it or five dispatches failed, and never dispatched after a success |
| `WebhookRuns.FinalForEver` | internal/authstore/memory/memory.go:586-609 | processed and dead are terminal: never changed, never dispatched again |
| `WebhookRuns.RetriesBoundedByFailures` | internal/billing/stripe.go:119-147 | on every run the retries made plus the chances left never exceed four per failed delivery |

## Left out

- HTTP, JSON, TLS, metrics, logging, configuration and process start-up: plumbing without an invariant.
- Real cryptography, JWT signing and hashing: symbolic here; low-order points are not modelled.
- The Postgres store: the in-memory store is the reference.
- The keyed rate limiter: its token bucket lives in a library.
- Checkout claims, account secrets and their rotation, pairing-token polling: they repeat the single-use argument or only read. A handler's account is taken as authenticated; pair credentials are checked.
- The connection managers and transports of the SDKs, key stores, reconnect policy, endpoint validation, push wakers, and the Kotlin and Swift twins of the session layer.
- Presence across instances: only the newly connected side is informed by the code.
- Revocation broadcasts to relays, draining and shutdown of the hub, frame decoding and size limits.
- Timers: the monitor is modelled by what wakes it; that the expiry timer is reset to the right instant is not.
- Parsing of max_pairs from plan metadata: the parsed number is an input.
- Hub.RelayHub.Register: sessions are records in a table of the hub, not objects of their own; aliasing of a session is not captured.
- Hub.PresenceAlwaysTrue: about the notices addressed to a session; a full or closed queue may refuse one.
- Relay: the fine step system is a transition system on values; its registry and index are those of the classes in `Slots` and `Hub`.
- AuthRaces.TokenCompletesAtMostOnce: registering a phone during a completion is a step of its own, as any registration is; `AuthAlone` puts the two together.
- AuthHandlers.AuthService.Refresh: the store stamps a withdrawn token with its own clock; the model uses the handler's instant.
- Billing.Processor.Sync: one instant per event, where the code reads the clock several times; whether announcing a pairing's revocation fails is a set of pairings per event. A drawn license key is never one in use; the code relies on its length for that.
- Billing.Processor.OnCheckoutCompleted: binding a waiting checkout claim at the end of the handler is not modelled, because claims are left out.
- WebhookRuns: there is one retry worker; two workers on one store are not modelled.
- WebhookRuns: an event whose delivery stops between recording and dispatch stays pending; the retry worker lists failed events only, as in the code.
