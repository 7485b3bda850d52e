# A verified model of the zonal zero-trust authenticator

A zone node proves who it is by signing a random challenge; the gateway then keeps a session for it
and, whenever asked, hands the session key to the host or refuses. This project models that stack
and proves what it promises over whole runs.

- **Session table.** `SessionTable` gives the eight-slot table and its ring of slot indices as
  functions; `TokenLifecycleManager` and `StaticCircularBuffer` are the classes that update them in
  place, proved to compute exactly these functions. Client ids stay behind in dead slots and lookup
  takes the first match, so `SessionInvariants` shows that an active or locked slot is always the
  lowest carrying its id, and `SessionRegistry` that the table then behaves as a map from client to
  session. `SessionRuns`, `StrikePolicy` and `Bans` hold the laws over runs: lockout, capacity,
  conservation, age order, expiry, and the three-strike rule.
- **Handshake and adaptor.** `Handshake` and `SpdmProtocolEngine` are the four-state engine;
  `Gateway` and `SomeIpAdaptor` the pool of eight engines, the table and the gate. `GatewayInvariants`,
  `Provenance`, `Admission`, `Pool`, `Agreement` and `Eviction` hold the theorems about runs: where an
  accepted session comes from, that a challenge is spent once, that an honest client gets in, who gets
  an engine, when engine and table agree, and when an admission costs another client its session.
  `EvictionRuns` builds runs in which it does. `Answers` says of each hook exactly when it gives which
  answer, and `Transmissions` what the adaptor sends over a run.
- **Software cryptography.** `SecureHash` and `KeyDerivation` state SHA-256, HMAC and HKDF after
  FIPS 180-4, RFC 2104 and RFC 5869; `Sha256` and `SoftwareCryptoProvider` are the loops of the
  source, proved equal to them. `HashConstants` ties the constants to the roots of the first primes,
  and `KnownAnswers`, over the steps in `HashSteps`, computes published examples of both functions.
  `RegisterWords`, `Lfsr` and `Cycles` treat the shift register behind the nonces: its powers by
  squaring, and from them the length of every cycle; `Nonces` says when nonces repeat. `Numbers` and
  `Iteration` hold the arithmetic and the facts about repeated functions this needs.
  `SoftwareGateway` puts everything together: what a key from the gate is when the adaptor runs on
  this provider, and that its nonces are fresh over whole runs; `SoftwareRuns` gives concrete
  runs of adaptor and provider.

Time is an unsigned 64-bit count of milliseconds whose differences wrap. The platform is a parameter:
`Handshake.Platform` holds the answers it gives during one call, arbitrary functions and statuses, and
they may differ from call to call; a drawn nonce comes with a request. The two callbacks are logs of
what they were called with. A host is taken to be little-endian where the source copies words to bytes.
SHA-256 is proved for `size_t` of 64 bits; a narrower `size_t` admits only shorter messages, for
which the same statements hold.

## Where the code and its documentation differ

The model follows the code. Each difference is stated exactly:

- The register is documented as of maximal length (src/CryptoPlatformInterface.cpp:168-169). It is so
  for no seed: every register returns after at most 31 * 33 * 131071 = 134,085,633 steps
  (`Cycles.NoSeedIsMaximal`). `Cycles.ReturnsIff` gives the exact cycle length of every seed, from three
  tests a caller can make; `Nonces.NoncesRepeatIff` says from it when two nonces are equal. The default
  seed has the full length; 31 seeds have length 31, the least there is.
- A client is to be locked out after three failures of its own
  (include/zzta/TokenLifecycleManager.hpp:62-68). The count belongs to the slot and changes hands with
  it (`StrikePolicy.StrikesStayWithTheSlot`), and failures before the first admission find no slot
  (`Admission.LockoutNeedsAdmission`). `StrikePolicy.LockedIffSlotStruckThrice` says exactly when a
  client is locked out in any run; the rule as documented holds in runs naming one client, and while
  no registration moves the client.
- The count is to be reset on a clean validation (src/TokenLifecycleManager.cpp:124); validation never
  touches it (`SessionRuns.ValidateStrikes`), and nothing ever lowers it (`SessionRuns.StepStrikes`).
- The table is said never to stay full (docs/TARA.md:182). It refuses exactly when all eight slots are
  locked out (`SessionRuns.RefusedIffAllLocked`), and then for good (`SessionRuns.FullForGood`); any
  eight clients lead there (`Bans.EightBansFillTheTable`).
- Revoking the all-zero id is accepted and marks an unused slot; three anomalous revocations lock it,
  and eight clients then share seven slots. `GatewayInvariants.NeverEvicts` covers the runs without
  such revocations. For all states, `Eviction.ResponseEvictsIff` and
  `GatewayInvariants.SessionErrorIffAllLocked` say exactly when a response ends another client's session
  and when it returns kSessionError; `SoftwareRuns.CrowdingHappens` shows that both occur.
- An offer is to evict the oldest session when all slots are taken, and to be refused outside the peer
  table (include/zzta/SomeIpAdaptor.hpp:222-231). It does neither: `Pool.OfferAnswers` says exactly when
  it gets each answer. Pool slots are never freed (`GatewayInvariants.PoolGrows`), so once eight ids
  have been offered every other client is shut out for good (`Pool.ShutOut`, `Pool.EightOffersShutOut`).
- The tests call the hash of the software provider an approximation of SHA-256
  (tests/test_zzta_core.cpp:158-161). It is SHA-256 (`Sha256Software.Sha256Impl`,
  `KnownAnswers.HashOfAbc`).
- `HandleRevocation` is never registered: the table notifies the user callback directly, and engine and
  table come apart (`SoftwareRuns.ComingApartHappens`). `Agreement.EveryRunAgrees` says exactly when a
  client has a session and when it has an authenticated engine, after every run.

## Model

| member | source | states |
|---|---|---|
| `Provenance.GateProvenance` | src/SomeIpAdaptor.cpp:194-272 | in any run, when the gate answers kOk for `c` the history holds an offer, then a challenge drawn for `c`, then a successful response of `c`, with no other successful offer or challenge and no revocation of `c` between them and no other response of `c` since the challenge; its signature was accepted under the first peer-table key of `c`, the key handed out is the one derived from that nonce, the response is at most 30 s old, and no revocation or further response of `c` came after it |
| `Provenance.ReturnOrder` | src/SomeIpAdaptor.cpp:101-291 | after a revocation of `c` the gate opens for `c` again only behind a new offer, challenge and response of `c`, each kOk and in this order, however calls of other clients interleave |
| `Provenance.OneTokenPerDraw` | src/SpdmProtocolEngine.cpp:60-210 | every successful response of a run spends a challenge of the same client, and no challenge is spent by two responses |
| `Provenance.ChallengesAreSpentOnce` | src/SpdmProtocolEngine.cpp:119-210 | two tokens of one client rest on challenges in the order challenge, token, challenge, token |
| `Provenance.EveryRunTraced` | src/SomeIpAdaptor.cpp:101-291 | every reachable state agrees with the history: each pooled engine, each live session and each successful response has the calls behind it that its phase or content claims |
| `Provenance.OtherEngine` | src/SomeIpAdaptor.cpp:150-236 | a call that does not offer, challenge, answer for or revoke `c` leaves the engine of `c` as it is, except that a refused request can leave another nonce in the buffer of an unauthenticated engine |
| `Agreement.EveryRunAgrees` | src/SomeIpAdaptor.cpp:101-291 | for every run and client: never admitted, it has no session and no authenticated engine; once admitted, it has the session of its last admission if and only if no later call ended it, and an authenticated engine if and only if it was neither offered again nor revoked since |
| `Agreement.LosesIff` | src/SomeIpAdaptor.cpp:101-291 | a live session is gone after a call if and only if the call is a revocation of the client, a failed response of it, a tick or a query that finds the session stale, or the admission of another client while eight others than that one hold a session or a lock and this session is the oldest |
| `Agreement.StaysAuthenticatedIff` | src/SomeIpAdaptor.cpp:101-291 | an authenticated engine stays so after a call if and only if the call neither offers its client with success nor revokes it |
| `Agreement.StillAuthenticated` | src/SomeIpAdaptor.cpp:194-236 | an engine becomes authenticated only by the admission of its client |
| `Agreement.ReofferComesApart` | src/SomeIpAdaptor.cpp:122-129 | offering an admitted client again resets its engine and leaves its session |
| `Agreement.ExpiryComesApart` | src/SomeIpAdaptor.cpp:242-245 | a tick that finds a session stale ends it and leaves the engine authenticated |
| `Agreement.ResponseComesApart` | src/SomeIpAdaptor.cpp:215-223 | a further response of an authenticated client ends its session and leaves the engine authenticated |
| `SoftwareRuns.ComingApartHappens` | src/SomeIpAdaptor.cpp:101-245 | for every seed of the software provider: in the run in which it admits one client, one more call leaves a live session beside an idle engine, or an authenticated engine without a session |
| `GatewayInvariants.RunKeepsGateway` | src/SomeIpAdaptor.cpp:101-291 | over any run: pool records carry distinct non-zero ids, every engine in kChallengeSent holds the id of its own record and that id is in the peer table, every id in the session table is zero or that of a pooled client, and the table invariant holds |
| `GatewayInvariants.StepKeepsGateway` | src/SomeIpAdaptor.cpp:101-291 | each hook keeps that invariant |
| `GatewayInvariants.PoolGrows` | src/SomeIpAdaptor.cpp:101-144 | no call ever frees or moves the pool slot of a client |
| `GatewayInvariants.NoMismatchThroughAdaptor` | src/SpdmProtocolEngine.cpp:127-143 | through the adaptor a response never reaches the id-mismatch branch, and in kChallengeSent the peer key is always found |
| `GatewayInvariants.NeverEvicts` | src/SomeIpAdaptor.cpp:194-236 | in a run without anomalous revocations of the all-zero id no response returns kSessionError, and admitting a client replaces or adds its own session and leaves every other session and lockout unchanged |
| `Eviction.ResponseEvictsIff` | src/SomeIpAdaptor.cpp:194-236 | in every reachable state, with or without that condition: a response of `c` ends the session of another client if and only if it is admitted while eight clients other than `c` hold a session or a lock and that client holds the oldest of these sessions; then the all-zero id is locked; every other session keeps its content |
| `Eviction.EvictsIff` | src/TokenLifecycleManager.cpp:98-112 | the same for the table alone, whatever uses it |
| `Eviction.CrowdedOnlyByZero` | src/SomeIpAdaptor.cpp:101-144 | eight others beside a pooled client that is not locked out take a lock on the all-zero id |
| `EvictionRuns.HandshakeRegisters` | src/SomeIpAdaptor.cpp:101-236 | offer, request and accepted response of a new client, in any state with room in the pool, register its token and answer kOk or kSessionError as the table does |
| `EvictionRuns.EighthEvictsFirst` | src/TokenLifecycleManager.cpp:98-112 | for any eight clients with accepted signatures of the nonces drawn for them, equal or not: three anomalous revocations of the all-zero id and seven handshakes lead to a state in which the eighth handshake is answered kOk and ends the session of the first client |
| `EvictionRuns.EighthIsRefused` | src/SomeIpAdaptor.cpp:225-233 | for any eight such clients: if each of the first seven is revoked three times as an anomaly after its handshake, the eighth handshake is answered kSessionError |
| `SoftwareRuns.CrowdingHappens` | src/SomeIpAdaptor.cpp:194-236 | for every seed of the software provider both runs exist, with eight concrete clients challenged with the successive nonces it draws |
| `SoftwareRuns.EvictionOnProvider` | src/SomeIpAdaptor.cpp:194-236 | any eight clients that sign the nonces one provider draws for them in turn: the run of adaptor and provider leads to the eviction |
| `SoftwareRuns.RefusalOnProvider` | src/SomeIpAdaptor.cpp:194-236 | any eight such clients: the run of adaptor and provider leads to the refusal |
| `GatewayInvariants.PooledIsAdmitted` | src/TokenLifecycleManager.cpp:98-112 | with the adaptor around it and the all-zero id not locked out, RegisterToken always finds a free slot for a pooled client that is not locked out: its session is replaced or added, and nobody is evicted |
| `GatewayInvariants.RoomForPooled` | src/TokenLifecycleManager.cpp:318-329 | pigeonhole: the sessions and bans other than that of `c` fill fewer than eight slots |
| `GatewayInvariants.SessionErrorIffAllLocked` | src/SomeIpAdaptor.cpp:225-233 | without that restriction on the run, an accepted response returns kSessionError if and only if all eight slots are locked |
| `Pool.OfferAnswers` | src/SomeIpAdaptor.cpp:101-144 | exactly when an offer is answered kInvalidParam, kLockedOut, kSlotExhausted or kOk: it is refused for want of a slot if and only if the client is outside a full pool; a refusal changes nothing, and the peer table has no part in the answer |
| `Pool.PooledIffOffered` | src/SomeIpAdaptor.cpp:101-144 | over every run a client has an engine if and only if some offer of it succeeded |
| `Pool.ShutOut` | src/SomeIpAdaptor.cpp:101-163 | once the pool is full, after every later run each offer of a client outside is answered kSlotExhausted and each of its requests and responses kUnknownPeer |
| `Pool.EightOffersShutOut` | src/SomeIpAdaptor.cpp:101-144 | offers of any eight distinct non-zero ids, in the peer table or not, shut out every other client after every later run |
| `Admission.HonestClientIsAdmitted` | src/SomeIpAdaptor.cpp:101-272 | in every state reached without anomalous revocations of the all-zero id, a known client that is not locked out and has or finds a pool slot passes offer, request and response with kOk whatever went before, and the gate then returns its derived key for 30 s |
| `Admission.OthersLeaveAlone` | src/SomeIpAdaptor.cpp:101-291 | in the same states a call that does not mention `c` leaves its session, lockout, pool membership and engine unchanged; only a tick ends its session, exactly when it is stale |
| `Admission.StrayResponse` | src/SomeIpAdaptor.cpp:215-223 | a response naming a client to which no challenge is in flight is answered kProtocolError, counts as an anomalous revocation of that client, and changes nothing else |
| `Admission.StraysLockOut` | src/SomeIpAdaptor.cpp:215-223 | from a live session, the first such response ends it and three of them in a row, whatever their signatures, lock the client out after every later run |
| `Admission.StraysLockOutAmongOthers` | src/SomeIpAdaptor.cpp:215-223 | three such responses lock an admitted client out for every later run, whatever other calls lie between them, while no registration moves the client |
| `Admission.StrikesLockOutIff` | src/SomeIpAdaptor.cpp:215-291 | in a run in which no registration moves the client the adaptor locks it out if and only if its slot's earlier anomalies and the calls of the run that count against it, failed responses and anomalous revocations, number three |
| `Admission.LockoutStands` | src/SomeIpAdaptor.cpp:101-291 | a lockout survives every later run of the adaptor |
| `Admission.LockedOutForGood` | src/SomeIpAdaptor.cpp:114-118 | after a lockout and any later run every offer and every gate query of that client answers kLockedOut and changes nothing |
| `Admission.LockoutNeedsAdmission` | src/SomeIpAdaptor.cpp:209-223 | a client that is locked out has completed a handshake before: failed responses of a client that was never admitted find no slot and are not counted |
| `SoftwareGateway.GateKeyIsDerived` | src/SomeIpAdaptor.cpp:251-272 | with the software provider, a key from the gate is HMAC(HMAC(salt, nonce and id), "zzta-session-v1" and the octet 1) for a nonce drawn for that client, answered at most 30,000 ms ago with SHA-256(d, salt) and SHA-256(salt, d) as the two halves of the signature, where d is SHA-256(nonce and id); and the client's key in the peer table is the built-in one |
| `SoftwareGateway.AcceptsIffSigned` | src/CryptoPlatformInterface.cpp:310-354 | the software platform accepts a response if and only if the peer key is the built-in key and the two halves of the signature are SHA-256(d, salt) and SHA-256(salt, d), where d is SHA-256(nonce and id); the key is then the HMAC of the info and 1 under the HMAC of nonce and id under the salt |
| `SoftwareGateway.SignerIsAdmitted` | src/SomeIpAdaptor.cpp:101-272 | a client that signs its challenge with these two halves is admitted, whatever went before, and gets that key |
| `SoftwareGateway.DrawsIffChallenge` | src/SpdmProtocolEngine.cpp:60-113 | on one provider the generator is asked exactly by the requests that are answered with a challenge |
| `SoftwareGateway.RunOnProvider` | src/CryptoPlatformInterface.cpp:183-195 | over every run of the adaptor on one provider the challenges carry its nonces in the order they are drawn, and its register has moved by one nonce for each |
| `SoftwareGateway.NoncesAgreeIff` | src/CryptoPlatformInterface.cpp:183-195 | two challenges of such a run carry the same nonce if and only if the cycle length of the seed divides the number of challenges between them |
| `SoftwareGateway.TokensCarryFreshNonces` | src/CryptoPlatformInterface.cpp:183-195 | over every such run two successful responses answered different challenges and, with no more challenges in the run than the seed's cycle is long, different nonces |
| `SoftwareGateway.HistoryIsRun` | src/SomeIpAdaptor.cpp:101-291 | the history used in these statements has exactly one entry per call, in order |
| `SoftwareGateway.SentInOrder` | src/SomeIpAdaptor.cpp:178-185 | over every run of the adaptor on one provider, with a transmit callback, the k-th challenge sent carries the k-th nonce the provider draws from its seed |
| `Transmissions.EveryChallengeIsSent` | src/SomeIpAdaptor.cpp:150-188 | over every run, with a transmit callback what was sent is, one for one and in order, the client and the drawn nonce of every request answered with kOk, and nothing else; without one nothing is sent |
| `Transmissions.StepSends` | src/SomeIpAdaptor.cpp:178-185 | each call keeps that agreement between what was sent and what was answered |
| `Answers.StartIsEmpty` | src/SomeIpAdaptor.cpp:67-95 | a new adaptor has eight idle engines, no occupied record, an empty table of eight slots, nothing sent and nothing notified, and the callbacks it was given |
| `Answers.OfferStartsOver` | src/SomeIpAdaptor.cpp:101-144 | a successful offer leaves the client a pooled engine in kUnauthenticated whose nonce and ids are all zero bytes, and touches no session |
| `Answers.RequestFrames` | src/SomeIpAdaptor.cpp:150-160 | a request frame is answered kInvalidFrame if and only if it is null or shorter than 12 bytes, and then changes nothing; otherwise bytes 0-7 are the id and 8-11 the version |
| `Answers.RequestAnswers` | src/SomeIpAdaptor.cpp:162-188 | a request is answered kUnknownPeer if and only if its client has no engine; kOk if and only if the engine is unauthenticated, the version is 1.16.0.0, some peer entry has the id and the generator answers kOk; else kProtocolError |
| `Answers.ResponseFrames` | src/SomeIpAdaptor.cpp:194-206 | a response frame is answered kInvalidFrame if and only if it is null or shorter than 72 bytes, and then changes nothing; otherwise bytes 0-7 are the id and 8-71 the signature |
| `Answers.ResponseAnswers` | src/SomeIpAdaptor.cpp:194-236 | in every reachable state: kUnknownPeer iff the client has no engine, kProtocolError iff no challenge of it is in flight or the platform does not accept the signature, else kLockedOut iff the client is barred, kSessionError iff eight others are, and kOk iff fewer are |
| `Answers.FailureLeaves` | src/SomeIpAdaptor.cpp:215-223 | a failed response revokes the token of its client as an anomaly, and its engine if that held a challenge |
| `Answers.AcceptanceLeaves` | src/SomeIpAdaptor.cpp:225-235 | an accepted response leaves the engine authenticated if the table took the token, and revoked if not |
| `Answers.TickEndsIff` | src/SomeIpAdaptor.cpp:242-245 | after a tick exactly the sessions of at most 30,000 ms are left, each as it was |
| `Answers.GateAnswers` | src/SomeIpAdaptor.cpp:251-272 | in every reachable state: kLockedOut iff the client is barred, kOk iff it is not barred and has a session of at most 30,000 ms, kNotAuthenticated iff it is not barred and has none; the key of that session comes with kOk, and no key otherwise |
| `Answers.GateLeaves` | src/SomeIpAdaptor.cpp:251-272 | a successful query notes its time in the session, one that finds no current session ends a stale one, and one of a barred client changes nothing |
| `Answers.RevocationAnswers` | src/SomeIpAdaptor.cpp:278-291 | a revocation answers kOk if and only if some slot carries the id, else kUnknownPeer; either way the client has no session left, everybody else keeps theirs, and an engine it has is revoked with its nonce zeroed |
| `Answers.RegistrationAnswers` | src/TokenLifecycleManager.cpp:62-131 | a registration answers kLockedOut iff the client is barred, kTableFull iff eight others are, kOk iff fewer are |
| `Answers.InactiveIsBlank` | src/TokenLifecycleManager.cpp:335-348 | in every state of `SessionInvariants.RunKeeps` a slot without a session holds only zero bytes for key and nonce, and no times |
| `SessionRegistry.RegisterRefines` | src/TokenLifecycleManager.cpp:62-131 | in every state with the table invariant, registering acts on a partial map from client to key, nonce and times, a set of barred clients and an age order: replace or add the session, else evict the head of the order, else kTableFull |
| `SessionRegistry.ValidateRefines` | src/TokenLifecycleManager.cpp:137-184 | validation on that map: kLockedOut for a barred client, kNotFound for none, kNotFound and removal for a stale session, else kOk, the stored key and a new last-seen time |
| `SessionRegistry.RevokeRefines` | src/TokenLifecycleManager.cpp:190-220 | revocation on that map: the session ends if there is one; the client is barred exactly when the anomaly is its slot's third; kOk exactly when some slot still carries the id |
| `SessionRegistry.SweepRefines` | src/TokenLifecycleManager.cpp:226-256 | the scan on that map: exactly the sessions older than 30 s go, the rest keep their content and order |
| `SessionRegistry.InitialRefines` | src/TokenLifecycleManager.cpp:36-56 | a new manager is the empty map |
| `SessionRegistry.ViewRepresents` | src/TokenLifecycleManager.cpp:293-312 | the map read off a table by first-match lookup represents it |
| `SessionRegistry.OnlyView` | src/TokenLifecycleManager.cpp:293-312 | a table represents no other map |
| `SessionRegistry.BarredIffSomeLocked` | src/TokenLifecycleManager.cpp:279-287 | IsLockedOut holds for a client exactly when some locked slot carries its id, and such a client has no session |
| `SessionRegistry.RetireLookup` | src/TokenLifecycleManager.cpp:335-348 | erasing a slot that keeps its stale id ends the session of its owner and of nobody else |
| `SessionRegistry.AdmitLookup` | src/TokenLifecycleManager.cpp:114-128 | filling a free slot below every other slot of the same client gives that client the new session and disturbs nobody |
| `SessionRegistry.OrderListsLive` | src/TokenLifecycleManager.cpp:128-128 | each client has at most one session, and the order lists exactly the clients with one |
| `SessionRegistry.Capacity` | src/TokenLifecycleManager.cpp:318-329 | sessions and barred clients together number at most eight, and no slot is free exactly when they number eight |
| `SessionRegistry.SweepToTable` | src/TokenLifecycleManager.cpp:226-256 | after the first `n` slots of the scan exactly the expired ones among them are erased and the others untouched |
| `SessionInvariants.RunKeeps` | src/TokenLifecycleManager.cpp:62-256 | over any run: the ring is duplicate-free and lists exactly the active slots; an active or locked slot is the first carrying its id; locked means three or more anomalies and not active; an inactive slot holds zero key, nonce and times |
| `SessionInvariants.StepKeeps` | src/TokenLifecycleManager.cpp:62-256 | each operation keeps that invariant |
| `SessionInvariants.OwnerIsFirst` | src/TokenLifecycleManager.cpp:293-312 | lookup by the id of an active or locked slot finds that very slot, despite stale ids |
| `SessionInvariants.PushNeverFails` | src/TokenLifecycleManager.cpp:128-128 | the ignored result of Push is never false: an inactive slot leaves room in the ring |
| `SessionInvariants.EvictOldestKeeps` | src/TokenLifecycleManager.cpp:102-112 | Pop always yields an active slot that is not locked, and evicting it leaves it free |
| `SessionInvariants.EndExistingKeeps` | src/TokenLifecycleManager.cpp:84-96 | for a client not locked out, no slot carrying its id is active or locked after the refresh step |
| `SessionRuns.LockoutIsPermanent` | src/TokenLifecycleManager.cpp:190-220 | IsLockedOut(c), once true, stays true after every later operation of any run |
| `SessionRuns.OnlyNamedIsBarred` | src/TokenLifecycleManager.cpp:190-220 | only an anomalous revocation naming a client can lock it out |
| `SessionRuns.LockedNeverDecreases` | src/TokenLifecycleManager.cpp:318-329 | the number of locked slots never decreases |
| `SessionRuns.SessionAfter` | src/TokenLifecycleManager.cpp:62-256 | a client's session after a step is the one just registered for it, or its earlier session with the same key, nonce and issue time |
| `SessionRuns.RefusedIffAllLocked` | src/TokenLifecycleManager.cpp:98-112 | for a non-zero id that is not locked out RegisterToken returns kTableFull if and only if all eight slots are locked, and kOk otherwise |
| `SessionRuns.FullForGood` | src/TokenLifecycleManager.cpp:98-112 | once all eight slots are locked the locked-out clients are settled: after every later run they are the same, and every other client is refused with kTableFull |
| `Bans.ThreeRevocationsBar` | src/TokenLifecycleManager.cpp:190-220 | three anomalous revocations in a row lock out any client whose id some slot carries, whatever came before, end its session and change no other client |
| `Bans.EightBansFillTheTable` | src/TokenLifecycleManager.cpp:98-112 | for any eight clients: once each has registered and been revoked three times as an anomaly all slots are locked, and after every later run every other client is refused with kTableFull |
| `SessionRuns.SessionsConserved` | src/TokenLifecycleManager.cpp:62-256 | client by client over any run, with or without a callback: live sessions at the end plus sessions ended by refresh, eviction, expiry or revocation equal live sessions at the start plus successful registrations |
| `SessionRuns.NoticesConserved` | src/TokenLifecycleManager.cpp:354-360 | with a callback, the notices sent over any run are the sessions ended plus the kOk revocations that found no live session, each under the id of its client |
| `SessionRuns.NobodyListens` | src/TokenLifecycleManager.cpp:354-360 | without a callback no notice is ever sent |
| `SessionRuns.StepStrikes` | src/TokenLifecycleManager.cpp:194-212 | a table operation changes the anomaly count of a slot only if it is an anomalous revocation that lookup resolves to that slot, and then by one, up to 255 |
| `SessionRuns.ValidateStrikes` | src/TokenLifecycleManager.cpp:137-184 | validation leaves every anomaly count as it is |
| `SessionRuns.StrikesAreCounted` | src/TokenLifecycleManager.cpp:194-212 | the anomaly counts in the table sum to the kOk anomalous revocations of the run, until one saturates at 255 |
| `SessionRuns.LockoutTakesThree` | src/TokenLifecycleManager.cpp:194-212 | three times the number of locked slots is at most the number of those revocations |
| `SessionRuns.OrderIsByAge` | src/TokenLifecycleManager.cpp:98-128 | while time does not run backwards the ring is sorted by issue time, in every reachable state |
| `SessionRuns.EvictsTheOldest` | src/TokenLifecycleManager.cpp:98-112 | a client other than the newcomer loses its session to a registration only if none of the others is older |
| `SessionRuns.NoSessionOutlivesTheScan` | src/TokenLifecycleManager.cpp:226-256 | with non-decreasing time and ticks at most 15 s apart no active session is ever older than 45 s |
| `SessionRuns.LazyEagerAgree` | src/TokenLifecycleManager.cpp:161-172 | validating gives the same status and key, and leaves the same sessions, with or without a scan at the same time before it |
| `StrikePolicy.ThirdStrikeLocksOut` | src/TokenLifecycleManager.cpp:194-212 | in a run naming one client it is locked out exactly from its third anomalous revocation that found a slot |
| `StrikePolicy.LockedIffSlotStruckThrice` | src/TokenLifecycleManager.cpp:194-212 | in any run at all a client is locked out if and only if the slot lookup finds for it has taken three anomalous revocations, whomever they named |
| `StrikePolicy.ThirdStrikeWhileInPlace` | src/TokenLifecycleManager.cpp:194-212 | the per-client rule holds among any other clients while no registration moves the client to another slot or its slot to another client |
| `StrikePolicy.MovesIff` | src/TokenLifecycleManager.cpp:98-128 | lookup finds another slot for a client after an operation if and only if that operation is a registration that moves it so |
| `StrikePolicy.StrikesStayWithTheSlot` | src/TokenLifecycleManager.cpp:114-128 | a run in which a client collects three anomalous revocations and is not locked out, because another client took over its slot and its first strike |
| `CircularBuffers.StaticCircularBuffer.Push` | include/zzta/TokenLifecycleManager.hpp:186-193 | appends `idx` cut to eight bits, unless the ring is full, for every capacity and wrap position |
| `CircularBuffers.StaticCircularBuffer.Pop` | include/zzta/TokenLifecycleManager.hpp:200-207 | returns and drops the first element, or reports an empty ring |
| `CircularBuffers.StaticCircularBuffer.Remove` | include/zzta/TokenLifecycleManager.hpp:217-233 | leaves every element other than `idx`, in order, and a ring whose tail again lies `count` places after its head |
| `CircularBuffers.StaticCircularBuffer.CopyOthers` | include/zzta/TokenLifecycleManager.hpp:219-228 | the loop collects every element other than `idx`, in order, at the front of a new array |
| `CircularBuffers.StaticCircularBuffer.constructor` | include/zzta/TokenLifecycleManager.hpp:163-170 | an empty ring of the given capacity |
| `CircularBuffers.WrapOnce` | include/zzta/TokenLifecycleManager.hpp:186-207 | the modulo of the source lands on the place counted from the head, for every wrap position |
| `CircularBuffers.WithoutMembers` | include/zzta/TokenLifecycleManager.hpp:217-233 | the filter Remove performs keeps exactly the other elements |
| `CircularBuffers.WithoutDistinct` | include/zzta/TokenLifecycleManager.hpp:217-233 | on a ring without duplicates it keeps it so, and takes out one element or none |
| `TokenLifecycle.TokenLifecycleManager.constructor` | src/TokenLifecycleManager.cpp:36-56 | the array and ring of a new manager are the initial state |
| `TokenLifecycle.TokenLifecycleManager.RegisterToken` | src/TokenLifecycleManager.cpp:62-131 | the new table, ring and notices and the status are those of the specification the lemmas above are about |
| `TokenLifecycle.TokenLifecycleManager.PlaceToken` | src/TokenLifecycleManager.cpp:98-130 | the free-slot, eviction and table-full branches, in the source's order |
| `TokenLifecycle.TokenLifecycleManager.Evict` | src/TokenLifecycleManager.cpp:102-112 | the popped slot is erased and reported under the id it carries |
| `TokenLifecycle.TokenLifecycleManager.Fill` | src/TokenLifecycleManager.cpp:114-128 | the slot gets the token and both times, keeps its anomaly state and is pushed |
| `TokenLifecycle.TokenLifecycleManager.EndSession` | src/TokenLifecycleManager.cpp:84-94 | the secrets are erased, the slot leaves the ring and one notice is sent |
| `TokenLifecycle.TokenLifecycleManager.ValidateToken` | src/TokenLifecycleManager.cpp:137-184 | status, key and new state as specified |
| `TokenLifecycle.TokenLifecycleManager.RevokeToken` | src/TokenLifecycleManager.cpp:190-220 | status and new state as specified, with the saturating count |
| `TokenLifecycle.TokenLifecycleManager.EvaluateTokenExpiry` | src/TokenLifecycleManager.cpp:226-256 | the state after the loop is that of the specified scan |
| `TokenLifecycle.TokenLifecycleManager.GetActiveSessionCount` | src/TokenLifecycleManager.cpp:262-273 | the number of active slots |
| `TokenLifecycle.TokenLifecycleManager.IsLockedOut` | src/TokenLifecycleManager.cpp:279-287 | whether the first slot carrying the id is locked |
| `TokenLifecycle.TokenLifecycleManager.FindSlotByClientId` | src/TokenLifecycleManager.cpp:293-312 | the first slot carrying the id, active or not |
| `TokenLifecycle.TokenLifecycleManager.FindFreeSlot` | src/TokenLifecycleManager.cpp:318-329 | the first slot that is neither active nor locked |
| `TokenLifecycle.TokenLifecycleManager.ZeroSlotSecrets` | src/TokenLifecycleManager.cpp:335-348 | key, nonce and times become zero; id and anomaly state stay |
| `TokenLifecycle.TokenLifecycleManager.NotifyRevocation` | src/TokenLifecycleManager.cpp:354-360 | one notice with that id if there is a callback, else none |
| `Handshake.IssuesIffAccepted` | src/SpdmProtocolEngine.cpp:119-210 | an engine issues a token if and only if it holds a challenge for that same client and the platform hashes, verifies under the peer key and derives without error, and the token is that client, that nonce and that key |
| `Handshake.ChallengesIffFresh` | src/SpdmProtocolEngine.cpp:60-113 | a challenge is sent if and only if the engine is unauthenticated, the version is the supported one, the peer table has the id and the generator answers; a refusal changes nothing, except that a failing generator leaves its buffer as the nonce |
| `Handshake.RequestRefusals` | src/SpdmProtocolEngine.cpp:60-113 | exactly when a request gets each of the five refusals: by the phase, the version 1.16.0.0, the peer table and the generator, in this order |
| `Handshake.ResponseRefusals` | src/SpdmProtocolEngine.cpp:119-210 | exactly when a response gets which refusal: by the phase, the pending id, the peer table, the digest, the verdict and the derived key, in this order; kVerifyFailed and an unknown peer are kSignatureInvalid, all other platform failures kCryptoError |
| `Handshake.ResponseLeaves` | src/SpdmProtocolEngine.cpp:119-220 | a response to no challenge leaves the engine alone, an accepted one authenticates the client, and any other leaves a revoked engine with only zero bytes for nonce and pending id |
| `Handshake.EngineErased` | src/SpdmProtocolEngine.cpp:216-294 | after a reset or a revocation every byte of the nonce and of the pending id is zero; a reset engine is an idle one |
| `Handshake.PeerIsFound` | src/SpdmProtocolEngine.cpp:38-54 | of the first eight entries the table is said to have, the first with an id gives that client its key |
| `Handshake.PeerIsUnknownIff` | src/SpdmProtocolEngine.cpp:237-261 | a client is unknown if and only if the table is null or none of its first min(count, 8) entries has the id |
| `Handshake.FramesRefusedIff` | src/SomeIpAdaptor.cpp:150-206 | a frame cannot be read if and only if it is null or shorter than its record of 12 or 72 bytes |
| `Handshake.FindPeerKey` | src/SpdmProtocolEngine.cpp:237-261 | the key of the first table entry of the client; none exactly when no entry has its id |
| `Handshake.RequestRoundTrip` | include/zzta/SpdmProtocolEngine.hpp:56-60 | a request written as id and version is read back from any frame that starts with it |
| `Handshake.ResponseRoundTrip` | include/zzta/SpdmProtocolEngine.hpp:70-74 | a response written as id and signature is read back from any frame that starts with it |
| `SpdmProtocol.SpdmProtocolEngine.constructor` | src/SpdmProtocolEngine.cpp:38-54 | an idle engine over the usable part of the peer table, of which `Handshake.PeerIsFound` and `Handshake.PeerIsUnknownIff` say exactly whom it knows under which key |
| `SpdmProtocol.SpdmProtocolEngine.ProcessAuthRequest` | src/SpdmProtocolEngine.cpp:60-113 | phase, version, peer and generator checks in the source's order; a failing generator may leave a nonce but no phase change |
| `SpdmProtocol.SpdmProtocolEngine.ProcessAuthResponse` | src/SpdmProtocolEngine.cpp:119-210 | every failure past the phase check revokes the engine with the status of the first failing check; success authenticates and issues the token |
| `SpdmProtocol.SpdmProtocolEngine.FindPeerPublicKey` | src/SpdmProtocolEngine.cpp:237-261 | the accumulator loop finds the first entry of the client |
| `SpdmProtocol.SpdmProtocolEngine.Revoke` | src/SpdmProtocolEngine.cpp:216-220 | nonce and pending id erased, phase kRevoked |
| `SpdmProtocol.SpdmProtocolEngine.Reset` | src/SpdmProtocolEngine.cpp:226-231 | nonce, pending and authenticated id erased, phase kUnauthenticated |
| `SpdmProtocol.SpdmProtocolEngine.SanitiseSecretMaterial` | src/SpdmProtocolEngine.cpp:285-294 | nonce and pending id erased |
| `SomeIp.SomeIpAdaptor.constructor` | src/SomeIpAdaptor.cpp:67-95 | eight idle engines over one usable peer table, no occupied record, an empty session table, as `Answers.StartIsEmpty` spells out |
| `SomeIp.SomeIpAdaptor.OnPeerOffered` | src/SomeIpAdaptor.cpp:101-144 | new state and status as in the state machine, of which `Pool.OfferAnswers` gives each answer |
| `SomeIp.SomeIpAdaptor.OnAuthRequest` | src/SomeIpAdaptor.cpp:150-188 | new state and status as in the state machine, of which `Answers.RequestAnswers` gives each answer and `Transmissions.EveryChallengeIsSent` each challenge sent |
| `SomeIp.SomeIpAdaptor.OnAuthResponse` | src/SomeIpAdaptor.cpp:194-236 | new state and status as in the state machine, of which `Answers.ResponseFrames` and `Answers.ResponseAnswers` give each answer |
| `SomeIp.SomeIpAdaptor.CompleteHandshake` | src/SomeIpAdaptor.cpp:215-235 | a failed response counts as an anomaly in the table; a refused registration revokes the engine |
| `SomeIp.SomeIpAdaptor.OnSessionTick` | src/SomeIpAdaptor.cpp:242-245 | the table is swept and nothing else changes |
| `SomeIp.SomeIpAdaptor.IsSessionActive` | src/SomeIpAdaptor.cpp:251-272 | status, key and new state of the gate, of which `Answers.GateAnswers` gives each answer and its exact condition |
| `SomeIp.SomeIpAdaptor.RevokeSessionOf` | src/SomeIpAdaptor.cpp:278-291 | engine and table both revoked; `Answers.RevocationAnswers` gives each answer and its exact condition |
| `SomeIp.SomeIpAdaptor.GetActiveSessionCount` | src/SomeIpAdaptor.cpp:297-300 | the number of active slots of the table |
| `SomeIp.SomeIpAdaptor.FindSlotIndex` | src/SomeIpAdaptor.cpp:306-330 | the first occupied record of the client |
| `SomeIp.SomeIpAdaptor.FindFreeEngineSlot` | src/SomeIpAdaptor.cpp:336-347 | the first record not occupied |
| `Gateways.SessionsFollow` | src/SomeIpAdaptor.cpp:101-291 | a call reaches the session table through at most one of its operations |
| `Bytes.EqualBytes` | src/TokenLifecycleManager.cpp:293-312 | the OR-of-XOR accumulator is zero exactly when the arrays are equal |
| `Bytes.IsAllZero` | src/TokenLifecycleManager.cpp:68-75 | the OR accumulator recognises exactly the all-zero id |
| `Sha256Software.Sha256Impl` | src/CryptoPlatformInterface.cpp:202-285 | for every message whose padded length does not overflow `size_t`, the digest is SHA-256 as FIPS 180-4 defines it; `KnownAnswers` computes that function on the published examples |
| `Sha256Software.HashPadded` | src/CryptoPlatformInterface.cpp:202-277 | the hash value over all blocks of the padded message |
| `Sha256Software.ChooseByte` | src/CryptoPlatformInterface.cpp:225-243 | the four branches pick the byte the padded message has at that position |
| `Sha256Software.AbsorbAll` | src/CryptoPlatformInterface.cpp:220-277 | the block loop, started with the initial hash value, ends with the hash value over all blocks |
| `Sha256Software.FillBlock` | src/CryptoPlatformInterface.cpp:222-244 | the byte-by-byte fill is the section 5.1.1 padding of FIPS 180-4, block by block |
| `Sha256Software.PaddedLengthIs` | src/CryptoPlatformInterface.cpp:213-215 | the computed length is that of the padded message: a multiple of 64, at least 9 and less than 73 more than the message |
| `SecureHash.ZeroBytesIsLeast` | src/CryptoPlatformInterface.cpp:213-215 | the padding has the least number of zero bytes that fills the last block |
| `Sha256Software.LengthByteIs` | src/CryptoPlatformInterface.cpp:234-238 | the shifted and masked bit count is the big-endian length field, byte by byte |
| `Sha256Software.PrepareSchedule` | src/CryptoPlatformInterface.cpp:246-257 | the array holds the message schedule of section 6.2.2 |
| `Sha256Software.CompressBlock` | src/CryptoPlatformInterface.cpp:259-277 | the 64 rounds and the final additions are the compression of section 6.2.2, which `KnownAnswers` computes on the five blocks of its examples |
| `KnownAnswers.HashOfAbc` | tests/test_zzta_core.cpp:157-174 | the SHA-256 digest of "abc" is the 32 bytes BA7816BF...F20015AD published with FIPS 180-4, from its padding, schedule and 64 rounds word by word |
| `KnownAnswers.MacOfHiThere` | src/CryptoPlatformInterface.cpp:360-456 | HMAC-SHA-256 of test case 1 of RFC 4231 is the published value: four blocks, two of them chained to the one before, under both pads |
| `Sha256Software.RoundStep` | src/CryptoPlatformInterface.cpp:263-274 | the eight rotating assignments are one round |
| `Sha256Software.StoreDigest` | src/CryptoPlatformInterface.cpp:280-284 | the digest is the eight words in big-endian order |
| `Sha256Software.LoadIsToWord` | src/CryptoPlatformInterface.cpp:135-140 | copying and swapping reads four bytes as a big-endian word |
| `Sha256Software.StoreIsWordBytes` | src/CryptoPlatformInterface.cpp:145-149 | swapping and copying writes a word in big-endian order |
| `Sha256Software.SmallSigmasByShifts` | src/CryptoPlatformInterface.cpp:118-121 | the shift pairs with the xors of the schedule are the small sigma functions of section 4.1.2 |
| `Sha256Software.BigSigmasByShifts` | src/CryptoPlatformInterface.cpp:118-121 | the shift pairs with the xors of a round are the big sigma functions |
| `HashConstants.FirstPrimes` | src/CryptoPlatformInterface.cpp:46-48 | the primes these constants belong to are the first 64: the list starts with 2, and each entry is the next prime after the one before it |
| `HashConstants.RoundConstants` | src/CryptoPlatformInterface.cpp:48-65 | each of the 64 round constants is the first 32 bits of the fractional part of the cube root of its prime |
| `HashConstants.InitialHash` | src/CryptoPlatformInterface.cpp:68-71 | each of the eight initial words is the first 32 bits of the fractional part of the square root of its prime |
| `SoftwareCrypto.SoftwareCryptoProvider.DeriveSessionKey` | src/CryptoPlatformInterface.cpp:360-456 | the key is HKDF-Expand(HKDF-Extract(salt, nonce and id), info, 32) of sections 2.2 and 2.3 of RFC 5869 over general HMAC |
| `SoftwareCrypto.DerivedKeyIsTwoMacs` | src/CryptoPlatformInterface.cpp:360-456 | the session key is the HMAC of info and the octet 1 under the HMAC of nonce and id under the salt |
| `SoftwareCrypto.SoftwareCryptoProvider.ExtractStage` | src/CryptoPlatformInterface.cpp:373-414 | the two inlined hashes are HMAC under the salt |
| `SoftwareCrypto.SoftwareCryptoProvider.ExpandStage` | src/CryptoPlatformInterface.cpp:416-455 | the two inlined hashes are the one block of output that 32 bytes need |
| `SoftwareCrypto.SoftwareCryptoProvider.XorPads` | src/CryptoPlatformInterface.cpp:380-389 | the pre-filled pads with the key xored over their first half are the zero-padded key of section 2 of RFC 2104 xored with each pad byte |
| `KeyDerivation.ExpandOneBlock` | src/CryptoPlatformInterface.cpp:416-455 | expanding to 32 bytes is one MAC over the info and the octet 1 |
| `KeyDerivation.PadOverShortKey` | src/CryptoPlatformInterface.cpp:380-389 | for any key of digest length and any pad byte that layout is the padded key xored with the pad |
| `SoftwareCrypto.SoftwareCryptoProvider.VerifyEccSignature` | src/CryptoPlatformInterface.cpp:310-354 | kOk if and only if the key is the built-in key and the halves of the signature are SHA-256(digest, salt) and SHA-256(salt, digest), in this order; else kVerifyFailed |
| `SoftwareCrypto.SignatureHalves` | src/CryptoPlatformInterface.cpp:330-353 | the one signature of a digest, half by half: the digest before the salt, then the salt before the digest |
| `SoftwareCrypto.SoftwareCryptoProvider.ComputeSha256` | src/CryptoPlatformInterface.cpp:291-302 | kInvalidParam and an untouched buffer for a null or empty input, else the SHA-256 digest |
| `SoftwareCrypto.SoftwareCryptoProvider.constructor` | src/CryptoPlatformInterface.cpp:157-160 | the register starts at the seed if that is not 0, and at 1 if it is |
| `SoftwareCrypto.SoftwareCryptoProvider.LfsrNext` | src/CryptoPlatformInterface.cpp:166-177 | shift and conditional mask are one step of the register, and the new register is returned |
| `SoftwareCrypto.SoftwareCryptoProvider.GenerateRandomNonce` | src/CryptoPlatformInterface.cpp:183-195 | eight steps, each word laid down little-endian; always kOk |
| `Nonces.NoncesRepeatIff` | src/CryptoPlatformInterface.cpp:157-195 | two nonces of a provider are equal if and only if the cycle length of its seed divides the number of draws between them |
| `Nonces.NoncesDiffer` | src/CryptoPlatformInterface.cpp:166-195 | any 31 nonces in a row are pairwise distinct, for every non-zero register |
| `Nonces.NoncesMayRepeat` | src/CryptoPlatformInterface.cpp:166-195 | a nonce returns after 31 draws if and only if the seed is one of 31 listed words, so the bound is sharp for these and for no others |
| `Nonces.DefaultSeedNonces` | include/zzta/CryptoPlatformInterface.hpp:247 | with the seed used when none is given, the first 134,085,633 nonces are pairwise distinct and the next one is the first again |
| `Nonces.NonceWordsNonZero` | src/CryptoPlatformInterface.cpp:157-195 | no word of any nonce is zero |
| `Nonces.NonceWordAt` | src/CryptoPlatformInterface.cpp:183-195 | word k of draw i is the register after 8 * i + k + 1 steps from the seed, low byte first |
| `Nonces.NoShortDrawCycle` | src/CryptoPlatformInterface.cpp:166-195 | fewer than 31 draws never return a non-zero register to where it was |
| `Cycles.ReturnsIff` | src/CryptoPlatformInterface.cpp:166-177 | for every register and every number of steps: it is back after that many steps if and only if its cycle length divides the number, where the cycle length is the product of those of 31, 33 and 131071 that three tests of the register leave in |
| `Cycles.TestsByApply` | src/CryptoPlatformInterface.cpp:166-177 | each of the three tests is a fixed number of word operations |
| `Cycles.EveryWordReturns` | src/CryptoPlatformInterface.cpp:166-177 | every register is back after 31 * 33 * 131071 steps |
| `Cycles.NoSeedIsMaximal` | src/CryptoPlatformInterface.cpp:168-169 | whatever the seed, the register returns after at most 134,085,633 steps, not 2^32 - 1 |
| `Cycles.MissesAWord` | src/CryptoPlatformInterface.cpp:168-169 | whatever the seed, some non-zero word never appears in the register |
| `Cycles.LengthAtLeast31` | src/CryptoPlatformInterface.cpp:166-177 | no non-zero register has a cycle of fewer than 31 steps |
| `Cycles.NoShortCycle` | src/CryptoPlatformInterface.cpp:166-177 | no non-zero register returns after fewer than 31 steps |
| `Cycles.ShortCycleWords` | src/CryptoPlatformInterface.cpp:166-177 | the registers that return after 31 steps are zero and the 31 listed words |
| `Cycles.ShortSeedReturns` | src/CryptoPlatformInterface.cpp:166-177 | one of them, as a seed, has cycle length 31 |
| `Cycles.DefaultSeedIsFull` | include/zzta/CryptoPlatformInterface.hpp:247 | the default seed has cycle length 134,085,633 |
| `Lfsr.StepsIsApply` | src/CryptoPlatformInterface.cpp:166-177 | any number of steps is one combination of the first 32 steps, with the coefficients that many steps make of one fixed word |
| `Lfsr.PowerAdd` | src/CryptoPlatformInterface.cpp:166-177 | these coefficients multiply as the numbers of steps add |
| `Lfsr.StepsNonZero` | src/CryptoPlatformInterface.cpp:157-177 | a non-zero register never becomes zero |
| `RegisterWords.StepInverts` | src/CryptoPlatformInterface.cpp:166-177 | a step is a bijection on words |
| `RegisterWords.NextLinear` | src/CryptoPlatformInterface.cpp:166-177 | a step is linear over XOR |
| `RegisterWords.NextIsMasked` | src/CryptoPlatformInterface.cpp:166-177 | the branching shift-and-mask form is the branch-free step |

## Left out

- Real ECDSA, hardware random numbers and the hardware security engine: platform answers are arbitrary.
- Constant-time behaviour, volatile writes and stack budgets: an erase loop is a loop that writes zeros.
- SOME/IP transport and service discovery: a transmitted challenge is an entry of a log. Conformance of the frames to the SPDM standard is not modelled; frames are the project's two records.
- Reentrant callbacks, which the header forbids (include/zzta/TokenLifecycleManager.hpp:100-102), and the point inside an operation at which a callback runs.
- Slot release through `HandleRevocation`, an unconditional invariant between engine state and table state, eviction in `OnPeerOffered`, a reset of the anomaly count: the code does none of them.
- A null `key_out` in `ValidateToken` and `IsSessionActive`: the key is always returned and a caller may ignore it.
- Generator calls inside `ProcessAuthRequest`: the draw is an argument of the request, used only when the code would call the generator.
- Version constants, build scripts and compliance documents: no state or algorithm.
- Sha256Software.Sha256Impl: the overflow of `data_len + 72` in `size_t` is excluded by its precondition; lengths that close to the top of the address space are not modelled.
- Sha256Software.RoundStep: a round, a step of the schedule and the choice of a padded byte are methods of their own here, where the source writes them inside its loops.
- TokenLifecycle.TokenLifecycleManager.RegisterToken: the branches of the source's one function are spread over helper methods, in the same order.
- StrikePolicy.ThirdStrikeWhileInPlace: one direction of a condition; StrikePolicy.LockedIffSlotStruckThrice is the exact statement for every run.
- Provenance.GateProvenance: says that a signature was accepted by the platform; that only a holder of the private key can make one is an assumption about ECDSA outside the model.
