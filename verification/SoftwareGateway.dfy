/** The adaptor on the software platform: what the gate's answer means in terms of SHA-256 and HKDF. */
module SoftwareGateway {
  import opened Bytes
  import opened Numbers
  import opened SessionTable
  import opened SecureHash
  import opened KeyDerivation
  import opened Handshake
  import opened Gateways
  import GatewayInvariants
  import opened SessionRegistry
  import opened Provenance
  import opened Transmissions
  import Admission
  import opened SoftwareCrypto
  import opened Lfsr
  import opened Cycles
  import opened Nonces

  // What every call of the software provider answers; its answers depend on nothing but the call.
  function SoftwarePlatform(): Platform {
    Platform(HashAnswer, Verdict, (nonce: Nonce, c: ClientId) => (CryptoOk, DerivedKey(nonce, c)))
  }

  // The signature of the challenge: SHA-256 of its digest and the salt, in either order.
  predicate Signed(signature: Signature, nonce: Nonce, c: ClientId) {
    && signature[..32] == Sha256(Sha256(nonce + c) + MASTER_SALT)
    && signature[32..] == Sha256(MASTER_SALT + Sha256(nonce + c))
  }

  // A response is accepted exactly from a holder of the built-in key with the one signature of the challenge.
  lemma AcceptsIffSigned(peers: seq<KnownPeer>, c: ClientId, nonce: Nonce, signature: Signature, key: SessionKey)
    ensures Accepts(SoftwarePlatform(), peers, c, nonce, signature, key) <==>
            && FindPeerKey(peers, c) == Some(MOCK_PUBLIC_KEY)
            && signature[..32] == Sha256(Sha256(nonce + c) + MASTER_SALT)
            && signature[32..] == Sha256(MASTER_SALT + Sha256(nonce + c))
            && key == Hmac(Hmac(MASTER_SALT, nonce + c), INFO + [1])
  {
    SignatureHalves(Sha256(nonce + c), signature);
    DerivedKeyIsTwoMacs(nonce, c);
  }

  lemma GenuineIsAccepted(peers: seq<KnownPeer>, c: ClientId, nonce: Nonce)
    requires FindPeerKey(peers, c) == Some(MOCK_PUBLIC_KEY)
    ensures Accepts(SoftwarePlatform(), peers, c, nonce, MockSignature(Sha256(nonce + c)), DerivedKey(nonce, c))
  {
  }

  ghost predicate OnSoftware(evs: seq<Event>) {
    forall k :: 0 <= k < |evs| && evs[k].ResponseFrame? ==> evs[k].platform == SoftwarePlatform()
  }

  // `h` is `before` and then one entry for each event.
  ghost predicate Records(h: History, before: History, evs: seq<Event>) {
    && |h| == |before| + |evs|
    && (forall k :: 0 <= k < |evs| ==> h[|before| + k].event == evs[k])
  }

  lemma RecordsOneMore(h: History, before: History, x: Entry, evs: seq<Event>)
    requires evs != [] && x.event == evs[0] && Records(h, before + [x], evs[1..])
    requires |before| < |h| && h[|before|] == x
    ensures Records(h, before, evs)
  {
  }

  lemma {:induction false} RunKeepsHistory(w: World, evs: seq<Event>, k: nat)
    requires Formed(w.gateway) && k < |w.history|
    ensures var h := RunEvents(w, evs).history; k < |h| && h[k] == w.history[k]
    decreases |evs|
  {
    if evs != [] {
      RunKeepsHistory(Advance(w, evs[0]), evs[1..], k);
    }
  }

  // The history of a run is the events of the run, one entry each.
  lemma {:induction false} HistoryIsRun(w: World, evs: seq<Event>)
    requires Formed(w.gateway)
    ensures Records(RunEvents(w, evs).history, w.history, evs)
    decreases |evs|
  {
    if evs != [] {
      var w', x := Advance(w, evs[0]), Entry(evs[0], Handle(w.gateway, evs[0]).1);
      HistoryIsRun(w', evs[1..]);
      RunKeepsHistory(w', evs[1..], |w.history|);
      RecordsOneMore(RunEvents(w, evs).history, w.history, x, evs);
    }
  }

  // Entry `i` challenged `c` with `nonce`, entry `j` answered it with the signature of that nonce
  // no longer than one lifetime ago, and `key` is the HKDF output for that nonce.
  ghost predicate Proven(h: History, c: ClientId, now: uint64, key: Option<SessionKey>, nonce: Nonce, i: nat, j: nat) {
    && i < j < |h|
    && Challenged(h[i], c) && h[i].event.draw == (CryptoOk, nonce)
    && Responded(h[j], c) && h[j].reply.status == AdaptorOk
    && Signed(ParseResponse(h[j].event.responsePayload).value.signature, nonce, c)
    && Age(now, h[j].event.at) <= 30_000
    && key == Some(Hmac(Hmac(MASTER_SALT, nonce + c), INFO + [1]))
  }

  lemma JustifiedIsProven(h: History, peers: seq<KnownPeer>, c: ClientId, now: uint64, key: Option<SessionKey>,
                          session: Session, a: nat, i: nat, j: nat)
    requires Justifies(h, peers, c, now, key, session, a, i, j)
    requires h[j].event.platform == SoftwarePlatform()
    ensures Proven(h, c, now, key, session.nonce, i, j) && FindPeerKey(peers, c) == Some(MOCK_PUBLIC_KEY)
  {
    AcceptsIffSigned(peers, c, session.nonce, ParseResponse(h[j].event.responsePayload).value.signature, session.key);
  }

  lemma SomeProven(h: History, evs: seq<Event>, peers: seq<KnownPeer>, c: ClientId, now: uint64,
                   key: Option<SessionKey>)
    requires OnSoftware(evs) && Records(h, [], evs)
    requires exists session: Session, a: nat, i: nat, j: nat :: Justifies(h, peers, c, now, key, session, a, i, j)
    ensures FindPeerKey(peers, c) == Some(MOCK_PUBLIC_KEY)
    ensures exists nonce: Nonce, i: nat, j: nat :: Proven(h, c, now, key, nonce, i, j)
  {
    var session: Session, a: nat, i: nat, j: nat :| Justifies(h, peers, c, now, key, session, a, i, j);
    assert h[0 + j].event == evs[j];
    JustifiedIsProven(h, peers, c, now, key, session, a, i, j);
  }

  // On the software platform every key the gate hands out is the HKDF key of a nonce that was
  // drawn for that client and signed by a holder of the built-in key.
  lemma GateKeyIsDerived(peers: seq<KnownPeer>, transmits: bool, listening: bool, evs: seq<Event>,
                         c: ClientId, now: uint64)
    requires OnSoftware(evs)
    requires Query(RunEvents(Start(peers, transmits, listening), evs).gateway, c, now).1.status == AdaptorOk
    ensures FindPeerKey(peers, c) == Some(MOCK_PUBLIC_KEY)
    ensures var w := RunEvents(Start(peers, transmits, listening), evs);
            exists nonce: Nonce, i: nat, j: nat ::
              Proven(w.history, c, now, Query(w.gateway, c, now).1.key, nonce, i, j)
  {
    var w := RunEvents(Start(peers, transmits, listening), evs);
    var key := Query(w.gateway, c, now).1.key;
    HistoryIsRun(Start(peers, transmits, listening), evs);
    GateProvenance(peers, transmits, listening, evs, c, now);
    SomeProven(w.history, evs, peers, c, now, key);
  }

  // A client with the built-in key that signs its challenge gets in, whatever went before.
  lemma SignerIsAdmitted(g: Gateway, c: ClientId, nonce: Nonce, requestFrame: Bytes, responseFrame: Bytes,
                         signature: Signature, at: uint64, asked: uint64)
    requires GatewayInvariants.Reached(g) && c != ZERO_ID && !IsLockedOut(g.sessions, c) && Admission.HasPlace(g, c)
    requires FindPeerKey(g.peers, c) == Some(MOCK_PUBLIC_KEY)
    requires ParseRequest(Some(requestFrame)) == Some(AuthRequest(c, SUPPORTED_VERSION))
    requires ParseResponse(Some(responseFrame)) == Some(AuthResponse(c, signature)) && Signed(signature, nonce, c)
    requires Age(asked, at) <= 30_000
    ensures var (g1, offered) := Handle(g, PeerOffered(c));
            var (g2, challenged) := Handle(g1, RequestFrame(Some(requestFrame), (CryptoOk, nonce)));
            var (g3, answered) := Handle(g2, ResponseFrame(Some(responseFrame), SoftwarePlatform(), at));
            Query(g3, c, asked).1 == Reply(AdaptorOk, Some(Hmac(Hmac(MASTER_SALT, nonce + c), INFO + [1])))
  {
    var key := Hmac(Hmac(MASTER_SALT, nonce + c), INFO + [1]);
    AcceptsIffSigned(g.peers, c, nonce, signature, key);
    Admission.HonestClientIsAdmitted(g, c, nonce, signature, SoftwarePlatform(), key,
                                     requestFrame, responseFrame, at, asked);
  }

  // --- One provider over a run --------------------------------------------------------------

  // A call of the host, without what the provider answers during it.
  datatype Call =
    | OfferCall(client: ClientId)
    | RequestCall(payload: Option<Bytes>)
    | ResponseCall(payload: Option<Bytes>, at: uint64)
    | TickCall(now: uint64)
    | QueryCall(client: ClientId, asked: uint64)
    | RevokeCall(client: ClientId, isAnomaly: bool)

  // The adaptor, its history and the register of its provider.
  datatype Node = Node(world: World, register: bv32)

  function EventOf(call: Call, register: bv32): Event {
    match call
    case OfferCall(c) => PeerOffered(c)
    case RequestCall(payload) => RequestFrame(payload, (CryptoOk, NonceFrom(register)))
    case ResponseCall(payload, at) => ResponseFrame(payload, SoftwarePlatform(), at)
    case TickCall(now) => SessionTick(now)
    case QueryCall(c, asked) => SessionQuery(c, asked)
    case RevokeCall(c, isAnomaly) => SessionRevoked(c, isAnomaly)
  }

  // A request reaches the generator when its engine is idle, its version supported and its client known.
  predicate Draws(g: Gateway, call: Call)
    requires Formed(g)
  {
    && call.RequestCall? && ParseRequest(call.payload).Some?
    && var request := ParseRequest(call.payload).value;
       && GatewayInvariants.Pooled(g, request.clientId)
       && EngineOf(g, request.clientId).phase == Unauthenticated
       && request.version == SUPPORTED_VERSION
       && FindPeerKey(g.peers, request.clientId).Some?
  }

  function Perform(n: Node, call: Call): (n': Node)
    requires Formed(n.world.gateway)
    ensures Formed(n'.world.gateway)
  {
    Node(Advance(n.world, EventOf(call, n.register)),
         if Draws(n.world.gateway, call) then Steps(WORDS_PER_NONCE, n.register) else n.register)
  }

  function RunCalls(n: Node, calls: seq<Call>): (n': Node)
    requires Formed(n.world.gateway)
    ensures Formed(n'.world.gateway)
    decreases |calls|
  {
    if calls == [] then n else RunCalls(Perform(n, calls[0]), calls[1..])
  }

  function StartNode(peers: seq<KnownPeer>, transmits: bool, listening: bool, seed: bv32): (n: Node)
    ensures Formed(n.world.gateway)
  {
    Node(Start(peers, transmits, listening), Seeded(seed))
  }

  ghost predicate IsChallenge(e: Entry) {
    exists c: ClientId :: Challenged(e, c)
  }

  ghost function ChallengesBefore(h: History, k: nat): nat
    requires k <= |h|
  {
    if k == 0 then 0 else ChallengesBefore(h, k - 1) + if IsChallenge(h[k - 1]) then 1 else 0
  }

  ghost predicate FromProvider(h: History, seed: bv32) {
    forall k :: 0 <= k < |h| && IsChallenge(h[k]) ==>
      h[k].event.draw == (CryptoOk, Draw(Seeded(seed), ChallengesBefore(h, k)))
  }

  // The register has moved by one nonce per challenge, and each challenge carries the nonce drawn then.
  ghost predicate OnProvider(n: Node, seed: bv32) {
    && FromProvider(n.world.history, seed)
    && n.register == Steps(WORDS_PER_NONCE * ChallengesBefore(n.world.history, |n.world.history|), Seeded(seed))
  }

  // The generator is asked exactly by the requests that are answered with a challenge.
  lemma DrawsIffChallenge(n: Node, call: Call)
    requires Formed(n.world.gateway)
    ensures var ev := EventOf(call, n.register);
            IsChallenge(Entry(ev, Handle(n.world.gateway, ev).1)) <==> Draws(n.world.gateway, call)
  {
    var g, ev := n.world.gateway, EventOf(call, n.register);
    var x := Entry(ev, Handle(g, ev).1);
    if call.RequestCall? && ParseRequest(call.payload).Some? {
      var request := ParseRequest(call.payload).value;
      if GatewayInvariants.Pooled(g, request.clientId) {
        ChallengesIffFresh(EngineOf(g, request.clientId), g.peers, request, ev.draw);
      }
      assert x.reply.status == AdaptorOk ==> Challenged(x, request.clientId);
    }
  }

  lemma {:induction false} CountExtends(h: History, x: Entry, k: nat)
    requires k <= |h|
    ensures ChallengesBefore(h + [x], k) == ChallengesBefore(h, k)
  {
    if k != 0 {
      CountExtends(h, x, k - 1);
    }
  }

  lemma FromProviderExtends(h: History, x: Entry, seed: bv32)
    requires FromProvider(h, seed)
    requires IsChallenge(x) ==> x.event.draw == (CryptoOk, Draw(Seeded(seed), ChallengesBefore(h, |h|)))
    ensures FromProvider(h + [x], seed)
  {
    forall k | 0 <= k < |h + [x]| && IsChallenge((h + [x])[k])
      ensures (h + [x])[k].event.draw == (CryptoOk, Draw(Seeded(seed), ChallengesBefore(h + [x], k)))
    {
      EntryFromProvider(h, x, seed, k);
    }
  }

  lemma EntryFromProvider(h: History, x: Entry, seed: bv32, k: nat)
    requires FromProvider(h, seed) && k <= |h|
    requires IsChallenge(x) ==> x.event.draw == (CryptoOk, Draw(Seeded(seed), ChallengesBefore(h, |h|)))
    ensures IsChallenge((h + [x])[k]) ==>
              (h + [x])[k].event.draw == (CryptoOk, Draw(Seeded(seed), ChallengesBefore(h + [x], k)))
  {
    CountExtends(h, x, k);
  }

  lemma RegisterMoves(count: nat, s: bv32)
    ensures Steps(WORDS_PER_NONCE, Steps(WORDS_PER_NONCE * count, s)) == Steps(WORDS_PER_NONCE * (count + 1), s)
    ensures NonceFrom(Steps(WORDS_PER_NONCE * count, s)) == Draw(s, count)
  {
    StepsAdd(WORDS_PER_NONCE, WORDS_PER_NONCE * count, s);
  }

  // The register after an entry `x` that is a challenge with the nonce drawn from it, or is none.
  lemma EntryOnProvider(h: History, x: Entry, register: bv32, seed: bv32)
    requires FromProvider(h, seed)
    requires register == Steps(WORDS_PER_NONCE * ChallengesBefore(h, |h|), Seeded(seed))
    requires IsChallenge(x) ==> x.event.draw == (CryptoOk, NonceFrom(register))
    ensures FromProvider(h + [x], seed)
    ensures (if IsChallenge(x) then Steps(WORDS_PER_NONCE, register) else register)
            == Steps(WORDS_PER_NONCE * ChallengesBefore(h + [x], |h + [x]|), Seeded(seed))
  {
    CountExtends(h, x, |h|);
    RegisterMoves(ChallengesBefore(h, |h|), Seeded(seed));
    FromProviderExtends(h, x, seed);
  }

  lemma CallOnProvider(n: Node, call: Call, seed: bv32)
    requires Formed(n.world.gateway) && OnProvider(n, seed)
    ensures OnProvider(Perform(n, call), seed)
  {
    var ev := EventOf(call, n.register);
    DrawsIffChallenge(n, call);
    EntryOnProvider(n.world.history, Entry(ev, Handle(n.world.gateway, ev).1), n.register, seed);
  }

  // Every run of the adaptor on one provider traces back to it, and draws its nonces in order.
  lemma {:induction false} RunOnProvider(n: Node, calls: seq<Call>, seed: bv32)
    requires Traced(n.world) && OnProvider(n, seed)
    ensures var n' := RunCalls(n, calls);
            && Traced(n'.world) && OnProvider(n', seed)
            && n'.world.gateway.peers == n.world.gateway.peers
    decreases |calls|
  {
    if calls != [] {
      StepTraced(n.world, EventOf(calls[0], n.register));
      PeersFixed(n.world.gateway, EventOf(calls[0], n.register));
      CallOnProvider(n, calls[0], seed);
      RunOnProvider(Perform(n, calls[0]), calls[1..], seed);
    }
  }

  lemma {:induction false} LaterCountsMore(h: History, i: nat, k: nat)
    requires i < k <= |h| && IsChallenge(h[i])
    ensures ChallengesBefore(h, i) < ChallengesBefore(h, k)
  {
    if i < k - 1 {
      LaterCountsMore(h, i, k - 1);
    }
  }

  // Two challenges of a run carry the same nonce exactly when the cycle length of the seed divides
  // the number of challenges between them.
  lemma NoncesAgreeIff(h: History, seed: bv32, i: nat, i': nat)
    requires FromProvider(h, seed) && i < i' < |h| && IsChallenge(h[i]) && IsChallenge(h[i'])
    ensures var apart := ChallengesBefore(h, i') - ChallengesBefore(h, i);
            && 0 < apart && 0 < CycleLength(Seeded(seed))
            && (h[i].event.draw == h[i'].event.draw <==> apart % CycleLength(Seeded(seed)) == 0)
  {
    LaterCountsMore(h, i, i');
    NoncesRepeatIff(Seeded(seed), ChallengesBefore(h, i), ChallengesBefore(h, i'));
  }

  // Over any run on one provider: two successful responses answered different challenges, and with
  // no more challenges in the run than the seed's cycle is long, different nonces.
  lemma TokensCarryFreshNonces(peers: seq<KnownPeer>, transmits: bool, listening: bool, seed: bv32, calls: seq<Call>,
                               c: ClientId, d: ClientId, j: nat, j': nat)
    requires var h := RunCalls(StartNode(peers, transmits, listening, seed), calls).world.history;
             && j < j' < |h|
             && Responded(h[j], c) && h[j].reply.status == AdaptorOk
             && Responded(h[j'], d) && h[j'].reply.status == AdaptorOk
             && ChallengesBefore(h, |h|) <= CycleLength(Seeded(seed))
    ensures var h := RunCalls(StartNode(peers, transmits, listening, seed), calls).world.history;
            exists s: Session, a: nat, i: nat, s': Session, a': nat, i': nat ::
              && Backed(h, peers, c, s, a, i, j) && Backed(h, peers, d, s', a', i', j')
              && s.nonce != s'.nonce
  {
    var n := StartNode(peers, transmits, listening, seed);
    StartTraced(peers, transmits, listening);
    RunOnProvider(n, calls, seed);
    var h := RunCalls(n, calls).world.history;
    assert IsBacked(h, peers, c, j) && IsBacked(h, peers, d, j');
    var s: Session, a: nat, i: nat :| Backed(h, peers, c, s, a, i, j);
    var s': Session, a': nat, i': nat :| Backed(h, peers, d, s', a', i', j');
    BackedNoncesDiffer(h, peers, seed, c, s, a, i, j, d, s', a', i', j');
  }

  lemma BackedNoncesDiffer(h: History, peers: seq<KnownPeer>, seed: bv32,
                           c: ClientId, s: Session, a: nat, i: nat, j: nat,
                           d: ClientId, s': Session, a': nat, i': nat, j': nat)
    requires FromProvider(h, seed) && ChallengesBefore(h, |h|) <= CycleLength(Seeded(seed))
    requires Backed(h, peers, c, s, a, i, j) && Backed(h, peers, d, s', a', i', j') && j != j'
    ensures s.nonce != s'.nonce
  {
    DifferentChallenges(h, peers, c, s, a, i, j, d, s', a', i', j');
    assert Challenged(h[i], c) && Challenged(h[i'], d);
    if i < i' {
      NoncesDifferWithin(h, seed, i, i');
    } else {
      NoncesDifferWithin(h, seed, i', i);
    }
  }

  lemma NoncesDifferWithin(h: History, seed: bv32, i: nat, i': nat)
    requires FromProvider(h, seed) && i < i' < |h| && IsChallenge(h[i]) && IsChallenge(h[i'])
    requires ChallengesBefore(h, |h|) <= CycleLength(Seeded(seed))
    ensures h[i].event.draw != h[i'].event.draw
  {
    NoncesAgreeIff(h, seed, i, i');
    LaterCountsMore(h, i', |h|);
    ApartDiffer(ChallengesBefore(h, i') - ChallengesBefore(h, i), CycleLength(Seeded(seed)),
                h[i].event.draw == h[i'].event.draw);
  }

  lemma ApartDiffer(apart: nat, length: nat, same: bool)
    requires 0 < apart < length && (same <==> apart % length == 0)
    ensures !same
  {
    Undivided(apart, length);
  }

  lemma DifferentChallenges(h: History, peers: seq<KnownPeer>, c: ClientId, s: Session, a: nat, i: nat, j: nat,
                            d: ClientId, s': Session, a': nat, i': nat, j': nat)
    requires Backed(h, peers, c, s, a, i, j) && Backed(h, peers, d, s', a', i', j') && j != j'
    ensures i != i'
  {
  }

  // --- What is sent -------------------------------------------------------------------------

  lemma PrefixFromProvider(h: History, seed: bv32)
    requires h != [] && FromProvider(h, seed)
    ensures FromProvider(h[..|h| - 1], seed)
    ensures ChallengesBefore(h[..|h| - 1], |h| - 1) == ChallengesBefore(h, |h| - 1)
  {
    var before, last := h[..|h| - 1], h[|h| - 1];
    assert before + [last] == h;
    forall k | 0 <= k <= |before|
      ensures ChallengesBefore(before, k) == ChallengesBefore(h, k)
    {
      CountExtends(before, last, k);
    }
  }

  lemma {:induction false} SentAreDraws(h: History, sent: seq<Challenge>, seed: bv32)
    requires IsSent(h, sent) && FromProvider(h, seed)
    ensures |sent| == ChallengesBefore(h, |h|)
    ensures forall k :: 0 <= k < |sent| ==> sent[k].nonce == Draw(Seeded(seed), k)
  {
    if h != [] {
      PrefixFromProvider(h, seed);
      if PromisesNone(h[|h| - 1]) {
        SentAreDraws(h[..|h| - 1], sent, seed);
      } else {
        SentAreDraws(h[..|h| - 1], sent[..|sent| - 1], seed);
      }
    }
  }

  lemma {:induction false} CallsSend(n: Node, calls: seq<Call>)
    requires Formed(n.world.gateway) && n.world.gateway.transmits && IsSent(n.world.history, n.world.gateway.sent)
    ensures var w := RunCalls(n, calls).world; IsSent(w.history, w.gateway.sent)
    decreases |calls|
  {
    if calls != [] {
      StepSends(n.world, EventOf(calls[0], n.register));
      CallsSend(Perform(n, calls[0]), calls[1..]);
    }
  }

  // Over every run on one provider the challenges sent carry its draws, one after the other.
  lemma SentInOrder(peers: seq<KnownPeer>, listening: bool, seed: bv32, calls: seq<Call>, k: nat)
    requires k < |RunCalls(StartNode(peers, true, listening, seed), calls).world.gateway.sent|
    ensures RunCalls(StartNode(peers, true, listening, seed), calls).world.gateway.sent[k].nonce
            == Draw(Seeded(seed), k)
  {
    var n := StartNode(peers, true, listening, seed);
    StartTraced(peers, true, listening);
    RunOnProvider(n, calls, seed);
    CallsSend(n, calls);
    var w := RunCalls(n, calls).world;
    SentAreDraws(w.history, w.gateway.sent, seed);
  }
}
