/** Runs on one software provider in which what the other modules describe does happen. */
module SoftwareRuns {
  import opened Bytes
  import opened CircularBuffers
  import opened SessionTable
  import opened SessionRegistry
  import opened SecureHash
  import opened Handshake
  import opened Gateways
  import opened GatewayInvariants
  import opened Provenance
  import Admission
  import opened Bans
  import opened EvictionRuns
  import opened Agreement
  import opened Lfsr
  import opened Nonces
  import opened SoftwareCrypto
  import opened SoftwareGateway

  // --- Calls and events ---------------------------------------------------------------------

  // An event without what the platform answered during it.
  function CallOf(ev: Event): Call {
    match ev
    case PeerOffered(c) => OfferCall(c)
    case RequestFrame(payload, _) => RequestCall(payload)
    case ResponseFrame(payload, _, at) => ResponseCall(payload, at)
    case SessionTick(now) => TickCall(now)
    case SessionQuery(c, asked) => QueryCall(c, asked)
    case SessionRevoked(c, isAnomaly) => RevokeCall(c, isAnomaly)
  }

  function CallsOf(evs: seq<Event>): (calls: seq<Call>)
    ensures |calls| == |evs|
  {
    seq(|evs|, k requires 0 <= k < |evs| => CallOf(evs[k]))
  }

  lemma CallsOfConcat(a: seq<Event>, b: seq<Event>)
    ensures CallsOf(a + b) == CallsOf(a) + CallsOf(b)
  {
  }

  lemma {:induction false} RunCallsConcat(n: Node, a: seq<Call>, b: seq<Call>)
    requires Formed(n.world.gateway)
    ensures RunCalls(n, a + b) == RunCalls(RunCalls(n, a), b)
    decreases |a|
  {
    if a == [] {
      assert a + b == b;
    } else {
      assert (a + b)[1..] == a[1..] + b;
      RunCallsConcat(Perform(n, a[0]), a[1..], b);
    }
  }

  // On the provider of `n` the calls of `evs` lead to `n'`, and the events lead to the same world.
  ghost predicate Leads(n: Node, evs: seq<Event>, n': Node)
    requires Formed(n.world.gateway)
  {
    RunCalls(n, CallsOf(evs)) == n' && RunEvents(n.world, evs) == n'.world
  }

  lemma LeadsOn(n: Node, a: seq<Event>, n1: Node, b: seq<Event>, n2: Node)
    requires Formed(n.world.gateway) && Formed(n1.world.gateway) && Leads(n, a, n1) && Leads(n1, b, n2)
    ensures Leads(n, a + b, n2)
  {
    CallsOfConcat(a, b);
    RunCallsConcat(n, CallsOf(a), CallsOf(b));
    RunConcatCalls(n.world, a, b);
  }

  lemma LeadsAfter(n: Node, p: seq<Event>, a: seq<Event>, n1: Node, b: seq<Event>, n2: Node)
    requires Formed(n.world.gateway) && Formed(n1.world.gateway) && Leads(n, p + a, n1) && Leads(n1, b, n2)
    ensures Leads(n, p + (a + b), n2)
  {
    LeadsOn(n, p + a, n1, b, n2);
    ConcatAssociates(p, a, b);
  }

  lemma ConcatAssociates<T>(a: seq<T>, b: seq<T>, c: seq<T>)
    ensures a + b + c == a + (b + c)
  {
  }

  lemma LeadsThree(n: Node, a: Event, n1: Node, b: Event, n2: Node, c: Event, n3: Node)
    requires Formed(n.world.gateway) && Formed(n1.world.gateway) && Formed(n2.world.gateway)
    requires Leads(n, [a], n1) && Leads(n1, [b], n2) && Leads(n2, [c], n3)
    ensures Leads(n, [a, b, c], n3)
  {
    LeadsOn(n, [a], n1, [b], n2);
    LeadsOn(n, [a] + [b], n2, [c], n3);
    assert [a] + [b] + [c] == [a, b, c];
  }

  lemma OneCall(n: Node, ev: Event)
    requires Formed(n.world.gateway)
    ensures RunCalls(n, CallsOf([ev])) == Perform(n, CallOf(ev)) && RunEvents(n.world, [ev]) == Advance(n.world, ev)
  {
    assert CallsOf([ev])[1..] == [];
  }

  // A call that is no request draws nothing.
  lemma PlainLeads(n: Node, ev: Event)
    requires Formed(n.world.gateway) && !ev.RequestFrame? && (ev.ResponseFrame? ==> ev.platform == SoftwarePlatform())
    ensures Leads(n, [ev], Node(Advance(n.world, ev), n.register))
  {
    OneCall(n, ev);
  }

  lemma DrawLeads(n: Node, ev: Event)
    requires Formed(n.world.gateway) && ev.RequestFrame? && ev.draw == (CryptoOk, NonceFrom(n.register))
    requires Draws(n.world.gateway, CallOf(ev))
    ensures Leads(n, [ev], Node(Advance(n.world, ev), Steps(WORDS_PER_NONCE, n.register)))
  {
    OneCall(n, ev);
  }

  lemma BansLead(n: Node, c: ClientId)
    requires Formed(n.world.gateway)
    ensures Leads(n, BanCalls(c), Node(RunEvents(n.world, BanCalls(c)), n.register))
  {
    var ev := SessionRevoked(c, true);
    var n1 := Node(Advance(n.world, ev), n.register);
    var n2 := Node(Advance(n1.world, ev), n.register);
    PlainLeads(n, ev);
    PlainLeads(n1, ev);
    PlainLeads(n2, ev);
    LeadsThree(n, ev, n1, ev, n2, ev, Node(Advance(n2.world, ev), n.register));
  }

  // --- Handshakes on a provider -------------------------------------------------------------

  lemma RequestDraws(g: Gateway, kit: Kit, c: ClientId)
    requires Formed(g) && Pooled(g, c) && EngineOf(g, c).phase == Unauthenticated && FindPeerKey(g.peers, c).Some?
    ensures Draws(g, CallOf(RequestOf(kit, c)))
  {
    RequestRoundTrip(AuthRequest(c, SUPPORTED_VERSION), []);
    assert c + SUPPORTED_VERSION + [] == c + SUPPORTED_VERSION;
  }

  // A handshake whose nonce is the one the provider draws next.
  lemma HandshakeLeads(n: Node, kit: Kit, cs: seq<ClientId>, c: ClientId, at: uint64)
    requires GatewayInv(n.world.gateway) && Serves(n.world.gateway, cs) && |cs| < MAX_ZONE_SLOTS
    requires c !in cs && c != ZERO_ID && !IsLockedOut(n.world.gateway.sessions, c)
    requires Equipped(kit, n.world.gateway.peers, c)
    requires kit.platform == SoftwarePlatform() && kit.nonce(c) == NonceFrom(n.register)
    ensures Leads(n, HandshakeCalls(kit, c, at),
                  Node(RunEvents(n.world, HandshakeCalls(kit, c, at)), Steps(WORDS_PER_NONCE, n.register)))
  {
    var offer, request, response := PeerOffered(c), RequestOf(kit, c), ResponseOf(kit, c, at);
    var n1 := Node(Advance(n.world, offer), n.register);
    var n2 := Node(Advance(n1.world, request), Steps(WORDS_PER_NONCE, n.register));
    OfferServes(n.world.gateway, cs, c);
    Admission.OfferSucceeds(n.world.gateway, c);
    RequestDraws(n1.world.gateway, kit, c);
    PlainLeads(n, offer);
    DrawLeads(n1, request);
    PlainLeads(n2, response);
    LeadsThree(n, offer, n1, request, n2, response, Node(Advance(n2.world, response), n2.register));
  }

  // The kit hands out the successive draws of a provider, in the order of `cs`.
  ghost predicate DrawnBy(kit: Kit, seed: bv32, cs: seq<ClientId>) {
    && kit.platform == SoftwarePlatform()
    && forall k :: 0 <= k < |cs| ==> kit.nonce(cs[k]) == Draw(Seeded(seed), k)
  }

  // All the clients of `cs` can be admitted with what the provider draws for them.
  ghost predicate Prepared(kit: Kit, peers: seq<KnownPeer>, seed: bv32, cs: seq<ClientId>) {
    && Distinct(cs) && ZERO_ID !in cs
    && DrawnBy(kit, seed, cs)
    && forall k :: 0 <= k < |cs| ==> Equipped(kit, peers, cs[k])
  }

  lemma PreparedPrefix(kit: Kit, peers: seq<KnownPeer>, seed: bv32, cs: seq<ClientId>)
    requires Prepared(kit, peers, seed, cs) && cs != []
    ensures var n := |cs| - 1;
            && Prepared(kit, peers, seed, cs[..n]) && Equipped(kit, peers, cs[n])
            && kit.nonce(cs[n]) == Draw(Seeded(seed), n)
  {
    Prefix(cs);
  }

  // The provider after `count` draws, beside the adaptor where `evs` lead from the lock on the zero id.
  function Later(peers: seq<KnownPeer>, seed: bv32, evs: seq<Event>, count: nat): (n: Node)
    ensures Formed(n.world.gateway)
  {
    Node(RunEvents(Begin(peers, true, true), evs), Steps(WORDS_PER_NONCE * count, Seeded(seed)))
  }

  // The next client is admitted with the nonce drawn for it.
  lemma NextLeads(kit: Kit, peers: seq<KnownPeer>, seed: bv32, evs: seq<Event>, cs: seq<ClientId>, at: uint64)
    requires Prepared(kit, peers, seed, cs) && 0 < |cs| <= MAX_ACTIVE_SESSIONS
    requires var n, g := |cs| - 1, RunEvents(Begin(peers, true, true), evs).gateway;
             && GatewayInv(g) && Serves(g, cs[..n]) && g.peers == peers && cs[n] !in View(g.sessions).barred
    ensures var n := |cs| - 1;
            var calls := HandshakeCalls(kit, cs[n], at);
            Leads(Later(peers, seed, evs, n), calls, Later(peers, seed, evs + calls, n + 1))
  {
    var n, w := |cs| - 1, RunEvents(Begin(peers, true, true), evs);
    Prefix(cs);
    PreparedPrefix(kit, peers, seed, cs);
    NotLockedOut(w.gateway.sessions, cs[n]);
    NextDraw(kit, seed, cs, n);
    HandshakeLeads(Later(peers, seed, evs, n), kit, cs[..n], cs[n], at);
    LaterMoves(peers, seed, evs, n, HandshakeCalls(kit, cs[n], at));
  }

  lemma NextDraw(kit: Kit, seed: bv32, cs: seq<ClientId>, n: nat)
    requires DrawnBy(kit, seed, cs) && n < |cs|
    ensures kit.nonce(cs[n]) == NonceFrom(Steps(WORDS_PER_NONCE * n, Seeded(seed)))
  {
    RegisterMoves(n, Seeded(seed));
  }

  // One more draw, and `calls` after `evs`.
  lemma LaterMoves(peers: seq<KnownPeer>, seed: bv32, evs: seq<Event>, n: nat, calls: seq<Event>)
    ensures var later := Later(peers, seed, evs, n);
            Later(peers, seed, evs + calls, n + 1)
            == Node(RunEvents(later.world, calls), Steps(WORDS_PER_NONCE, later.register))
  {
    RegisterMoves(n, Seeded(seed));
    RunConcatCalls(Begin(peers, true, true), evs, calls);
  }

  lemma AdmitsNext(kit: Kit, peers: seq<KnownPeer>, seed: bv32, cs: seq<ClientId>, at: uint64)
    requires Prepared(kit, peers, seed, cs) && 0 < |cs| <= MAX_ACTIVE_SESSIONS
    ensures var n := |cs| - 1;
            Leads(Later(peers, seed, AdmitEach(kit, cs[..n], at), n), HandshakeCalls(kit, cs[n], at),
                  Later(peers, seed, AdmitEach(kit, cs, at), |cs|))
  {
    var n := |cs| - 1;
    PreparedPrefix(kit, peers, seed, cs);
    Prefix(cs);
    CrowdOf(kit, peers, true, true, cs[..n], at);
    NextLeads(kit, peers, seed, AdmitEach(kit, cs[..n], at), cs, at);
  }

  lemma BansNext(kit: Kit, peers: seq<KnownPeer>, seed: bv32, cs: seq<ClientId>, at: uint64)
    requires Prepared(kit, peers, seed, cs) && 0 < |cs| <= MAX_ACTIVE_SESSIONS
    ensures var n := |cs| - 1;
            var evs, calls := BanEachAfter(kit, cs[..n], at), HandshakeCalls(kit, cs[n], at);
            Leads(Later(peers, seed, evs, n), calls, Later(peers, seed, evs + calls, |cs|))
  {
    var n := |cs| - 1;
    PreparedPrefix(kit, peers, seed, cs);
    Prefix(cs);
    AllBarredOf(kit, peers, true, true, cs[..n], at);
    NextLeads(kit, peers, seed, BanEachAfter(kit, cs[..n], at), cs, at);
  }

  lemma BansLater(peers: seq<KnownPeer>, seed: bv32, evs: seq<Event>, count: nat, c: ClientId)
    ensures Leads(Later(peers, seed, evs, count), BanCalls(c), Later(peers, seed, evs + BanCalls(c), count))
  {
    BansLead(Later(peers, seed, evs, count), c);
    RunConcatCalls(Begin(peers, true, true), evs, BanCalls(c));
  }

  // From the start of adaptor and provider, locking the zero id and then `evs` draws `count` nonces.
  ghost predicate StartLeads(peers: seq<KnownPeer>, seed: bv32, evs: seq<Event>, count: nat) {
    Leads(StartNode(peers, true, true, seed), BanCalls(ZERO_ID) + evs, Later(peers, seed, evs, count))
  }

  lemma BeginLeads(peers: seq<KnownPeer>, seed: bv32)
    ensures StartLeads(peers, seed, [], 0)
  {
    BansLead(StartNode(peers, true, true, seed), ZERO_ID);
    assert BanCalls(ZERO_ID) + [] == BanCalls(ZERO_ID);
  }

  lemma StartLeadsOn(peers: seq<KnownPeer>, seed: bv32, evs: seq<Event>, i: nat, calls: seq<Event>, j: nat)
    requires StartLeads(peers, seed, evs, i)
    requires Leads(Later(peers, seed, evs, i), calls, Later(peers, seed, evs + calls, j))
    ensures StartLeads(peers, seed, evs + calls, j)
  {
    LeadsAfter(StartNode(peers, true, true, seed), BanCalls(ZERO_ID), evs, Later(peers, seed, evs, i), calls,
               Later(peers, seed, evs + calls, j));
  }

  lemma CrowdLeadsOn(kit: Kit, peers: seq<KnownPeer>, seed: bv32, cs: seq<ClientId>, at: uint64)
    requires Prepared(kit, peers, seed, cs) && 0 < |cs| < MAX_ACTIVE_SESSIONS
    requires StartLeads(peers, seed, AdmitEach(kit, cs[..|cs| - 1], at), |cs| - 1)
    ensures StartLeads(peers, seed, AdmitEach(kit, cs, at), |cs|)
  {
    var n := |cs| - 1;
    AdmitsNext(kit, peers, seed, cs, at);
    StartLeadsOn(peers, seed, AdmitEach(kit, cs[..n], at), n, HandshakeCalls(kit, cs[n], at), n + 1);
  }

  lemma {:induction false} CrowdLeads(kit: Kit, peers: seq<KnownPeer>, seed: bv32, cs: seq<ClientId>, at: uint64)
    requires Prepared(kit, peers, seed, cs) && |cs| < MAX_ACTIVE_SESSIONS
    ensures StartLeads(peers, seed, AdmitEach(kit, cs, at), |cs|)
    decreases |cs|
  {
    if cs == [] {
      BeginLeads(peers, seed);
    } else {
      PreparedPrefix(kit, peers, seed, cs);
      CrowdLeads(kit, peers, seed, cs[..|cs| - 1], at);
      CrowdLeadsOn(kit, peers, seed, cs, at);
    }
  }

  lemma BansLeadOn(kit: Kit, peers: seq<KnownPeer>, seed: bv32, cs: seq<ClientId>, at: uint64)
    requires Prepared(kit, peers, seed, cs) && 0 < |cs| < MAX_ACTIVE_SESSIONS
    requires StartLeads(peers, seed, BanEachAfter(kit, cs[..|cs| - 1], at), |cs| - 1)
    ensures StartLeads(peers, seed, BanEachAfter(kit, cs, at), |cs|)
  {
    var n := |cs| - 1;
    var evs, calls := BanEachAfter(kit, cs[..n], at), HandshakeCalls(kit, cs[n], at);
    BansNext(kit, peers, seed, cs, at);
    StartLeadsOn(peers, seed, evs, n, calls, n + 1);
    BansLater(peers, seed, evs + calls, n + 1, cs[n]);
    StartLeadsOn(peers, seed, evs + calls, n + 1, BanCalls(cs[n]), n + 1);
  }

  lemma {:induction false} BansEachLead(kit: Kit, peers: seq<KnownPeer>, seed: bv32, cs: seq<ClientId>, at: uint64)
    requires Prepared(kit, peers, seed, cs) && |cs| < MAX_ACTIVE_SESSIONS
    ensures StartLeads(peers, seed, BanEachAfter(kit, cs, at), |cs|)
    decreases |cs|
  {
    if cs == [] {
      BeginLeads(peers, seed);
    } else {
      PreparedPrefix(kit, peers, seed, cs);
      BansEachLead(kit, peers, seed, cs[..|cs| - 1], at);
      BansLeadOn(kit, peers, seed, cs, at);
    }
  }

  // --- Eviction and refusal, for any eight clients of one provider --------------------------

  // From the start of the adaptor and its provider.
  function RunFrom(peers: seq<KnownPeer>, seed: bv32, evs: seq<Event>): (n: Node)
    ensures Formed(n.world.gateway)
  {
    RunCalls(StartNode(peers, true, true, seed), CallsOf(evs))
  }

  // The eighth handshake is answered kOk and ends the session of the first client.
  ghost predicate Evicts(peers: seq<KnownPeer>, kit: Kit, seed: bv32, cs: seq<ClientId>, at: uint64)
    requires |cs| == MAX_ACTIVE_SESSIONS
  {
    var full := RunFrom(peers, seed, BanCalls(ZERO_ID) + AdmitEach(kit, cs[..7], at));
    var done := RunCalls(full, CallsOf(HandshakeCalls(kit, cs[7], at)));
    && cs[0] in View(full.world.gateway.sessions).live
    && LastReply(done.world) == Plain(AdaptorOk)
    && cs[0] !in View(done.world.gateway.sessions).live
  }

  // The eighth handshake is answered kSessionError.
  ghost predicate Refuses(peers: seq<KnownPeer>, kit: Kit, seed: bv32, cs: seq<ClientId>, at: uint64)
    requires |cs| == MAX_ACTIVE_SESSIONS
  {
    var barred := RunFrom(peers, seed, BanCalls(ZERO_ID) + BanEachAfter(kit, cs[..7], at));
    LastReply(RunCalls(barred, CallsOf(HandshakeCalls(kit, cs[7], at))).world) == Plain(SessionError)
  }

  lemma EvictionOnProvider(kit: Kit, peers: seq<KnownPeer>, seed: bv32, cs: seq<ClientId>, at: uint64)
    requires Prepared(kit, peers, seed, cs) && |cs| == MAX_ACTIVE_SESSIONS
    ensures Evicts(peers, kit, seed, cs, at)
  {
    PreparedPrefix(kit, peers, seed, cs);
    Prefix(cs);
    CrowdLeads(kit, peers, seed, cs[..7], at);
    AdmitsNext(kit, peers, seed, cs, at);
    EighthEvictsFirst(kit, peers, true, true, cs[..7], cs[7], at);
  }

  lemma RefusalOnProvider(kit: Kit, peers: seq<KnownPeer>, seed: bv32, cs: seq<ClientId>, at: uint64)
    requires Prepared(kit, peers, seed, cs) && |cs| == MAX_ACTIVE_SESSIONS
    ensures Refuses(peers, kit, seed, cs, at)
  {
    PreparedPrefix(kit, peers, seed, cs);
    Prefix(cs);
    BansEachLead(kit, peers, seed, cs[..7], at);
    BansNext(kit, peers, seed, cs, at);
    EighthIsRefused(kit, peers, true, true, cs[..7], cs[7], at);
  }

  // --- Eight clients of one provider --------------------------------------------------------

  // Eight clients that all hold the built-in key.
  function EightPeers(): (peers: seq<KnownPeer>)
    ensures |peers| == 8 && forall k :: 0 <= k < 8 ==> peers[k] == KnownPeer(Client(k), MOCK_PUBLIC_KEY)
  {
    seq(8, k requires 0 <= k < 8 => KnownPeer(Client(k), MOCK_PUBLIC_KEY))
  }

  function IndexOf(cs: seq<ClientId>, c: ClientId): (k: nat)
    ensures k <= |cs|
    ensures k < |cs| ==> cs[k] == c
    ensures forall i :: 0 <= i < k ==> cs[i] != c
  {
    if cs == [] || cs[0] == c then 0 else 1 + IndexOf(cs[1..], c)
  }

  // The nonce the provider draws for `c` when it challenges `cs` in order.
  function DrawFor(seed: bv32, cs: seq<ClientId>, c: ClientId): Nonce {
    Draw(Seeded(seed), IndexOf(cs, c))
  }

  function ProviderKit(seed: bv32, cs: seq<ClientId>): Kit {
    Kit(SoftwarePlatform(),
        c => DrawFor(seed, cs, c),
        c => MockSignature(Sha256(DrawFor(seed, cs, c) + c)),
        c => DerivedKey(DrawFor(seed, cs, c), c))
  }

  lemma KitEquips(seed: bv32, cs: seq<ClientId>, k: nat)
    requires k < MAX_ACTIVE_SESSIONS
    ensures Equipped(ProviderKit(seed, cs), EightPeers(), Client(k))
  {
    var c := Client(k);
    var nonce := DrawFor(seed, cs, c);
    assert EightPeers()[k].clientId == c;
    GenuineIsAccepted(EightPeers(), c, nonce);
  }

  lemma KitDraws(seed: bv32, cs: seq<ClientId>)
    requires Distinct(cs)
    ensures DrawnBy(ProviderKit(seed, cs), seed, cs)
  {
    forall k | 0 <= k < |cs|
      ensures IndexOf(cs, cs[k]) == k
    {
      assert IndexOf(cs, cs[k]) <= k;
    }
  }

  lemma EightPrepared(seed: bv32)
    ensures Prepared(ProviderKit(seed, EightClients()), EightPeers(), seed, EightClients())
  {
    var cs := EightClients();
    EightClientsDiffer();
    KitDraws(seed, cs);
    forall k | 0 <= k < |cs|
      ensures Equipped(ProviderKit(seed, cs), EightPeers(), cs[k])
    {
      KitEquips(seed, cs, k);
    }
  }

  // For every seed of the provider: an admission that ends another client's session, and one refused
  // with kSessionError, both occur.
  lemma CrowdingHappens(seed: bv32, at: uint64)
    ensures Evicts(EightPeers(), ProviderKit(seed, EightClients()), seed, EightClients(), at)
    ensures Refuses(EightPeers(), ProviderKit(seed, EightClients()), seed, EightClients(), at)
  {
    EightPrepared(seed);
    EvictionOnProvider(ProviderKit(seed, EightClients()), EightPeers(), seed, EightClients(), at);
    RefusalOnProvider(ProviderKit(seed, EightClients()), EightPeers(), seed, EightClients(), at);
  }

  // --- Coming apart -------------------------------------------------------------------------

  lemma OneAdmitted(peers: seq<KnownPeer>, kit: Kit, c: ClientId, at: uint64)
    requires c != ZERO_ID && Equipped(kit, peers, c)
    ensures var w := RunEvents(Start(peers, true, true), HandshakeCalls(kit, c, at));
            && GatewayInv(w.gateway) && c in View(w.gateway.sessions).live
            && View(w.gateway.sessions).live[c].issuedAt == at && !IsLockedOut(w.gateway.sessions, c)
            && LastReply(w) == Plain(AdaptorOk)
  {
    var w, token := Start(peers, true, true), TokenOf(kit, c);
    StartIsOpen(peers, c);
    InitialBarsNobody(true);
    HandshakeRegisters(w, kit, [], c, at);
    RegisterRefines(w.gateway.sessions, token, at);
    AdmitsOne([], token, at);
    NotLockedOut(RunEvents(w, HandshakeCalls(kit, c, at)).gateway.sessions, c);
  }

  lemma ThirdIsResponse(peers: seq<KnownPeer>, kit: Kit, c: ClientId, at: uint64)
    ensures var h := RunEvents(Start(peers, true, true), HandshakeCalls(kit, c, at)).history;
            |h| == 3 && h[2].event == ResponseOf(kit, c, at)
  {
    var calls := HandshakeCalls(kit, c, at);
    HistoryIsRun(Start(peers, true, true), calls);
    assert RunEvents(Start(peers, true, true), calls).history[0 + 2].event == calls[2];
  }

  lemma AdmittedInStep(peers: seq<KnownPeer>, kit: Kit, c: ClientId, at: uint64)
    requires c != ZERO_ID && Equipped(kit, peers, c)
    ensures InStep(RunEvents(Start(peers, true, true), HandshakeCalls(kit, c, at)).gateway, c)
  {
    var calls := HandshakeCalls(kit, c, at);
    var h := RunEvents(Start(peers, true, true), calls).history;
    OneAdmitted(peers, kit, c, at);
    ThirdIsResponse(peers, kit, c, at);
    ResponseRoundTrip(AuthResponse(c, kit.sign(c)), []);
    assert c + kit.sign(c) + [] == c + kit.sign(c);
    EveryRunAgrees(peers, true, true, calls, c);
    assert LastGrant(h, c, 2);
    assert NotReset(h, c, 2);
  }

  // One more call leaves a live session beside an idle engine, or an authenticated engine without one.
  ghost predicate ComesApart(g: Gateway, c: ClientId, now: uint64)
    requires Formed(g)
  {
    var offered, swept := Handle(g, PeerOffered(c)).0, Handle(g, SessionTick(now)).0;
    && c in View(offered.sessions).live && Pooled(offered, c) && EngineOf(offered, c).phase == Unauthenticated
    && c !in View(swept.sessions).live && IsAuthenticated(swept, c)
  }

  lemma InStepComesApart(g: Gateway, c: ClientId, now: uint64)
    requires InStep(g, c) && c != ZERO_ID && !IsLockedOut(g.sessions, c) && View(g.sessions).Stale(c, now)
    ensures ComesApart(g, c, now)
  {
    ReofferComesApart(g, c);
    ExpiryComesApart(g, c, now);
  }

  lemma AdmittedComesApart(peers: seq<KnownPeer>, kit: Kit, c: ClientId, at: uint64, now: uint64)
    requires c != ZERO_ID && Equipped(kit, peers, c) && Age(now, at) > TOKEN_LIFETIME_MS
    ensures ComesApart(RunEvents(Start(peers, true, true), HandshakeCalls(kit, c, at)).gateway, c, now)
  {
    OneAdmitted(peers, kit, c, at);
    AdmittedInStep(peers, kit, c, at);
    InStepComesApart(RunEvents(Start(peers, true, true), HandshakeCalls(kit, c, at)).gateway, c, now);
  }

  lemma StartIsOpen(peers: seq<KnownPeer>, c: ClientId)
    ensures var g := Start(peers, true, true).gateway;
            GatewayInv(g) && Serves(g, []) && g.peers == peers && !IsLockedOut(g.sessions, c)
  {
    StartKeeps(peers, true, true);
    InitialBarsNobody(true);
    NotLockedOut(Start(peers, true, true).gateway.sessions, c);
  }

  lemma FirstDraw(kit: Kit, seed: bv32, c: ClientId)
    requires DrawnBy(kit, seed, [c])
    ensures kit.nonce(c) == NonceFrom(Seeded(seed))
  {
    assert kit.nonce([c][0]) == Draw(Seeded(seed), 0);
  }

  lemma FirstHandshakeLeads(peers: seq<KnownPeer>, kit: Kit, seed: bv32, c: ClientId, at: uint64)
    requires c != ZERO_ID && Equipped(kit, peers, c) && DrawnBy(kit, seed, [c])
    ensures RunFrom(peers, seed, HandshakeCalls(kit, c, at)).world
            == RunEvents(Start(peers, true, true), HandshakeCalls(kit, c, at))
  {
    StartIsOpen(peers, c);
    FirstDraw(kit, seed, c);
    HandshakeLeads(StartNode(peers, true, true, seed), kit, [], c, at);
  }

  // For every seed of the provider: after the admission of one client both happen.
  lemma ComingApartHappens(seed: bv32, at: uint64, now: uint64)
    requires Age(now, at) > 30_000
    ensures var c := Client(0);
            var n := RunFrom(EightPeers(), seed, HandshakeCalls(ProviderKit(seed, [c]), c, at));
            ComesApart(n.world.gateway, c, now)
  {
    var c := Client(0);
    EightClientsDiffer();
    assert EightClients()[0] == c;
    KitEquips(seed, [c], 0);
    KitDraws(seed, [c]);
    FirstHandshakeLeads(EightPeers(), ProviderKit(seed, [c]), seed, c, at);
    AdmittedComesApart(EightPeers(), ProviderKit(seed, [c]), c, at, now);
  }
}
