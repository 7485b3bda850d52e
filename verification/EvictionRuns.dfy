/**
 Runs of the adaptor in which an admission costs another client its session, or is refused because
 the table is full. Both begin with three anomalous revocations of the all-zero id.
 */
module EvictionRuns {
  import opened Bytes
  import opened CircularBuffers
  import opened SessionTable
  import opened SessionInvariants
  import opened SessionRegistry
  import SessionRuns
  import opened Handshake
  import opened Gateways
  import opened GatewayInvariants
  import opened Provenance
  import Admission
  import Eviction
  import opened Bans

  // What clients need to be admitted: the nonces drawn for them, signatures of these that the platform
  // accepts, and the keys derived from them.
  datatype Kit = Kit(
    platform: Platform,
    nonce: ClientId -> Nonce,
    sign: ClientId -> Signature,
    key: ClientId -> SessionKey)

  predicate Equipped(kit: Kit, peers: seq<KnownPeer>, c: ClientId) {
    Accepts(kit.platform, peers, c, kit.nonce(c), kit.sign(c), kit.key(c))
  }

  function TokenOf(kit: Kit, c: ClientId): SessionToken {
    SessionToken(c, kit.nonce(c), kit.key(c))
  }

  function RequestOf(kit: Kit, c: ClientId): Event {
    RequestFrame(Some(c + SUPPORTED_VERSION), (CryptoOk, kit.nonce(c)))
  }

  function ResponseOf(kit: Kit, c: ClientId, at: uint64): Event {
    ResponseFrame(Some(c + kit.sign(c)), kit.platform, at)
  }

  function HandshakeCalls(kit: Kit, c: ClientId, at: uint64): seq<Event> {
    [PeerOffered(c), RequestOf(kit, c), ResponseOf(kit, c, at)]
  }

  function BanCalls(c: ClientId): seq<Event> {
    [SessionRevoked(c, true), SessionRevoked(c, true), SessionRevoked(c, true)]
  }

  lemma RunConsCalls(w: World, ev: Event, rest: seq<Event>)
    requires Formed(w.gateway)
    ensures RunEvents(w, [ev] + rest) == RunEvents(Advance(w, ev), rest)
  {
  }

  lemma RunThreeCalls(w: World, a: Event, b: Event, c: Event)
    requires Formed(w.gateway)
    ensures RunEvents(w, [a, b, c]) == Advance(Advance(Advance(w, a), b), c)
  {
    RunConsCalls(w, a, [b, c]);
    RunConsCalls(Advance(w, a), b, [c]);
    RunConsCalls(Advance(Advance(w, a), b), c, []);
    assert [a] + [b, c] == [a, b, c] && [b] + [c] == [b, c] && [c] + [] == [c];
  }

  lemma {:induction false} RunConcatCalls(w: World, a: seq<Event>, b: seq<Event>)
    requires Formed(w.gateway)
    ensures RunEvents(w, a + b) == RunEvents(RunEvents(w, a), b)
    decreases |a|
  {
    if a == [] {
      assert a + b == b;
    } else {
      assert (a + b)[1..] == a[1..] + b;
      RunConcatCalls(Advance(w, a[0]), a[1..], b);
    }
  }

  // The pool serves exactly `cs`, in this order.
  ghost predicate Serves(g: Gateway, cs: seq<ClientId>) {
    && |g.records| == MAX_ZONE_SLOTS && |cs| <= MAX_ZONE_SLOTS
    && forall j :: 0 <= j < MAX_ZONE_SLOTS ==>
         g.records[j] == if j < |cs| then ZoneSlotRecord(cs[j], true) else VACANT
  }

  lemma RevocationCall(w: World, c: ClientId)
    requires Formed(w.gateway)
    ensures var g' := Advance(w, SessionRevoked(c, true)).gateway;
            && g'.records == w.gateway.records && g'.peers == w.gateway.peers
            && g'.sessions == SessionTable.Step(w.gateway.sessions, RevokeOp(c, true)).0
  {
  }

  lemma BanThrough(w: World, c: ClientId, cs: seq<ClientId>)
    requires GatewayInv(w.gateway) && Serves(w.gateway, cs)
    ensures var w' := RunEvents(w, BanCalls(c));
            && GatewayInv(w'.gateway) && Serves(w'.gateway, cs) && w'.gateway.peers == w.gateway.peers
            && w'.gateway.sessions == Run(w.gateway.sessions, Ban(c))
  {
    var ev := SessionRevoked(c, true);
    RunThreeCalls(w, ev, ev, ev);
    RevocationCall(w, c);
    RevocationCall(Advance(w, ev), c);
    RevocationCall(Advance(Advance(w, ev), ev), c);
    RunThree(w.gateway.sessions, RevokeOp(c, true), RevokeOp(c, true), RevokeOp(c, true));
    RunKeepsGateway(w, BanCalls(c));
  }

  // --- One handshake ------------------------------------------------------------------------

  lemma OfferServes(g: Gateway, cs: seq<ClientId>, c: ClientId)
    requires GatewayInv(g) && Serves(g, cs) && |cs| < MAX_ZONE_SLOTS
    requires c !in cs && c != ZERO_ID && !IsLockedOut(g.sessions, c)
    ensures Admission.HasPlace(g, c) && Serves(Offer(g, c).0, cs + [c])
  {
    assert forall k :: 0 <= k < MAX_ZONE_SLOTS ==> g.records[k] != ZoneSlotRecord(c, true);
    assert !g.records[|cs|].isOccupied;
    assert FindSlot(g.records, c) == MAX_ZONE_SLOTS && FindVacant(g.records) == |cs|;
  }

  lemma ResponseAnswers(g: Gateway, kit: Kit, c: ClientId, at: uint64)
    requires GatewayInv(g) && Pooled(g, c) && Equipped(kit, g.peers, c) && !IsLockedOut(g.sessions, c)
    requires var e := EngineOf(g, c);
             e.phase == ChallengeSent && e.pendingNonce == kit.nonce(c) && e.pendingClient == c
    ensures var (g', reply) := Handle(g, ResponseOf(kit, c, at));
            var (s', status) := Register(g.sessions, TokenOf(kit, c), at);
            && g'.sessions == s' && g'.records == g.records && g'.peers == g.peers
            && reply == Plain(if status == Ok then AdaptorOk else SessionError)
  {
    ResponseReads(g, kit, c, at);
    IssuesIffAccepted(EngineOf(g, c), g.peers, AuthResponse(c, kit.sign(c)), kit.platform, TokenOf(kit, c));
    OnlySlot(g.records, FindSlot(g.records, c));
    SessionRuns.RefusedIffAllLocked(g.sessions, TokenOf(kit, c), at);
  }

  lemma ResponseReads(g: Gateway, kit: Kit, c: ClientId, at: uint64)
    requires Formed(g)
    ensures var (g', status) := HandleResponse(g, AuthResponse(c, kit.sign(c)), kit.platform, at);
            Handle(g, ResponseOf(kit, c, at)) == (g', Plain(status))
  {
    ResponseRoundTrip(AuthResponse(c, kit.sign(c)), []);
    assert c + kit.sign(c) + [] == c + kit.sign(c);
  }

  // The handshake of a client new to the pool registers its token.
  lemma HandshakeRegisters(w: World, kit: Kit, cs: seq<ClientId>, c: ClientId, at: uint64)
    requires GatewayInv(w.gateway) && Serves(w.gateway, cs) && |cs| < MAX_ZONE_SLOTS
    requires c !in cs && c != ZERO_ID && !IsLockedOut(w.gateway.sessions, c) && Equipped(kit, w.gateway.peers, c)
    ensures var w' := RunEvents(w, HandshakeCalls(kit, c, at));
            var (s', status) := Register(w.gateway.sessions, TokenOf(kit, c), at);
            && GatewayInv(w'.gateway) && Serves(w'.gateway, cs + [c]) && w'.gateway.peers == w.gateway.peers
            && w'.gateway.sessions == s'
            && LastReply(w') == Plain(if status == Ok then AdaptorOk else SessionError)
  {
    var w1 := Advance(w, PeerOffered(c));
    var w2 := Advance(w1, RequestOf(kit, c));
    RunThreeCalls(w, PeerOffered(c), RequestOf(kit, c), ResponseOf(kit, c, at));
    OfferServes(w.gateway, cs, c);
    Admission.OfferSucceeds(w.gateway, c);
    RequestRoundTrip(AuthRequest(c, SUPPORTED_VERSION), []);
    assert c + SUPPORTED_VERSION + [] == c + SUPPORTED_VERSION;
    Admission.RequestSucceeds(w1.gateway, Some(c + SUPPORTED_VERSION), c, kit.nonce(c));
    ResponseAnswers(w2.gateway, kit, c, at);
    StepKeepsGateway(w2.gateway, ResponseOf(kit, c, at));
  }

  function LastReply(w: World): Reply {
    if w.history == [] then Plain(AdaptorOk) else w.history[|w.history| - 1].reply
  }

  // --- Eviction -----------------------------------------------------------------------------

  function AdmitEach(kit: Kit, cs: seq<ClientId>, at: uint64): seq<Event> {
    if cs == [] then [] else AdmitEach(kit, cs[..|cs| - 1], at) + HandshakeCalls(kit, cs[|cs| - 1], at)
  }

  // The all-zero id is locked, and exactly `cs` have sessions, in this order.
  ghost predicate Crowd(w: World, cs: seq<ClientId>, peers: seq<KnownPeer>) {
    && GatewayInv(w.gateway) && Serves(w.gateway, cs) && w.gateway.peers == peers
    && View(w.gateway.sessions).order == cs && View(w.gateway.sessions).barred == {ZERO_ID}
  }

  function Begin(peers: seq<KnownPeer>, transmits: bool, listening: bool): World {
    RunEvents(Start(peers, transmits, listening), BanCalls(ZERO_ID))
  }

  lemma BeginBarsZero(peers: seq<KnownPeer>, transmits: bool, listening: bool)
    ensures var w := Begin(peers, transmits, listening);
            && GatewayInv(w.gateway) && Serves(w.gateway, []) && w.gateway.peers == peers
            && View(w.gateway.sessions) == OnlyBarred([ZERO_ID])
  {
    var w := Start(peers, transmits, listening);
    StartKeeps(peers, transmits, listening);
    BanThrough(w, ZERO_ID, []);
    InitialBarsNobody(listening);
    assert w.gateway.sessions.table[0].clientId == ZERO_ID;
    ThreeRevocationsBar(w.gateway.sessions, ZERO_ID);
    assert BannedFrom(OnlyBarred([]), ZERO_ID) == OnlyBarred([ZERO_ID]);
  }

  lemma NotLockedOut(s: State, c: ClientId)
    requires WellFormed(s) && c !in View(s).barred
    ensures !IsLockedOut(s, c)
  {
    SessionRuns.BarredIsIsLockedOut(s, c);
  }

  // One more client, when there is room for it.
  lemma CrowdGrows(w: World, kit: Kit, cs: seq<ClientId>, c: ClientId, at: uint64, peers: seq<KnownPeer>)
    requires Crowd(w, cs, peers) && |cs| < MAX_ACTIVE_SESSIONS - 1
    requires c !in cs && c != ZERO_ID && Equipped(kit, peers, c)
    ensures Crowd(RunEvents(w, HandshakeCalls(kit, c, at)), cs + [c], peers)
  {
    NotLockedOut(w.gateway.sessions, c);
    HandshakeRegisters(w, kit, cs, c, at);
    RegisterRefines(w.gateway.sessions, TokenOf(kit, c), at);
    WithoutAbsent(cs, c);
  }

  lemma {:induction false} CrowdOf(kit: Kit, peers: seq<KnownPeer>, transmits: bool, listening: bool,
                                   cs: seq<ClientId>, at: uint64)
    requires Distinct(cs) && ZERO_ID !in cs && |cs| < MAX_ACTIVE_SESSIONS
    requires forall k :: 0 <= k < |cs| ==> Equipped(kit, peers, cs[k])
    ensures Crowd(RunEvents(Begin(peers, transmits, listening), AdmitEach(kit, cs, at)), cs, peers)
    decreases |cs|
  {
    BeginBarsZero(peers, transmits, listening);
    if cs != [] {
      var n, w := |cs| - 1, Begin(peers, transmits, listening);
      Prefix(cs);
      CrowdOf(kit, peers, transmits, listening, cs[..n], at);
      RunConcatCalls(w, AdmitEach(kit, cs[..n], at), HandshakeCalls(kit, cs[n], at));
      CrowdGrows(RunEvents(w, AdmitEach(kit, cs[..n], at)), kit, cs[..n], cs[n], at, peers);
    }
  }

  // After seven admissions the eighth is answered kOk and ends the session of the first client.
  lemma EighthEvictsFirst(kit: Kit, peers: seq<KnownPeer>, transmits: bool, listening: bool,
                          cs: seq<ClientId>, c: ClientId, at: uint64)
    requires Distinct(cs) && ZERO_ID !in cs && |cs| == 7
    requires c !in cs && c != ZERO_ID && Equipped(kit, peers, c)
    requires forall k :: 0 <= k < |cs| ==> Equipped(kit, peers, cs[k])
    ensures var w := RunEvents(Begin(peers, transmits, listening), AdmitEach(kit, cs, at));
            var w' := RunEvents(w, HandshakeCalls(kit, c, at));
            && cs[0] in View(w.gateway.sessions).live
            && LastReply(w') == Plain(AdaptorOk)
            && cs[0] !in View(w'.gateway.sessions).live
  {
    var w := RunEvents(Begin(peers, transmits, listening), AdmitEach(kit, cs, at));
    CrowdOf(kit, peers, transmits, listening, cs, at);
    NotLockedOut(w.gateway.sessions, c);
    HandshakeRegisters(w, kit, cs, c, at);
    RegisterRefines(w.gateway.sessions, TokenOf(kit, c), at);
    HeadIsLive(w.gateway.sessions);
    FullEvictsHead(View(w.gateway.sessions), TokenOf(kit, c), at);
  }

  lemma HeadIsLive(s: State)
    requires Inv(s) && View(s).order != []
    ensures View(s).order[0] in View(s).live
  {
    ViewRepresents(s);
    OrderListsLive(s, View(s));
    assert View(s).order[0] in View(s).order;
  }

  lemma FullEvictsHead(r: Registry, token: SessionToken, now: uint64)
    requires r.order != [] && |r.order| + |r.barred| == MAX_ACTIVE_SESSIONS && r.order[0] in r.live
    requires token.clientId != ZERO_ID && token.clientId !in r.barred && token.clientId !in r.order
    ensures r.Register(token, now).1 == Ok && r.order[0] !in r.Register(token, now).0.live
  {
    WithoutAbsent(r.order, token.clientId);
    Eviction.RegistryEvictsIff(r, token, now, r.order[0]);
  }

  // --- Refusal ------------------------------------------------------------------------------

  function BanEachAfter(kit: Kit, cs: seq<ClientId>, at: uint64): seq<Event> {
    if cs == [] then []
    else BanEachAfter(kit, cs[..|cs| - 1], at) + HandshakeCalls(kit, cs[|cs| - 1], at) + BanCalls(cs[|cs| - 1])
  }

  ghost predicate AllBarred(w: World, cs: seq<ClientId>, peers: seq<KnownPeer>) {
    && GatewayInv(w.gateway) && Serves(w.gateway, cs) && w.gateway.peers == peers
    && View(w.gateway.sessions) == OnlyBarred([ZERO_ID] + cs)
  }

  lemma ZeroFirst(cs: seq<ClientId>)
    requires Distinct(cs) && ZERO_ID !in cs
    ensures Distinct([ZERO_ID] + cs)
  {
  }

  lemma OneMoreBarred(w: World, kit: Kit, cs: seq<ClientId>, c: ClientId, at: uint64, peers: seq<KnownPeer>)
    requires AllBarred(w, cs, peers) && |cs| < MAX_ACTIVE_SESSIONS - 1
    requires Distinct([ZERO_ID] + cs) && c !in [ZERO_ID] + cs && Equipped(kit, peers, c)
    ensures AllBarred(RunEvents(RunEvents(w, HandshakeCalls(kit, c, at)), BanCalls(c)), cs + [c], peers)
  {
    NotLockedOut(w.gateway.sessions, c);
    HandshakeRegisters(w, kit, cs, c, at);
    RegisterThenBan(w.gateway.sessions, [ZERO_ID] + cs, TokenOf(kit, c), at);
    BanThrough(RunEvents(w, HandshakeCalls(kit, c, at)), c, cs + [c]);
    assert [ZERO_ID] + cs + [c] == [ZERO_ID] + (cs + [c]);
  }

  lemma OneMoreCalls(w: World, kit: Kit, cs: seq<ClientId>, at: uint64)
    requires Formed(w.gateway) && cs != []
    ensures var n := |cs| - 1;
            RunEvents(w, BanEachAfter(kit, cs, at)) ==
            RunEvents(RunEvents(RunEvents(w, BanEachAfter(kit, cs[..n], at)), HandshakeCalls(kit, cs[n], at)),
                      BanCalls(cs[n]))
  {
    var n := |cs| - 1;
    RunConcatCalls(w, BanEachAfter(kit, cs[..n], at) + HandshakeCalls(kit, cs[n], at), BanCalls(cs[n]));
    RunConcatCalls(w, BanEachAfter(kit, cs[..n], at), HandshakeCalls(kit, cs[n], at));
  }

  lemma {:induction false} AllBarredOf(kit: Kit, peers: seq<KnownPeer>, transmits: bool, listening: bool,
                                       cs: seq<ClientId>, at: uint64)
    requires Distinct(cs) && ZERO_ID !in cs && |cs| < MAX_ACTIVE_SESSIONS
    requires forall k :: 0 <= k < |cs| ==> Equipped(kit, peers, cs[k])
    ensures AllBarred(RunEvents(Begin(peers, transmits, listening), BanEachAfter(kit, cs, at)), cs, peers)
    decreases |cs|
  {
    BeginBarsZero(peers, transmits, listening);
    if cs == [] {
      assert [ZERO_ID] + cs == [ZERO_ID];
    } else {
      var n, w := |cs| - 1, Begin(peers, transmits, listening);
      Prefix(cs);
      AllBarredOf(kit, peers, transmits, listening, cs[..n], at);
      OneMoreCalls(w, kit, cs, at);
      ZeroFirst(cs[..n]);
      OneMoreBarred(RunEvents(w, BanEachAfter(kit, cs[..n], at)), kit, cs[..n], cs[n], at, peers);
    }
  }

  // After seven admissions each followed by three anomalous revocations the eighth client is refused
  // with kSessionError.
  lemma EighthIsRefused(kit: Kit, peers: seq<KnownPeer>, transmits: bool, listening: bool,
                        cs: seq<ClientId>, c: ClientId, at: uint64)
    requires Distinct(cs) && ZERO_ID !in cs && |cs| == 7
    requires c !in cs && c != ZERO_ID && Equipped(kit, peers, c)
    requires forall k :: 0 <= k < |cs| ==> Equipped(kit, peers, cs[k])
    ensures var w := RunEvents(Begin(peers, transmits, listening), BanEachAfter(kit, cs, at));
            LastReply(RunEvents(w, HandshakeCalls(kit, c, at))) == Plain(SessionError)
  {
    var w := RunEvents(Begin(peers, transmits, listening), BanEachAfter(kit, cs, at));
    AllBarredOf(kit, peers, transmits, listening, cs, at);
    NotLockedOut(w.gateway.sessions, c);
    HandshakeRegisters(w, kit, cs, c, at);
    ZeroFirst(cs);
    DistinctCardinality([ZERO_ID] + cs, View(w.gateway.sessions).barred);
    RegisterRefines(w.gateway.sessions, TokenOf(kit, c), at);
  }
}
