/**
 Exactly when each hook of the adaptor gives which answer, and what it leaves behind. The conditions
 are about the frame, the engine of the client and the registry, and spell out every constant.
 */
module Answers {
  import opened Bytes
  import opened SessionTable
  import opened SessionInvariants
  import opened SessionRegistry
  import SessionRuns
  import opened Handshake
  import opened Gateways
  import opened GatewayInvariants
  import opened Provenance

  // --- The start ----------------------------------------------------------------------------

  // A new adaptor serves nobody, has sent and notified nothing, and holds no byte of anybody's.
  lemma StartIsEmpty(peers: seq<KnownPeer>, transmits: bool, listening: bool)
    ensures var g := Start(peers, transmits, listening).gateway;
            && g.peers == peers && g.transmits == transmits && g.sent == []
            && g.sessions.listening == listening && g.sessions.notified == []
            && |g.engines| == |g.records| == |g.sessions.table| == 8
            && (forall k :: 0 <= k < 8 ==> g.engines[k].phase == Unauthenticated && !g.records[k].isOccupied)
            && (forall c: ClientId :: !Pooled(g, c))
            && View(g.sessions) == Registry([], map[], {})
    ensures Start(peers, transmits, listening).history == []
  {
    var g := Start(peers, transmits, listening).gateway;
    InitialRefines(listening);
    forall c: ClientId
      ensures !Pooled(g, c)
    {
      assert forall k :: 0 <= k < 8 ==> g.records[k] != ZoneSlotRecord(c, true);
    }
  }

  // A slot without a session holds no byte of a key or a nonce, and no time.
  lemma InactiveIsBlank(s: State, i: nat)
    requires Inv(s) && i < 8 && !s.table[i].isActive
    ensures forall k :: 0 <= k < 32 ==> s.table[i].sessionKey[k] == s.table[i].sessionNonce[k] == 0
    ensures s.table[i].issuedAt == s.table[i].lastSeen == 0
  {
  }

  // --- Offers -------------------------------------------------------------------------------

  // A successful offer gives the client an engine without a trace of any earlier handshake, and
  // touches no session.
  lemma OfferStartsOver(g: Gateway, c: ClientId)
    requires GatewayInv(g) && Offer(g, c).1 == AdaptorOk
    ensures var g' := Offer(g, c).0;
            && Pooled(g', c)
            && EngineOf(g', c).phase == Unauthenticated
            && (forall i :: 0 <= i < 32 ==> EngineOf(g', c).pendingNonce[i] == 0)
            && (forall i :: 0 <= i < 8 ==>
                  EngineOf(g', c).pendingClient[i] == EngineOf(g', c).authenticatedClient[i] == 0)
            && g'.sessions == g.sessions && g'.sent == g.sent
  {
    var g' := Offer(g, c).0;
    if !Pooled(g, c) {
      var vacant := FindVacant(g.records);
      assert g'.records[vacant] == ZoneSlotRecord(c, true);
      assert FindSlot(g'.records, c) == vacant;
    }
  }

  // --- Requests -----------------------------------------------------------------------------

  // The engine waits for a first request, and the frame is one of a known peer of this version.
  ghost predicate Challengeable(g: Gateway, request: AuthRequest, draw: (CryptoStatus, Nonce))
    requires Formed(g) && Pooled(g, request.clientId)
  {
    && EngineOf(g, request.clientId).phase == Unauthenticated
    && request.version == [1, 16, 0, 0]
    && (exists i :: 0 <= i < |g.peers| && g.peers[i].clientId == request.clientId)
    && draw.0 == CryptoOk
  }

  lemma RequestAnswers(g: Gateway, request: AuthRequest, draw: (CryptoStatus, Nonce))
    requires Formed(g)
    ensures var status := HandleRequest(g, request, draw).1;
            && (status == UnknownPeer <==> !Pooled(g, request.clientId))
            && (status == AdaptorOk <==> Pooled(g, request.clientId) && Challengeable(g, request, draw))
            && (status == UnknownPeer || status == AdaptorOk || status == ProtocolError)
  {
    if Pooled(g, request.clientId) {
      ChallengesIffFresh(EngineOf(g, request.clientId), g.peers, request, draw);
    }
  }

  // --- Responses ----------------------------------------------------------------------------

  // A challenge of the client is in flight, and the platform accepts this signature of it.
  ghost predicate Accepted(g: Gateway, response: AuthResponse, platform: Platform)
    requires Formed(g) && Pooled(g, response.clientId)
  {
    var e := EngineOf(g, response.clientId);
    && e.phase == ChallengeSent
    && exists key :: Accepts(platform, g.peers, response.clientId, e.pendingNonce, response.signature, key)
  }

  lemma AcceptedIffToken(g: Gateway, response: AuthResponse, platform: Platform)
    requires GatewayInv(g) && Pooled(g, response.clientId)
    ensures Accepted(g, response, platform) <==>
              Respond(EngineOf(g, response.clientId), g.peers, response, platform).2.Some?
    ensures Accepted(g, response, platform) ==>
              Respond(EngineOf(g, response.clientId), g.peers, response, platform).2.value.clientId == response.clientId
  {
    var c := response.clientId;
    var e := EngineOf(g, c);
    assert EngineOk(e, g.records[FindSlot(g.records, c)], g.peers);
    if Accepted(g, response, platform) {
      var key :| Accepts(platform, g.peers, c, e.pendingNonce, response.signature, key);
      IssuesIffAccepted(e, g.peers, response, platform, SessionToken(c, e.pendingNonce, key));
    }
    var token := Respond(e, g.peers, response, platform).2;
    if token.Some? {
      IssuesIffAccepted(e, g.peers, response, platform, token.value);
    }
  }

  // An accepted response opens a session unless the client is barred or eight clients are.
  lemma ResponseAnswers(g: Gateway, response: AuthResponse, platform: Platform, now: uint64)
    requires GatewayInv(g)
    ensures var status := HandleResponse(g, response, platform, now).1;
            var c, barred := response.clientId, View(g.sessions).barred;
            && (status == UnknownPeer <==> !Pooled(g, c))
            && (status == ProtocolError <==> Pooled(g, c) && !Accepted(g, response, platform))
            && (status == AdaptorLockedOut <==> Pooled(g, c) && Accepted(g, response, platform) && c in barred)
            && (status == SessionError <==>
                  Pooled(g, c) && Accepted(g, response, platform) && c !in barred && |barred| == 8)
            && (status == AdaptorOk <==>
                  Pooled(g, c) && Accepted(g, response, platform) && c !in barred && |barred| < 8)
  {
    var c := response.clientId;
    if Pooled(g, c) {
      AcceptedIffToken(g, response, platform);
      if Accepted(g, response, platform) {
        OnlySlot(g.records, FindSlot(g.records, c));
        RegistrationAnswers(g.sessions, Respond(EngineOf(g, c), g.peers, response, platform).2.value, now);
      }
    }
  }

  lemma RegistrationAnswers(s: State, token: SessionToken, now: uint64)
    requires Inv(s) && token.clientId != ZERO_ID
    ensures var status, barred := Register(s, token, now).1, View(s).barred;
            && (status == LockedOut <==> token.clientId in barred)
            && (status == TableFull <==> token.clientId !in barred && |barred| == 8)
            && (status == Ok <==> token.clientId !in barred && |barred| < 8)
  {
    SessionRuns.BarredIsIsLockedOut(s, token.clientId);
    ViewRepresents(s);
    Capacity(s, View(s));
    if token.clientId !in View(s).barred {
      SessionRuns.RefusedIffAllLocked(s, token, now);
    }
  }

  // A failed response revokes the token of the client as an anomaly, and the engine if it had a challenge.
  lemma FailureLeaves(g: Gateway, response: AuthResponse, platform: Platform, now: uint64)
    requires Formed(g) && Pooled(g, response.clientId)
    requires HandleResponse(g, response, platform, now).1 == ProtocolError
    ensures var g', c := HandleResponse(g, response, platform, now).0, response.clientId;
            && g'.records == g.records && g'.sent == g.sent
            && g'.sessions == Revoke(g.sessions, c, true).0
            && EngineOf(g', c).phase == if EngineOf(g, c).phase == ChallengeSent then Revoked else EngineOf(g, c).phase
  {
    ResponseLeaves(EngineOf(g, response.clientId), g.peers, response, platform);
  }

  // An accepted response authenticates the engine, which is revoked again when no session is opened.
  lemma AcceptanceLeaves(g: Gateway, response: AuthResponse, platform: Platform, now: uint64)
    requires Formed(g) && Pooled(g, response.clientId)
    requires HandleResponse(g, response, platform, now).1 != ProtocolError
    ensures var (g', status) := HandleResponse(g, response, platform, now);
            && g'.records == g.records && g'.sent == g.sent
            && EngineOf(g', response.clientId).phase == (if status == AdaptorOk then Authenticated else Revoked)
            && (status == AdaptorLockedOut ==> g'.sessions == g.sessions)
  {
    ResponseLeaves(EngineOf(g, response.clientId), g.peers, response, platform);
  }

  // --- Frames -------------------------------------------------------------------------------

  // A frame is answered kInvalidFrame exactly when it is null or too short, and then changes nothing;
  // the others are read at fixed places.
  lemma RequestFrames(g: Gateway, payload: Option<Bytes>, draw: (CryptoStatus, Nonce))
    requires Formed(g)
    ensures var (g', reply) := Handle(g, RequestFrame(payload, draw));
            var short := payload == None || |payload.value| < 12;
            && reply.key == None
            && (reply.status == InvalidFrame <==> short)
            && (short ==> g' == g)
            && (!short ==> (g', reply.status)
                           == HandleRequest(g, AuthRequest(payload.value[..8], payload.value[8..12]), draw))
  {
    if payload.Some? && |payload.value| >= 12 {
      RequestAnswers(g, AuthRequest(payload.value[..8], payload.value[8..12]), draw);
    }
  }

  lemma ResponseFrames(g: Gateway, payload: Option<Bytes>, platform: Platform, now: uint64)
    requires GatewayInv(g)
    ensures var (g', reply) := Handle(g, ResponseFrame(payload, platform, now));
            var short := payload == None || |payload.value| < 72;
            && reply.key == None
            && (reply.status == InvalidFrame <==> short)
            && (short ==> g' == g)
            && (!short ==> (g', reply.status)
                           == HandleResponse(g, AuthResponse(payload.value[..8], payload.value[8..72]), platform, now))
  {
    if payload.Some? && |payload.value| >= 72 {
      ResponseAnswers(g, AuthResponse(payload.value[..8], payload.value[8..72]), platform, now);
    }
  }

  // --- Ticks, the gate, revocations ---------------------------------------------------------

  // A tick ends exactly the sessions older than 30 seconds.
  lemma TickEndsIff(g: Gateway, now: uint64, c: ClientId)
    requires GatewayInv(g)
    ensures var g' := Handle(g, SessionTick(now)).0;
            && (c in View(g'.sessions).live <==>
                  c in View(g.sessions).live && Age(now, View(g.sessions).live[c].issuedAt) <= 30_000)
            && (c in View(g'.sessions).live ==> View(g'.sessions).live[c] == View(g.sessions).live[c])
            && g'.engines == g.engines && g'.records == g.records && g'.sent == g.sent
  {
    SweepRefines(g.sessions, now);
  }

  // The client has a session no older than 30 seconds.
  ghost predicate Current(s: State, c: ClientId, now: uint64)
    requires WellFormed(s)
  {
    c in View(s).live && Age(now, View(s).live[c].issuedAt) <= 30_000
  }

  // The gate hands out the key of a current session, and of nothing else; each refusal has its reason.
  lemma GateAnswers(g: Gateway, c: ClientId, now: uint64)
    requires GatewayInv(g)
    ensures var reply := Query(g, c, now).1;
            var r := View(g.sessions);
            && (reply.status == AdaptorLockedOut <==> c in r.barred)
            && (reply.status == AdaptorOk <==> c !in r.barred && Current(g.sessions, c, now))
            && (reply.status == NotAuthenticated <==> c !in r.barred && !Current(g.sessions, c, now))
            && reply.key == (if reply.status == AdaptorOk then Some(r.live[c].key) else None)
  {
    ValidateRefines(g.sessions, c, now);
    SessionRuns.BarredIsIsLockedOut(g.sessions, c);
  }

  // A query that succeeds notes its time in the session; one that finds the session stale ends it.
  lemma GateLeaves(g: Gateway, c: ClientId, now: uint64)
    requires GatewayInv(g)
    ensures var g', r := Query(g, c, now).0, View(g.sessions);
            && (c !in r.barred && Current(g.sessions, c, now) ==>
                  View(g'.sessions).live == r.live[c := r.live[c].(lastSeen := now)])
            && (c !in r.barred && !Current(g.sessions, c, now) ==> View(g'.sessions).live == r.live - {c})
            && (c in r.barred ==> g' == g)
            && View(g'.sessions).barred == r.barred
  {
    ValidateRefines(g.sessions, c, now);
    SessionRuns.BarredIsIsLockedOut(g.sessions, c);
    RegistryValidateLeaves(View(g.sessions), c, now);
    GateValidates(g, c, now);
  }

  lemma GateValidates(g: Gateway, c: ClientId, now: uint64)
    requires Formed(g)
    ensures var g' := Query(g, c, now).0;
            && g'.sessions == Validate(g.sessions, c, now).0
            && (IsLockedOut(g.sessions, c) ==> g' == g)
            && g'.engines == g.engines && g'.records == g.records && g'.sent == g.sent
  {
  }

  lemma RegistryValidateLeaves(r: Registry, c: ClientId, now: uint64)
    ensures var r' := r.Validate(c, now).0;
            && (c !in r.barred && c in r.live && Age(now, r.live[c].issuedAt) <= 30_000 ==>
                  r'.live == r.live[c := r.live[c].(lastSeen := now)])
            && (c !in r.barred && !(c in r.live && Age(now, r.live[c].issuedAt) <= 30_000) ==>
                  r'.live == r.live - {c})
            && r'.barred == r.barred
  {
  }

  // A revocation is answered kOk exactly when some slot carries the id, with or without a session;
  // the session and the engine of the client end in either case.
  lemma RevocationAnswers(g: Gateway, c: ClientId, isAnomaly: bool)
    requires GatewayInv(g)
    ensures var (g', status) := RevokeSession(g, c, isAnomaly);
            && (status == AdaptorOk <==> exists i :: 0 <= i < 8 && g.sessions.table[i].clientId == c)
            && (status == UnknownPeer <==> forall i :: 0 <= i < 8 ==> g.sessions.table[i].clientId != c)
            && View(g'.sessions).live == View(g.sessions).live - {c}
            && g'.records == g.records && g'.sent == g.sent
            && (Pooled(g, c) ==> EngineOf(g', c).phase == Revoked
                                 && forall i :: 0 <= i < 32 ==> EngineOf(g', c).pendingNonce[i] == 0)
  {
    RevokeRefines(g.sessions, c, isAnomaly);
  }
}
