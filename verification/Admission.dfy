/**
 What the adaptor owes its clients: an honest client gets in, a call about one client leaves
 every other alone, and a lockout is final.
 */
module Admission {
  import opened Bytes
  import opened SessionTable
  import opened SessionInvariants
  import opened SessionRegistry
  import SessionRuns
  import Bans
  import StrikePolicy
  import opened Handshake
  import opened Gateways
  import opened GatewayInvariants
  import opened Provenance

  // --- An honest client gets in -------------------------------------------------------------

  predicate HasPlace(g: Gateway, c: ClientId) {
    Pooled(g, c) || FindVacant(g.records) < |g.records|
  }

  lemma OfferSucceeds(g: Gateway, c: ClientId)
    requires GatewayInv(g) && c != ZERO_ID && !IsLockedOut(g.sessions, c) && HasPlace(g, c)
    ensures var (g', status) := Offer(g, c);
            && status == AdaptorOk
            && GatewayInv(g') && g'.peers == g.peers && g'.sessions == g.sessions
            && Pooled(g', c) && EngineOf(g', c).phase == Unauthenticated
  {
    StepKeepsGateway(g, PeerOffered(c));
    NewcomerEngine(g, c);
    if Pooled(g, c) {
      NamedEngine(g, PeerOffered(c), c);
    }
  }

  lemma RequestSucceeds(g: Gateway, payload: Option<Bytes>, c: ClientId, nonce: Nonce)
    requires GatewayInv(g) && Pooled(g, c) && EngineOf(g, c).phase == Unauthenticated
    requires ParseRequest(payload) == Some(AuthRequest(c, SUPPORTED_VERSION))
    requires FindPeerKey(g.peers, c).Some?
    ensures var (g', reply) := Handle(g, RequestFrame(payload, (CryptoOk, nonce)));
            && reply == Plain(AdaptorOk)
            && GatewayInv(g') && g'.peers == g.peers && g'.sessions == g.sessions && g'.records == g.records
            && Pooled(g', c)
            && EngineOf(g', c).phase == ChallengeSent
            && EngineOf(g', c).pendingNonce == nonce && EngineOf(g', c).pendingClient == c
  {
    StepKeepsGateway(g, RequestFrame(payload, (CryptoOk, nonce)));
  }

  // The table holds `session` for `c`, which is not locked out.
  ghost predicate Open(g: Gateway, c: ClientId, session: Session) {
    && Formed(g) && Inv(g.sessions)
    && !IsLockedOut(g.sessions, c)
    && c in View(g.sessions).live && View(g.sessions).live[c] == session
  }

  lemma ResponseSucceeds(g: Gateway, payload: Option<Bytes>, response: AuthResponse, platform: Platform,
                         nonce: Nonce, key: SessionKey, at: uint64)
    requires Reached(g) && Pooled(g, response.clientId) && response.clientId != ZERO_ID
    requires !IsLockedOut(g.sessions, response.clientId)
    requires var e := EngineOf(g, response.clientId);
             e.phase == ChallengeSent && e.pendingNonce == nonce && e.pendingClient == response.clientId
    requires ParseResponse(payload) == Some(response)
    requires Accepts(platform, g.peers, response.clientId, nonce, response.signature, key)
    ensures var (g', reply) := Handle(g, ResponseFrame(payload, platform, at));
            reply == Plain(AdaptorOk) && Open(g', response.clientId, Session(key, nonce, at, at))
  {
    var c, ev := response.clientId, ResponseFrame(payload, platform, at);
    var token := SessionToken(c, nonce, key);
    PooledIsAdmitted(g, token, at);
    ResponseRegisters(g, payload, response, platform, token, at);
    StepKeepsGateway(g, ev);
    SessionRuns.OnlyNamedIsBarred(g.sessions, RegisterOp(token, at), c);
  }

  lemma ResponseRegisters(g: Gateway, payload: Option<Bytes>, response: AuthResponse, platform: Platform,
                          token: SessionToken, at: uint64)
    requires Formed(g) && Pooled(g, response.clientId) && token.clientId == response.clientId
    requires var e := EngineOf(g, response.clientId);
             e.phase == ChallengeSent && e.pendingNonce == token.nonce && e.pendingClient == response.clientId
    requires ParseResponse(payload) == Some(response)
    requires Accepts(platform, g.peers, response.clientId, token.nonce, response.signature, token.key)
    requires Register(g.sessions, token, at).1 == Ok
    ensures var (g', reply) := Handle(g, ResponseFrame(payload, platform, at));
            reply == Plain(AdaptorOk) && g'.sessions == Register(g.sessions, token, at).0
  {
  }

  lemma QuerySucceeds(g: Gateway, c: ClientId, session: Session, asked: uint64)
    requires Open(g, c, session) && Age(asked, session.issuedAt) <= TOKEN_LIFETIME_MS
    ensures Query(g, c, asked).1 == Reply(AdaptorOk, Some(session.key))
  {
    OpenValidates(g.sessions, c, asked);
  }

  lemma OpenValidates(s: State, c: ClientId, asked: uint64)
    requires Inv(s) && !IsLockedOut(s, c) && c in View(s).live
    requires Age(asked, View(s).live[c].issuedAt) <= TOKEN_LIFETIME_MS
    ensures Validate(s, c, asked).1 == Ok && Validate(s, c, asked).2 == Some(View(s).live[c].key)
  {
  }

  // In any state reached without anomalous revocations of the all-zero id, a known client that is
  // not locked out and has a place completes the handshake whatever went before, and the gate then
  // hands out the key derived for it until the token expires.
  lemma HonestClientIsAdmitted(g: Gateway, c: ClientId, nonce: Nonce, signature: Signature, platform: Platform,
                               key: SessionKey, requestFrame: Bytes, responseFrame: Bytes, at: uint64, asked: uint64)
    requires Reached(g) && c != ZERO_ID && !IsLockedOut(g.sessions, c) && HasPlace(g, c)
    requires ParseRequest(Some(requestFrame)) == Some(AuthRequest(c, SUPPORTED_VERSION))
    requires ParseResponse(Some(responseFrame)) == Some(AuthResponse(c, signature))
    requires Accepts(platform, g.peers, c, nonce, signature, key)
    requires Age(asked, at) <= 30_000
    ensures var (g1, offered) := Handle(g, PeerOffered(c));
            var (g2, challenged) := Handle(g1, RequestFrame(Some(requestFrame), (CryptoOk, nonce)));
            var (g3, answered) := Handle(g2, ResponseFrame(Some(responseFrame), platform, at));
            var gate := Query(g3, c, asked).1;
            && offered == challenged == answered == Plain(AdaptorOk)
            && gate == Reply(AdaptorOk, Some(key))
  {
    OfferSucceeds(g, c);
    ChallengedClientIsAdmitted(Handle(g, PeerOffered(c)).0, c, nonce, signature, platform, key,
                               requestFrame, responseFrame, at, asked);
  }

  lemma ChallengedClientIsAdmitted(g: Gateway, c: ClientId, nonce: Nonce, signature: Signature, platform: Platform,
                                   key: SessionKey, requestFrame: Bytes, responseFrame: Bytes,
                                   at: uint64, asked: uint64)
    requires Reached(g) && c != ZERO_ID && !IsLockedOut(g.sessions, c)
    requires Pooled(g, c) && EngineOf(g, c).phase == Unauthenticated
    requires ParseRequest(Some(requestFrame)) == Some(AuthRequest(c, SUPPORTED_VERSION))
    requires ParseResponse(Some(responseFrame)) == Some(AuthResponse(c, signature))
    requires Accepts(platform, g.peers, c, nonce, signature, key)
    requires Age(asked, at) <= 30_000
    ensures var (g1, challenged) := Handle(g, RequestFrame(Some(requestFrame), (CryptoOk, nonce)));
            var (g2, answered) := Handle(g1, ResponseFrame(Some(responseFrame), platform, at));
            var gate := Query(g2, c, asked).1;
            && challenged == answered == Plain(AdaptorOk)
            && gate == Reply(AdaptorOk, Some(key))
  {
    RequestSucceeds(g, Some(requestFrame), c, nonce);
    AnswerIsAdmitted(Handle(g, RequestFrame(Some(requestFrame), (CryptoOk, nonce))).0,
                     Some(responseFrame), AuthResponse(c, signature), platform, nonce, key, at, asked);
  }

  lemma AnswerIsAdmitted(g: Gateway, payload: Option<Bytes>, response: AuthResponse, platform: Platform,
                         nonce: Nonce, key: SessionKey, at: uint64, asked: uint64)
    requires Reached(g) && Pooled(g, response.clientId) && response.clientId != ZERO_ID
    requires !IsLockedOut(g.sessions, response.clientId)
    requires var e := EngineOf(g, response.clientId);
             e.phase == ChallengeSent && e.pendingNonce == nonce && e.pendingClient == response.clientId
    requires ParseResponse(payload) == Some(response)
    requires Accepts(platform, g.peers, response.clientId, nonce, response.signature, key)
    requires Age(asked, at) <= 30_000
    ensures var (g', answered) := Handle(g, ResponseFrame(payload, platform, at));
            && answered == Plain(AdaptorOk)
            && Query(g', response.clientId, asked).1 == Reply(AdaptorOk, Some(key))
  {
    ResponseSucceeds(g, payload, response, platform, nonce, key, at);
    QuerySucceeds(Handle(g, ResponseFrame(payload, platform, at)).0, response.clientId,
                  Session(key, nonce, at, at), asked);
  }

  // --- One client's calls leave the others alone --------------------------------------------

  predicate Mentions(ev: Event, c: ClientId) {
    match ev
    case PeerOffered(d) => d == c
    case RequestFrame(payload, _) => ParseRequest(payload).Some? && ParseRequest(payload).value.clientId == c
    case ResponseFrame(payload, _, _) => ParseResponse(payload).Some? && ParseResponse(payload).value.clientId == c
    case SessionTick(_) => false
    case SessionQuery(d, _) => d == c
    case SessionRevoked(d, _) => d == c
  }

  // The session of `c` in the registry, if it has one.
  ghost function SessionIn(s: State, c: ClientId): Option<Session>
    requires WellFormed(s)
  {
    if c in View(s).live then Some(View(s).live[c]) else None
  }

  lemma RegisterOther(g: Gateway, token: SessionToken, now: uint64, c: ClientId)
    requires Reached(g) && Pooled(g, token.clientId) && token.clientId != c && token.clientId != ZERO_ID
    ensures SessionIn(Register(g.sessions, token, now).0, c) == SessionIn(g.sessions, c)
  {
    if !IsLockedOut(g.sessions, token.clientId) {
      PooledIsAdmitted(g, token, now);
    }
  }

  // The session of `c` after an operation on others: only a sweep ends it, when it is stale.
  ghost function SessionSpared(s: State, op: Op, c: ClientId): Option<Session>
    requires WellFormed(s)
  {
    if op.SweepOp? && View(s).Stale(c, op.now) then None else SessionIn(s, c)
  }

  lemma OpOther(g: Gateway, ev: Event, op: Op, c: ClientId)
    requires Reached(g) && !Mentions(ev, c) && SessionOp(g, ev) == Some(op)
    ensures SessionIn(SessionTable.Step(g.sessions, op).0, c) == SessionSpared(g.sessions, op, c)
  {
    OpMentions(g, ev, op, c);
    match op
    case RegisterOp(token, now) => RegistrationOther(g, ev, c);
    case ValidateOp(d, now) => ValidateOther(g.sessions, d, now, c);
    case RevokeOp(d, isAnomaly) => RevocationOther(g.sessions, d, isAnomaly, c);
    case SweepOp(now) => SweepOther(g.sessions, now, c);
  }

  lemma OpMentions(g: Gateway, ev: Event, op: Op, c: ClientId)
    requires Formed(g) && !Mentions(ev, c) && SessionOp(g, ev) == Some(op)
    ensures !(op.ValidateOp? && op.client == c) && !(op.RevokeOp? && op.client == c)
  {
  }

  lemma RegistrationOther(g: Gateway, ev: Event, c: ClientId)
    requires Reached(g) && !Mentions(ev, c)
    requires SessionOp(g, ev).Some? && SessionOp(g, ev).value.RegisterOp?
    ensures SessionIn(SessionTable.Step(g.sessions, SessionOp(g, ev).value).0, c) == SessionIn(g.sessions, c)
  {
    var op := SessionOp(g, ev).value;
    RegistersPooled(g, ev);
    OnlySlot(g.records, FindSlot(g.records, op.token.clientId));
    RegisterOther(g, op.token, op.now, c);
  }

  lemma ValidateOther(s: State, d: ClientId, now: uint64, c: ClientId)
    requires Inv(s) && d != c
    ensures SessionIn(Validate(s, d, now).0, c) == SessionIn(s, c)
  {
    ValidateRefines(s, d, now);
    RegistryValidateOther(View(s), d, now, c);
  }

  lemma RegistryValidateOther(r: Registry, d: ClientId, now: uint64, c: ClientId)
    requires d != c
    ensures var r' := r.Validate(d, now).0;
            (c in r'.live <==> c in r.live) && (c in r.live ==> r'.live[c] == r.live[c])
  {
  }

  lemma RevocationOther(s: State, d: ClientId, isAnomaly: bool, c: ClientId)
    requires Inv(s) && d != c
    ensures SessionIn(Revoke(s, d, isAnomaly).0, c) == SessionIn(s, c)
  {
    RevokeRefines(s, d, isAnomaly);
  }

  lemma SweepOther(s: State, now: uint64, c: ClientId)
    requires Inv(s)
    ensures SessionIn(Sweep(s, now), c) == if View(s).Stale(c, now) then None else SessionIn(s, c)
  {
    SweepRefines(s, now);
  }

  // A call that does not mention `c` leaves its session, its engine and its standing as they were;
  // only a tick ends it, when it is stale.
  lemma OthersLeaveAlone(g: Gateway, ev: Event, c: ClientId)
    requires Reached(g) && !Mentions(ev, c)
    ensures var g' := Handle(g, ev).0;
            && SessionIn(g'.sessions, c) ==
                 (if ev.SessionTick? then SessionSpared(g.sessions, SweepOp(ev.now), c) else SessionIn(g.sessions, c))
            && IsLockedOut(g'.sessions, c) == IsLockedOut(g.sessions, c)
            && (Pooled(g', c) == Pooled(g, c))
            && (Pooled(g, c) ==> EngineOf(g', c) == EngineOf(g, c))
  {
    SessionsFollow(g, ev);
    var op := SessionOp(g, ev);
    if op.Some? {
      OpOther(g, ev, op.value, c);
      TickIsSweep(g, ev);
      LockoutOther(g, ev, c);
    }
    if Pooled(g, c) {
      UnmentionedEngine(g, ev, c);
    } else if Pooled(Handle(g, ev).0, c) {
      PoolBefore(g, ev, c);
    }
  }

  lemma UnmentionedEngine(g: Gateway, ev: Event, c: ClientId)
    requires Formed(g) && Pooled(g, c) && !Mentions(ev, c)
    ensures Pooled(Handle(g, ev).0, c) && EngineOf(Handle(g, ev).0, c) == EngineOf(g, c)
  {
    PoolGrows(g, ev, c);
    match ev
    case PeerOffered(d) => OfferOther(g, d, c);
    case RequestFrame(payload, draw) =>
      if ParseRequest(payload).Some? {
        RequestOther(g, ParseRequest(payload).value, draw, c);
      }
    case ResponseFrame(payload, platform, now) =>
      if ParseResponse(payload).Some? {
        ResponseOther(g, ParseResponse(payload).value, platform, now, c);
      }
    case SessionTick(now) =>
    case SessionQuery(d, now) =>
    case SessionRevoked(d, isAnomaly) => RevokeOther(g, d, isAnomaly, c);
  }

  lemma TickIsSweep(g: Gateway, ev: Event)
    requires Formed(g) && SessionOp(g, ev).Some?
    ensures if ev.SessionTick? then SessionOp(g, ev) == Some(SweepOp(ev.now)) else !SessionOp(g, ev).value.SweepOp?
  {
  }

  lemma LockoutOther(g: Gateway, ev: Event, c: ClientId)
    requires Reached(g) && !Mentions(ev, c) && SessionOp(g, ev).Some?
    ensures IsLockedOut(SessionTable.Step(g.sessions, SessionOp(g, ev).value).0, c) == IsLockedOut(g.sessions, c)
  {
    if IsLockedOut(g.sessions, c) {
      LockoutStep(g, ev, c);
      SessionsFollow(g, ev);
    } else {
      SessionRuns.OnlyNamedIsBarred(g.sessions, SessionOp(g, ev).value, c);
    }
  }

  // --- Lockout ------------------------------------------------------------------------------

  lemma LockoutStep(g: Gateway, ev: Event, c: ClientId)
    requires GatewayInv(g) && IsLockedOut(g.sessions, c)
    ensures IsLockedOut(Handle(g, ev).0.sessions, c)
  {
    SessionsFollow(g, ev);
    if SessionOp(g, ev).Some? {
      var op := SessionOp(g, ev).value;
      SessionRuns.StepBars(g.sessions, op);
      SessionRuns.BarredIsIsLockedOut(g.sessions, c);
      SessionRuns.BarredIsIsLockedOut(SessionTable.Step(g.sessions, op).0, c);
    }
  }

  lemma {:induction false} LockoutStands(w: World, evs: seq<Event>, c: ClientId)
    requires GatewayInv(w.gateway) && IsLockedOut(w.gateway.sessions, c)
    ensures IsLockedOut(RunEvents(w, evs).gateway.sessions, c)
    decreases |evs|
  {
    if evs != [] {
      StepKeepsGateway(w.gateway, evs[0]);
      LockoutStep(w.gateway, evs[0], c);
      LockoutStands(Advance(w, evs[0]), evs[1..], c);
    }
  }

  // A locked-out client is refused at the door and at the gate, after every later run.
  lemma LockedOutForGood(w: World, evs: seq<Event>, c: ClientId, now: uint64)
    requires GatewayInv(w.gateway) && IsLockedOut(w.gateway.sessions, c) && c != ZERO_ID
    ensures var g := RunEvents(w, evs).gateway;
            && Handle(g, PeerOffered(c)) == (g, Plain(AdaptorLockedOut))
            && Handle(g, SessionQuery(c, now)) == (g, Plain(AdaptorLockedOut))
  {
    LockoutStands(w, evs, c);
  }

  // --- Stray responses ----------------------------------------------------------------------

  // A response frame naming `c`, whatever its signature.
  predicate Names(ev: Event, c: ClientId) {
    ev.ResponseFrame? && ParseResponse(ev.responsePayload).Some?
    && ParseResponse(ev.responsePayload).value.clientId == c
  }

  // When no challenge to `c` is in flight, a response naming it is refused and counts as an anomaly
  // of `c`; the engine does not react.
  lemma StrayResponse(g: Gateway, ev: Event, c: ClientId)
    requires Formed(g) && Pooled(g, c) && EngineOf(g, c).phase != ChallengeSent && Names(ev, c)
    ensures Handle(g, ev) == (g.(sessions := Revoke(g.sessions, c, true).0), Plain(ProtocolError))
  {
    var slot := FindSlot(g.records, c);
    assert g.engines[slot := g.engines[slot]] == g.engines;
  }

  lemma ThreeStrays(w: World, a: Event, b: Event, d: Event, c: ClientId)
    requires GatewayInv(w.gateway) && Pooled(w.gateway, c) && EngineOf(w.gateway, c).phase != ChallengeSent
    requires Names(a, c) && Names(b, c) && Names(d, c)
    ensures Advance(Advance(Advance(w, a), b), d).gateway
            == w.gateway.(sessions := SessionTable.Run(w.gateway.sessions, Bans.Ban(c)))
  {
    var r, s := RevokeOp(c, true), w.gateway.sessions;
    StrayResponse(w.gateway, a, c);
    StrayResponse(Advance(w, a).gateway, b, c);
    StrayResponse(Advance(Advance(w, a), b).gateway, d, c);
    Bans.RunThree(s, r, r, r);
  }

  // The first such response ends the session of an admitted client, and the third locks it out for
  // every later run.
  lemma StraysLockOut(w: World, a: Event, b: Event, d: Event, evs: seq<Event>, c: ClientId)
    requires GatewayInv(w.gateway) && Pooled(w.gateway, c) && EngineOf(w.gateway, c).phase != ChallengeSent
    requires c in View(w.gateway.sessions).live
    requires Names(a, c) && Names(b, c) && Names(d, c)
    ensures c !in View(Advance(w, a).gateway.sessions).live
    ensures IsLockedOut(RunEvents(Advance(Advance(Advance(w, a), b), d), evs).gateway.sessions, c)
  {
    var s := w.gateway.sessions;
    StrayResponse(w.gateway, a, c);
    RevokeRefines(s, c, true);
    Bans.LiveIsCarried(s, c);
    Bans.BannedAfterThree(s, c);
    ThreeStrays(w, a, b, d, c);
    StepKeepsGateway(w.gateway, a);
    StepKeepsGateway(Advance(w, a).gateway, b);
    StepKeepsGateway(Advance(Advance(w, a), b).gateway, d);
    LockoutStands(Advance(Advance(Advance(w, a), b), d), evs, c);
  }

  // --- Strikes among other calls ------------------------------------------------------------

  // The call counts as an anomaly of `c`.
  predicate CountsAgainst(g: Gateway, ev: Event, c: ClientId)
    requires Formed(g)
  {
    SessionOp(g, ev) == Some(RevokeOp(c, true))
  }

  // No registration in the run moves `c` to another slot, or its slot to another client.
  ghost predicate InPlace(w: World, evs: seq<Event>, c: ClientId)
    requires Formed(w.gateway)
    decreases |evs|
  {
    evs != [] ==>
      && (var op := SessionOp(w.gateway, evs[0]);
          op.Some? ==> !StrikePolicy.Moves(w.gateway.sessions, op.value, c))
      && InPlace(Advance(w, evs[0]), evs[1..], c)
  }

  function StrikesIn(w: World, evs: seq<Event>, c: ClientId): nat
    requires Formed(w.gateway)
    decreases |evs|
  {
    if evs == [] then 0
    else (if CountsAgainst(w.gateway, evs[0], c) then 1 else 0) + StrikesIn(Advance(w, evs[0]), evs[1..], c)
  }

  lemma CallCounts(g: Gateway, ev: Event, c: ClientId)
    requires GatewayInv(g) && Carried(g.sessions.table, c)
    requires SessionOp(g, ev).Some? ==> !StrikePolicy.Moves(g.sessions, SessionOp(g, ev).value, c)
    ensures var t, u := g.sessions.table, Handle(g, ev).0.sessions.table;
            var n := Strikes(t, c) + if CountsAgainst(g, ev, c) then 1 else 0;
            Carried(u, c) && Strikes(u, c) == if n <= MAX_UINT8 then n else MAX_UINT8
  {
    SessionsFollow(g, ev);
    var i := FirstMatch(g.sessions.table, c);
    assert SlotOk(g.sessions.table[i]);
    if SessionOp(g, ev).Some? {
      StrikePolicy.StepStrikesOn(g.sessions, SessionOp(g, ev).value, c);
    }
  }

  // While no registration moves a client the adaptor locks it out exactly at its third strike,
  // whatever other calls lie between.
  lemma {:induction false} StrikesLockOutIff(w: World, evs: seq<Event>, c: ClientId)
    requires GatewayInv(w.gateway) && Carried(w.gateway.sessions.table, c) && InPlace(w, evs, c)
    ensures IsLockedOut(RunEvents(w, evs).gateway.sessions, c) <==>
              Strikes(w.gateway.sessions.table, c) + StrikesIn(w, evs, c) >= 3
    decreases |evs|
  {
    if evs == [] {
      assert SlotOk(w.gateway.sessions.table[FirstMatch(w.gateway.sessions.table, c)]);
    } else {
      StepKeepsGateway(w.gateway, evs[0]);
      CallCounts(w.gateway, evs[0], c);
      StrikesLockOutIff(Advance(w, evs[0]), evs[1..], c);
    }
  }

  // The responses of a run that name `c` while no challenge to it is in flight.
  function StraysIn(w: World, evs: seq<Event>, c: ClientId): nat
    requires Formed(w.gateway) && Pooled(w.gateway, c)
    decreases |evs|
  {
    if evs == [] then 0
    else
      PoolGrows(w.gateway, evs[0], c);
      (if Names(evs[0], c) && EngineOf(w.gateway, c).phase != ChallengeSent then 1 else 0)
      + StraysIn(Advance(w, evs[0]), evs[1..], c)
  }

  lemma {:induction false} StraysAreStrikes(w: World, evs: seq<Event>, c: ClientId)
    requires Formed(w.gateway) && Pooled(w.gateway, c)
    ensures StraysIn(w, evs, c) <= StrikesIn(w, evs, c)
    decreases |evs|
  {
    if evs != [] {
      PoolGrows(w.gateway, evs[0], c);
      StraysAreStrikes(Advance(w, evs[0]), evs[1..], c);
    }
  }

  // Three stray responses lock an admitted client out for every later run, whatever other calls lie
  // between them, unless a registration moves the client first.
  lemma StraysLockOutAmongOthers(w: World, evs: seq<Event>, later: seq<Event>, c: ClientId)
    requires GatewayInv(w.gateway) && Pooled(w.gateway, c) && c in View(w.gateway.sessions).live
    requires InPlace(w, evs, c) && StraysIn(w, evs, c) >= 3
    ensures IsLockedOut(RunEvents(RunEvents(w, evs), later).gateway.sessions, c)
  {
    Bans.LiveIsCarried(w.gateway.sessions, c);
    StraysAreStrikes(w, evs, c);
    StrikesLockOutIff(w, evs, c);
    RunKeepsGateway(w, evs);
    LockoutStands(RunEvents(w, evs), later, c);
  }

  // --- Lockout needs admission --------------------------------------------------------------

  ghost predicate Succeeded(h: History, c: ClientId) {
    exists j: nat :: j < |h| && Responded(h[j], c) && h[j].reply.status == AdaptorOk
  }

  // Every client the table carries once completed a handshake.
  ghost predicate CarriedSucceeded(w: World)
    requires Formed(w.gateway)
  {
    forall i :: 0 <= i < MAX_ACTIVE_SESSIONS ==>
      var id := w.gateway.sessions.table[i].clientId; id == ZERO_ID || Succeeded(w.history, id)
  }

  lemma SucceededExtends(h: History, x: Entry, c: ClientId)
    requires Succeeded(h, c)
    ensures Succeeded(h + [x], c)
  {
    var j: nat :| j < |h| && Responded(h[j], c) && h[j].reply.status == AdaptorOk;
    assert (h + [x])[j] == h[j];
  }

  lemma StepCarried(w: World, ev: Event, i: nat)
    requires GatewayInv(w.gateway) && CarriedSucceeded(w) && i < MAX_ACTIVE_SESSIONS
    ensures var w' := Advance(w, ev);
            var id := w'.gateway.sessions.table[i].clientId; id == ZERO_ID || Succeeded(w'.history, id)
  {
    var g, h := w.gateway, w.history;
    var x := Entry(ev, Handle(g, ev).1);
    SessionsFollow(g, ev);
    var id := g.sessions.table[i].clientId;
    if id != ZERO_ID {
      SucceededExtends(h, x, id);
    }
    if SessionOp(g, ev).Some? {
      var op := SessionOp(g, ev).value;
      StepIds(g.sessions, op, i);
      if op.RegisterOp? {
        IssuedIfOk(g, ev, op.token.clientId);
        assert (h + [x])[|h|] == x;
      }
    }
  }

  lemma {:induction false} RunCarried(w: World, evs: seq<Event>)
    requires GatewayInv(w.gateway) && CarriedSucceeded(w)
    ensures CarriedSucceeded(RunEvents(w, evs))
    decreases |evs|
  {
    if evs != [] {
      forall i | 0 <= i < MAX_ACTIVE_SESSIONS
        ensures var w' := Advance(w, evs[0]);
                var id := w'.gateway.sessions.table[i].clientId; id == ZERO_ID || Succeeded(w'.history, id)
      {
        StepCarried(w, evs[0], i);
      }
      StepKeepsGateway(w.gateway, evs[0]);
      RunCarried(Advance(w, evs[0]), evs[1..]);
    }
  }

  // Failed responses count against a client only once it has been admitted: a client that never
  // completed a handshake is never locked out, whatever it sent.
  lemma LockoutNeedsAdmission(peers: seq<KnownPeer>, transmits: bool, listening: bool, evs: seq<Event>, c: ClientId)
    requires c != ZERO_ID
    requires IsLockedOut(RunEvents(Start(peers, transmits, listening), evs).gateway.sessions, c)
    ensures Succeeded(RunEvents(Start(peers, transmits, listening), evs).history, c)
  {
    var w := Start(peers, transmits, listening);
    StartKeeps(peers, transmits, listening);
    RunCarried(w, evs);
    var t := RunEvents(w, evs).gateway.sessions.table;
    assert t[FirstMatch(t, c)].clientId == c;
  }
}
