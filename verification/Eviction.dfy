/**
 When an admission costs another client its session: exactly when eight other clients already hold a
 session or a lock, which takes a lock on the all-zero id; and runs in which it happens.
 */
module Eviction {
  import opened Bytes
  import opened CircularBuffers
  import opened SessionTable
  import opened SessionInvariants
  import opened SessionRegistry
  import SessionRuns
  import opened Handshake
  import opened Gateways
  import opened GatewayInvariants
  import opened Provenance

  // Eight clients other than `c` hold a session or a lock, and `d` holds the oldest session of them.
  ghost predicate InTheWay(r: Registry, c: ClientId, d: ClientId) {
    && |Others(r, c)| == 8
    && r.Drop(c).order != [] && r.Drop(c).order[0] == d
  }

  // A registration that is not refused ends the session of another client exactly when that client
  // is in the way, and leaves every other session as it is.
  lemma EvictsIff(s: State, token: SessionToken, now: uint64, d: ClientId)
    requires Inv(s) && token.clientId != ZERO_ID && !IsLockedOut(s, token.clientId)
    requires d != token.clientId && d in View(s).live
    ensures var r' := View(Register(s, token, now).0);
            && (d !in r'.live <==> InTheWay(View(s), token.clientId, d))
            && (d in r'.live ==> r'.live[d] == View(s).live[d])
  {
    var c, r := token.clientId, View(s);
    RegisterRefines(s, token, now);
    SessionRuns.BarredIsIsLockedOut(s, c);
    OthersCount(s, c);
    OthersAtMost(s, c);
    RegistryEvictsIff(r, token, now, d);
  }

  lemma RegistryEvictsIff(r: Registry, token: SessionToken, now: uint64, d: ClientId)
    requires token.clientId != ZERO_ID && token.clientId !in r.barred
    requires d != token.clientId && d in r.live
    ensures var rest, r' := r.Drop(token.clientId), r.Register(token, now).0;
            && (d !in r'.live <==>
                  |rest.order| + |r.barred| >= MAX_ACTIVE_SESSIONS && rest.order != [] && rest.order[0] == d)
            && (d in r'.live ==> r'.live[d] == r.live[d])
  {
  }

  lemma OthersAtMost(s: State, c: ClientId)
    requires Inv(s)
    ensures |Others(View(s), c)| <= MAX_ACTIVE_SESSIONS
  {
    OthersCount(s, c);
    ViewRepresents(s);
    Capacity(s, View(s));
    WithoutDistinct(View(s).order, c) by {
      OrderListsLive(s, View(s));
    }
  }

  // Eight others in the way take a lock on the all-zero id: the pool has no room for eight clients
  // beside `c`.
  lemma CrowdedOnlyByZero(g: Gateway, c: ClientId)
    requires GatewayInv(g) && Pooled(g, c) && c != ZERO_ID && !IsLockedOut(g.sessions, c)
    requires |Others(View(g.sessions), c)| == MAX_ACTIVE_SESSIONS
    ensures IsLockedOut(g.sessions, ZERO_ID)
  {
    OthersCount(g.sessions, c);
    if !IsLockedOut(g.sessions, ZERO_ID) {
      RoomForPooled(g, c);
    }
  }

  // What becomes of the session of `d` when `c` was admitted, or was not.
  ghost predicate Outcome(r: Registry, r': Registry, admitted: bool, c: ClientId, d: ClientId)
    requires d in r.live
  {
    && (d !in r'.live <==> admitted && InTheWay(r, c, d))
    && (d in r'.live ==> r'.live[d] == r.live[d])
  }

  ghost predicate ResponseOutcome(g: Gateway, g': Gateway, status: AdaptorStatus, c: ClientId, d: ClientId)
    requires Formed(g) && Formed(g') && d in View(g.sessions).live
  {
    && Outcome(View(g.sessions), View(g'.sessions), status == AdaptorOk, c, d)
    && (d !in View(g'.sessions).live ==> IsLockedOut(g.sessions, ZERO_ID))
  }

  lemma RefusedResponse(g: Gateway, response: AuthResponse, platform: Platform, now: uint64, d: ClientId)
    requires GatewayInv(g) && d != response.clientId && d in View(g.sessions).live
    requires Pooled(g, response.clientId)
    requires Respond(EngineOf(g, response.clientId), g.peers, response, platform).2.None?
    ensures var (g', status) := HandleResponse(g, response, platform, now);
            ResponseOutcome(g, g', status, response.clientId, d)
  {
    RefusedOutcome(g, response.clientId, d);
  }

  lemma TokenHandled(g: Gateway, response: AuthResponse, platform: Platform, now: uint64)
    requires GatewayInv(g) && Pooled(g, response.clientId)
    requires Respond(EngineOf(g, response.clientId), g.peers, response, platform).2.Some?
    ensures var token := Respond(EngineOf(g, response.clientId), g.peers, response, platform).2.value;
            var (g', status) := HandleResponse(g, response, platform, now);
            && token.clientId == response.clientId && token.clientId != ZERO_ID
            && g'.sessions == Register(g.sessions, token, now).0
            && (status == AdaptorOk <==> Register(g.sessions, token, now).1 == Ok)
  {
    OnlySlot(g.records, FindSlot(g.records, response.clientId));
  }

  lemma TokenResponse(g: Gateway, response: AuthResponse, platform: Platform, now: uint64, d: ClientId)
    requires GatewayInv(g) && d != response.clientId && d in View(g.sessions).live
    requires Pooled(g, response.clientId)
    requires Respond(EngineOf(g, response.clientId), g.peers, response, platform).2.Some?
    ensures var (g', status) := HandleResponse(g, response, platform, now);
            ResponseOutcome(g, g', status, response.clientId, d)
  {
    TokenHandled(g, response, platform, now);
    TokenOutcome(g, Respond(EngineOf(g, response.clientId), g.peers, response, platform).2.value, now, d);
  }

  // A response of `c` ends the session of another client exactly when it is admitted while that
  // client is in the way, which takes a lock on the all-zero id; every other session stays as it is.
  lemma ResponseEvictsIff(g: Gateway, response: AuthResponse, platform: Platform, now: uint64, d: ClientId)
    requires GatewayInv(g) && d != response.clientId && d in View(g.sessions).live
    ensures var (g', status) := HandleResponse(g, response, platform, now);
            ResponseOutcome(g, g', status, response.clientId, d)
  {
    var c := response.clientId;
    if !Pooled(g, c) {
      assert HandleResponse(g, response, platform, now) == (g, UnknownPeer);
    } else if Respond(EngineOf(g, c), g.peers, response, platform).2.None? {
      RefusedResponse(g, response, platform, now, d);
    } else {
      TokenResponse(g, response, platform, now, d);
    }
  }

  lemma RefusedOutcome(g: Gateway, c: ClientId, d: ClientId)
    requires GatewayInv(g) && d != c && d in View(g.sessions).live
    ensures Outcome(View(g.sessions), View(Revoke(g.sessions, c, true).0), false, c, d)
  {
    RevokeRefines(g.sessions, c, true);
    RegistryRevokeOutcome(View(g.sessions), true, c, d);
    RegistryRevokeOutcome(View(g.sessions), false, c, d);
  }

  lemma RegistryRevokeOutcome(r: Registry, bars: bool, c: ClientId, d: ClientId)
    requires d != c && d in r.live
    ensures Outcome(r, r.Revoke(c, bars), false, c, d)
  {
  }

  lemma TokenOutcome(g: Gateway, token: SessionToken, now: uint64, d: ClientId)
    requires GatewayInv(g) && Pooled(g, token.clientId) && token.clientId != ZERO_ID
    requires d != token.clientId && d in View(g.sessions).live
    ensures var (s', status) := Register(g.sessions, token, now);
            && Outcome(View(g.sessions), View(s'), status == Ok, token.clientId, d)
            && (d !in View(s').live ==> IsLockedOut(g.sessions, ZERO_ID))
  {
    if !IsLockedOut(g.sessions, token.clientId) {
      TokenEvictsIff(g, token, now, d);
    }
  }

  lemma TokenEvictsIff(g: Gateway, token: SessionToken, now: uint64, d: ClientId)
    requires GatewayInv(g) && Pooled(g, token.clientId) && token.clientId != ZERO_ID
    requires !IsLockedOut(g.sessions, token.clientId)
    requires d != token.clientId && d in View(g.sessions).live
    ensures var (s', status) := Register(g.sessions, token, now);
            var r, r' := View(g.sessions), View(s');
            && (d !in r'.live <==> InTheWay(r, token.clientId, d))
            && (d !in r'.live ==> status == Ok && IsLockedOut(g.sessions, ZERO_ID))
            && (d in r'.live ==> r'.live[d] == r.live[d])
  {
    EvictsIff(g.sessions, token, now, d);
    RegisterRefines(g.sessions, token, now);
    SessionRuns.BarredIsIsLockedOut(g.sessions, token.clientId);
    if InTheWay(View(g.sessions), token.clientId, d) {
      CrowdedOnlyByZero(g, token.clientId);
      OthersCount(g.sessions, token.clientId);
    }
  }
}
