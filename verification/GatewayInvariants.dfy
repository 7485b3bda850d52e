/**
 What every call to the adaptor keeps, and what follows: through the adaptor the table never
 has to evict, the defensive branches of the handshake cannot be taken, and a call that names
 one client leaves every other client alone.
 */
module GatewayInvariants {
  import opened Bytes
  import opened CircularBuffers
  import opened SessionTable
  import opened SessionInvariants
  import opened SessionRegistry
  import SessionRuns
  import StrikePolicy
  import opened Handshake
  import opened Gateways

  predicate Pooled(g: Gateway, c: ClientId) {
    FindSlot(g.records, c) < |g.records|
  }

  // Occupied records carry distinct, non-zero ids.
  ghost predicate RecordsOk(records: seq<ZoneSlotRecord>) {
    && (forall k :: 0 <= k < |records| && records[k].isOccupied ==> records[k].clientId != ZERO_ID)
    && (forall j, k :: 0 <= j < k < |records| && records[j].isOccupied && records[k].isOccupied
          ==> records[j].clientId != records[k].clientId)
  }

  // A challenge in flight belongs to the client of the slot, which is in the peer table.
  ghost predicate EngineOk(e: Engine, record: ZoneSlotRecord, peers: seq<KnownPeer>) {
    && (e.phase == ChallengeSent ==>
          record == ZoneSlotRecord(e.pendingClient, true) && FindPeerKey(peers, e.pendingClient).Some?)
    && (e.phase == Authenticated ==> record == ZoneSlotRecord(e.authenticatedClient, true))
  }

  ghost predicate EnginesOk(g: Gateway)
    requires Formed(g)
  {
    forall k :: 0 <= k < MAX_ZONE_SLOTS ==> EngineOk(g.engines[k], g.records[k], g.peers)
  }

  // Every client the table ever held has a place in the pool.
  ghost predicate TablePooled(g: Gateway)
    requires Formed(g)
  {
    forall i :: 0 <= i < MAX_ACTIVE_SESSIONS ==>
      g.sessions.table[i].clientId == ZERO_ID || Pooled(g, g.sessions.table[i].clientId)
  }

  ghost predicate GatewayInv(g: Gateway) {
    && Formed(g)
    && Inv(g.sessions)
    && RecordsOk(g.records)
    && EnginesOk(g)
    && TablePooled(g)
  }

  lemma OnlySlot(records: seq<ZoneSlotRecord>, k: nat)
    requires RecordsOk(records) && k < |records| && records[k].isOccupied
    ensures FindSlot(records, records[k].clientId) == k
  {
  }

  // --- One call -----------------------------------------------------------------------------

  // A table operation leaves the id of a slot alone or writes the id of the token it registers.
  lemma StepIds(s: State, op: Op, i: nat)
    requires Inv(s) && i < MAX_ACTIVE_SESSIONS
    ensures var (s', status) := SessionTable.Step(s, op);
            var id := s'.table[i].clientId;
            id == s.table[i].clientId || (op.RegisterOp? && status == Ok && id == op.token.clientId)
  {
    if op.RegisterOp? {
      StrikePolicy.RegisterIds(s, op.token, op.now, i);
    } else {
      StrikePolicy.OtherIds(s, op, i);
    }
  }

  lemma RegistersPooled(g: Gateway, ev: Event)
    requires GatewayInv(g) && SessionOp(g, ev).Some? && SessionOp(g, ev).value.RegisterOp?
    ensures Pooled(g, SessionOp(g, ev).value.token.clientId)
  {
  }

  // The pool only grows.
  lemma PoolGrows(g: Gateway, ev: Event, c: ClientId)
    requires Formed(g) && Pooled(g, c)
    ensures Pooled(Handle(g, ev).0, c) && FindSlot(Handle(g, ev).0.records, c) == FindSlot(g.records, c)
  {
    if ev.PeerOffered? {
      OfferPool(g, ev.client, c);
    }
  }

  lemma OfferPool(g: Gateway, c: ClientId, d: ClientId)
    requires Formed(g) && Pooled(g, d)
    ensures FindSlot(Offer(g, c).0.records, d) == FindSlot(g.records, d)
  {
    var vacant, records := FindVacant(g.records), Offer(g, c).0.records;
    if records != g.records {
      assert records == g.records[vacant := ZoneSlotRecord(c, true)];
      var k := FindSlot(g.records, d);
      assert records[k] == ZoneSlotRecord(d, true) && d != c;
    }
  }

  lemma TableStaysPooled(g: Gateway, ev: Event)
    requires GatewayInv(g)
    ensures TablePooled(Handle(g, ev).0)
  {
    SessionsFollow(g, ev);
    var g' := Handle(g, ev).0;
    forall i | 0 <= i < MAX_ACTIVE_SESSIONS
      ensures var id := g'.sessions.table[i].clientId; id == ZERO_ID || Pooled(g', id)
    {
      var op := SessionOp(g, ev);
      if op.Some? {
        StepIds(g.sessions, op.value, i);
        if op.value.RegisterOp? {
          RegistersPooled(g, ev);
        }
      }
      if g'.sessions.table[i].clientId != ZERO_ID {
        PoolGrows(g, ev, g'.sessions.table[i].clientId);
      }
    }
  }

  lemma OfferEngines(g: Gateway, c: ClientId)
    requires GatewayInv(g)
    ensures RecordsOk(Offer(g, c).0.records) && EnginesOk(Offer(g, c).0)
  {
  }

  lemma RequestEngines(g: Gateway, request: AuthRequest, draw: (CryptoStatus, Nonce))
    requires GatewayInv(g)
    ensures EnginesOk(HandleRequest(g, request, draw).0)
  {
  }

  lemma ResponseEngines(g: Gateway, response: AuthResponse, platform: Platform, now: uint64)
    requires GatewayInv(g)
    ensures EnginesOk(HandleResponse(g, response, platform, now).0)
  {
    var slot := FindSlot(g.records, response.clientId);
    if slot < MAX_ZONE_SLOTS {
      var e := Respond(g.engines[slot], g.peers, response, platform).0;
      assert EngineOk(g.engines[slot], g.records[slot], g.peers);
      assert EngineOk(e, g.records[slot], g.peers) && EngineOk(e.Revoke(), g.records[slot], g.peers);
    }
  }

  lemma EnginesStayOk(g: Gateway, ev: Event)
    requires GatewayInv(g)
    ensures RecordsOk(Handle(g, ev).0.records) && EnginesOk(Handle(g, ev).0)
  {
    match ev
    case PeerOffered(c) => OfferEngines(g, c);
    case RequestFrame(payload, draw) =>
      if ParseRequest(payload).Some? {
        RequestEngines(g, ParseRequest(payload).value, draw);
      }
    case ResponseFrame(payload, platform, now) =>
      if ParseResponse(payload).Some? {
        ResponseEngines(g, ParseResponse(payload).value, platform, now);
      }
    case SessionTick(now) =>
    case SessionQuery(c, now) =>
    case SessionRevoked(c, isAnomaly) =>
  }

  lemma StepKeepsGateway(g: Gateway, ev: Event)
    requires GatewayInv(g)
    ensures GatewayInv(Handle(g, ev).0)
  {
    SessionsFollow(g, ev);
    if SessionOp(g, ev).Some? {
      StepKeeps(g.sessions, SessionOp(g, ev).value);
    }
    EnginesStayOk(g, ev);
    TableStaysPooled(g, ev);
  }

  lemma StartKeeps(peers: seq<KnownPeer>, transmits: bool, listening: bool)
    ensures GatewayInv(Start(peers, transmits, listening).gateway)
  {
  }

  lemma {:induction false} RunKeepsGateway(w: World, evs: seq<Event>)
    requires GatewayInv(w.gateway)
    ensures GatewayInv(RunEvents(w, evs).gateway)
    decreases |evs|
  {
    if evs != [] {
      StepKeepsGateway(w.gateway, evs[0]);
      RunKeepsGateway(Advance(w, evs[0]), evs[1..]);
    }
  }

  // Through the adaptor a response never meets a foreign challenge or a missing key.
  lemma NoMismatchThroughAdaptor(g: Gateway, response: AuthResponse, platform: Platform)
    requires GatewayInv(g) && Pooled(g, response.clientId)
    ensures var e := g.engines[FindSlot(g.records, response.clientId)];
            && Respond(e, g.peers, response, platform).1 != ClientIdMismatch
            && (e.phase == ChallengeSent ==> FindPeerKey(g.peers, response.clientId).Some?)
  {
  }

  // --- Eviction is unreachable --------------------------------------------------------------

  function PooledIds(records: seq<ZoneSlotRecord>): (ids: set<ClientId>)
    ensures |ids| <= |records|
    ensures forall c: ClientId :: FindSlot(records, c) < |records| ==> c in ids
  {
    if records == [] then {}
    else (if records[0].isOccupied then {records[0].clientId} else {}) + PooledIds(records[1..])
  }

  // The clients with a session or a lock, apart from `c`.
  ghost function Others(r: Registry, c: ClientId): set<ClientId> {
    (r.live.Keys - {c}) + r.barred
  }

  lemma OthersCount(s: State, c: ClientId)
    requires Inv(s)
    ensures var r := View(s); |r.Drop(c).order| + |r.barred| == |Others(r, c)|
  {
    var r := View(s);
    ViewRepresents(s);
    OrderListsLive(s, r);
    assert |Without(r.order, c)| == |r.live.Keys - {c}| by {
      WithoutDistinct(r.order, c);
      WithoutMembers(r.order, c);
      DistinctCardinality(Without(r.order, c), r.live.Keys - {c});
    }
    assert (r.live.Keys - {c}) * r.barred == {} by {
      forall d | d in r.live && d in r.barred
        ensures false
      {
        BarredHasNoSession(s, r, d);
      }
    }
  }

  lemma BarredHasNoSession(s: State, r: Registry, d: ClientId)
    requires Inv(s) && Represents(s, r) && d in r.barred
    ensures d !in r.live
  {
    assert HasSession(r, d, Lookup(s.table, d));
    BarredIffSomeLocked(s.table, d);
  }

  // Sessions and barred clients other than `c` find place beside it in the pool.
  lemma RoomForPooled(g: Gateway, c: ClientId)
    requires GatewayInv(g) && Pooled(g, c) && c != ZERO_ID
    requires !IsLockedOut(g.sessions, c) && !IsLockedOut(g.sessions, ZERO_ID)
    ensures var r := View(g.sessions).Drop(c); |r.order| + |r.barred| < MAX_ACTIVE_SESSIONS
  {
    var r := View(g.sessions);
    OthersCount(g.sessions, c);
    forall d | d in Others(r, c)
      ensures d in PooledIds(g.records) - {c}
    {
      OtherIsPooled(g, c, d);
    }
    SessionRuns.SubsetCardinality(Others(r, c), PooledIds(g.records) - {c});
  }

  lemma OtherIsPooled(g: Gateway, c: ClientId, d: ClientId)
    requires GatewayInv(g) && !IsLockedOut(g.sessions, c) && !IsLockedOut(g.sessions, ZERO_ID)
    requires d in Others(View(g.sessions), c)
    ensures d != c && d in PooledIds(g.records)
  {
  }

  // A pooled client that is not locked out is always admitted, and nobody is evicted for it.
  lemma PooledIsAdmitted(g: Gateway, token: SessionToken, now: uint64)
    requires GatewayInv(g) && Pooled(g, token.clientId) && token.clientId != ZERO_ID
    requires !IsLockedOut(g.sessions, token.clientId) && !IsLockedOut(g.sessions, ZERO_ID)
    ensures var (s', status) := Register(g.sessions, token, now);
            && status == Ok
            && View(s') == View(g.sessions).Drop(token.clientId)
                             .Put(token.clientId, Session(token.key, token.nonce, now, now))
  {
    RoomForPooled(g, token.clientId);
    RegisterRefines(g.sessions, token, now);
    SessionRuns.BarredIsIsLockedOut(g.sessions, token.clientId);
  }

  // A response ends in a session error exactly when every slot of the table is locked out.
  lemma SessionErrorIffAllLocked(g: Gateway, response: AuthResponse, platform: Platform, now: uint64)
    requires GatewayInv(g) && Pooled(g, response.clientId)
    requires Respond(g.engines[FindSlot(g.records, response.clientId)], g.peers, response, platform).1 == SpdmOk
    requires !IsLockedOut(g.sessions, response.clientId)
    ensures HandleResponse(g, response, platform, now).1 == SessionError <==>
              LockedCount(g.sessions.table) == 8
  {
    var e := g.engines[FindSlot(g.records, response.clientId)];
    var token := Respond(e, g.peers, response, platform).2.value;
    SessionRuns.RefusedIffAllLocked(g.sessions, token, now);
  }

  // No call revokes the all-zero id as an anomaly.
  predicate NamesNobody(ev: Event) {
    ev.SessionRevoked? && ev.revoked == ZERO_ID && ev.isAnomaly
  }

  lemma ZeroNotBarred(g: Gateway, ev: Event)
    requires GatewayInv(g) && !IsLockedOut(g.sessions, ZERO_ID) && !NamesNobody(ev)
    ensures !IsLockedOut(Handle(g, ev).0.sessions, ZERO_ID)
  {
    SessionsFollow(g, ev);
    if SessionOp(g, ev).Some? {
      SessionRuns.OnlyNamedIsBarred(g.sessions, SessionOp(g, ev).value, ZERO_ID);
    }
  }

  ghost predicate Reached(g: Gateway) {
    GatewayInv(g) && !IsLockedOut(g.sessions, ZERO_ID)
  }

  lemma {:induction false} RunReaches(w: World, evs: seq<Event>)
    requires Reached(w.gateway) && forall k :: 0 <= k < |evs| ==> !NamesNobody(evs[k])
    ensures Reached(RunEvents(w, evs).gateway)
    decreases |evs|
  {
    if evs != [] {
      StepKeepsGateway(w.gateway, evs[0]);
      ZeroNotBarred(w.gateway, evs[0]);
      RunReaches(Advance(w, evs[0]), evs[1..]);
    }
  }

  // The sessions after `c` was admitted: a new one for `c`, all others as they were.
  ghost predicate Adds(before: Registry, after: Registry, c: ClientId) {
    && c in after.live
    && after.live == before.live[c := after.live[c]]
    && after.order == Without(before.order, c) + [c]
    && after.barred == before.barred
  }

  lemma PutAdds(r: Registry, c: ClientId, session: Session)
    ensures Adds(r, r.Drop(c).Put(c, session), c)
  {
    assert r.Drop(c).Put(c, session).live == r.live[c := session];
  }

  // In a run that never revokes the all-zero id as an anomaly, no response ends in a session
  // error, and admitting a client changes no other client's session.
  lemma NeverEvicts(peers: seq<KnownPeer>, transmits: bool, listening: bool, evs: seq<Event>,
                    response: AuthResponse, platform: Platform, now: uint64)
    requires forall k :: 0 <= k < |evs| ==> !NamesNobody(evs[k])
    ensures var g := RunEvents(Start(peers, transmits, listening), evs).gateway;
            var (g', status) := HandleResponse(g, response, platform, now);
            && status != SessionError
            && (status == AdaptorOk ==> Adds(View(g.sessions), View(g'.sessions), response.clientId))
  {
    var w := Start(peers, transmits, listening);
    RunReaches(w, evs);
    ResponseNeverEvicts(RunEvents(w, evs).gateway, response, platform, now);
  }

  lemma AdmittedAdds(g: Gateway, token: SessionToken, now: uint64)
    requires Reached(g) && Pooled(g, token.clientId) && token.clientId != ZERO_ID
    requires !IsLockedOut(g.sessions, token.clientId)
    ensures Register(g.sessions, token, now).1 == Ok
    ensures Adds(View(g.sessions), View(Register(g.sessions, token, now).0), token.clientId)
  {
    PooledIsAdmitted(g, token, now);
    PutAdds(View(g.sessions), token.clientId, Session(token.key, token.nonce, now, now));
  }

  lemma ResponseNeverEvicts(g: Gateway, response: AuthResponse, platform: Platform, now: uint64)
    requires Reached(g)
    ensures var (g', status) := HandleResponse(g, response, platform, now);
            && status != SessionError
            && (status == AdaptorOk ==> Adds(View(g.sessions), View(g'.sessions), response.clientId))
  {
    var c := response.clientId;
    var slot := FindSlot(g.records, c);
    if slot < MAX_ZONE_SLOTS {
      var token := Respond(g.engines[slot], g.peers, response, platform).2;
      if token.Some? && !IsLockedOut(g.sessions, c) {
        AdmittedAdds(g, token.value, now);
      }
    }
  }
}
