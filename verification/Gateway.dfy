/**
 The adaptor as a state machine: a pool of eight handshake engines bound to client ids, the
 session table, and the gate the host asks before it forwards a frame. `SomeIpAdaptor` is
 proved to take exactly these steps.
 */
module Gateways {
  import opened Bytes
  import opened SessionTable
  import opened Handshake

  const MAX_ZONE_SLOTS := 8

  datatype AdaptorStatus =
    | AdaptorOk | UnknownPeer | SlotExhausted | ProtocolError | SessionError | InvalidFrame
    | NotAuthenticated | AdaptorLockedOut | AdaptorInvalidParam

  datatype ZoneSlotRecord = ZoneSlotRecord(clientId: ClientId, isOccupied: bool)

  datatype Challenge = Challenge(destination: ClientId, nonce: Nonce)

  // `transmits` says whether a transmit callback was given; `sent` is what it was called with.
  datatype Gateway = Gateway(
    peers: seq<KnownPeer>,
    transmits: bool,
    engines: seq<Engine>,
    records: seq<ZoneSlotRecord>,
    sessions: State,
    sent: seq<Challenge>)

  const VACANT := ZoneSlotRecord(ZERO_ID, false)

  function InitialGateway(peers: seq<KnownPeer>, transmits: bool, listening: bool): Gateway {
    Gateway(peers, transmits, seq(MAX_ZONE_SLOTS, _ => IDLE_ENGINE), seq(MAX_ZONE_SLOTS, _ => VACANT),
            Initial(listening), [])
  }

  predicate Formed(g: Gateway) {
    |g.engines| == |g.records| == MAX_ZONE_SLOTS && WellFormed(g.sessions)
  }

  // The first occupied record of `c`; the pool size when there is none.
  function FindSlot(records: seq<ZoneSlotRecord>, c: ClientId): (i: nat)
    ensures i <= |records|
    ensures i < |records| ==> records[i] == ZoneSlotRecord(c, true)
    ensures forall k :: 0 <= k < i ==> records[k] != ZoneSlotRecord(c, true)
  {
    if records == [] || records[0] == ZoneSlotRecord(c, true) then 0 else 1 + FindSlot(records[1..], c)
  }

  function FindVacant(records: seq<ZoneSlotRecord>): (i: nat)
    ensures i <= |records|
    ensures i < |records| ==> !records[i].isOccupied
    ensures forall k :: 0 <= k < i ==> records[k].isOccupied
  {
    if records == [] || !records[0].isOccupied then 0 else 1 + FindVacant(records[1..])
  }

  datatype Reply = Reply(status: AdaptorStatus, key: Option<SessionKey>)

  function Plain(status: AdaptorStatus): Reply {
    Reply(status, None)
  }

  function Offer(g: Gateway, c: ClientId): (r: (Gateway, AdaptorStatus))
    requires Formed(g)
    ensures Formed(r.0)
  {
    if c == ZERO_ID then (g, AdaptorInvalidParam)
    else if IsLockedOut(g.sessions, c) then (g, AdaptorLockedOut)
    else
      var slot := FindSlot(g.records, c);
      if slot < MAX_ZONE_SLOTS then (g.(engines := g.engines[slot := g.engines[slot].Reset()]), AdaptorOk)
      else
        var vacant := FindVacant(g.records);
        if vacant == MAX_ZONE_SLOTS then (g, SlotExhausted)
        else (g.(records := g.records[vacant := ZoneSlotRecord(c, true)],
                 engines := g.engines[vacant := g.engines[vacant].Reset()]), AdaptorOk)
  }

  function HandleRequest(g: Gateway, request: AuthRequest, draw: (CryptoStatus, Nonce)): (r: (Gateway, AdaptorStatus))
    requires Formed(g)
    ensures Formed(r.0)
  {
    var slot := FindSlot(g.records, request.clientId);
    if slot == MAX_ZONE_SLOTS then (g, UnknownPeer)
    else
      var (engine, status) := Request(g.engines[slot], g.peers, request, draw);
      var g1 := g.(engines := g.engines[slot := engine]);
      if status != SpdmOk then (g1, ProtocolError)
      else if g.transmits then (g1.(sent := g1.sent + [Challenge(request.clientId, engine.pendingNonce)]), AdaptorOk)
      else (g1, AdaptorOk)
  }

  function HandleResponse(g: Gateway, response: AuthResponse, platform: Platform, now: uint64)
    : (r: (Gateway, AdaptorStatus))
    requires Formed(g)
    ensures Formed(r.0)
  {
    var slot := FindSlot(g.records, response.clientId);
    if slot == MAX_ZONE_SLOTS then (g, UnknownPeer)
    else
      var (engine, status, token) := Respond(g.engines[slot], g.peers, response, platform);
      if status != SpdmOk then
        (g.(engines := g.engines[slot := engine], sessions := Revoke(g.sessions, response.clientId, true).0),
         ProtocolError)
      else
        var (sessions, admitted) := Register(g.sessions, token.value, now);
        if admitted != Ok then
          (g.(engines := g.engines[slot := engine.Revoke()], sessions := sessions),
           if admitted == LockedOut then AdaptorLockedOut else SessionError)
        else (g.(engines := g.engines[slot := engine], sessions := sessions), AdaptorOk)
  }

  function Query(g: Gateway, c: ClientId, now: uint64): (r: (Gateway, Reply))
    requires Formed(g)
    ensures Formed(r.0)
  {
    if IsLockedOut(g.sessions, c) then (g, Plain(AdaptorLockedOut))
    else
      var (sessions, status, key) := Validate(g.sessions, c, now);
      (g.(sessions := sessions),
       if status == Ok then Reply(AdaptorOk, key)
       else if status == LockedOut then Plain(AdaptorLockedOut)
       else Plain(NotAuthenticated))
  }

  function RevokeSession(g: Gateway, c: ClientId, isAnomaly: bool): (r: (Gateway, AdaptorStatus))
    requires Formed(g)
    ensures Formed(r.0)
  {
    var slot := FindSlot(g.records, c);
    var engines := if slot < MAX_ZONE_SLOTS then g.engines[slot := g.engines[slot].Revoke()] else g.engines;
    var (sessions, status) := Revoke(g.sessions, c, isAnomaly);
    (g.(engines := engines, sessions := sessions), if status == Ok then AdaptorOk else UnknownPeer)
  }

  // One call of the host into the adaptor, with everything the platform answers during it.
  datatype Event =
    | PeerOffered(client: ClientId)
    | RequestFrame(requestPayload: Option<Bytes>, draw: (CryptoStatus, Nonce))
    | ResponseFrame(responsePayload: Option<Bytes>, platform: Platform, at: uint64)
    | SessionTick(now: uint64)
    | SessionQuery(queried: ClientId, asked: uint64)
    | SessionRevoked(revoked: ClientId, isAnomaly: bool)

  function Handle(g: Gateway, ev: Event): (r: (Gateway, Reply))
    requires Formed(g)
    ensures Formed(r.0)
  {
    match ev
    case PeerOffered(c) =>
      var (g', status) := Offer(g, c); (g', Plain(status))
    case RequestFrame(payload, draw) =>
      (match ParseRequest(payload)
       case None => (g, Plain(InvalidFrame))
       case Some(request) => var (g', status) := HandleRequest(g, request, draw); (g', Plain(status)))
    case ResponseFrame(payload, platform, now) =>
      (match ParseResponse(payload)
       case None => (g, Plain(InvalidFrame))
       case Some(response) => var (g', status) := HandleResponse(g, response, platform, now); (g', Plain(status)))
    case SessionTick(now) => (g.(sessions := Sweep(g.sessions, now)), Plain(AdaptorOk))
    case SessionQuery(c, now) => Query(g, c, now)
    case SessionRevoked(c, isAnomaly) =>
      var (g', status) := RevokeSession(g, c, isAnomaly); (g', Plain(status))
  }

  // The table operation a call performs, if any.
  function SessionOp(g: Gateway, ev: Event): Option<Op>
    requires Formed(g)
  {
    match ev
    case PeerOffered(_) => None
    case RequestFrame(_, _) => None
    case ResponseFrame(payload, platform, now) =>
      (match ParseResponse(payload)
       case None => None
       case Some(response) =>
         var slot := FindSlot(g.records, response.clientId);
         if slot == MAX_ZONE_SLOTS then None
         else
           match Respond(g.engines[slot], g.peers, response, platform).2
           case None => Some(RevokeOp(response.clientId, true))
           case Some(token) => Some(RegisterOp(token, now)))
    case SessionTick(now) => Some(SweepOp(now))
    case SessionQuery(c, now) => Some(ValidateOp(c, now))
    case SessionRevoked(c, isAnomaly) => Some(RevokeOp(c, isAnomaly))
  }

  // The table sees nothing but its own operations.
  lemma SessionsFollow(g: Gateway, ev: Event)
    requires Formed(g)
    ensures Handle(g, ev).0.sessions ==
            match SessionOp(g, ev)
            case None => g.sessions
            case Some(op) => SessionTable.Step(g.sessions, op).0
  {
  }

  datatype Entry = Entry(event: Event, reply: Reply)

  // A gateway together with every call made to it so far and what each answered.
  datatype World = World(gateway: Gateway, history: seq<Entry>)

  function Advance(w: World, ev: Event): (w': World)
    requires Formed(w.gateway)
    ensures Formed(w'.gateway)
  {
    var (g, reply) := Handle(w.gateway, ev);
    World(g, w.history + [Entry(ev, reply)])
  }

  function RunEvents(w: World, evs: seq<Event>): (w': World)
    requires Formed(w.gateway)
    ensures Formed(w'.gateway)
    decreases |evs|
  {
    if evs == [] then w else RunEvents(Advance(w, evs[0]), evs[1..])
  }

  function Start(peers: seq<KnownPeer>, transmits: bool, listening: bool): (w: World)
    ensures Formed(w.gateway)
  {
    World(InitialGateway(peers, transmits, listening), [])
  }
}
