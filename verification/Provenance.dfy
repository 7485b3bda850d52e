/**
 Where an accepted session comes from, over whole runs: behind every session the gate honours
 lies an offer, then a challenge, then an accepted response to that challenge, undisturbed.
 */
module Provenance {
  import opened Bytes
  import opened SessionTable
  import opened SessionInvariants
  import opened SessionRegistry
  import SessionRuns
  import opened Handshake
  import opened Gateways
  import opened GatewayInvariants

  type History = seq<Entry>

  // --- What an entry of the history did -----------------------------------------------------

  predicate Offered(e: Entry, c: ClientId) {
    e.event == PeerOffered(c) && e.reply.status == AdaptorOk
  }

  // A successful request of `c`, for which `nonce` was drawn.
  predicate Challenged(e: Entry, c: ClientId) {
    && e.event.RequestFrame?
    && ParseRequest(e.event.requestPayload).Some?
    && ParseRequest(e.event.requestPayload).value.clientId == c
    && e.reply.status == AdaptorOk
  }

  // A response of `c` that reached an engine.
  predicate Responded(e: Entry, c: ClientId) {
    && e.event.ResponseFrame?
    && ParseResponse(e.event.responsePayload).Some?
    && ParseResponse(e.event.responsePayload).value.clientId == c
    && e.reply.status != UnknownPeer
  }

  predicate RevokedBy(e: Entry, c: ClientId) {
    e.event.SessionRevoked? && e.event.revoked == c
  }

  // No offer, challenge or revocation of `c` strictly between the two positions.
  ghost predicate Quiet(h: History, c: ClientId, from: nat, to: nat) {
    forall k :: from < k < to && k < |h| ==>
      !Offered(h[k], c) && !Challenged(h[k], c) && !RevokedBy(h[k], c)
  }

  ghost predicate NoResponse(h: History, c: ClientId, from: nat, to: nat) {
    forall k :: from < k < to && k < |h| ==> !Responded(h[k], c)
  }

  // Entry `a` offered `c`, entry `i` challenged it with `nonce`, and nothing touched its engine
  // after that up to `end`.
  ghost predicate InFlight(h: History, c: ClientId, nonce: Nonce, a: nat, i: nat, end: nat) {
    && a < i < |h|
    && Offered(h[a], c)
    && Quiet(h, c, a, i)
    && Challenged(h[i], c)
    && h[i].event.draw == (CryptoOk, nonce)
    && Quiet(h, c, i, end)
    && NoResponse(h, c, i, end)
  }

  // Entry `j` answered that challenge with a signature the platform accepted, at the time and
  // with the derived key of `session`.
  ghost predicate Backed(h: History, peers: seq<KnownPeer>, c: ClientId, session: Session, a: nat, i: nat, j: nat) {
    && i < j < |h|
    && InFlight(h, c, session.nonce, a, i, j)
    && Responded(h[j], c)
    && h[j].reply.status == AdaptorOk
    && h[j].event.at == session.issuedAt
    && Accepts(h[j].event.platform, peers, c, session.nonce,
               ParseResponse(h[j].event.responsePayload).value.signature, session.key)
  }

  // Since entry `j` no revocation and no further response named `c`.
  ghost predicate Undisturbed(h: History, c: ClientId, j: nat) {
    forall k :: j < k < |h| ==> !RevokedBy(h[k], c) && !Responded(h[k], c)
  }

  ghost predicate LiveBacked(h: History, peers: seq<KnownPeer>, c: ClientId, session: Session) {
    exists a: nat, i: nat, j: nat :: Backed(h, peers, c, session, a, i, j) && Undisturbed(h, c, j)
  }

  // What the phase of the engine of `c` says about the past.
  ghost predicate EngineBacked(h: History, e: Engine, c: ClientId) {
    match e.phase
    case Unauthenticated => exists a: nat :: a < |h| && Offered(h[a], c) && Quiet(h, c, a, |h|)
    case ChallengeSent => exists a: nat, i: nat :: InFlight(h, c, e.pendingNonce, a, i, |h|)
    case Authenticated => true
    case Revoked => true
  }

  ghost predicate EnginesBacked(w: World)
    requires Formed(w.gateway)
  {
    forall c: ClientId :: Pooled(w.gateway, c) ==>
      EngineBacked(w.history, w.gateway.engines[FindSlot(w.gateway.records, c)], c)
  }

  ghost predicate SessionsBacked(w: World)
    requires Formed(w.gateway)
  {
    forall c: ClientId :: c in View(w.gateway.sessions).live ==>
      LiveBacked(w.history, w.gateway.peers, c, View(w.gateway.sessions).live[c])
  }

  ghost predicate IsBacked(h: History, peers: seq<KnownPeer>, c: ClientId, j: nat) {
    exists session: Session, a: nat, i: nat :: Backed(h, peers, c, session, a, i, j)
  }

  // Every successful response answered a challenge of its own.
  ghost predicate TokensBacked(h: History, peers: seq<KnownPeer>) {
    forall c: ClientId, j: nat :: j < |h| && Responded(h[j], c) && h[j].reply.status == AdaptorOk
      ==> IsBacked(h, peers, c, j)
  }

  ghost predicate Traced(w: World) {
    && GatewayInv(w.gateway)
    && EnginesBacked(w)
    && SessionsBacked(w)
    && TokensBacked(w.history, w.gateway.peers)
  }

  // --- Extending the history ----------------------------------------------------------------

  lemma BackedExtends(h: History, e: Entry, peers: seq<KnownPeer>, c: ClientId, session: Session,
                      a: nat, i: nat, j: nat)
    requires Backed(h, peers, c, session, a, i, j)
    ensures Backed(h + [e], peers, c, session, a, i, j)
  {
  }

  lemma LiveExtends(h: History, e: Entry, peers: seq<KnownPeer>, c: ClientId, session: Session)
    requires LiveBacked(h, peers, c, session)
    requires !RevokedBy(e, c) && !Responded(e, c)
    ensures LiveBacked(h + [e], peers, c, session)
  {
    var a: nat, i: nat, j: nat :| Backed(h, peers, c, session, a, i, j) && Undisturbed(h, c, j);
    BackedExtends(h, e, peers, c, session, a, i, j);
    assert forall k :: 0 <= k < |h| ==> (h + [e])[k] == h[k];
    assert Undisturbed(h + [e], c, j);
  }

  lemma EngineExtends(h: History, x: Entry, e: Engine, c: ClientId)
    requires EngineBacked(h, e, c)
    requires !Offered(x, c) && !Challenged(x, c) && !RevokedBy(x, c)
    requires e.phase == ChallengeSent ==> !Responded(x, c)
    ensures EngineBacked(h + [x], e, c)
  {
    assert forall k :: 0 <= k < |h| ==> (h + [x])[k] == h[k];
    if e.phase == Unauthenticated {
      var a: nat :| a < |h| && Offered(h[a], c) && Quiet(h, c, a, |h|);
      assert Offered((h + [x])[a], c) && Quiet(h + [x], c, a, |h + [x]|);
    } else if e.phase == ChallengeSent {
      var a: nat, i: nat :| InFlight(h, c, e.pendingNonce, a, i, |h|);
      assert InFlight(h + [x], c, e.pendingNonce, a, i, |h + [x]|);
    }
  }

  lemma OfferBacks(h: History, x: Entry, e: Engine, c: ClientId)
    requires Offered(x, c) && e.phase == Unauthenticated
    ensures EngineBacked(h + [x], e, c)
  {
    assert Offered((h + [x])[|h|], c) && Quiet(h + [x], c, |h|, |h + [x]|);
  }

  lemma ChallengeBacks(h: History, x: Entry, before: Engine, after: Engine, c: ClientId)
    requires EngineBacked(h, before, c) && before.phase == Unauthenticated
    requires Challenged(x, c) && after.phase == ChallengeSent && x.event.draw == (CryptoOk, after.pendingNonce)
    ensures EngineBacked(h + [x], after, c)
  {
    var a: nat :| a < |h| && Offered(h[a], c) && Quiet(h, c, a, |h|);
    var h' := h + [x];
    assert forall k :: 0 <= k < |h| ==> h'[k] == h[k];
    assert InFlight(h', c, after.pendingNonce, a, |h|, |h'|);
  }

  lemma ResponseBacks(h: History, x: Entry, peers: seq<KnownPeer>, before: Engine, c: ClientId, session: Session)
    requires EngineBacked(h, before, c) && before.phase == ChallengeSent && before.pendingNonce == session.nonce
    requires Responded(x, c) && x.reply.status == AdaptorOk && x.event.at == session.issuedAt
    requires Accepts(x.event.platform, peers, c, session.nonce,
                     ParseResponse(x.event.responsePayload).value.signature, session.key)
    ensures LiveBacked(h + [x], peers, c, session)
    ensures IsBacked(h + [x], peers, c, |h|)
  {
    var a: nat, i: nat :| InFlight(h, c, session.nonce, a, i, |h|);
    var h' := h + [x];
    assert forall k :: 0 <= k < |h| ==> h'[k] == h[k];
    assert Backed(h', peers, c, session, a, i, |h|);
    assert Undisturbed(h', c, |h|);
  }

  // --- One call -----------------------------------------------------------------------------

  lemma SameSessionBacked(h: History, peers: seq<KnownPeer>, c: ClientId, x: Session, y: Session)
    requires LiveBacked(h, peers, c, x) && SessionRuns.SameSession(x, y)
    ensures LiveBacked(h, peers, c, y)
  {
    var a: nat, i: nat, j: nat :| Backed(h, peers, c, x, a, i, j) && Undisturbed(h, c, j);
    assert Backed(h, peers, c, y, a, i, j);
  }

  lemma PoolBefore(g: Gateway, ev: Event, c: ClientId)
    requires Formed(g) && Pooled(Handle(g, ev).0, c)
    ensures Pooled(g, c) || (ev == PeerOffered(c) && Handle(g, ev).1.status == AdaptorOk)
    ensures Pooled(g, c) ==> FindSlot(Handle(g, ev).0.records, c) == FindSlot(g.records, c)
  {
    if Pooled(g, c) {
      PoolGrows(g, ev, c);
    } else if ev.PeerOffered? {
      var k := FindSlot(Handle(g, ev).0.records, c);
      assert Handle(g, ev).0.records[k] == ZoneSlotRecord(c, true);
      assert k < |g.records| && g.records[k] != ZoneSlotRecord(c, true);
    }
  }

  function EngineOf(g: Gateway, c: ClientId): Engine
    requires Formed(g) && Pooled(g, c)
  {
    g.engines[FindSlot(g.records, c)]
  }

  // The engine of `c` reacts only to calls that name `c`.
  predicate Silent(x: Entry, c: ClientId) {
    !Offered(x, c) && !Challenged(x, c) && !RevokedBy(x, c) && !Responded(x, c)
  }

  // Nothing but the nonce buffer of an unauthenticated engine may have changed: a failing
  // generator can leave something there.
  ghost predicate SameEngine(e: Engine, e': Engine) {
    e' == e || (e.phase == Unauthenticated && e' == e.(pendingNonce := e'.pendingNonce))
  }

  lemma OfferOther(g: Gateway, d: ClientId, c: ClientId)
    requires Formed(g) && Pooled(g, c)
    requires d == c ==> Offer(g, d).1 != AdaptorOk
    ensures Offer(g, d).0.engines[FindSlot(g.records, c)] == EngineOf(g, c)
  {
  }

  lemma RequestOther(g: Gateway, request: AuthRequest, draw: (CryptoStatus, Nonce), c: ClientId)
    requires Formed(g) && Pooled(g, c)
    requires request.clientId == c ==> HandleRequest(g, request, draw).1 != AdaptorOk
    ensures var e := HandleRequest(g, request, draw).0.engines[FindSlot(g.records, c)];
            SameEngine(EngineOf(g, c), e) && (request.clientId != c ==> e == EngineOf(g, c))
  {
  }

  lemma ResponseOther(g: Gateway, response: AuthResponse, platform: Platform, now: uint64, c: ClientId)
    requires Formed(g) && Pooled(g, c) && response.clientId != c
    ensures HandleResponse(g, response, platform, now).0.engines[FindSlot(g.records, c)] == EngineOf(g, c)
  {
  }

  lemma RevokeOther(g: Gateway, d: ClientId, isAnomaly: bool, c: ClientId)
    requires Formed(g) && Pooled(g, c) && d != c
    ensures RevokeSession(g, d, isAnomaly).0.engines[FindSlot(g.records, c)] == EngineOf(g, c)
  {
  }

  lemma OtherEngine(g: Gateway, ev: Event, c: ClientId)
    requires Formed(g) && Pooled(g, c) && Silent(Entry(ev, Handle(g, ev).1), c)
    ensures Pooled(Handle(g, ev).0, c) && SameEngine(EngineOf(g, c), EngineOf(Handle(g, ev).0, c))
  {
    PoolGrows(g, ev, c);
    match ev
    case PeerOffered(d) => OfferOther(g, d, c);
    case RequestFrame(payload, draw) =>
      if ParseRequest(payload).Some? {
        RequestOther(g, ParseRequest(payload).value, draw, c);
      }
    case ResponseFrame(payload, platform, now) =>
      if ParseResponse(payload).Some? && ParseResponse(payload).value.clientId != c {
        ResponseOther(g, ParseResponse(payload).value, platform, now, c);
      }
    case SessionTick(now) =>
    case SessionQuery(d, now) =>
    case SessionRevoked(d, isAnomaly) => RevokeOther(g, d, isAnomaly, c);
  }

  // What a call that names `c` does to its engine.
  ghost predicate NamedStep(x: Entry, c: ClientId, e: Engine, e': Engine) {
    && (Offered(x, c) ==> e'.phase == Unauthenticated)
    && (Challenged(x, c) ==>
          e.phase == Unauthenticated && e'.phase == ChallengeSent && x.event.draw == (CryptoOk, e'.pendingNonce))
    && (RevokedBy(x, c) ==> e'.phase == Revoked)
    && (Responded(x, c) ==>
          if e.phase == ChallengeSent then e'.phase == Authenticated || e'.phase == Revoked else e' == e)
  }

  lemma NamedRequest(g: Gateway, request: AuthRequest, draw: (CryptoStatus, Nonce))
    requires Formed(g) && HandleRequest(g, request, draw).1 == AdaptorOk
    ensures var c := request.clientId;
            && Pooled(g, c)
            && var e, e' := EngineOf(g, c), HandleRequest(g, request, draw).0.engines[FindSlot(g.records, c)];
               e.phase == Unauthenticated && e'.phase == ChallengeSent && draw == (CryptoOk, e'.pendingNonce)
  {
  }

  lemma NamedResponse(g: Gateway, response: AuthResponse, platform: Platform, now: uint64)
    requires Formed(g) && Pooled(g, response.clientId)
    ensures var c := response.clientId;
            var e, e' := EngineOf(g, c), HandleResponse(g, response, platform, now).0.engines[FindSlot(g.records, c)];
            if e.phase == ChallengeSent then e'.phase == Authenticated || e'.phase == Revoked else e' == e
  {
    EngineAnswers(EngineOf(g, response.clientId), g.peers, response, platform);
  }

  lemma EngineAnswers(e: Engine, peers: seq<KnownPeer>, response: AuthResponse, platform: Platform)
    ensures var (e', status, token) := Respond(e, peers, response, platform);
            if e.phase == ChallengeSent then e'.phase == Authenticated || e'.phase == Revoked
            else e' == e && token == None
  {
  }

  lemma NamedEngine(g: Gateway, ev: Event, c: ClientId)
    requires Formed(g) && Pooled(g, c)
    ensures Pooled(Handle(g, ev).0, c)
    ensures NamedStep(Entry(ev, Handle(g, ev).1), c, EngineOf(g, c), EngineOf(Handle(g, ev).0, c))
  {
    PoolGrows(g, ev, c);
    match ev
    case PeerOffered(d) =>
    case RequestFrame(payload, draw) =>
      if ParseRequest(payload).Some? && Handle(g, ev).1.status == AdaptorOk {
        NamedRequest(g, ParseRequest(payload).value, draw);
      }
    case ResponseFrame(payload, platform, now) =>
      if ParseResponse(payload).Some? && ParseResponse(payload).value.clientId == c {
        NamedResponse(g, ParseResponse(payload).value, platform, now);
      }
    case SessionTick(now) =>
    case SessionQuery(d, now) =>
    case SessionRevoked(d, isAnomaly) =>
  }

  lemma NewcomerEngine(g: Gateway, c: ClientId)
    requires Formed(g) && Offer(g, c).1 == AdaptorOk
    ensures Pooled(Offer(g, c).0, c) && EngineOf(Offer(g, c).0, c).phase == Unauthenticated
  {
    var g', vacant := Offer(g, c).0, FindVacant(g.records);
    if !Pooled(g, c) {
      assert g'.records[vacant] == ZoneSlotRecord(c, true);
      assert FindSlot(g'.records, c) <= vacant;
      assert forall k :: 0 <= k < vacant ==> g'.records[k] == g.records[k];
      assert FindSlot(g'.records, c) == vacant;
    }
  }

  lemma EngineAfter(h: History, x: Entry, e: Engine, e': Engine, c: ClientId)
    requires EngineBacked(h, e, c)
    requires NamedStep(x, c, e, e')
    requires Silent(x, c) ==> SameEngine(e, e')
    ensures EngineBacked(h + [x], e', c)
  {
    if Offered(x, c) {
      OfferBacks(h, x, e', c);
    } else if Challenged(x, c) {
      ChallengeBacks(h, x, e, e', c);
    } else if !RevokedBy(x, c) && (Responded(x, c) ==> e.phase != ChallengeSent) {
      EngineExtends(h, x, e, c);
    }
  }

  lemma StepEngine(w: World, ev: Event, c: ClientId)
    requires Formed(w.gateway) && EnginesBacked(w) && Pooled(Advance(w, ev).gateway, c)
    ensures var w' := Advance(w, ev); EngineBacked(w'.history, EngineOf(w'.gateway, c), c)
  {
    var g, g', h := w.gateway, Advance(w, ev).gateway, w.history;
    var x := Entry(ev, Handle(g, ev).1);
    PoolBefore(g, ev, c);
    if Pooled(g, c) {
      assert EngineBacked(h, EngineOf(g, c), c);
      NamedEngine(g, ev, c);
      if Silent(x, c) {
        OtherEngine(g, ev, c);
      }
      EngineAfter(h, x, EngineOf(g, c), EngineOf(g', c), c);
    } else {
      NewcomerEngine(g, c);
      OfferBacks(h, x, EngineOf(g', c), c);
    }
  }

  lemma StepEngines(w: World, ev: Event)
    requires Formed(w.gateway) && EnginesBacked(w)
    ensures EnginesBacked(Advance(w, ev))
  {
    var w' := Advance(w, ev);
    forall c: ClientId | Pooled(w'.gateway, c)
      ensures EngineBacked(w'.history, w'.gateway.engines[FindSlot(w'.gateway.records, c)], c)
    {
      StepEngine(w, ev, c);
    }
  }

  // A response that reaches an engine is a table operation on its client; no other call is,
  // except a revocation.
  lemma EndsIffNamed(g: Gateway, ev: Event, c: ClientId)
    requires Formed(g)
    ensures var x, op := Entry(ev, Handle(g, ev).1), SessionOp(g, ev);
            RevokedBy(x, c) || Responded(x, c) <==> op.Some? && SessionRuns.Ends(op.value, c)
  {
  }

  lemma IssuedIfOk(g: Gateway, ev: Event, c: ClientId)
    requires Formed(g) && SessionOp(g, ev).Some? && SessionRuns.Ends(SessionOp(g, ev).value, c)
    requires SessionOp(g, ev).value.RegisterOp?
    ensures Pooled(g, c) && Responded(Entry(ev, Handle(g, ev).1), c)
    ensures Handle(g, ev).1.status == AdaptorOk <==>
              SessionTable.Step(g.sessions, SessionOp(g, ev).value).1 == Ok
    ensures var op := SessionOp(g, ev).value;
            && EngineOf(g, c).phase == ChallengeSent
            && EngineOf(g, c).pendingNonce == op.token.nonce
            && op.now == ev.at
            && Accepts(ev.platform, g.peers, c, op.token.nonce,
                       ParseResponse(ev.responsePayload).value.signature, op.token.key)
  {
  }

  function NewSession(op: Op): Session
    requires op.RegisterOp?
  {
    Session(op.token.key, op.token.nonce, op.now, op.now)
  }

  lemma IssueBacks(w: World, ev: Event, c: ClientId)
    requires Formed(w.gateway) && EnginesBacked(w)
    requires SessionOp(w.gateway, ev).Some? && SessionRuns.Ends(SessionOp(w.gateway, ev).value, c)
    requires SessionOp(w.gateway, ev).value.RegisterOp? && Handle(w.gateway, ev).1.status == AdaptorOk
    ensures var w', op := Advance(w, ev), SessionOp(w.gateway, ev).value;
            && LiveBacked(w'.history, w.gateway.peers, c, NewSession(op))
            && IsBacked(w'.history, w.gateway.peers, c, |w.history|)
  {
    var g, h := w.gateway, w.history;
    IssuedIfOk(g, ev, c);
    assert EngineBacked(h, EngineOf(g, c), c);
    ResponseBacks(h, Entry(ev, Handle(g, ev).1), g.peers, EngineOf(g, c), c, NewSession(SessionOp(g, ev).value));
  }

  lemma OtherSession(w: World, ev: Event, c: ClientId)
    requires Formed(w.gateway) && SessionsBacked(w)
    requires !(SessionOp(w.gateway, ev).Some? && SessionRuns.Ends(SessionOp(w.gateway, ev).value, c))
    requires SessionRuns.Continues(View(w.gateway.sessions), View(Advance(w, ev).gateway.sessions), c)
    requires c in View(Advance(w, ev).gateway.sessions).live
    ensures var w' := Advance(w, ev);
            LiveBacked(w'.history, w.gateway.peers, c, View(w'.gateway.sessions).live[c])
  {
    var g, g', h := w.gateway, Advance(w, ev).gateway, w.history;
    var x := Entry(ev, Handle(g, ev).1);
    EndsIffNamed(g, ev, c);
    LiveExtends(h, x, g.peers, c, View(g.sessions).live[c]);
    SameSessionBacked(h + [x], g.peers, c, View(g.sessions).live[c], View(g'.sessions).live[c]);
  }

  lemma StepSession(w: World, ev: Event, c: ClientId)
    requires Formed(w.gateway) && Inv(w.gateway.sessions) && EnginesBacked(w) && SessionsBacked(w)
    requires c in View(Advance(w, ev).gateway.sessions).live
    ensures var w' := Advance(w, ev);
            LiveBacked(w'.history, w.gateway.peers, c, View(w'.gateway.sessions).live[c])
  {
    var g := w.gateway;
    SessionsFollow(g, ev);
    var op := SessionOp(g, ev);
    if op.Some? {
      SessionRuns.SessionAfter(g.sessions, op.value, c);
    }
    if op.Some? && SessionRuns.Ends(op.value, c) {
      IssuedIfOk(g, ev, c);
      IssueBacks(w, ev, c);
    } else {
      OtherSession(w, ev, c);
    }
  }

  lemma PeersFixed(g: Gateway, ev: Event)
    requires Formed(g)
    ensures Handle(g, ev).0.peers == g.peers
  {
  }

  lemma StepSessions(w: World, ev: Event)
    requires Formed(w.gateway) && Inv(w.gateway.sessions) && EnginesBacked(w) && SessionsBacked(w)
    ensures SessionsBacked(Advance(w, ev))
  {
    var w' := Advance(w, ev);
    PeersFixed(w.gateway, ev);
    forall c: ClientId | c in View(w'.gateway.sessions).live
      ensures LiveBacked(w'.history, w'.gateway.peers, c, View(w'.gateway.sessions).live[c])
    {
      StepSession(w, ev, c);
    }
  }

  lemma SuccessRegisters(g: Gateway, ev: Event, c: ClientId)
    requires Formed(g) && Responded(Entry(ev, Handle(g, ev).1), c) && Handle(g, ev).1.status == AdaptorOk
    ensures SessionOp(g, ev).Some? && SessionRuns.Ends(SessionOp(g, ev).value, c) && SessionOp(g, ev).value.RegisterOp?
  {
  }

  lemma StepTokens(w: World, ev: Event)
    requires Formed(w.gateway) && EnginesBacked(w) && TokensBacked(w.history, w.gateway.peers)
    ensures TokensBacked(Advance(w, ev).history, w.gateway.peers)
  {
    var peers, h := w.gateway.peers, w.history;
    var x := Entry(ev, Handle(w.gateway, ev).1);
    forall c: ClientId | Responded(x, c) && x.reply.status == AdaptorOk
      ensures IsBacked(h + [x], peers, c, |h|)
    {
      NewToken(w, ev, c);
    }
    TokensExtend(h, x, peers);
  }

  lemma TokensExtend(h: History, x: Entry, peers: seq<KnownPeer>)
    requires TokensBacked(h, peers)
    requires forall c: ClientId :: Responded(x, c) && x.reply.status == AdaptorOk ==> IsBacked(h + [x], peers, c, |h|)
    ensures TokensBacked(h + [x], peers)
  {
    var h' := h + [x];
    forall c: ClientId, j: nat | j < |h'| && Responded(h'[j], c) && h'[j].reply.status == AdaptorOk
      ensures IsBacked(h', peers, c, j)
    {
      if j < |h| {
        OldToken(h, x, peers, c, j);
      }
    }
  }

  lemma NewToken(w: World, ev: Event, c: ClientId)
    requires Formed(w.gateway) && EnginesBacked(w)
    requires Responded(Entry(ev, Handle(w.gateway, ev).1), c) && Handle(w.gateway, ev).1.status == AdaptorOk
    ensures IsBacked(Advance(w, ev).history, w.gateway.peers, c, |w.history|)
  {
    SuccessRegisters(w.gateway, ev, c);
    IssueBacks(w, ev, c);
  }

  lemma OldToken(h: History, x: Entry, peers: seq<KnownPeer>, c: ClientId, j: nat)
    requires j < |h| && TokensBacked(h, peers)
    requires Responded((h + [x])[j], c) && (h + [x])[j].reply.status == AdaptorOk
    ensures IsBacked(h + [x], peers, c, j)
  {
    assert (h + [x])[j] == h[j];
    assert IsBacked(h, peers, c, j);
    var session: Session, a: nat, i: nat :| Backed(h, peers, c, session, a, i, j);
    BackedExtends(h, x, peers, c, session, a, i, j);
  }

  lemma StepTraced(w: World, ev: Event)
    requires Traced(w)
    ensures Traced(Advance(w, ev))
  {
    StepKeepsGateway(w.gateway, ev);
    PeersFixed(w.gateway, ev);
    StepEngines(w, ev);
    StepSessions(w, ev);
    StepTokens(w, ev);
  }

  lemma StartTraced(peers: seq<KnownPeer>, transmits: bool, listening: bool)
    ensures Traced(Start(peers, transmits, listening))
  {
  }

  lemma {:induction false} RunTraced(w: World, evs: seq<Event>)
    requires Traced(w)
    ensures Traced(RunEvents(w, evs))
    decreases |evs|
  {
    if evs != [] {
      StepTraced(w, evs[0]);
      RunTraced(Advance(w, evs[0]), evs[1..]);
    }
  }

  lemma {:induction false} RunFixesPeers(w: World, evs: seq<Event>)
    requires Formed(w.gateway)
    ensures RunEvents(w, evs).gateway.peers == w.gateway.peers
    decreases |evs|
  {
    if evs != [] {
      PeersFixed(w.gateway, evs[0]);
      RunFixesPeers(Advance(w, evs[0]), evs[1..]);
    }
  }

  lemma EveryRunTraced(peers: seq<KnownPeer>, transmits: bool, listening: bool, evs: seq<Event>)
    ensures var w := RunEvents(Start(peers, transmits, listening), evs);
            Traced(w) && w.gateway.peers == peers
  {
    StartTraced(peers, transmits, listening);
    RunTraced(Start(peers, transmits, listening), evs);
    RunFixesPeers(Start(peers, transmits, listening), evs);
  }

  // --- Whole runs ---------------------------------------------------------------------------

  // Entries `a`, `i`, `j` back the session that the gate honours at `now` with `key`.
  ghost predicate Justifies(h: History, peers: seq<KnownPeer>, c: ClientId, now: uint64, key: Option<SessionKey>,
                            session: Session, a: nat, i: nat, j: nat) {
    && Backed(h, peers, c, session, a, i, j)
    && Undisturbed(h, c, j)
    && key == Some(session.key)
    && Age(now, session.issuedAt) <= 30_000
  }

  lemma GateOpens(w: World, c: ClientId, now: uint64)
    requires Inv(w.gateway.sessions) && Formed(w.gateway) && SessionsBacked(w)
    requires Query(w.gateway, c, now).1.status == AdaptorOk
    ensures exists session: Session, a: nat, i: nat, j: nat ::
              Justifies(w.history, w.gateway.peers, c, now, Query(w.gateway, c, now).1.key, session, a, i, j)
  {
    ValidateRefines(w.gateway.sessions, c, now);
    var session := View(w.gateway.sessions).live[c];
    assert LiveBacked(w.history, w.gateway.peers, c, session);
    var a: nat, i: nat, j: nat :|
      Backed(w.history, w.gateway.peers, c, session, a, i, j) && Undisturbed(w.history, c, j);
    assert Justifies(w.history, w.gateway.peers, c, now, Query(w.gateway, c, now).1.key, session, a, i, j);
  }

  // When the gate answers kOk with a key, the history holds an offer, a challenge and an accepted
  // response of that client, in this order and undisturbed; the key is the one derived from that
  // challenge's nonce, the response is at most one lifetime old, and nothing revoked it since.
  lemma GateProvenance(peers: seq<KnownPeer>, transmits: bool, listening: bool, evs: seq<Event>,
                       c: ClientId, now: uint64)
    requires Query(RunEvents(Start(peers, transmits, listening), evs).gateway, c, now).1.status == AdaptorOk
    ensures var w := RunEvents(Start(peers, transmits, listening), evs);
            exists session: Session, a: nat, i: nat, j: nat ::
              Justifies(w.history, peers, c, now, Query(w.gateway, c, now).1.key, session, a, i, j)
  {
    EveryRunTraced(peers, transmits, listening, evs);
    GateOpens(RunEvents(Start(peers, transmits, listening), evs), c, now);
  }

  // A new offer, challenge and successful response of `c`, in this order, after entry `k`.
  ghost predicate Readmitted(h: History, c: ClientId, k: nat) {
    exists a: nat, i: nat, j: nat ::
      && k < a < i < j < |h|
      && Offered(h[a], c)
      && Challenged(h[i], c)
      && Responded(h[j], c) && h[j].reply.status == AdaptorOk
  }

  // After a revocation the gate opens again only behind a new offer, challenge and response.
  lemma ReturnOrder(peers: seq<KnownPeer>, transmits: bool, listening: bool, evs: seq<Event>,
                    c: ClientId, now: uint64, k: nat)
    requires var w := RunEvents(Start(peers, transmits, listening), evs);
             && k < |w.history| && RevokedBy(w.history[k], c)
             && Query(w.gateway, c, now).1.status == AdaptorOk
    ensures Readmitted(RunEvents(Start(peers, transmits, listening), evs).history, c, k)
  {
    var w := RunEvents(Start(peers, transmits, listening), evs);
    GateProvenance(peers, transmits, listening, evs, c, now);
    var session: Session, a: nat, i: nat, j: nat :|
      Justifies(w.history, peers, c, now, Query(w.gateway, c, now).1.key, session, a, i, j);
    JustifiedAfter(w.history, peers, c, session, a, i, j, k);
  }

  lemma JustifiedAfter(h: History, peers: seq<KnownPeer>, c: ClientId, session: Session,
                       a: nat, i: nat, j: nat, k: nat)
    requires Backed(h, peers, c, session, a, i, j) && Undisturbed(h, c, j)
    requires k < |h| && RevokedBy(h[k], c)
    ensures Readmitted(h, c, k)
  {
  }

  // A challenge backs at most one token: two successful responses answer different challenges.
  lemma ChallengesAreSpentOnce(h: History, peers: seq<KnownPeer>, c: ClientId, s1: Session, s2: Session,
                               a1: nat, i1: nat, j1: nat, a2: nat, i2: nat, j2: nat)
    requires Backed(h, peers, c, s1, a1, i1, j1) && Backed(h, peers, c, s2, a2, i2, j2)
    requires j1 < j2
    ensures i1 < j1 < i2 < j2
  {
  }

  // Entry `j` issued a token of `c` for the challenge of entry `i`.
  ghost predicate Spends(h: History, peers: seq<KnownPeer>, c: ClientId, i: nat, j: nat) {
    exists session: Session, a: nat :: Backed(h, peers, c, session, a, i, j)
  }

  // Over any run every successful response spends a challenge, and no challenge is spent twice.
  lemma OneTokenPerDraw(peers: seq<KnownPeer>, transmits: bool, listening: bool, evs: seq<Event>,
                        c: ClientId, j: nat)
    requires var h := RunEvents(Start(peers, transmits, listening), evs).history;
             j < |h| && Responded(h[j], c) && h[j].reply.status == AdaptorOk
    ensures var h := RunEvents(Start(peers, transmits, listening), evs).history;
            exists i: nat :: Spends(h, peers, c, i, j)
                          && forall d: ClientId, j': nat :: Spends(h, peers, d, i, j') ==> d == c && j' == j
  {
    EveryRunTraced(peers, transmits, listening, evs);
    var h := RunEvents(Start(peers, transmits, listening), evs).history;
    assert IsBacked(h, peers, c, j);
    var session: Session, a: nat, i: nat :| Backed(h, peers, c, session, a, i, j);
    assert Spends(h, peers, c, i, j);
    forall d: ClientId, j': nat | Spends(h, peers, d, i, j')
      ensures d == c && j' == j
    {
      SpentBy(h, peers, c, session, a, i, j, d, j');
    }
  }

  lemma SpentBy(h: History, peers: seq<KnownPeer>, c: ClientId, session: Session, a: nat, i: nat, j: nat,
                d: ClientId, j': nat)
    requires Backed(h, peers, c, session, a, i, j) && Spends(h, peers, d, i, j')
    ensures d == c && j' == j
  {
  }
}
