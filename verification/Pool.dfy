/**
 Who gets an engine. The pool keeps every client that was ever offered with success, so it fills up
 with the first eight, and shuts out every other client for good.
 */
module Pool {
  import opened Bytes
  import opened CircularBuffers
  import opened SessionTable
  import opened Handshake
  import opened Gateways
  import opened GatewayInvariants
  import opened Provenance
  import Bans
  import opened EvictionRuns

  // --- The answers to an offer --------------------------------------------------------------

  predicate Full(g: Gateway) {
    FindVacant(g.records) == MAX_ZONE_SLOTS
  }

  lemma LockedIsPooled(g: Gateway, c: ClientId)
    requires GatewayInv(g) && c != ZERO_ID && IsLockedOut(g.sessions, c)
    ensures Pooled(g, c)
  {
    assert g.sessions.table[FirstMatch(g.sessions.table, c)].clientId == c;
  }

  // Exactly when an offer gets each of its answers. The peer table has no part in it, and nobody
  // loses a place to make room.
  lemma OfferAnswers(g: Gateway, c: ClientId)
    requires GatewayInv(g)
    ensures var (g', status) := Offer(g, c);
            && (status == AdaptorInvalidParam <==> c == ZERO_ID)
            && (status == AdaptorLockedOut <==> c != ZERO_ID && IsLockedOut(g.sessions, c))
            && (status == SlotExhausted <==> c != ZERO_ID && !Pooled(g, c) && Full(g))
            && (status == AdaptorOk <==> c != ZERO_ID && !IsLockedOut(g.sessions, c) && (Pooled(g, c) || !Full(g)))
            && (status != AdaptorOk ==> g' == g)
    ensures forall peers :: Offer(g.(peers := peers), c).1 == Offer(g, c).1
  {
    if c != ZERO_ID && IsLockedOut(g.sessions, c) {
      LockedIsPooled(g, c);
    }
  }

  // --- Who is in the pool -------------------------------------------------------------------

  ghost predicate EverOffered(h: History, c: ClientId) {
    exists k: nat :: k < |h| && Offered(h[k], c)
  }

  ghost predicate PoolIsOffered(w: World) {
    forall c: ClientId :: Pooled(w.gateway, c) <==> EverOffered(w.history, c)
  }

  lemma OfferedExtends(h: History, x: Entry, c: ClientId)
    ensures EverOffered(h + [x], c) <==> EverOffered(h, c) || Offered(x, c)
  {
    if k: nat :| k < |h| && Offered(h[k], c) {
      assert (h + [x])[k] == h[k];
    }
    assert (h + [x])[|h|] == x;
    if EverOffered(h + [x], c) {
      var k: nat :| k < |h + [x]| && Offered((h + [x])[k], c);
      assert k < |h| ==> (h + [x])[k] == h[k];
    }
  }

  lemma StepPool(w: World, ev: Event, c: ClientId)
    requires Formed(w.gateway) && (Pooled(w.gateway, c) <==> EverOffered(w.history, c))
    ensures var w' := Advance(w, ev); Pooled(w'.gateway, c) <==> EverOffered(w'.history, c)
  {
    var g := w.gateway;
    var x := Entry(ev, Handle(g, ev).1);
    OfferedExtends(w.history, x, c);
    if Pooled(g, c) {
      PoolGrows(g, ev, c);
    } else if Pooled(Handle(g, ev).0, c) {
      PoolBefore(g, ev, c);
    } else if Offered(x, c) {
      NewcomerEngine(g, c);
    }
  }

  lemma {:induction false} RunPool(w: World, evs: seq<Event>)
    requires Formed(w.gateway) && PoolIsOffered(w)
    ensures PoolIsOffered(RunEvents(w, evs))
    decreases |evs|
  {
    if evs != [] {
      forall c: ClientId
        ensures Pooled(Advance(w, evs[0]).gateway, c) <==> EverOffered(Advance(w, evs[0]).history, c)
      {
        StepPool(w, evs[0], c);
      }
      RunPool(Advance(w, evs[0]), evs[1..]);
    }
  }

  // Over every run a client has an engine exactly when some offer of it succeeded.
  lemma PooledIffOffered(peers: seq<KnownPeer>, transmits: bool, listening: bool, evs: seq<Event>, c: ClientId)
    ensures var w := RunEvents(Start(peers, transmits, listening), evs);
            Pooled(w.gateway, c) <==> EverOffered(w.history, c)
  {
    RunPool(Start(peers, transmits, listening), evs);
  }

  // --- A full pool --------------------------------------------------------------------------

  lemma FullStep(g: Gateway, ev: Event)
    requires Formed(g) && Full(g)
    ensures Handle(g, ev).0.records == g.records
  {
  }

  // Once the pool is full, every client outside stays outside: each later offer is answered
  // kSlotExhausted, and each later request or response of the client kUnknownPeer.
  lemma {:induction false} ShutOut(w: World, evs: seq<Event>, c: ClientId)
    requires GatewayInv(w.gateway) && Full(w.gateway) && !Pooled(w.gateway, c) && c != ZERO_ID
    ensures var g := RunEvents(w, evs).gateway;
            && GatewayInv(g) && Full(g) && !Pooled(g, c)
            && Offer(g, c) == (g, SlotExhausted)
            && (forall request: AuthRequest, draw ::
                  request.clientId == c ==> HandleRequest(g, request, draw) == (g, UnknownPeer))
            && (forall response: AuthResponse, platform, now ::
                  response.clientId == c ==> HandleResponse(g, response, platform, now) == (g, UnknownPeer))
    decreases |evs|
  {
    if evs == [] {
      OfferAnswers(w.gateway, c);
    } else {
      FullStep(w.gateway, evs[0]);
      StepKeepsGateway(w.gateway, evs[0]);
      ShutOut(Advance(w, evs[0]), evs[1..], c);
    }
  }

  // --- Eight offers -------------------------------------------------------------------------

  function OfferEach(cs: seq<ClientId>): seq<Event> {
    if cs == [] then [] else OfferEach(cs[..|cs| - 1]) + [PeerOffered(cs[|cs| - 1])]
  }

  lemma {:induction false} OffersServe(peers: seq<KnownPeer>, transmits: bool, listening: bool, cs: seq<ClientId>)
    requires Distinct(cs) && ZERO_ID !in cs && |cs| <= MAX_ZONE_SLOTS
    ensures var g := RunEvents(Start(peers, transmits, listening), OfferEach(cs)).gateway;
            GatewayInv(g) && Serves(g, cs) && g.sessions == Initial(listening)
    decreases |cs|
  {
    StartKeeps(peers, transmits, listening);
    if cs != [] {
      var n := |cs| - 1;
      Bans.Prefix(cs);
      OffersServe(peers, transmits, listening, cs[..n]);
      RunConcatCalls(Start(peers, transmits, listening), OfferEach(cs[..n]), [PeerOffered(cs[n])]);
      OfferOne(RunEvents(Start(peers, transmits, listening), OfferEach(cs[..n])), cs[..n], cs[n], listening);
    }
  }

  lemma OfferOne(w: World, cs: seq<ClientId>, c: ClientId, listening: bool)
    requires GatewayInv(w.gateway) && Serves(w.gateway, cs) && |cs| < MAX_ZONE_SLOTS
    requires w.gateway.sessions == Initial(listening) && c !in cs && c != ZERO_ID
    ensures var g := RunEvents(w, [PeerOffered(c)]).gateway;
            GatewayInv(g) && Serves(g, cs + [c]) && g.sessions == Initial(listening)
  {
    RunConsCalls(w, PeerOffered(c), []);
    assert [PeerOffered(c)] + [] == [PeerOffered(c)];
    OfferServes(w.gateway, cs, c);
    StepKeepsGateway(w.gateway, PeerOffered(c));
  }

  lemma ServesEight(g: Gateway, cs: seq<ClientId>, c: ClientId)
    requires Serves(g, cs) && |cs| == MAX_ZONE_SLOTS && c !in cs
    ensures Full(g) && !Pooled(g, c)
  {
    assert forall k :: 0 <= k < MAX_ZONE_SLOTS ==> g.records[k] != ZoneSlotRecord(c, true);
    assert forall k :: 0 <= k < MAX_ZONE_SLOTS ==> g.records[k].isOccupied;
  }

  // Eight offers of any distinct non-zero ids, in the peer table or not, shut out every other client
  // after every later run.
  lemma EightOffersShutOut(peers: seq<KnownPeer>, transmits: bool, listening: bool, cs: seq<ClientId>,
                           evs: seq<Event>, c: ClientId)
    requires Distinct(cs) && ZERO_ID !in cs && |cs| == 8
    requires c !in cs && c != ZERO_ID
    ensures var g := RunEvents(Start(peers, transmits, listening), OfferEach(cs) + evs).gateway;
            !Pooled(g, c) && Offer(g, c) == (g, SlotExhausted)
  {
    var w := RunEvents(Start(peers, transmits, listening), OfferEach(cs));
    OffersServe(peers, transmits, listening, cs);
    ServesEight(w.gateway, cs, c);
    ShutOut(w, evs, c);
    RunConcatCalls(Start(peers, transmits, listening), OfferEach(cs), evs);
  }
}
