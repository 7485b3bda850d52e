/** What the adaptor sends: over every run, each nonce drawn for a request it answered with kOk, and nothing else. */
module Transmissions {
  import opened Bytes
  import opened Handshake
  import opened Gateways
  import opened Provenance

  // The challenge that an entry of the history promises its client.
  ghost predicate Promises(e: Entry, challenge: Challenge) {
    Challenged(e, challenge.destination) && e.event.draw.1 == challenge.nonce
  }

  ghost predicate PromisesNone(e: Entry) {
    forall c: ClientId :: !Challenged(e, c)
  }

  // `sent` holds the challenges promised by the history, one each and in its order.
  ghost predicate IsSent(h: History, sent: seq<Challenge>) {
    if h == [] then sent == []
    else
      var n, last := |h| - 1, h[|h| - 1];
      if PromisesNone(last) then IsSent(h[..n], sent)
      else sent != [] && Promises(last, sent[|sent| - 1]) && IsSent(h[..n], sent[..|sent| - 1])
  }

  lemma StepSends(w: World, ev: Event)
    requires Formed(w.gateway) && w.gateway.transmits && IsSent(w.history, w.gateway.sent)
    ensures var w' := Advance(w, ev); w'.gateway.transmits && IsSent(w'.history, w'.gateway.sent)
  {
    var w', e := Advance(w, ev), Entry(ev, Handle(w.gateway, ev).1);
    assert w'.history[..|w.history|] == w.history;
    if c: ClientId :| Challenged(e, c) {
      RequestSends(w.gateway, ev, c);
    } else {
      SilenceSends(w.gateway, ev);
    }
  }

  // A request answered with kOk sends its client the nonce drawn for it.
  lemma RequestSends(g: Gateway, ev: Event, c: ClientId)
    requires Formed(g) && g.transmits && Challenged(Entry(ev, Handle(g, ev).1), c)
    ensures Handle(g, ev).0.transmits && Handle(g, ev).0.sent == g.sent + [Challenge(c, ev.draw.1)]
  {
  }

  // Every other call sends nothing.
  lemma SilenceSends(g: Gateway, ev: Event)
    requires Formed(g) && PromisesNone(Entry(ev, Handle(g, ev).1))
    ensures Handle(g, ev).0.transmits == g.transmits && Handle(g, ev).0.sent == g.sent
  {
    if ev.RequestFrame? && ParseRequest(ev.requestPayload).Some? {
      assert !Challenged(Entry(ev, Handle(g, ev).1), ParseRequest(ev.requestPayload).value.clientId);
    }
  }

  lemma {:induction false} RunSends(w: World, evs: seq<Event>)
    requires Formed(w.gateway) && w.gateway.transmits && IsSent(w.history, w.gateway.sent)
    ensures var w' := RunEvents(w, evs); IsSent(w'.history, w'.gateway.sent)
    decreases |evs|
  {
    if evs != [] {
      StepSends(w, evs[0]);
      RunSends(Advance(w, evs[0]), evs[1..]);
    }
  }

  lemma {:induction false} MuteRun(w: World, evs: seq<Event>)
    requires Formed(w.gateway) && !w.gateway.transmits
    ensures RunEvents(w, evs).gateway.sent == w.gateway.sent
    decreases |evs|
  {
    if evs != [] {
      MuteStep(w.gateway, evs[0]);
      MuteRun(Advance(w, evs[0]), evs[1..]);
    }
  }

  lemma MuteStep(g: Gateway, ev: Event)
    requires Formed(g) && !g.transmits
    ensures !Handle(g, ev).0.transmits && Handle(g, ev).0.sent == g.sent
  {
  }

  // Over every run from the start: with a transmit callback what was sent is, in order, exactly the
  // client and the drawn nonce of every request answered with kOk; without one nothing was sent.
  lemma EveryChallengeIsSent(peers: seq<KnownPeer>, transmits: bool, listening: bool, evs: seq<Event>)
    ensures var w := RunEvents(Start(peers, transmits, listening), evs);
            if transmits then IsSent(w.history, w.gateway.sent) else w.gateway.sent == []
  {
    if transmits {
      RunSends(Start(peers, transmits, listening), evs);
    } else {
      MuteRun(Start(peers, transmits, listening), evs);
    }
  }
}
