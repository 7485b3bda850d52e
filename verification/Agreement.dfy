/**
 What keeps the session of a client, what keeps its engine authenticated, and where the two come apart:
 the adaptor tells neither about what happens in the other.
 */
module Agreement {
  import opened Bytes
  import opened SessionTable
  import opened SessionInvariants
  import opened SessionRegistry
  import SessionRuns
  import opened Handshake
  import opened Gateways
  import opened GatewayInvariants
  import opened Provenance
  import Eviction
  import EvictionRuns

  // Entry `j` admitted `c`.
  ghost predicate Granted(h: History, c: ClientId, j: nat) {
    j < |h| && Responded(h[j], c) && h[j].reply.status == AdaptorOk
  }

  // --- One call -----------------------------------------------------------------------------

  // A response succeeds exactly when it leaves the engine that awaited it authenticated.
  lemma OkAuthenticates(g: Gateway, ev: Event, c: ClientId)
    requires Formed(g) && Pooled(g, c) && Responded(Entry(ev, Handle(g, ev).1), c)
    ensures Pooled(Handle(g, ev).0, c)
    ensures Handle(g, ev).1.status == AdaptorOk <==>
              EngineOf(g, c).phase == ChallengeSent && EngineOf(Handle(g, ev).0, c).phase == Authenticated
  {
    PoolGrows(g, ev, c);
    OkAnswers(g, ParseResponse(ev.responsePayload).value, ev.platform, ev.at);
  }

  lemma OkAnswers(g: Gateway, response: AuthResponse, platform: Platform, now: uint64)
    requires Formed(g) && Pooled(g, response.clientId)
    ensures var (g', status) := HandleResponse(g, response, platform, now);
            var slot := FindSlot(g.records, response.clientId);
            status == AdaptorOk <==> g.engines[slot].phase == ChallengeSent && g'.engines[slot].phase == Authenticated
  {
  }

  // A new session comes with an authenticated engine.
  lemma Admits(g: Gateway, ev: Event, c: ClientId)
    requires Formed(g) && Inv(g.sessions)
    requires Responded(Entry(ev, Handle(g, ev).1), c) && Handle(g, ev).1.status == AdaptorOk
    ensures var g' := Handle(g, ev).0;
            c in View(g'.sessions).live && Pooled(g', c) && EngineOf(g', c).phase == Authenticated
  {
    SuccessRegisters(g, ev, c);
    IssuedIfOk(g, ev, c);
    OkAuthenticates(g, ev, c);
    SessionsFollow(g, ev);
    SessionRuns.SessionAfter(g.sessions, SessionOp(g, ev).value, c);
  }

  // A session still there after a call that did not just begin it was there before, the same.
  lemma SessionKept(g: Gateway, ev: Event, c: ClientId)
    requires GatewayInv(g) && c in View(Handle(g, ev).0.sessions).live
    ensures var x := Entry(ev, Handle(g, ev).1);
            || (Responded(x, c) && x.reply.status == AdaptorOk)
            || (!Responded(x, c) && !RevokedBy(x, c) && c in View(g.sessions).live
                && View(g.sessions).live[c].issuedAt == View(Handle(g, ev).0.sessions).live[c].issuedAt)
  {
    SessionsFollow(g, ev);
    EndsIffNamed(g, ev, c);
    var op := SessionOp(g, ev);
    if op.Some? {
      SessionRuns.SessionAfter(g.sessions, op.value, c);
      if SessionRuns.Ends(op.value, c) {
        IssuedIfOk(g, ev, c);
      }
    }
  }

  // What makes `c` lose its session when a call is not about it: expiry or an eviction.
  lemma LostBecause(s: State, op: Op, c: ClientId)
    requires Inv(s) && !SessionRuns.Ends(op, c)
    requires c in View(s).live && c !in View(SessionTable.Step(s, op).0).live
    ensures || (op.SweepOp? && View(s).Stale(c, op.now))
            || (op.ValidateOp? && op.client == c && View(s).Stale(c, op.now))
            || (op.RegisterOp? && SessionTable.Step(s, op).1 == Ok)
  {
    match op
    case RegisterOp(token, now) =>
      if Register(s, token, now).1 != Ok {
        RefusalKeeps(s, token, now, c);
      }
    case ValidateOp(d, now) => ValidationLoses(s, d, now, c);
    case RevokeOp(d, isAnomaly) => RevokeRefines(s, d, isAnomaly);
    case SweepOp(now) => SweepRefines(s, now);
  }

  lemma RefusalKeeps(s: State, token: SessionToken, now: uint64, c: ClientId)
    requires Inv(s) && token.clientId != c && c in View(s).live && Register(s, token, now).1 != Ok
    ensures c in View(Register(s, token, now).0).live
  {
    RegisterRefines(s, token, now);
    RegistryRefusalKeeps(View(s), token, now, c);
  }

  lemma RegistryRefusalKeeps(r: Registry, token: SessionToken, now: uint64, c: ClientId)
    requires token.clientId != c && c in r.live && r.Register(token, now).1 != Ok
    ensures c in r.Register(token, now).0.live
  {
  }

  lemma ValidationLoses(s: State, d: ClientId, now: uint64, c: ClientId)
    requires Inv(s) && c in View(s).live && c !in View(Validate(s, d, now).0).live
    ensures d == c && View(s).Stale(c, now)
  {
    ValidateRefines(s, d, now);
    RegistryValidationLoses(View(s), d, now, c);
  }

  lemma RegistryValidationLoses(r: Registry, d: ClientId, now: uint64, c: ClientId)
    requires c in r.live && c !in r.Validate(d, now).0.live
    ensures d == c && r.Stale(c, now)
  {
  }

  // Another client is admitted while `c` is in its way.
  ghost predicate EvictedBy(g: Gateway, x: Entry, c: ClientId)
    requires Formed(g)
  {
    exists d: ClientId ::
      d != c && Responded(x, d) && x.reply.status == AdaptorOk && Eviction.InTheWay(View(g.sessions), d, c)
  }

  // What ends the session of `c`: a revocation, a failed response, a tick or a query that finds it
  // stale, or an eviction.
  ghost predicate Loses(g: Gateway, ev: Event, c: ClientId)
    requires Formed(g)
  {
    var x := Entry(ev, Handle(g, ev).1);
    || RevokedBy(x, c)
    || (Responded(x, c) && x.reply.status != AdaptorOk)
    || (ev.SessionTick? && View(g.sessions).Stale(c, ev.now))
    || (ev.SessionQuery? && ev.queried == c && View(g.sessions).Stale(c, ev.asked))
    || EvictedBy(g, x, c)
  }

  // A call about the client itself, other than its admission, ends its session.
  lemma OwnCallEnds(g: Gateway, ev: Event, c: ClientId)
    requires GatewayInv(g)
    requires var x := Entry(ev, Handle(g, ev).1);
             RevokedBy(x, c) || (Responded(x, c) && x.reply.status != AdaptorOk)
    ensures c !in View(Handle(g, ev).0.sessions).live
  {
    SessionsFollow(g, ev);
    EndsIffNamed(g, ev, c);
    SessionRuns.SessionAfter(g.sessions, SessionOp(g, ev).value, c);
    if SessionOp(g, ev).value.RegisterOp? {
      IssuedIfOk(g, ev, c);
    }
  }

  lemma OtherResponse(g: Gateway, ev: Event, d: ClientId, c: ClientId)
    requires GatewayInv(g) && c in View(g.sessions).live && d != c
    requires Responded(Entry(ev, Handle(g, ev).1), d) && Handle(g, ev).1.status == AdaptorOk
    ensures c !in View(Handle(g, ev).0.sessions).live <==> Eviction.InTheWay(View(g.sessions), d, c)
  {
    var response := ParseResponse(ev.responsePayload).value;
    ResponseHandled(g, ev, response);
    Eviction.ResponseEvictsIff(g, response, ev.platform, ev.at, c);
  }

  lemma ResponseHandled(g: Gateway, ev: Event, response: AuthResponse)
    requires Formed(g) && ev.ResponseFrame? && ParseResponse(ev.responsePayload) == Some(response)
    ensures var (g', status) := HandleResponse(g, response, ev.platform, ev.at); Handle(g, ev) == (g', Plain(status))
  {
  }

  lemma StaleEnds(g: Gateway, ev: Event, c: ClientId)
    requires GatewayInv(g) && c in View(g.sessions).live
    requires || (ev.SessionTick? && View(g.sessions).Stale(c, ev.now))
             || (ev.SessionQuery? && ev.queried == c && View(g.sessions).Stale(c, ev.asked))
    ensures c !in View(Handle(g, ev).0.sessions).live
  {
    SessionsFollow(g, ev);
    if ev.SessionTick? {
      SweepRefines(g.sessions, ev.now);
    } else {
      ViewRepresents(g.sessions);
      if c in View(g.sessions).barred {
        BarredHasNoSession(g.sessions, View(g.sessions), c);
      }
      ValidateRefines(g.sessions, c, ev.asked);
    }
  }

  lemma LossIsListed(g: Gateway, ev: Event, c: ClientId)
    requires GatewayInv(g)
    requires c in View(g.sessions).live && c !in View(Handle(g, ev).0.sessions).live
    ensures Loses(g, ev, c)
  {
    var x := Entry(ev, Handle(g, ev).1);
    if Responded(x, c) && x.reply.status == AdaptorOk {
      Admits(g, ev, c);
    } else if !Responded(x, c) && !RevokedBy(x, c) {
      OthersLossIsListed(g, ev, c);
    }
  }

  lemma OthersLossIsListed(g: Gateway, ev: Event, c: ClientId)
    requires GatewayInv(g) && !Responded(Entry(ev, Handle(g, ev).1), c) && !RevokedBy(Entry(ev, Handle(g, ev).1), c)
    requires c in View(g.sessions).live && c !in View(Handle(g, ev).0.sessions).live
    ensures Loses(g, ev, c)
  {
    SessionsFollow(g, ev);
    EndsIffNamed(g, ev, c);
    var op := SessionOp(g, ev).value;
    LostBecause(g.sessions, op, c);
    if op.RegisterOp? {
      IssuedIfOk(g, ev, op.token.clientId);
      OtherResponse(g, ev, op.token.clientId, c);
    }
  }

  // A live session is gone after a call exactly when the call is one of these.
  lemma LosesIff(g: Gateway, ev: Event, c: ClientId)
    requires GatewayInv(g) && c in View(g.sessions).live
    ensures c !in View(Handle(g, ev).0.sessions).live <==> Loses(g, ev, c)
  {
    var x := Entry(ev, Handle(g, ev).1);
    if c !in View(Handle(g, ev).0.sessions).live {
      LossIsListed(g, ev, c);
    } else if Loses(g, ev, c) {
      if RevokedBy(x, c) || (Responded(x, c) && x.reply.status != AdaptorOk) {
        OwnCallEnds(g, ev, c);
      } else if EvictedBy(g, x, c) {
        var d: ClientId :| d != c && Responded(x, d) && x.reply.status == AdaptorOk
                           && Eviction.InTheWay(View(g.sessions), d, c);
        OtherResponse(g, ev, d, c);
      } else {
        StaleEnds(g, ev, c);
      }
    }
  }

  predicate IsAuthenticated(g: Gateway, c: ClientId)
    requires Formed(g)
  {
    Pooled(g, c) && EngineOf(g, c).phase == Authenticated
  }

  // An authenticated engine stays so exactly until its client is offered again or revoked.
  lemma StaysAuthenticatedIff(g: Gateway, ev: Event, c: ClientId)
    requires Formed(g) && IsAuthenticated(g, c)
    ensures var x := Entry(ev, Handle(g, ev).1);
            IsAuthenticated(Handle(g, ev).0, c) <==> !Offered(x, c) && !RevokedBy(x, c)
  {
    NamedEngine(g, ev, c);
    if Silent(Entry(ev, Handle(g, ev).1), c) {
      OtherEngine(g, ev, c);
    }
  }

  // An engine becomes authenticated only by an admission.
  lemma StillAuthenticated(g: Gateway, ev: Event, c: ClientId)
    requires Formed(g) && Pooled(Handle(g, ev).0, c) && EngineOf(Handle(g, ev).0, c).phase == Authenticated
    requires var x := Entry(ev, Handle(g, ev).1); !(Responded(x, c) && x.reply.status == AdaptorOk)
    ensures Pooled(g, c) && EngineOf(g, c).phase == Authenticated
    ensures var x := Entry(ev, Handle(g, ev).1); !Offered(x, c) && !Challenged(x, c) && !RevokedBy(x, c)
  {
    var x := Entry(ev, Handle(g, ev).1);
    PoolBefore(g, ev, c);
    if Pooled(g, c) {
      NamedEngine(g, ev, c);
      if Responded(x, c) {
        OkAuthenticates(g, ev, c);
      } else if Silent(x, c) {
        OtherEngine(g, ev, c);
      }
    } else {
      NewcomerEngine(g, c);
    }
  }

  // --- Runs ---------------------------------------------------------------------------------

  // The state before event `k` of a run.
  function StateAt(s: World, evs: seq<Event>, k: nat): (g: Gateway)
    requires Formed(s.gateway) && k <= |evs|
    ensures Formed(g)
  {
    RunEvents(s, evs[..k]).gateway
  }

  // Nothing ended the session of `c` after event `j`.
  ghost predicate KeptSince(s: World, evs: seq<Event>, c: ClientId, j: nat)
    requires Formed(s.gateway)
  {
    forall k :: j < k < |evs| ==> !Loses(StateAt(s, evs, k), evs[k], c)
  }

  // Nothing reset the engine of `c` after entry `j`.
  ghost predicate NotReset(h: History, c: ClientId, j: nat) {
    forall k :: j < k < |h| ==> !Offered(h[k], c) && !RevokedBy(h[k], c)
  }

  ghost predicate LiveLaw(s: World, evs: seq<Event>, c: ClientId)
    requires Formed(s.gateway)
  {
    var w := RunEvents(s, evs);
    c in View(w.gateway.sessions).live <==> exists j: nat :: Granted(w.history, c, j) && KeptSince(s, evs, c, j)
  }

  ghost predicate EngineLaw(s: World, evs: seq<Event>, c: ClientId)
    requires Formed(s.gateway)
  {
    var w := RunEvents(s, evs);
    IsAuthenticated(w.gateway, c) <==> exists j: nat :: Granted(w.history, c, j) && NotReset(w.history, c, j)
  }

  lemma RunSnoc(s: World, pre: seq<Event>, ev: Event)
    requires Formed(s.gateway)
    ensures RunEvents(s, pre + [ev]) == Advance(RunEvents(s, pre), ev)
  {
    EvictionRuns.RunConcatCalls(s, pre, [ev]);
    EvictionRuns.RunConsCalls(RunEvents(s, pre), ev, []);
    assert [ev] + [] == [ev];
  }

  lemma GrantedSnoc(h: History, x: Entry, c: ClientId, j: nat)
    ensures Granted(h + [x], c, j) <==>
              Granted(h, c, j) || (j == |h| && Responded(x, c) && x.reply.status == AdaptorOk)
  {
  }

  lemma KeptSnoc(s: World, pre: seq<Event>, ev: Event, c: ClientId, j: nat)
    requires Formed(s.gateway) && j < |pre|
    ensures KeptSince(s, pre + [ev], c, j) <==>
              KeptSince(s, pre, c, j) && !Loses(RunEvents(s, pre).gateway, ev, c)
  {
    var evs := pre + [ev];
    forall k | j < k < |pre|
      ensures StateAt(s, evs, k) == StateAt(s, pre, k) && evs[k] == pre[k]
    {
      assert evs[..k] == pre[..k];
    }
    assert evs[..|pre|] == pre && evs[|pre|] == ev;
    if KeptSince(s, evs, c, j) {
      assert !Loses(StateAt(s, evs, |pre|), evs[|pre|], c);
      forall k | j < k < |pre|
        ensures !Loses(StateAt(s, pre, k), pre[k], c)
      {
        assert !Loses(StateAt(s, evs, k), evs[k], c);
      }
    }
  }

  lemma LiveSnoc(s: World, pre: seq<Event>, ev: Event, c: ClientId)
    requires Formed(s.gateway) && LiveLaw(s, pre, c) && GatewayInv(RunEvents(s, pre).gateway)
    requires |RunEvents(s, pre).history| == |pre|
    ensures LiveLaw(s, pre + [ev], c)
  {
    var w, evs := RunEvents(s, pre), pre + [ev];
    var x := Entry(ev, Handle(w.gateway, ev).1);
    RunSnoc(s, pre, ev);
    if Responded(x, c) && x.reply.status == AdaptorOk {
      Admits(w.gateway, ev, c);
      GrantedSnoc(w.history, x, c, |pre|);
      assert KeptSince(s, evs, c, |pre|);
    } else if c in View(Advance(w, ev).gateway.sessions).live {
      SessionKept(w.gateway, ev, c);
      LosesIff(w.gateway, ev, c);
      var j: nat :| Granted(w.history, c, j) && KeptSince(s, pre, c, j);
      GrantedSnoc(w.history, x, c, j);
      KeptSnoc(s, pre, ev, c, j);
    } else {
      NotKept(s, pre, ev, c);
    }
  }

  lemma NotKept(s: World, pre: seq<Event>, ev: Event, c: ClientId)
    requires Formed(s.gateway) && LiveLaw(s, pre, c) && GatewayInv(RunEvents(s, pre).gateway)
    requires |RunEvents(s, pre).history| == |pre|
    requires var w := RunEvents(s, pre);
             var x := Entry(ev, Handle(w.gateway, ev).1);
             && !(Responded(x, c) && x.reply.status == AdaptorOk)
             && c !in View(Advance(w, ev).gateway.sessions).live
    ensures !exists j: nat :: Granted(RunEvents(s, pre + [ev]).history, c, j) && KeptSince(s, pre + [ev], c, j)
  {
    var w, evs := RunEvents(s, pre), pre + [ev];
    var x := Entry(ev, Handle(w.gateway, ev).1);
    RunSnoc(s, pre, ev);
    forall j: nat | Granted(RunEvents(s, evs).history, c, j)
      ensures !KeptSince(s, evs, c, j)
    {
      GrantedSnoc(w.history, x, c, j);
      KeptSnoc(s, pre, ev, c, j);
      if KeptSince(s, pre, c, j) {
        LosesIff(w.gateway, ev, c);
      }
    }
  }

  lemma EngineSnoc(s: World, pre: seq<Event>, ev: Event, c: ClientId)
    requires Formed(s.gateway) && EngineLaw(s, pre, c) && GatewayInv(RunEvents(s, pre).gateway)
    ensures EngineLaw(s, pre + [ev], c)
  {
    var w := RunEvents(s, pre);
    var h, x := w.history, Entry(ev, Handle(w.gateway, ev).1);
    RunSnoc(s, pre, ev);
    if Responded(x, c) && x.reply.status == AdaptorOk {
      Admits(w.gateway, ev, c);
      GrantedSnoc(h, x, c, |h|);
      assert NotReset(h + [x], c, |h|);
    } else if IsAuthenticated(Advance(w, ev).gateway, c) {
      StillAuthenticated(w.gateway, ev, c);
      var j: nat :| Granted(h, c, j) && NotReset(h, c, j);
      GrantedSnoc(h, x, c, j);
      assert NotReset(h + [x], c, j);
    } else {
      forall j: nat | Granted(h + [x], c, j)
        ensures !NotReset(h + [x], c, j)
      {
        GrantedSnoc(h, x, c, j);
        if NotReset(h + [x], c, j) {
          NotResetBefore(h, x, c, j);
          StaysAuthenticatedIff(w.gateway, ev, c);
        }
      }
    }
  }

  lemma NotResetBefore(h: History, x: Entry, c: ClientId, j: nat)
    requires j < |h| && NotReset(h + [x], c, j)
    ensures NotReset(h, c, j) && !Offered(x, c) && !RevokedBy(x, c)
  {
    assert (h + [x])[|h|] == x;
    forall k | j < k < |h|
      ensures !Offered(h[k], c) && !RevokedBy(h[k], c)
    {
      assert (h + [x])[k] == h[k];
    }
  }

  lemma {:induction false} RunLaws(s: World, evs: seq<Event>, c: ClientId)
    requires GatewayInv(s.gateway) && s.history == []
    requires c !in View(s.gateway.sessions).live && !IsAuthenticated(s.gateway, c)
    ensures LiveLaw(s, evs, c) && EngineLaw(s, evs, c)
    ensures GatewayInv(RunEvents(s, evs).gateway) && |RunEvents(s, evs).history| == |evs|
    decreases |evs|
  {
    if evs != [] {
      var pre, ev := evs[..|evs| - 1], evs[|evs| - 1];
      assert pre + [ev] == evs;
      RunLaws(s, pre, c);
      RunSnoc(s, pre, ev);
      StepKeepsGateway(RunEvents(s, pre).gateway, ev);
      LiveSnoc(s, pre, ev, c);
      EngineSnoc(s, pre, ev, c);
    }
  }

  lemma LawsFromStart(peers: seq<KnownPeer>, transmits: bool, listening: bool, evs: seq<Event>, c: ClientId)
    ensures var s := Start(peers, transmits, listening);
            LiveLaw(s, evs, c) && EngineLaw(s, evs, c) && |RunEvents(s, evs).history| == |evs|
  {
    StartKeeps(peers, transmits, listening);
    InitialRefines(listening);
    RunLaws(Start(peers, transmits, listening), evs, c);
  }

  // Entry `j` is the last admission of `c`.
  ghost predicate LastGrant(h: History, c: ClientId, j: nat) {
    Granted(h, c, j) && forall k: nat :: j < k ==> !Granted(h, c, k)
  }

  // Over every run. A client that was never admitted has no session and no authenticated engine. One
  // that was has the session of its last admission exactly as long as nothing on the list ended it, and
  // an authenticated engine exactly as long as it was neither offered again nor revoked.
  lemma EveryRunAgrees(peers: seq<KnownPeer>, transmits: bool, listening: bool, evs: seq<Event>, c: ClientId)
    ensures var s := Start(peers, transmits, listening);
            var w := RunEvents(s, evs);
            && ((forall j: nat :: !Granted(w.history, c, j)) ==>
                  c !in View(w.gateway.sessions).live && !IsAuthenticated(w.gateway, c))
            && (forall j: nat :: LastGrant(w.history, c, j) ==>
                  && (c in View(w.gateway.sessions).live <==> KeptSince(s, evs, c, j))
                  && (IsAuthenticated(w.gateway, c) <==> NotReset(w.history, c, j)))
  {
    var s := Start(peers, transmits, listening);
    var w := RunEvents(s, evs);
    LawsFromStart(peers, transmits, listening, evs, c);
    forall j: nat | LastGrant(w.history, c, j)
      ensures c in View(w.gateway.sessions).live <==> KeptSince(s, evs, c, j)
      ensures IsAuthenticated(w.gateway, c) <==> NotReset(w.history, c, j)
    {
      LastDecides(s, evs, c, j);
    }
  }

  lemma LastDecides(s: World, evs: seq<Event>, c: ClientId, j: nat)
    requires Formed(s.gateway) && LiveLaw(s, evs, c) && EngineLaw(s, evs, c)
    requires LastGrant(RunEvents(s, evs).history, c, j)
    ensures var w := RunEvents(s, evs);
            && (c in View(w.gateway.sessions).live <==> KeptSince(s, evs, c, j))
            && (IsAuthenticated(w.gateway, c) <==> NotReset(w.history, c, j))
  {
    var w := RunEvents(s, evs);
    if c in View(w.gateway.sessions).live {
      var i: nat :| Granted(w.history, c, i) && KeptSince(s, evs, c, i);
      assert i <= j;
    }
    if IsAuthenticated(w.gateway, c) {
      var i: nat :| Granted(w.history, c, i) && NotReset(w.history, c, i);
      assert i <= j;
    }
  }

  // --- Coming apart -------------------------------------------------------------------------

  // The session is there and the engine is authenticated.
  ghost predicate InStep(g: Gateway, c: ClientId) {
    && GatewayInv(g) && Pooled(g, c)
    && c in View(g.sessions).live && EngineOf(g, c).phase == Authenticated
  }

  // Offering an admitted client again resets its engine and leaves its session.
  lemma ReofferComesApart(g: Gateway, c: ClientId)
    requires InStep(g, c) && c != ZERO_ID && !IsLockedOut(g.sessions, c)
    ensures var g' := Handle(g, PeerOffered(c)).0;
            && Pooled(g', c) && EngineOf(g', c).phase == Unauthenticated
            && View(g'.sessions) == View(g.sessions)
  {
    NamedEngine(g, PeerOffered(c), c);
  }

  // A tick that finds the session stale ends it and leaves the engine authenticated.
  lemma ExpiryComesApart(g: Gateway, c: ClientId, now: uint64)
    requires InStep(g, c) && View(g.sessions).Stale(c, now)
    ensures var g' := Handle(g, SessionTick(now)).0;
            && Pooled(g', c) && EngineOf(g', c).phase == Authenticated
            && c !in View(g'.sessions).live
  {
    SweepRefines(g.sessions, now);
  }

  // So does a further response of the client.
  lemma ResponseComesApart(g: Gateway, ev: Event, c: ClientId)
    requires InStep(g, c) && ev.ResponseFrame? && ParseResponse(ev.responsePayload).Some?
    requires ParseResponse(ev.responsePayload).value.clientId == c
    ensures var g' := Handle(g, ev).0;
            && Pooled(g', c) && EngineOf(g', c).phase == Authenticated
            && c !in View(g'.sessions).live
  {
    RevokeRefines(g.sessions, c, true);
  }
}
