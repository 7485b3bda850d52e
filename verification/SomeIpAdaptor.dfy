/** The adaptor as the source keeps it: eight engine objects, their records and one session table. */
module SomeIp {
  import opened Bytes
  import opened SessionTable
  import opened TokenLifecycle
  import opened Handshake
  import opened SpdmProtocol
  import opened Gateways
  import opened GatewayInvariants

  class SomeIpAdaptor {
    // The engines are embedded objects: the array never changes, the engines do.
    const engines: seq<SpdmProtocolEngine>
    const records: array<ZoneSlotRecord>
    const tlm: TokenLifecycleManager
    const peers: seq<KnownPeer>
    const transmits: bool
    // The calls made to the transmit callback.
    ghost var sent: seq<Challenge>

    ghost const Repr: set<object> := {this, records} + tlm.Repr + (set k | 0 <= k < |engines| :: engines[k])

    ghost predicate Wired()
      reads Repr
    {
      && |engines| == records.Length == MAX_ZONE_SLOTS
      && (forall k :: 0 <= k < MAX_ZONE_SLOTS ==> engines[k].peers == peers && engines[k] !in tlm.Repr)
      && (forall j, k :: 0 <= j < k < MAX_ZONE_SLOTS ==> engines[j] != engines[k])
      && this !in tlm.Repr && records !in tlm.Repr
      && tlm.Valid()
    }

    ghost function EngineStates(): (s: seq<Engine>)
      reads engines
      ensures |s| == |engines| && forall k :: 0 <= k < |s| ==> s[k] == engines[k].Contents()
    {
      seq(|engines|, k requires 0 <= k < |engines| reads engines => engines[k].Contents())
    }

    ghost function Contents(): Gateway
      requires Wired()
      reads Repr
    {
      Gateway(peers, transmits, EngineStates(), records[..], tlm.Contents(), sent)
    }

    ghost predicate Valid()
      reads Repr
    {
      Wired() && GatewayInv(Contents())
    }

    constructor (table: Option<seq<KnownPeer>>, count: nat, onTransmit: bool, onRevoke: bool)
      requires table.Some? ==> (if count <= MAX_KNOWN_PEERS then count else MAX_KNOWN_PEERS) <= |table.value|
      ensures Valid() && fresh(Repr)
      ensures Contents() == InitialGateway(UsableTable(table, count), onTransmit, onRevoke)
    {
      var pool := SomeIpAdaptor.NewEngines(table, count);
      engines := pool;
      records := new ZoneSlotRecord[MAX_ZONE_SLOTS](_ => VACANT);
      tlm := new TokenLifecycleManager(onRevoke);
      peers := UsableTable(table, count);
      transmits := onTransmit;
      sent := [];
      new;
      assert tlm.Valid() && tlm.Contents() == Initial(onRevoke);
      assert forall k :: 0 <= k < MAX_ZONE_SLOTS ==> engines[k].Contents() == IDLE_ENGINE && engines[k] !in tlm.Repr;
      NothingYet(onRevoke);
    }

    lemma NothingYet(listening: bool)
      requires Wired() && sent == [] && tlm.Contents() == Initial(listening)
      requires forall k :: 0 <= k < MAX_ZONE_SLOTS ==>
                 engines[k].Contents() == IDLE_ENGINE && records[k] == VACANT
      ensures Valid() && Contents() == InitialGateway(peers, transmits, listening)
    {
    }

    static method NewEngines(table: Option<seq<KnownPeer>>, count: nat) returns (es: seq<SpdmProtocolEngine>)
      requires table.Some? ==> (if count <= MAX_KNOWN_PEERS then count else MAX_KNOWN_PEERS) <= |table.value|
      ensures |es| == MAX_ZONE_SLOTS
      ensures forall k :: 0 <= k < |es| ==>
                fresh(es[k]) && es[k].peers == UsableTable(table, count) && es[k].Contents() == IDLE_ENGINE
      ensures forall j, k :: 0 <= j < k < |es| ==> es[j] != es[k]
    {
      es := [];
      for i := 0 to MAX_ZONE_SLOTS
        invariant |es| == i
        invariant forall k :: 0 <= k < i ==>
                    fresh(es[k]) && es[k].peers == UsableTable(table, count) && es[k].Contents() == IDLE_ENGINE
        invariant forall j, k :: 0 <= j < k < i ==> es[j] != es[k]
      {
        var e := new SpdmProtocolEngine(table, count);
        es := es + [e];
      }
    }

    method FindSlotIndex(c: ClientId) returns (found: bool, slot: nat)
      requires Wired()
      ensures found <==> FindSlot(records[..], c) < MAX_ZONE_SLOTS
      ensures found ==> slot == FindSlot(records[..], c)
    {
      for i := 0 to MAX_ZONE_SLOTS
        invariant forall k :: 0 <= k < i ==> records[k] != ZoneSlotRecord(c, true)
      {
        if records[i].isOccupied {
          var same := EqualBytes(c, records[i].clientId);
          if same {
            assert records[..][i] == ZoneSlotRecord(c, true);
            return true, i;
          }
        }
      }
      return false, 0;
    }

    method FindFreeEngineSlot() returns (found: bool, slot: nat)
      requires Wired()
      ensures found <==> FindVacant(records[..]) < MAX_ZONE_SLOTS
      ensures found ==> slot == FindVacant(records[..])
    {
      for i := 0 to MAX_ZONE_SLOTS
        invariant forall k :: 0 <= k < i ==> records[k].isOccupied
      {
        if !records[i].isOccupied {
          assert !records[..][i].isOccupied;
          return true, i;
        }
      }
      return false, 0;
    }

    // --- One component at a time ------------------------------------------------------------

    method ResetEngine(slot: nat)
      requires Wired() && slot < MAX_ZONE_SLOTS
      modifies engines[slot]
      ensures Wired()
      ensures Contents() == old(Contents()).(engines := old(EngineStates())[slot := old(EngineStates())[slot].Reset()])
    {
      engines[slot].Reset();
      OnlyEngine(slot);
    }

    method RevokeEngine(slot: nat)
      requires Wired() && slot < MAX_ZONE_SLOTS
      modifies engines[slot]
      ensures Wired()
      ensures Contents() == old(Contents()).(engines := old(EngineStates())[slot := old(EngineStates())[slot].Revoke()])
    {
      engines[slot].Revoke();
      OnlyEngine(slot);
    }

    method AskEngine(slot: nat, request: AuthRequest, draw: (CryptoStatus, Nonce)) returns (spdm: SpdmStatus)
      requires Wired() && slot < MAX_ZONE_SLOTS
      modifies engines[slot]
      ensures Wired()
      ensures var r := Request(old(EngineStates())[slot], peers, request, draw);
              spdm == r.1 && Contents() == old(Contents()).(engines := old(EngineStates())[slot := r.0])
    {
      spdm := engines[slot].ProcessAuthRequest(request, draw);
      OnlyEngine(slot);
    }

    method AnswerEngine(slot: nat, response: AuthResponse, platform: Platform)
      returns (spdm: SpdmStatus, token: Option<SessionToken>)
      requires Wired() && slot < MAX_ZONE_SLOTS
      modifies engines[slot]
      ensures Wired()
      ensures var r := Respond(old(EngineStates())[slot], peers, response, platform);
              spdm == r.1 && token == r.2 && Contents() == old(Contents()).(engines := old(EngineStates())[slot := r.0])
    {
      spdm, token := engines[slot].ProcessAuthResponse(response, platform);
      OnlyEngine(slot);
    }

    static lemma OfferKept(g: Gateway, c: ClientId)
      requires GatewayInv(g)
      ensures GatewayInv(Offer(g, c).0)
    {
      StepKeepsGateway(g, PeerOffered(c));
    }

    static lemma QueryKept(g: Gateway, c: ClientId, now: uint64)
      requires GatewayInv(g)
      ensures GatewayInv(Query(g, c, now).0)
    {
      StepKeepsGateway(g, SessionQuery(c, now));
    }

    static lemma RevocationKept(g: Gateway, c: ClientId, isAnomaly: bool)
      requires GatewayInv(g)
      ensures GatewayInv(RevokeSession(g, c, isAnomaly).0)
    {
      StepKeepsGateway(g, SessionRevoked(c, isAnomaly));
    }

    static lemma UpdateTwice(es: seq<Engine>, slot: nat, e: Engine, e': Engine)
      requires slot < |es|
      ensures es[slot := e][slot := e'] == es[slot := e']
    {
    }

    // Nothing but one engine has changed.
    twostate lemma OnlyEngine(slot: nat)
      requires old(Wired()) && slot < MAX_ZONE_SLOTS
      requires unchanged(Repr - {engines[slot]})
      ensures Wired()
      ensures Contents() == old(Contents()).(engines := old(EngineStates())[slot := engines[slot].Contents()])
    {
      assert unchanged(this) && unchanged(records) && unchanged(tlm.Repr);
      forall k | 0 <= k < MAX_ZONE_SLOTS && k != slot
        ensures engines[k].Contents() == old(engines[k].Contents())
      {
        assert engines[k] in Repr - {engines[slot]};
      }
      assert EngineStates() == old(EngineStates())[slot := engines[slot].Contents()];
    }

    // Nothing but the session table has changed.
    twostate lemma OnlySessions()
      requires old(Wired()) && tlm.Valid()
      requires unchanged(Repr - tlm.Repr)
      ensures Wired()
      ensures Contents() == old(Contents()).(sessions := tlm.Contents())
    {
      assert unchanged(this) && unchanged(records);
      forall k | 0 <= k < MAX_ZONE_SLOTS
        ensures engines[k].Contents() == old(engines[k].Contents())
      {
        assert engines[k] in Repr - tlm.Repr;
      }
      assert EngineStates() == old(EngineStates());
    }

    // --- The hooks --------------------------------------------------------------------------

    method OnPeerOffered(c: ClientId) returns (status: AdaptorStatus)
      requires Valid()
      modifies Repr
      ensures Valid()
      ensures (Contents(), status) == Offer(old(Contents()), c)
    {
      OfferKept(Contents(), c);
      var zero := IsAllZero(c);
      if zero {
        return AdaptorInvalidParam;
      }
      var locked := tlm.IsLockedOut(c);
      if locked {
        return AdaptorLockedOut;
      }
      status := AssignEngine(c);
    }

    // The engine that already serves the client, or else the first free one.
    method AssignEngine(c: ClientId) returns (status: AdaptorStatus)
      requires Wired() && c != ZERO_ID && !IsLockedOut(Contents().sessions, c)
      modifies Repr
      ensures Wired()
      ensures (Contents(), status) == Offer(old(Contents()), c)
    {
      var known, existing := FindSlotIndex(c);
      if known {
        ResetEngine(existing);
        return AdaptorOk;
      }
      var free, slot := FindFreeEngineSlot();
      if !free {
        return SlotExhausted;
      }
      AssignSlot(slot, c);
      ResetEngine(slot);
      return AdaptorOk;
    }

    method AssignSlot(slot: nat, c: ClientId)
      requires Wired() && slot < MAX_ZONE_SLOTS
      modifies records
      ensures Wired()
      ensures Contents() == old(Contents()).(records := old(records[..])[slot := ZoneSlotRecord(c, true)])
    {
      records[slot] := ZoneSlotRecord(c, true);
      assert EngineStates() == old(EngineStates());
    }

    method OnAuthRequest(payload: Option<Bytes>, draw: (CryptoStatus, Nonce)) returns (status: AdaptorStatus)
      requires Valid()
      modifies Repr
      ensures Valid()
      ensures (Contents(), Plain(status)) == Handle(old(Contents()), RequestFrame(payload, draw))
    {
      StepKeepsGateway(Contents(), RequestFrame(payload, draw));
      var parsed := ParseRequest(payload);
      if parsed.None? {
        return InvalidFrame;
      }
      var request := parsed.value;
      var found, slot := FindSlotIndex(request.clientId);
      if !found {
        return UnknownPeer;
      }
      var spdm := AskEngine(slot, request, draw);
      if spdm != SpdmOk {
        return ProtocolError;
      }
      Transmit(request.clientId, slot);
      return AdaptorOk;
    }

    ghost method Transmit(c: ClientId, slot: nat)
      requires Wired() && slot < MAX_ZONE_SLOTS
      modifies this`sent
      ensures Wired()
      ensures Contents() == if transmits then
                old(Contents()).(sent := old(sent) + [Challenge(c, old(EngineStates())[slot].pendingNonce)])
              else old(Contents())
    {
      if transmits {
        sent := sent + [Challenge(c, engines[slot].pendingNonce)];
      }
      assert EngineStates() == old(EngineStates());
    }

    method OnAuthResponse(payload: Option<Bytes>, platform: Platform, now: uint64) returns (status: AdaptorStatus)
      requires Valid()
      modifies Repr
      ensures Valid()
      ensures (Contents(), Plain(status)) == Handle(old(Contents()), ResponseFrame(payload, platform, now))
    {
      StepKeepsGateway(Contents(), ResponseFrame(payload, platform, now));
      var parsed := ParseResponse(payload);
      if parsed.None? {
        return InvalidFrame;
      }
      var found, slot := FindSlotIndex(parsed.value.clientId);
      if !found {
        return UnknownPeer;
      }
      status := CompleteHandshake(slot, parsed.value, platform, now);
    }

    // The answer of the engine, and its consequence for the session table.
    method CompleteHandshake(slot: nat, response: AuthResponse, platform: Platform, now: uint64)
      returns (status: AdaptorStatus)
      requires Wired() && slot < MAX_ZONE_SLOTS && slot == FindSlot(records[..], response.clientId)
      modifies Repr
      ensures Wired()
      ensures (Contents(), status) == HandleResponse(old(Contents()), response, platform, now)
    {
      var spdm, token := AnswerEngine(slot, response, platform);
      if spdm != SpdmOk {
        var _ := RevokeInTable(response.clientId, true);
        return ProtocolError;
      }
      var admitted := RegisterInTable(token.value, now);
      if admitted != Ok {
        UpdateTwice(old(EngineStates()), slot, EngineStates()[slot], EngineStates()[slot].Revoke());
        RevokeEngine(slot);
        return if admitted == LockedOut then AdaptorLockedOut else SessionError;
      }
      return AdaptorOk;
    }

    method RevokeInTable(c: ClientId, isAnomaly: bool) returns (st: TlmStatus)
      requires Wired()
      modifies tlm.Repr
      ensures Wired()
      ensures var r := Revoke(old(Contents()).sessions, c, isAnomaly);
              st == r.1 && Contents() == old(Contents()).(sessions := r.0)
    {
      st := tlm.RevokeToken(c, isAnomaly);
      OnlySessions();
    }

    method RegisterInTable(token: SessionToken, now: uint64) returns (st: TlmStatus)
      requires Wired()
      modifies tlm.Repr
      ensures Wired()
      ensures var r := Register(old(Contents()).sessions, token, now);
              st == r.1 && Contents() == old(Contents()).(sessions := r.0)
    {
      st := tlm.RegisterToken(token, now);
      OnlySessions();
    }

    method ValidateInTable(c: ClientId, now: uint64) returns (st: TlmStatus, key: Option<SessionKey>)
      requires Wired()
      modifies tlm.Repr
      ensures Wired()
      ensures var r := Validate(old(Contents()).sessions, c, now);
              st == r.1 && key == r.2 && Contents() == old(Contents()).(sessions := r.0)
    {
      st, key := tlm.ValidateToken(c, now);
      OnlySessions();
    }

    method OnSessionTick(now: uint64)
      requires Valid()
      modifies Repr
      ensures Valid()
      ensures Contents() == Handle(old(Contents()), SessionTick(now)).0
    {
      StepKeepsGateway(Contents(), SessionTick(now));
      tlm.EvaluateTokenExpiry(now);
      OnlySessions();
    }

    method IsSessionActive(c: ClientId, now: uint64) returns (status: AdaptorStatus, key: Option<SessionKey>)
      requires Valid()
      modifies Repr
      ensures Valid()
      ensures (Contents(), Reply(status, key)) == Query(old(Contents()), c, now)
    {
      QueryKept(Contents(), c, now);
      var locked := tlm.IsLockedOut(c);
      if locked {
        return AdaptorLockedOut, None;
      }
      var st;
      st, key := ValidateInTable(c, now);
      if st == Ok {
        return AdaptorOk, key;
      }
      if st == LockedOut {
        return AdaptorLockedOut, None;
      }
      return NotAuthenticated, None;
    }

    method RevokeSessionOf(c: ClientId, isAnomaly: bool) returns (status: AdaptorStatus)
      requires Valid()
      modifies Repr
      ensures Valid()
      ensures (Contents(), status) == RevokeSession(old(Contents()), c, isAnomaly)
    {
      RevocationKept(Contents(), c, isAnomaly);
      status := RevokeEverywhere(c, isAnomaly);
    }

    method RevokeEverywhere(c: ClientId, isAnomaly: bool) returns (status: AdaptorStatus)
      requires Wired()
      modifies Repr
      ensures Wired()
      ensures (Contents(), status) == RevokeSession(old(Contents()), c, isAnomaly)
    {
      var found, slot := FindSlotIndex(c);
      if found {
        RevokeEngine(slot);
      }
      var st := RevokeInTable(c, isAnomaly);
      return if st == Ok then AdaptorOk else UnknownPeer;
    }

    method GetActiveSessionCount() returns (count: nat)
      requires Valid()
      ensures count == ActiveCount(Contents().sessions.table)
    {
      count := tlm.GetActiveSessionCount();
    }
  }
}
