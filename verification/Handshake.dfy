/**
 The challenge-response handshake of one engine, as functions on its state. The platform's
 cryptography is outside the model: every call takes the answers the platform gives to it.
 */
module Handshake {
  import opened Bytes
  import opened SessionTable

  const MAX_KNOWN_PEERS := 8
  const SUPPORTED_VERSION: Bytes := [0x01, 0x10, 0x00, 0x00]
  const VERSION_LEN := 4

  datatype CryptoStatus = CryptoOk | CryptoInvalidParam | HwFault | VerifyFailed | NotSupported | InternalError

  // What the platform answers during one call; answers may differ from call to call.
  datatype Platform = Platform(
    sha256: Bytes -> (CryptoStatus, Digest),
    verify: (Digest, Signature, PublicKey) -> CryptoStatus,
    derive: (Nonce, ClientId) -> (CryptoStatus, SessionKey))

  datatype KnownPeer = KnownPeer(clientId: ClientId, publicKey: PublicKey)

  type Version = b: Bytes | |b| == VERSION_LEN witness SUPPORTED_VERSION

  datatype AuthRequest = AuthRequest(clientId: ClientId, version: Version)
  datatype AuthResponse = AuthResponse(clientId: ClientId, signature: Signature)

  datatype SpdmStatus =
    | SpdmOk | InvalidState | VersionMismatch | ClientIdMismatch | SignatureInvalid | CryptoError
    | AlreadyAuthenticated

  datatype Phase = Unauthenticated | ChallengeSent | Authenticated | Revoked

  datatype Engine = Engine(phase: Phase, pendingNonce: Nonce, pendingClient: ClientId, authenticatedClient: ClientId) {
    // Erases the nonce and the pending id; the authenticated id stays.
    function Sanitised(): Engine {
      this.(pendingNonce := Zeros(NONCE_LEN), pendingClient := ZERO_ID)
    }

    function Revoke(): Engine {
      Sanitised().(phase := Revoked)
    }

    function Reset(): Engine {
      Sanitised().(authenticatedClient := ZERO_ID, phase := Unauthenticated)
    }
  }

  const IDLE_ENGINE := Engine(Unauthenticated, Zeros(NONCE_LEN), ZERO_ID, ZERO_ID)

  // The public key of the first table entry for `c`.
  function FindPeerKey(peers: seq<KnownPeer>, c: ClientId): (key: Option<PublicKey>)
    ensures key == None <==> forall i :: 0 <= i < |peers| ==> peers[i].clientId != c
    ensures key.Some? ==> exists i :: 0 <= i < |peers| && peers[i] == KnownPeer(c, key.value)
                                   && forall k :: 0 <= k < i ==> peers[k].clientId != c
  {
    if peers == [] then None
    else if peers[0].clientId == c then
      assert peers[0] == KnownPeer(c, peers[0].publicKey);
      Some(peers[0].publicKey)
    else
      var key := FindPeerKey(peers[1..], c);
      assert forall i :: 0 <= i < |peers[1..]| ==> peers[1..][i] == peers[i + 1];
      key
  }

  // A null table knows nobody; a table longer than the engine can use is cut off.
  function UsableTable(table: Option<seq<KnownPeer>>, count: nat): (peers: seq<KnownPeer>)
    requires table.Some? ==> (if count <= MAX_KNOWN_PEERS then count else MAX_KNOWN_PEERS) <= |table.value|
    ensures |peers| <= MAX_KNOWN_PEERS
  {
    match table
    case None => []
    case Some(entries) => entries[..if count <= MAX_KNOWN_PEERS then count else MAX_KNOWN_PEERS]
  }

  // Of the first eight entries the table is said to have, the first one of a client gives its key.
  lemma PeerIsFound(entries: seq<KnownPeer>, count: nat, k: nat)
    requires k < count && k < 8 && (if count <= 8 then count else 8) <= |entries|
    requires forall i :: 0 <= i < k ==> entries[i].clientId != entries[k].clientId
    ensures FindPeerKey(UsableTable(Some(entries), count), entries[k].clientId) == Some(entries[k].publicKey)
  {
    var peers := UsableTable(Some(entries), count);
    assert peers[k] == entries[k];
  }

  // Nobody else is known.
  lemma PeerIsUnknownIff(table: Option<seq<KnownPeer>>, count: nat, c: ClientId)
    requires table.Some? ==> (if count <= 8 then count else 8) <= |table.value|
    ensures FindPeerKey(UsableTable(table, count), c) == None <==>
              table == None || forall i :: 0 <= i < count && i < 8 ==> table.value[i].clientId != c
  {
    if table.Some? {
      var peers := UsableTable(table, count);
      assert forall i :: 0 <= i < |peers| ==> peers[i] == table.value[i];
    }
  }

  // `draw` is the status and the buffer the random number generator leaves, whatever the status.
  function Request(e: Engine, peers: seq<KnownPeer>, request: AuthRequest, draw: (CryptoStatus, Nonce))
    : (r: (Engine, SpdmStatus))
  {
    if e.phase != Unauthenticated then
      (e, if e.phase == Authenticated then AlreadyAuthenticated else InvalidState)
    else if request.version != SUPPORTED_VERSION then (e, VersionMismatch)
    else if FindPeerKey(peers, request.clientId) == None then (e, SignatureInvalid)
    else if draw.0 != CryptoOk then (e.(pendingNonce := draw.1), CryptoError)
    else (e.(phase := ChallengeSent, pendingNonce := draw.1, pendingClient := request.clientId), SpdmOk)
  }

  function Respond(e: Engine, peers: seq<KnownPeer>, response: AuthResponse, platform: Platform)
    : (r: (Engine, SpdmStatus, Option<SessionToken>))
    ensures r.1 == SpdmOk <==> r.2.Some?
  {
    var c := response.clientId;
    if e.phase != ChallengeSent then (e, InvalidState, None)
    else if c != e.pendingClient then (e.Revoke(), ClientIdMismatch, None)
    else
      var key := FindPeerKey(peers, c);
      if key == None then (e.Revoke(), SignatureInvalid, None)
      else
        var digest := platform.sha256(e.pendingNonce + c);
        if digest.0 != CryptoOk then (e.Revoke(), CryptoError, None)
        else
          var verdict := platform.verify(digest.1, response.signature, key.value);
          if verdict != CryptoOk then
            (e.Revoke(), if verdict == VerifyFailed then SignatureInvalid else CryptoError, None)
          else
            var derived := platform.derive(e.pendingNonce, c);
            if derived.0 != CryptoOk then (e.Revoke(), CryptoError, None)
            else (e.(phase := Authenticated, authenticatedClient := c), SpdmOk,
                  Some(SessionToken(c, e.pendingNonce, derived.1)))
  }

  // A challenge is sent exactly to a known peer of the supported version, by an engine that has
  // not been used since its reset; a refusal leaves everything but the nonce buffer alone.
  lemma ChallengesIffFresh(e: Engine, peers: seq<KnownPeer>, request: AuthRequest, draw: (CryptoStatus, Nonce))
    ensures var (e', status) := Request(e, peers, request, draw);
            && (status == SpdmOk <==>
                  && e.phase == Unauthenticated
                  && request.version == SUPPORTED_VERSION
                  && (exists i :: 0 <= i < |peers| && peers[i].clientId == request.clientId)
                  && draw.0 == CryptoOk)
            && (status == SpdmOk ==> e' == Engine(ChallengeSent, draw.1, request.clientId, e.authenticatedClient))
            && (status != SpdmOk ==> e' == if status == CryptoError then e.(pendingNonce := draw.1) else e)
  {
  }

  // Exactly when a request is refused with which status.
  lemma RequestRefusals(e: Engine, peers: seq<KnownPeer>, request: AuthRequest, draw: (CryptoStatus, Nonce))
    ensures var status := Request(e, peers, request, draw).1;
            var usable := e.phase == Unauthenticated && request.version == [1, 16, 0, 0];
            var known := exists i :: 0 <= i < |peers| && peers[i].clientId == request.clientId;
            && (status == AlreadyAuthenticated <==> e.phase == Authenticated)
            && (status == InvalidState <==> e.phase == ChallengeSent || e.phase == Revoked)
            && (status == VersionMismatch <==> e.phase == Unauthenticated && request.version != [1, 16, 0, 0])
            && (status == SignatureInvalid <==> usable && !known)
            && (status == CryptoError <==> usable && known && draw.0 != CryptoOk)
            && status != ClientIdMismatch
  {
  }

  // The platform accepts this signature of this client over the challenge, and derives this key.
  predicate Accepts(platform: Platform, peers: seq<KnownPeer>, c: ClientId, nonce: Nonce,
                    signature: Signature, key: SessionKey) {
    var publicKey := FindPeerKey(peers, c);
    var digest := platform.sha256(nonce + c);
    && publicKey.Some?
    && digest.0 == CryptoOk
    && platform.verify(digest.1, signature, publicKey.value) == CryptoOk
    && platform.derive(nonce, c) == (CryptoOk, key)
  }

  // A token is issued exactly for a challenge in flight to the same client that the platform accepts.
  lemma IssuesIffAccepted(e: Engine, peers: seq<KnownPeer>, response: AuthResponse, platform: Platform,
                          token: SessionToken)
    ensures Respond(e, peers, response, platform).2 == Some(token) <==>
            && e.phase == ChallengeSent
            && e.pendingClient == response.clientId == token.clientId
            && e.pendingNonce == token.nonce
            && Accepts(platform, peers, token.clientId, token.nonce, response.signature, token.key)
  {
  }

  // Exactly when a response is refused with which status.
  lemma ResponseRefusals(e: Engine, peers: seq<KnownPeer>, response: AuthResponse, platform: Platform)
    ensures var status := Respond(e, peers, response, platform).1;
            var c := response.clientId;
            var expected := e.phase == ChallengeSent && c == e.pendingClient;
            var (hashed, digest) := platform.sha256(e.pendingNonce + c);
            var derived := platform.derive(e.pendingNonce, c).0;
            && (status == InvalidState <==> e.phase != ChallengeSent)
            && (status == ClientIdMismatch <==> e.phase == ChallengeSent && c != e.pendingClient)
            && (FindPeerKey(peers, c) == None && expected ==> status == SignatureInvalid)
            && (FindPeerKey(peers, c).Some? && expected ==>
                  var verdict := platform.verify(digest, response.signature, FindPeerKey(peers, c).value);
                  && (status == SignatureInvalid <==> hashed == CryptoOk && verdict == VerifyFailed)
                  && (status == SpdmOk <==> hashed == verdict == derived == CryptoOk)
                  && (status == SignatureInvalid || status == SpdmOk || status == CryptoError))
  {
  }

  // A response to no challenge leaves the engine alone, an accepted one authenticates the client, and
  // any other revokes the engine and leaves no byte of the challenge in it.
  lemma ResponseLeaves(e: Engine, peers: seq<KnownPeer>, response: AuthResponse, platform: Platform)
    ensures var (e', status, token) := Respond(e, peers, response, platform);
            && (status == InvalidState ==> e' == e)
            && (status == SpdmOk ==>
                  e' == Engine(Authenticated, e.pendingNonce, e.pendingClient, response.clientId))
            && (status != InvalidState && status != SpdmOk ==>
                  && e'.phase == Revoked && e'.authenticatedClient == e.authenticatedClient
                  && (forall i :: 0 <= i < 32 ==> e'.pendingNonce[i] == 0)
                  && (forall i :: 0 <= i < 8 ==> e'.pendingClient[i] == 0))
  {
  }

  // What an engine holds after an offer of its client, and after a revocation.
  lemma EngineErased(e: Engine)
    ensures var reset, revoked := e.Reset(), e.Revoke();
            && reset.phase == Unauthenticated && revoked.phase == Revoked
            && (forall i :: 0 <= i < 32 ==> reset.pendingNonce[i] == revoked.pendingNonce[i] == 0)
            && (forall i :: 0 <= i < 8 ==> reset.pendingClient[i] == revoked.pendingClient[i] == 0)
            && (forall i :: 0 <= i < 8 ==> reset.authenticatedClient[i] == 0)
            && revoked.authenticatedClient == e.authenticatedClient
    ensures e.Reset() == IDLE_ENGINE
  {
  }

  // --- Wire frames --------------------------------------------------------------------------

  const REQUEST_LEN := CLIENT_ID_LEN + VERSION_LEN
  const RESPONSE_LEN := CLIENT_ID_LEN + SIGNATURE_LEN

  // A frame may be null or too short; bytes after the record are ignored.
  function ParseRequest(payload: Option<Bytes>): (r: Option<AuthRequest>)
  {
    match payload
    case None => None
    case Some(b) =>
      if |b| < REQUEST_LEN then None
      else Some(AuthRequest(b[..CLIENT_ID_LEN], b[CLIENT_ID_LEN..REQUEST_LEN]))
  }

  function ParseResponse(payload: Option<Bytes>): (r: Option<AuthResponse>)
  {
    match payload
    case None => None
    case Some(b) =>
      if |b| < RESPONSE_LEN then None
      else Some(AuthResponse(b[..CLIENT_ID_LEN], b[CLIENT_ID_LEN..RESPONSE_LEN]))
  }

  lemma RequestRoundTrip(request: AuthRequest, trailing: Bytes)
    ensures ParseRequest(Some(request.clientId + request.version + trailing)) == Some(request)
  {
    var b := request.clientId + request.version + trailing;
    assert b[..CLIENT_ID_LEN] == request.clientId && b[CLIENT_ID_LEN..REQUEST_LEN] == request.version;
  }

  lemma ResponseRoundTrip(response: AuthResponse, trailing: Bytes)
    ensures ParseResponse(Some(response.clientId + response.signature + trailing)) == Some(response)
  {
    var b := response.clientId + response.signature + trailing;
    assert b[..CLIENT_ID_LEN] == response.clientId && b[CLIENT_ID_LEN..RESPONSE_LEN] == response.signature;
  }

  // A frame is refused exactly when it is null or shorter than its record; otherwise its first eight
  // bytes name the client.
  lemma FramesRefusedIff(payload: Option<Bytes>)
    ensures ParseRequest(payload) == None <==> payload == None || |payload.value| < 12
    ensures ParseResponse(payload) == None <==> payload == None || |payload.value| < 72
    ensures ParseRequest(payload).Some? ==> ParseRequest(payload).value.clientId == payload.value[..8]
    ensures ParseResponse(payload).Some? ==> ParseResponse(payload).value.clientId == payload.value[..8]
  {
  }
}
