/** The handshake engine as the source keeps it: one object whose fields each message updates. */
module SpdmProtocol {
  import opened Bytes
  import opened SessionTable
  import opened Handshake

  class SpdmProtocolEngine {
    const peers: seq<KnownPeer>
    var phase: Phase
    var pendingNonce: Nonce
    var pendingClient: ClientId
    var authenticatedClient: ClientId

    ghost function Contents(): Engine
      reads this
    {
      Engine(phase, pendingNonce, pendingClient, authenticatedClient)
    }

    constructor (table: Option<seq<KnownPeer>>, count: nat)
      requires table.Some? ==> (if count <= MAX_KNOWN_PEERS then count else MAX_KNOWN_PEERS) <= |table.value|
      ensures Contents() == IDLE_ENGINE && peers == UsableTable(table, count)
    {
      peers := UsableTable(table, count);
      phase := Unauthenticated;
      pendingNonce := Zeros(NONCE_LEN);
      pendingClient := ZERO_ID;
      authenticatedClient := ZERO_ID;
    }

    method FindPeerPublicKey(c: ClientId) returns (found: bool, key: Option<PublicKey>)
      ensures key == FindPeerKey(peers, c) && found == key.Some?
    {
      for i := 0 to |peers|
        invariant FindPeerKey(peers, c) == FindPeerKey(peers[i..], c)
      {
        var same := EqualBytes(c, peers[i].clientId);
        if same {
          return true, Some(peers[i].publicKey);
        }
        assert peers[i..][1..] == peers[i + 1..];
      }
      return false, None;
    }

    method ProcessAuthRequest(request: AuthRequest, draw: (CryptoStatus, Nonce)) returns (status: SpdmStatus)
      modifies this
      ensures (Contents(), status) == Request(old(Contents()), peers, request, draw)
    {
      if phase != Unauthenticated {
        return if phase == Authenticated then AlreadyAuthenticated else InvalidState;
      }
      var versionOk := true;
      for i := 0 to VERSION_LEN
        invariant versionOk ==> request.version[..i] == SUPPORTED_VERSION[..i]
      {
        if request.version[i] != SUPPORTED_VERSION[i] {
          versionOk := false;
          break;
        }
      }
      if !versionOk {
        assert request.version != SUPPORTED_VERSION;
        return VersionMismatch;
      }
      var found, _ := FindPeerPublicKey(request.clientId);
      if !found {
        return SignatureInvalid;
      }
      pendingNonce := draw.1;
      if draw.0 != CryptoOk {
        return CryptoError;
      }
      pendingClient := request.clientId;
      phase := ChallengeSent;
      return SpdmOk;
    }

    method ProcessAuthResponse(response: AuthResponse, platform: Platform)
      returns (status: SpdmStatus, token: Option<SessionToken>)
      modifies this
      ensures (Contents(), status, token) == Respond(old(Contents()), peers, response, platform)
    {
      if phase != ChallengeSent {
        return InvalidState, None;
      }
      var same := EqualBytes(response.clientId, pendingClient);
      if !same {
        Revoke();
        return ClientIdMismatch, None;
      }
      var found, publicKey := FindPeerPublicKey(response.clientId);
      if !found {
        Revoke();
        return SignatureInvalid, None;
      }
      var (digestStatus, digest) := platform.sha256(pendingNonce + response.clientId);
      if digestStatus != CryptoOk {
        Revoke();
        return CryptoError, None;
      }
      var verdict := platform.verify(digest, response.signature, publicKey.value);
      if verdict != CryptoOk {
        Revoke();
        return if verdict == VerifyFailed then SignatureInvalid else CryptoError, None;
      }
      var (kdfStatus, derived) := platform.derive(pendingNonce, response.clientId);
      if kdfStatus != CryptoOk {
        Revoke();
        return CryptoError, None;
      }
      token := Some(SessionToken(response.clientId, pendingNonce, derived));
      authenticatedClient := response.clientId;
      phase := Authenticated;
      return SpdmOk, token;
    }

    method Revoke()
      modifies this
      ensures Contents() == old(Contents()).Revoke()
    {
      SanitiseSecretMaterial();
      phase := Revoked;
    }

    method Reset()
      modifies this
      ensures Contents() == old(Contents()).Reset()
    {
      SanitiseSecretMaterial();
      authenticatedClient := ZERO_ID;
      phase := Unauthenticated;
    }

    method SanitiseSecretMaterial()
      modifies this
      ensures Contents() == old(Contents()).Sanitised()
    {
      pendingNonce := Erase(pendingNonce);
      pendingClient := Erase(pendingClient);
    }
  }
}
