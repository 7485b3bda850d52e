/** The session table as the source keeps it: an array of slots and a ring, updated in place. */
module TokenLifecycle {
  import opened Bytes
  import opened CircularBuffers
  import opened SessionTable
  import opened SessionInvariants

  class TokenLifecycleManager {
    const table: array<TokenSlot>
    const insertionOrder: StaticCircularBuffer
    const listening: bool
    // The calls made to the revocation callback.
    ghost var notified: seq<ClientId>

    ghost const Repr: set<object> := {this, table, insertionOrder, insertionOrder.buf}

    ghost predicate Wired()
      reads Repr
    {
      && table.Length == MAX_ACTIVE_SESSIONS
      && table as object != insertionOrder.buf
      && insertionOrder.Valid()
      && insertionOrder.capacity == MAX_ACTIVE_SESSIONS
    }

    ghost function Contents(): State
      requires Wired()
      reads Repr
    {
      State(table[..], insertionOrder.Contents(), listening, notified)
    }

    ghost predicate Valid()
      reads Repr
    {
      Wired() && Inv(Contents())
    }

    constructor (onRevoke: bool)
      ensures Valid() && fresh(Repr)
      ensures Contents() == Initial(onRevoke)
    {
      table := new TokenSlot[MAX_ACTIVE_SESSIONS](_ => UNUSED_SLOT);
      insertionOrder := new StaticCircularBuffer(MAX_ACTIVE_SESSIONS);
      listening := onRevoke;
      notified := [];
      new;
      assert table[..] == Initial(onRevoke).table;
    }

    method FindSlotByClientId(c: ClientId) returns (found: bool, idx: nat)
      requires Wired()
      ensures found <==> FirstMatch(table[..], c) < MAX_ACTIVE_SESSIONS
      ensures found ==> idx == FirstMatch(table[..], c)
    {
      for i := 0 to MAX_ACTIVE_SESSIONS
        invariant forall k :: 0 <= k < i ==> table[k].clientId != c
      {
        var same := EqualBytes(c, table[i].clientId);
        if same {
          assert table[..][i].clientId == c;
          return true, i;
        }
      }
      return false, 0;
    }

    method FindFreeSlot() returns (found: bool, idx: nat)
      requires Wired()
      ensures found <==> FirstFree(table[..]) < MAX_ACTIVE_SESSIONS
      ensures found ==> idx == FirstFree(table[..])
    {
      for i := 0 to MAX_ACTIVE_SESSIONS
        invariant forall k :: 0 <= k < i ==> !table[k].Free()
      {
        if !table[i].isActive && !table[i].isLockedOut {
          assert table[..][i].Free();
          return true, i;
        }
      }
      return false, 0;
    }

    method IsLockedOut(c: ClientId) returns (locked: bool)
      requires Wired() && WellFormed(Contents())
      ensures locked <==> SessionTable.IsLockedOut(Contents(), c)
    {
      var found, idx := FindSlotByClientId(c);
      return found && table[idx].isLockedOut;
    }

    method GetActiveSessionCount() returns (count: nat)
      requires Valid()
      ensures count == ActiveCount(Contents().table)
    {
      count := 0;
      for i := 0 to MAX_ACTIVE_SESSIONS
        invariant count == ActiveCount(table[..i])
      {
        assert table[..i + 1][..i] == table[..i];
        if table[i].isActive {
          count := count + 1;
        }
      }
      assert table[..MAX_ACTIVE_SESSIONS] == table[..];
    }

    method ZeroSlotSecrets(idx: nat)
      requires Wired() && idx < MAX_ACTIVE_SESSIONS
      modifies table
      ensures table[..] == old(table[..])[idx := old(table[idx]).ZeroSecrets()]
    {
      var key := Erase(table[idx].sessionKey);
      var nonce := Erase(table[idx].sessionNonce);
      table[idx] := table[idx].(sessionKey := key, sessionNonce := nonce);
      table[idx] := table[idx].(issuedAt := 0, lastSeen := 0);
    }

    ghost method NotifyRevocation(c: ClientId)
      modifies this`notified
      ensures notified == old(notified) + if listening then [c] else []
    {
      if listening {
        notified := notified + [c];
      }
    }

    // The four statements every path runs to end the session in slot `idx`.
    method EndSession(idx: nat, c: ClientId)
      requires Wired() && WellFormed(Contents()) && idx < MAX_ACTIVE_SESSIONS
      modifies Repr
      ensures Wired()
      ensures Contents() == Deactivate(old(Contents()), idx, c)
    {
      ZeroSlotSecrets(idx);
      table[idx] := table[idx].(isActive := false);
      assert table[..] == old(table[..])[idx := old(table[idx]).Retired()];
      insertionOrder.Remove(idx);
      NotifyRevocation(c);
    }

    method RegisterToken(token: SessionToken, now: uint64) returns (status: TlmStatus)
      requires Valid()
      modifies Repr
      ensures Valid()
      ensures (Contents(), status) == Register(old(Contents()), token, now)
    {
      RegisterKeeps(Contents(), token, now);
      var zero := IsAllZero(token.clientId);
      if zero {
        return InvalidParam;
      }
      var locked := IsLockedOut(token.clientId);
      if locked {
        return LockedOut;
      }
      var found, existing := FindSlotByClientId(token.clientId);
      if found && table[existing].isActive {
        EndSession(existing, token.clientId);
      }
      EndExistingKeeps(old(Contents()), token.clientId);
      status := PlaceToken(token, now);
    }

    // Fills a free slot, or the slot of the oldest session when there is none.
    method PlaceToken(token: SessionToken, now: uint64) returns (status: TlmStatus)
      requires Valid()
      modifies Repr
      ensures Wired()
      ensures (Contents(), status) == Place(old(Contents()), token, now)
    {
      var free, target := FindFreeSlot();
      if !free {
        free, target := insertionOrder.Pop();
        if !free {
          return TableFull;
        }
        EvictOldestKeeps(old(Contents()));
        Evict(target);
        assert Contents() == EvictOldest(old(Contents()));
      }
      Fill(target, token, now);
      return Ok;
    }

    // Ends the session of a slot already popped from the ring.
    method Evict(target: nat)
      requires Wired() && target < MAX_ACTIVE_SESSIONS
      modifies this`notified, table
      ensures Wired()
      ensures table[..] == old(table[..])[target := old(table[target]).Retired()]
      ensures notified == old(notified) + if listening then [old(table[target]).clientId] else []
    {
      ZeroSlotSecrets(target);
      NotifyRevocation(table[target].clientId);
      table[target] := table[target].(isActive := false);
    }

    method Fill(target: nat, token: SessionToken, now: uint64)
      requires Wired() && WellFormed(Contents()) && target < MAX_ACTIVE_SESSIONS
      modifies Repr
      ensures Wired()
      ensures Contents() == Admit(old(Contents()), target, token, now)
    {
      table[target] := table[target].(clientId := token.clientId, sessionKey := token.key, sessionNonce := token.nonce);
      table[target] := table[target].(issuedAt := now, lastSeen := now, isActive := true);
      var _ := insertionOrder.Push(target);
      assert table[..] == old(table[..])[target := old(table[target]).Holding(token, now)];
    }

    method ValidateToken(c: ClientId, now: uint64) returns (status: TlmStatus, key: Option<SessionKey>)
      requires Valid()
      modifies Repr
      ensures Valid()
      ensures (Contents(), status, key) == Validate(old(Contents()), c, now)
    {
      ValidateKeeps(Contents(), c, now);
      var locked := IsLockedOut(c);
      if locked {
        return LockedOut, None;
      }
      var found, idx := FindSlotByClientId(c);
      if !found || !table[idx].isActive {
        return NotFound, None;
      }
      if Age(now, table[idx].issuedAt) > TOKEN_LIFETIME_MS {
        EndSession(idx, c);
        return NotFound, None;
      }
      table[idx] := table[idx].(lastSeen := now);
      assert table[..] == old(table[..])[idx := old(table[idx]).(lastSeen := now)];
      return Ok, Some(table[idx].sessionKey);
    }

    method RevokeToken(c: ClientId, isAnomaly: bool) returns (status: TlmStatus)
      requires Valid()
      modifies Repr
      ensures Valid()
      ensures (Contents(), status) == Revoke(old(Contents()), c, isAnomaly)
    {
      RevokeKeeps(Contents(), c, isAnomaly);
      var found, idx := FindSlotByClientId(c);
      if !found {
        return NotFound;
      }
      if isAnomaly && table[idx].anomalyCount < MAX_UINT8 {
        table[idx] := table[idx].(anomalyCount := table[idx].anomalyCount + 1);
        if table[idx].anomalyCount >= MAX_ANOMALY_COUNT {
          table[idx] := table[idx].(isLockedOut := true);
        }
      }
      assert table[..] == old(table[..])[idx := if isAnomaly then old(table[idx]).WithAnomaly() else old(table[idx])];
      EndSession(idx, c);
      return Ok;
    }

    method EvaluateTokenExpiry(now: uint64)
      requires Valid()
      modifies Repr
      ensures Valid()
      ensures Contents() == Sweep(old(Contents()), now)
    {
      SweepToKeeps(Contents(), now, MAX_ACTIVE_SESSIONS);
      for i := 0 to MAX_ACTIVE_SESSIONS
        invariant Wired()
        invariant Contents() == SweepTo(old(Contents()), now, i)
      {
        if table[i].isActive {
          if Age(now, table[i].issuedAt) > TOKEN_LIFETIME_MS {
            EndSession(i, table[i].clientId);
          }
        }
      }
    }
  }
}
