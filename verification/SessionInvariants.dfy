/**
 What every operation keeps: the order holds exactly the active slots, a client's active or
 locked slot is the first one carrying its id, and an inactive slot holds no secret.
 */
module SessionInvariants {
  import opened Bytes
  import opened CircularBuffers
  import opened SessionTable

  ghost predicate SlotOk(t: TokenSlot) {
    && t.anomalyCount <= MAX_UINT8
    && (t.isLockedOut <==> t.anomalyCount >= MAX_ANOMALY_COUNT)
    && (t.isLockedOut ==> !t.isActive)
    && (t.isActive ==> t.clientId != ZERO_ID)
    && (!t.isActive ==> t == t.ZeroSecrets())
  }

  ghost predicate SlotsOk(t: seq<TokenSlot>) {
    forall i :: 0 <= i < |t| ==> SlotOk(t[i])
  }

  // Stale ids may repeat, but only the first slot carrying an id can be active or locked.
  ghost predicate FirstOwns(t: seq<TokenSlot>) {
    forall i, j :: 0 <= i < j < |t| && t[i].clientId == t[j].clientId ==> t[j].Free()
  }

  ghost predicate OrderAgrees(t: seq<TokenSlot>, order: seq<nat>) {
    && Distinct(order)
    && forall i :: 0 <= i < |t| ==> (i in order <==> t[i].isActive)
  }

  ghost predicate Inv(s: State) {
    && WellFormed(s)
    && SlotsOk(s.table)
    && FirstOwns(s.table)
    && OrderAgrees(s.table, s.order)
  }

  lemma InitialInv(listening: bool)
    ensures Inv(Initial(listening))
  {
  }

  // An active or locked slot is the one lookup finds for its id.
  lemma OwnerIsFirst(t: seq<TokenSlot>, i: nat)
    requires FirstOwns(t) && i < |t| && !t[i].Free()
    ensures FirstMatch(t, t[i].clientId) == i
  {
  }

  lemma DeactivateKeeps(s: State, i: nat, c: ClientId)
    requires Inv(s) && i < MAX_ACTIVE_SESSIONS
    ensures Inv(Deactivate(s, i, c))
  {
    WithoutDistinct<nat>(s.order, i);
    WithoutMembers<nat>(s.order, i);
  }

  lemma {:induction false} DistinctBelow(s: seq<nat>, n: nat)
    requires Distinct(s) && forall k :: 0 <= k < |s| ==> s[k] < n
    ensures |s| <= n
    ensures (exists i :: 0 <= i < n && i !in s) ==> |s| < n
    decreases n
  {
    if s != [] {
      assert s[0] < n;
      var rest := Without(s, n - 1);
      WithoutDistinct(s, n - 1);
      WithoutMembers(s, n - 1);
      DistinctBelow(rest, n - 1);
      if i :| 0 <= i < n && i !in s {
        if n - 1 in s {
          assert i !in rest && i < n - 1;
        }
      }
    }
  }

  // The push result the source ignores is never false.
  lemma PushNeverFails(s: State, i: nat)
    requires Inv(s) && i < MAX_ACTIVE_SESSIONS && !s.table[i].isActive
    ensures |s.order| < MAX_ACTIVE_SESSIONS
  {
    assert i !in s.order;
    DistinctBelow(s.order, MAX_ACTIVE_SESSIONS);
  }

  lemma AdmitKeeps(s: State, i: nat, token: SessionToken, now: uint64)
    requires Inv(s) && i < MAX_ACTIVE_SESSIONS && s.table[i].Free()
    requires token.clientId != ZERO_ID
    requires forall k :: 0 <= k < MAX_ACTIVE_SESSIONS && s.table[k].clientId == token.clientId
               ==> i <= k && s.table[k].Free()
    ensures Inv(Admit(s, i, token, now))
    ensures Admit(s, i, token, now).order == s.order + [i]
  {
    PushNeverFails(s, i);
  }

  // After the refresh step no slot carrying the client's id is active.
  lemma EndExistingKeeps(s: State, c: ClientId)
    requires Inv(s) && !IsLockedOut(s, c)
    ensures Inv(EndExisting(s, c))
    ensures var t := EndExisting(s, c).table;
            forall k :: 0 <= k < MAX_ACTIVE_SESSIONS && t[k].clientId == c ==> t[k].Free()
  {
    var i := FirstMatch(s.table, c);
    if i < MAX_ACTIVE_SESSIONS && s.table[i].isActive {
      DeactivateKeeps(s, i, c);
    }
  }

  // The popped slot is always active and never a locked one.
  lemma EvictOldestKeeps(s: State)
    requires Inv(s) && s.order != []
    ensures Inv(EvictOldest(s))
    ensures var v := s.order[0]; s.table[v].isActive && !s.table[v].isLockedOut && EvictOldest(s).table[v].Free()
  {
  }

  lemma RegisterKeeps(s: State, token: SessionToken, now: uint64)
    requires Inv(s)
    ensures Inv(Register(s, token, now).0)
  {
    var c := token.clientId;
    if c != ZERO_ID && !IsLockedOut(s, c) {
      EndExistingKeeps(s, c);
      var s1 := EndExisting(s, c);
      var free := FirstFree(s1.table);
      if free < MAX_ACTIVE_SESSIONS {
        AdmitKeeps(s1, free, token, now);
      } else if s1.order != [] {
        EvictOldestKeeps(s1);
        AdmitKeeps(EvictOldest(s1), s1.order[0], token, now);
      }
    }
  }

  lemma ValidateKeeps(s: State, c: ClientId, now: uint64)
    requires Inv(s)
    ensures Inv(Validate(s, c, now).0)
  {
    var i := FirstMatch(s.table, c);
    if i < MAX_ACTIVE_SESSIONS && s.table[i].Expired(now) {
      DeactivateKeeps(s, i, c);
    }
  }

  // Marking the anomaly before or after retiring the slot comes to the same.
  lemma RevokeIsMark(s: State, c: ClientId, isAnomaly: bool)
    requires WellFormed(s) && FirstMatch(s.table, c) < MAX_ACTIVE_SESSIONS
    ensures var i := FirstMatch(s.table, c);
            Revoke(s, c, isAnomaly) == (if isAnomaly then Mark(Deactivate(s, i, c), i) else Deactivate(s, i, c), Ok)
  {
    var i := FirstMatch(s.table, c);
    assert s.table[i].WithAnomaly().Retired() == s.table[i].Retired().WithAnomaly();
    assert Deactivate(s, i, c).table[i] == s.table[i].Retired();
    if isAnomaly {
      assert s.table[i := s.table[i].WithAnomaly()][i := s.table[i].WithAnomaly().Retired()]
          == s.table[i := s.table[i].Retired()][i := s.table[i].Retired().WithAnomaly()];
    } else {
      assert s.table[i := s.table[i]] == s.table;
    }
  }

  function Mark(s: State, i: nat): State
    requires WellFormed(s) && i < MAX_ACTIVE_SESSIONS
  {
    s.(table := s.table[i := s.table[i].WithAnomaly()])
  }

  lemma MarkKeeps(s: State, i: nat)
    requires Inv(s) && i < MAX_ACTIVE_SESSIONS && !s.table[i].isActive
    requires FirstMatch(s.table, s.table[i].clientId) == i
    ensures Inv(Mark(s, i))
  {
  }

  lemma RevokeKeeps(s: State, c: ClientId, isAnomaly: bool)
    requires Inv(s)
    ensures Inv(Revoke(s, c, isAnomaly).0)
  {
    var i := FirstMatch(s.table, c);
    if i < MAX_ACTIVE_SESSIONS {
      RevokeIsMark(s, c, isAnomaly);
      DeactivateKeeps(s, i, c);
      SameMatch(s.table, Deactivate(s, i, c).table, c);
      MarkKeeps(Deactivate(s, i, c), i);
    }
  }

  // Lookup sees only the ids.
  lemma SameMatch(t: seq<TokenSlot>, u: seq<TokenSlot>, c: ClientId)
    requires |t| == |u| && forall k :: 0 <= k < |t| ==> t[k].clientId == u[k].clientId
    ensures FirstMatch(t, c) == FirstMatch(u, c)
  {
  }

  lemma {:induction false} SweepToKeeps(s: State, now: uint64, n: nat)
    requires Inv(s) && n <= MAX_ACTIVE_SESSIONS
    ensures Inv(SweepTo(s, now, n))
  {
    if n != 0 {
      SweepToKeeps(s, now, n - 1);
      var p := SweepTo(s, now, n - 1);
      DeactivateKeeps(p, n - 1, p.table[n - 1].clientId);
    }
  }

  lemma StepKeeps(s: State, op: Op)
    requires Inv(s)
    ensures Inv(Step(s, op).0)
  {
    match op
    case RegisterOp(token, now) => RegisterKeeps(s, token, now);
    case ValidateOp(c, now) => ValidateKeeps(s, c, now);
    case RevokeOp(c, isAnomaly) => RevokeKeeps(s, c, isAnomaly);
    case SweepOp(now) => SweepToKeeps(s, now, MAX_ACTIVE_SESSIONS);
  }

  lemma {:induction false} RunKeeps(s: State, ops: seq<Op>)
    requires Inv(s)
    ensures Inv(Run(s, ops))
    decreases |ops|
  {
    if ops != [] {
      StepKeeps(s, ops[0]);
      RunKeeps(Step(s, ops[0]).0, ops[1..]);
    }
  }
}
