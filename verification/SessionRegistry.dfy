/**
 The meaning of the session table: a partial map from clients to sessions, the order in which
 those sessions were admitted, and the set of barred clients. Every table operation simulates
 the corresponding operation on this registry, whatever stale ids inactive slots still carry.
 */
module SessionRegistry {
  import opened Bytes
  import opened CircularBuffers
  import opened SessionTable
  import opened SessionInvariants

  datatype Session = Session(key: SessionKey, nonce: Nonce, issuedAt: uint64, lastSeen: uint64)

  datatype Registry = Registry(order: seq<ClientId>, live: map<ClientId, Session>, barred: set<ClientId>) {
    function Drop(c: ClientId): Registry {
      Registry(Without(order, c), live - {c}, barred)
    }

    function Put(c: ClientId, session: Session): Registry {
      Registry(order + [c], live[c := session], barred)
    }

    predicate Stale(c: ClientId, now: uint64) {
      c in live && Age(now, live[c].issuedAt) > TOKEN_LIFETIME_MS
    }

    // The oldest session makes room only when sessions and barred clients fill the table.
    function Register(token: SessionToken, now: uint64): (Registry, TlmStatus) {
      var c := token.clientId;
      if c == ZERO_ID then (this, InvalidParam)
      else if c in barred then (this, LockedOut)
      else
        var r := Drop(c);
        var session := Session(token.key, token.nonce, now, now);
        if |r.order| + |barred| < MAX_ACTIVE_SESSIONS then (r.Put(c, session), Ok)
        else if r.order == [] then (r, TableFull)
        else (r.Drop(r.order[0]).Put(c, session), Ok)
    }

    function Validate(c: ClientId, now: uint64): (Registry, TlmStatus, Option<SessionKey>) {
      if c in barred then (this, LockedOut, None)
      else if c !in live then (this, NotFound, None)
      else if Stale(c, now) then (Drop(c), NotFound, None)
      else (this.(live := live[c := live[c].(lastSeen := now)]), Ok, Some(live[c].key))
    }

    // Which strikes a slot has collected is not visible here; `bars` says whether they suffice.
    function Revoke(c: ClientId, bars: bool): Registry {
      Drop(c).(barred := barred + if bars then {c} else {})
    }

    function Sweep(now: uint64): Registry {
      Registry(KeepFresh(order, now), map c | c in live && !Stale(c, now) :: live[c], barred)
    }

    function KeepFresh(cs: seq<ClientId>, now: uint64): seq<ClientId> {
      if cs == [] then []
      else (if Stale(cs[0], now) then [] else [cs[0]]) + KeepFresh(cs[1..], now)
    }
  }

  const EMPTY_REGISTRY := Registry([], map[], {})

  function SessionOf(t: TokenSlot): Session {
    Session(t.sessionKey, t.sessionNonce, t.issuedAt, t.lastSeen)
  }

  // The session that lookup by id finds, if the slot it finds is active.
  function Lookup(t: seq<TokenSlot>, c: ClientId): Option<Session> {
    var i := FirstMatch(t, c);
    if i < |t| && t[i].isActive then Some(SessionOf(t[i])) else None
  }

  predicate Below(order: seq<nat>, n: nat) {
    forall k :: 0 <= k < |order| ==> order[k] < n
  }

  // The clients of the slots listed in `order`.
  function Ids(t: seq<TokenSlot>, order: seq<nat>): (cs: seq<ClientId>)
    requires Below(order, |t|)
    ensures |cs| == |order| && forall k :: 0 <= k < |cs| ==> cs[k] == t[order[k]].clientId
  {
    seq(|order|, k requires 0 <= k < |order| => t[order[k]].clientId)
  }

  ghost predicate HasSession(r: Registry, c: ClientId, session: Option<Session>) {
    if c in r.live then session == Some(r.live[c]) else session == None
  }

  ghost predicate Represents(s: State, r: Registry)
    requires WellFormed(s)
  {
    && r.order == Ids(s.table, s.order)
    && (forall c: ClientId :: HasSession(r, c, Lookup(s.table, c)))
    && (forall c: ClientId :: c in r.barred <==> Barred(s.table, c))
  }

  // --- Lookup, one client at a time ---------------------------------------------------------

  // A client is barred exactly when some locked slot carries its id, and then has no session.
  lemma BarredIffSomeLocked(t: seq<TokenSlot>, c: ClientId)
    requires FirstOwns(t) && SlotsOk(t)
    ensures Barred(t, c) <==> exists k :: 0 <= k < |t| && t[k].isLockedOut && t[k].clientId == c
    ensures Barred(t, c) ==> Lookup(t, c) == None
  {
  }

  // Erasing slot `i` ends the session of the client whose slot it is, and nobody else's.
  lemma RetireLookup(t: seq<TokenSlot>, i: nat, c: ClientId)
    requires FirstOwns(t) && SlotsOk(t) && i < |t|
    ensures var u := t[i := t[i].Retired()];
            && Lookup(u, c) == (if t[i].isActive && c == t[i].clientId then None else Lookup(t, c))
            && Barred(u, c) == Barred(t, c)
  {
    var u := t[i := t[i].Retired()];
    assert FirstMatch(u, c) == FirstMatch(t, c) by {
      assert forall k :: 0 <= k < |t| ==> u[k].clientId == t[k].clientId;
    }
    if t[i].isActive && c == t[i].clientId {
      OwnerIsFirst(t, i);
    }
  }

  // Filling free slot `i` gives its new client a session and hides only a stale id.
  lemma AdmitLookup(t: seq<TokenSlot>, i: nat, token: SessionToken, now: uint64, c: ClientId)
    requires FirstOwns(t) && SlotsOk(t) && i < |t| && t[i].Free()
    requires forall k :: 0 <= k < |t| && t[k].clientId == token.clientId ==> i <= k && t[k].Free()
    ensures var u := t[i := t[i].Holding(token, now)];
            && Lookup(u, c) == (if c == token.clientId then Some(Session(token.key, token.nonce, now, now))
                                else Lookup(t, c))
            && Barred(u, c) == Barred(t, c)
  {
    var u := t[i := t[i].Holding(token, now)];
    assert forall k :: 0 <= k < |t| && k != i ==> u[k] == t[k];
    assert u[i].clientId == token.clientId;
    var m := FirstMatch(t, c);
    if c == token.clientId {
      assert FirstMatch(u, c) == i;
    } else if m != i {
      assert FirstMatch(u, c) == m;
    } else {
      assert forall k :: i < k < |t| && t[k].clientId == c ==> t[k].Free();
    }
  }

  // --- The order ----------------------------------------------------------------------------

  lemma {:induction false} IdsWithout(t: seq<TokenSlot>, order: seq<nat>, i: nat)
    requires Below(order, |t|)
    requires i < |t|
    requires forall k :: 0 <= k < |order| && order[k] != i ==> t[order[k]].clientId != t[i].clientId
    ensures Below(Without<nat>(order, i), |t|)
    ensures Ids(t, Without<nat>(order, i)) == Without(Ids(t, order), t[i].clientId)
  {
    assert Below(Without<nat>(order, i), |t|) by {
      WithoutMembers<nat>(order, i);
    }
    if order != [] {
      IdsWithout(t, order[1..], i);
      assert Ids(t, order)[1..] == Ids(t, order[1..]);
      if order[0] != i {
        assert Ids(t, Without<nat>(order, i)) == [t[order[0]].clientId] + Ids(t, Without<nat>(order[1..], i));
      }
    }
  }

  // Each client has at most one session, and the order lists exactly the clients that have one.
  lemma OrderListsLive(s: State, r: Registry)
    requires Inv(s) && Represents(s, r)
    ensures Distinct(r.order)
    ensures forall c :: c in r.order <==> c in r.live
    ensures |r.order| == |r.live|
  {
    forall i, j | 0 <= i < j < |r.order|
      ensures r.order[i] != r.order[j]
    {
      assert s.order[i] in s.order && s.order[j] in s.order;
    }
    forall c | c in r.live
      ensures c in r.order
    {
      assert HasSession(r, c, Lookup(s.table, c));
      assert FirstMatch(s.table, c) in s.order;
      var k :| 0 <= k < |s.order| && s.order[k] == FirstMatch(s.table, c);
      assert r.order[k] == c;
    }
    forall k | 0 <= k < |r.order|
      ensures r.order[k] in r.live
    {
      assert s.order[k] in s.order;
      OwnerIsFirst(s.table, s.order[k]);
      assert HasSession(r, r.order[k], Lookup(s.table, r.order[k]));
    }
    DistinctCardinality(r.order, r.live.Keys);
  }

  lemma {:induction false} DistinctCardinality<T(!new)>(s: seq<T>, elems: set<T>)
    requires Distinct(s) && forall x :: x in s <==> x in elems
    ensures |s| == |elems|
  {
    if s != [] {
      DistinctTail(s);
      assert s == [s[0]] + s[1..];
      DistinctCardinality(s[1..], elems - {s[0]});
    } else {
      assert elems == {};
    }
  }

  // --- Capacity -----------------------------------------------------------------------------

  function LockedCount(t: seq<TokenSlot>): (n: nat)
    ensures n <= |t|
  {
    if t == [] then 0
    else LockedCount(t[..|t| - 1]) + if t[|t| - 1].isLockedOut then 1 else 0
  }

  lemma {:induction false} ActiveCountIsOrder(t: seq<TokenSlot>, order: seq<nat>)
    requires Distinct(order)
    requires forall i: nat :: i in order <==> i < |t| && t[i].isActive
    ensures ActiveCount(t) == |order|
  {
    if t == [] {
      assert forall k :: 0 <= k < |order| ==> order[k] !in order;
    } else {
      var last := |t| - 1;
      WithoutDistinct(order, last);
      WithoutMembers(order, last);
      ActiveCountIsOrder(t[..last], Without(order, last));
    }
  }

  ghost predicate LockedBy(t: seq<TokenSlot>, c: ClientId) {
    exists k :: 0 <= k < |t| && t[k].isLockedOut && t[k].clientId == c
  }

  lemma {:induction false} LockedCardinality(t: seq<TokenSlot>, barred: set<ClientId>)
    requires FirstOwns(t)
    requires forall c: ClientId :: c in barred <==> LockedBy(t, c)
    ensures LockedCount(t) == |barred|
  {
    if t == [] {
      assert barred == {};
    } else {
      var last := |t| - 1;
      var id := t[last].clientId;
      assert forall c: ClientId :: LockedBy(t, c) <==> LockedBy(t[..last], c) || (t[last].isLockedOut && id == c);
      if t[last].isLockedOut {
        assert !LockedBy(t[..last], id);
        LockedCardinality(t[..last], barred - {id});
      } else {
        LockedCardinality(t[..last], barred);
      }
    }
  }

  lemma {:induction false} FullIffNoFree(t: seq<TokenSlot>)
    requires forall i :: 0 <= i < |t| && t[i].isLockedOut ==> !t[i].isActive
    ensures ActiveCount(t) + LockedCount(t) <= |t|
    ensures ActiveCount(t) + LockedCount(t) == |t| <==> forall i :: 0 <= i < |t| ==> !t[i].Free()
  {
    if t != [] {
      var last := |t| - 1;
      FullIffNoFree(t[..last]);
      assert forall i :: 0 <= i < last ==> t[..last][i] == t[i];
    }
  }

  // Sessions and barred clients share the eight slots; no slot is free exactly when they fill it.
  lemma Capacity(s: State, r: Registry)
    requires Inv(s) && Represents(s, r)
    ensures ActiveCount(s.table) == |r.order| && LockedCount(s.table) == |r.barred|
    ensures |r.order| + |r.barred| <= 8
    ensures FirstFree(s.table) == MAX_ACTIVE_SESSIONS <==> |r.order| + |r.barred| == MAX_ACTIVE_SESSIONS
  {
    CountsFill(s);
    forall c: ClientId
      ensures c in r.barred <==> LockedBy(s.table, c)
    {
      BarredIffSomeLocked(s.table, c);
    }
    LockedCardinality(s.table, r.barred);
  }

  lemma CountsFill(s: State)
    requires Inv(s)
    ensures ActiveCount(s.table) == |s.order|
    ensures |s.order| + LockedCount(s.table) <= MAX_ACTIVE_SESSIONS
    ensures FirstFree(s.table) == MAX_ACTIVE_SESSIONS <==> |s.order| + LockedCount(s.table) == MAX_ACTIVE_SESSIONS
  {
    forall i: nat
      ensures i in s.order <==> i < |s.table| && s.table[i].isActive
    {
    }
    ActiveCountIsOrder(s.table, s.order);
    FullIffNoFree(s.table);
  }

  // --- Simulation of the building blocks ----------------------------------------------------

  lemma DeactivateSimulates(s: State, r: Registry, i: nat, c: ClientId)
    requires Inv(s) && Represents(s, r) && i < MAX_ACTIVE_SESSIONS
    ensures Represents(Deactivate(s, i, c), if s.table[i].isActive then r.Drop(s.table[i].clientId) else r)
  {
    var r' := if s.table[i].isActive then r.Drop(s.table[i].clientId) else r;
    var u := Deactivate(s, i, c).table;
    forall d: ClientId
      ensures HasSession(r', d, Lookup(u, d)) && (d in r'.barred <==> Barred(u, d))
    {
      RetireLookup(s.table, i, d);
      assert HasSession(r, d, Lookup(s.table, d));
    }
    assert r'.order == Ids(u, Deactivate(s, i, c).order) by {
      DeactivateOrder(s, i, c);
    }
  }

  lemma SameIds(t: seq<TokenSlot>, u: seq<TokenSlot>, order: seq<nat>)
    requires |t| == |u| && Below(order, |t|)
    requires forall k :: 0 <= k < |t| ==> t[k].clientId == u[k].clientId
    ensures Ids(t, order) == Ids(u, order)
  {
  }

  lemma DeactivateOrder(s: State, i: nat, c: ClientId)
    requires Inv(s) && i < MAX_ACTIVE_SESSIONS
    ensures var s' := Deactivate(s, i, c);
            && Below(s'.order, |s'.table|)
            && Ids(s'.table, s'.order) ==
                 if s.table[i].isActive then Without(Ids(s.table, s.order), s.table[i].clientId)
                 else Ids(s.table, s.order)
  {
    var s' := Deactivate(s, i, c);
    if s.table[i].isActive {
      forall k | 0 <= k < |s.order| && s.order[k] != i
        ensures s.table[s.order[k]].clientId != s.table[i].clientId
      {
        assert s.order[k] in s.order;
      }
      IdsWithout(s.table, s.order, i);
    } else {
      WithoutAbsent<nat>(s.order, i);
    }
    SameIds(s.table, s'.table, s'.order);
  }

  lemma AdmitSimulates(s: State, r: Registry, i: nat, token: SessionToken, now: uint64)
    requires Inv(s) && Represents(s, r) && i < MAX_ACTIVE_SESSIONS && s.table[i].Free()
    requires token.clientId != ZERO_ID
    requires forall k :: 0 <= k < MAX_ACTIVE_SESSIONS && s.table[k].clientId == token.clientId
               ==> i <= k && s.table[k].Free()
    ensures Represents(Admit(s, i, token, now), r.Put(token.clientId, Session(token.key, token.nonce, now, now)))
  {
    var r' := r.Put(token.clientId, Session(token.key, token.nonce, now, now));
    var t, u := s.table, s.table[i := s.table[i].Holding(token, now)];
    forall d: ClientId
      ensures HasSession(r', d, Lookup(u, d)) && (d in r'.barred <==> Barred(u, d))
    {
      AdmitLookup(t, i, token, now, d);
      assert HasSession(r, d, Lookup(t, d));
    }
    AdmitKeeps(s, i, token, now);
    assert i !in s.order;
    assert Ids(u, s.order + [i]) == Ids(t, s.order) + [token.clientId];
  }

  lemma EndExistingSimulates(s: State, r: Registry, c: ClientId)
    requires Inv(s) && Represents(s, r)
    ensures Represents(EndExisting(s, c), r.Drop(c))
  {
    var i := FirstMatch(s.table, c);
    assert HasSession(r, c, Lookup(s.table, c));
    if i < MAX_ACTIVE_SESSIONS && s.table[i].isActive {
      DeactivateSimulates(s, r, i, c);
    } else {
      DropAbsent(s, r, c);
    }
  }

  lemma DropAbsent(s: State, r: Registry, c: ClientId)
    requires Inv(s) && Represents(s, r) && c !in r.live
    ensures r.Drop(c) == r
  {
    OrderListsLive(s, r);
    DropNobody(r, c);
  }

  lemma DropNobody(r: Registry, c: ClientId)
    requires c !in r.order && c !in r.live
    ensures r.Drop(c) == r
  {
    WithoutAbsent(r.order, c);
  }

  lemma EvictOldestSimulates(s: State, r: Registry)
    requires Inv(s) && Represents(s, r) && s.order != []
    ensures Represents(EvictOldest(s), r.Drop(r.order[0]))
  {
    var v := s.order[0];
    assert v in s.order;
    DistinctTail(s.order);
    WithoutAbsent<nat>(s.order[1..], v);
    DeactivateSimulates(s, r, v, s.table[v].clientId);
  }

  lemma TouchSimulates(s: State, r: Registry, i: nat, now: uint64)
    requires Inv(s) && Represents(s, r) && i < MAX_ACTIVE_SESSIONS && s.table[i].isActive
    ensures var c := s.table[i].clientId;
            && c in r.live
            && Represents(s.(table := s.table[i := s.table[i].(lastSeen := now)]),
                          r.(live := r.live[c := r.live[c].(lastSeen := now)]))
  {
    var t := s.table;
    var u := t[i := t[i].(lastSeen := now)];
    var c := t[i].clientId;
    OwnerIsFirst(t, i);
    assert HasSession(r, c, Lookup(t, c));
    var r' := r.(live := r.live[c := r.live[c].(lastSeen := now)]);
    forall d: ClientId
      ensures HasSession(r', d, Lookup(u, d)) && (d in r'.barred <==> Barred(u, d))
    {
      assert HasSession(r, d, Lookup(t, d));
      TouchLookup(t, i, now, d);
    }
    assert Ids(u, s.order) == Ids(t, s.order);
  }

  lemma TouchLookup(t: seq<TokenSlot>, i: nat, now: uint64, c: ClientId)
    requires FirstOwns(t) && i < |t| && t[i].isActive
    ensures var u := t[i := t[i].(lastSeen := now)];
            && Lookup(u, c) == (if c == t[i].clientId then Some(SessionOf(t[i]).(lastSeen := now)) else Lookup(t, c))
            && Barred(u, c) == Barred(t, c)
  {
    OwnerIsFirst(t, i);
    SameMatch(t, t[i := t[i].(lastSeen := now)], c);
  }

  // --- Simulation of the operations ---------------------------------------------------------

  lemma RegisterSimulates(s: State, r: Registry, token: SessionToken, now: uint64)
    requires Inv(s) && Represents(s, r)
    ensures var s', status := Register(s, token, now).0, Register(s, token, now).1;
            && Represents(s', r.Register(token, now).0)
            && status == r.Register(token, now).1
  {
    var c := token.clientId;
    assert c in r.barred <==> Barred(s.table, c);
    if c != ZERO_ID && !IsLockedOut(s, c) {
      EndExistingKeeps(s, c);
      EndExistingSimulates(s, r, c);
      PlaceSimulates(EndExisting(s, c), r.Drop(c), token, now);
    }
  }

  // The second half of a registration, once no slot of the client is active or locked.
  lemma PlaceSimulates(s: State, r: Registry, token: SessionToken, now: uint64)
    requires Inv(s) && Represents(s, r) && token.clientId != ZERO_ID
    requires forall k :: 0 <= k < MAX_ACTIVE_SESSIONS && s.table[k].clientId == token.clientId ==> s.table[k].Free()
    ensures |r.order| == |s.order|
    ensures var session := Session(token.key, token.nonce, now, now);
            var free := FirstFree(s.table);
            if |r.order| + |r.barred| < MAX_ACTIVE_SESSIONS then
              free < MAX_ACTIVE_SESSIONS && Represents(Admit(s, free, token, now), r.Put(token.clientId, session))
            else
              && free == MAX_ACTIVE_SESSIONS
              && (s.order != [] ==> Represents(Admit(EvictOldest(s), s.order[0], token, now),
                                               r.Drop(r.order[0]).Put(token.clientId, session)))
  {
    Capacity(s, r);
    var free := FirstFree(s.table);
    if free < MAX_ACTIVE_SESSIONS {
      AdmitSimulates(s, r, free, token, now);
    } else if s.order != [] {
      EvictOldestKeeps(s);
      EvictOldestSimulates(s, r);
      AdmitSimulates(EvictOldest(s), r.Drop(r.order[0]), s.order[0], token, now);
    }
  }

  lemma ValidateSimulates(s: State, r: Registry, c: ClientId, now: uint64)
    requires Inv(s) && Represents(s, r)
    ensures var v, w := Validate(s, c, now), r.Validate(c, now);
            Represents(v.0, w.0) && v.1 == w.1 && v.2 == w.2
  {
    assert c in r.barred <==> Barred(s.table, c);
    assert HasSession(r, c, Lookup(s.table, c));
    var i := FirstMatch(s.table, c);
    if i < MAX_ACTIVE_SESSIONS && s.table[i].isActive {
      DeactivateSimulates(s, r, i, c);
      TouchSimulates(s, r, i, now);
    }
  }

  // The strikes of the slot that lookup finds for `c`; zero when no slot carries `c`.
  function Strikes(t: seq<TokenSlot>, c: ClientId): nat {
    var i := FirstMatch(t, c);
    if i < |t| then t[i].anomalyCount else 0
  }

  predicate Carried(t: seq<TokenSlot>, c: ClientId) {
    FirstMatch(t, c) < |t|
  }

  // Revocation always ends the session and never touches another client's; whether it reports
  // success depends on a possibly stale id, and it bars the client exactly at the third strike.
  lemma RevokeSimulates(s: State, r: Registry, c: ClientId, isAnomaly: bool)
    requires Inv(s) && Represents(s, r)
    ensures var s', status := Revoke(s, c, isAnomaly).0, Revoke(s, c, isAnomaly).1;
            && status == (if Carried(s.table, c) then Ok else NotFound)
            && Represents(s', r.Revoke(c, isAnomaly && Carried(s.table, c)
                                          && Strikes(s.table, c) + 1 >= MAX_ANOMALY_COUNT))
  {
    assert HasSession(r, c, Lookup(s.table, c));
    var bars := isAnomaly && Carried(s.table, c) && Strikes(s.table, c) + 1 >= MAX_ANOMALY_COUNT;
    if Carried(s.table, c) {
      RevokeCarried(s, r, c, isAnomaly, bars);
    } else {
      DropAbsent(s, r, c);
      assert r.Revoke(c, bars) == r;
    }
  }

  lemma RevokeCarried(s: State, r: Registry, c: ClientId, isAnomaly: bool, bars: bool)
    requires Inv(s) && Represents(s, r) && Carried(s.table, c)
    requires bars <==> isAnomaly && Strikes(s.table, c) + 1 >= MAX_ANOMALY_COUNT
    ensures Represents(Revoke(s, c, isAnomaly).0, r.Revoke(c, bars))
  {
    var r' := r.Revoke(c, bars);
    var i, u := FirstMatch(s.table, c), Revoke(s, c, isAnomaly).0.table;
    forall d: ClientId
      ensures HasSession(r', d, Lookup(u, d)) && (d in r'.barred <==> Barred(u, d))
    {
      RevokeLookup(s, c, isAnomaly, d);
      assert HasSession(r, d, Lookup(s.table, d));
    }
    RevokeOrder(s, r, c, isAnomaly);
  }

  lemma RevokeOrder(s: State, r: Registry, c: ClientId, isAnomaly: bool)
    requires Inv(s) && Represents(s, r) && Carried(s.table, c)
    ensures var s' := Revoke(s, c, isAnomaly).0; Ids(s'.table, s'.order) == r.Drop(c).order
  {
    var i := FirstMatch(s.table, c);
    var v := Deactivate(s, i, c);
    DeactivateOrder(s, i, c);
    if !s.table[i].isActive {
      assert HasSession(r, c, Lookup(s.table, c));
      DropAbsent(s, r, c);
    }
    assert Ids(v.table, v.order) == r.Drop(c).order;
    RevokeIsMark(s, c, isAnomaly);
    SameIds(v.table, Mark(v, i).table, v.order);
  }

  lemma RevokeLookup(s: State, c: ClientId, isAnomaly: bool, d: ClientId)
    requires Inv(s) && Carried(s.table, c)
    ensures var t, u := s.table, Revoke(s, c, isAnomaly).0.table;
            && Lookup(u, d) == (if c == d then None else Lookup(t, d))
            && Barred(u, d) == (Barred(t, d) ||
                                (c == d && isAnomaly && Strikes(t, c) + 1 >= MAX_ANOMALY_COUNT))
  {
    var i := FirstMatch(s.table, c);
    RevokeIsMark(s, c, isAnomaly);
    RetireLookup(s.table, i, d);
    SameMatch(s.table, s.table[i := s.table[i].Retired()], d);
    MarkLookup(s.table[i := s.table[i].Retired()], i, d);
  }

  lemma MarkLookup(t: seq<TokenSlot>, i: nat, d: ClientId)
    requires i < |t| && SlotOk(t[i]) && !t[i].isActive
    ensures var u := t[i := t[i].WithAnomaly()];
            && Lookup(u, d) == Lookup(t, d)
            && Barred(u, d) == (Barred(t, d) ||
                                (FirstMatch(t, d) == i && t[i].anomalyCount + 1 >= MAX_ANOMALY_COUNT))
  {
    SameMatch(t, t[i := t[i].WithAnomaly()], d);
  }

  // --- The sweep ----------------------------------------------------------------------------

  // The sweep retires exactly the expired slots among the first `n`.
  lemma {:induction false} SweepToTable(s: State, now: uint64, n: nat, i: nat)
    requires Inv(s) && n <= MAX_ACTIVE_SESSIONS && i < MAX_ACTIVE_SESSIONS
    ensures SweepTo(s, now, n).table[i] ==
            if i < n && s.table[i].Expired(now) then s.table[i].Retired() else s.table[i]
  {
    if n != 0 {
      SweepToTable(s, now, n - 1, i);
    }
  }

  lemma {:induction false} SweepToSimulates(s: State, r: Registry, now: uint64, n: nat)
    requires Inv(s) && Represents(s, r) && n <= MAX_ACTIVE_SESSIONS
    ensures var r' := Swept(r, s.table, now, n);
            Represents(SweepTo(s, now, n), r')
  {
    if n != 0 {
      SweepToSimulates(s, r, now, n - 1);
      SweepToKeeps(s, now, n - 1);
      SweepToTable(s, now, n - 1, n - 1);
      ExpireSlotSimulates(SweepTo(s, now, n - 1), Swept(r, s.table, now, n - 1), n - 1, now);
    }
  }

  lemma ExpireSlotSimulates(s: State, r: Registry, i: nat, now: uint64)
    requires Inv(s) && Represents(s, r) && i < MAX_ACTIVE_SESSIONS
    ensures Represents(ExpireSlot(s, i, now),
                       if s.table[i].Expired(now) then r.Drop(s.table[i].clientId) else r)
  {
    DeactivateSimulates(s, r, i, s.table[i].clientId);
  }

  // The registry after dropping the clients of the expired slots among the first `n`.
  function Swept(r: Registry, t: seq<TokenSlot>, now: uint64, n: nat): Registry
    requires n <= |t|
  {
    if n == 0 then r
    else
      var p := Swept(r, t, now, n - 1);
      if t[n - 1].Expired(now) then p.Drop(t[n - 1].clientId) else p
  }

  function Fresh(r: Registry, t: seq<TokenSlot>, now: uint64, n: nat): set<ClientId>
    requires n <= |t|
  {
    set c | c in r.live && !(FirstMatch(t, c) < n && r.Stale(c, now))
  }

  function Restrict(r: Registry, f: set<ClientId>): Registry {
    Registry(Keep(r.order, f), map c | c in r.live && c in f :: r.live[c], r.barred)
  }

  lemma RestrictDrop(r: Registry, f: set<ClientId>, c: ClientId)
    ensures Restrict(r, f).Drop(c) == Restrict(r, f - {c})
  {
    KeepWithout(r.order, f, c);
  }

  lemma RestrictToAll(r: Registry)
    requires forall c :: c in r.order ==> c in r.live
    ensures Restrict(r, r.live.Keys) == r
  {
    KeepAll(r.order, r.live.Keys);
    assert (map c | c in r.live && c in r.live.Keys :: r.live[c]) == r.live;
  }

  // Dropping them one slot at a time restricts the registry to the sessions still fresh.
  lemma {:induction false} SweptIsRestriction(s: State, r: Registry, now: uint64, n: nat)
    requires Inv(s) && Represents(s, r) && n <= MAX_ACTIVE_SESSIONS
    ensures Swept(r, s.table, now, n) == Restrict(r, Fresh(r, s.table, now, n))
  {
    if n == 0 {
      NothingSwept(s, r, now);
    } else {
      SweptIsRestriction(s, r, now, n - 1);
      NextSwept(s, r, now, n - 1);
    }
  }

  lemma NothingSwept(s: State, r: Registry, now: uint64)
    requires Inv(s) && Represents(s, r)
    ensures Restrict(r, Fresh(r, s.table, now, 0)) == r
  {
    assert forall c :: c in r.order ==> c in r.live by {
      OrderListsLive(s, r);
    }
    assert Fresh(r, s.table, now, 0) == r.live.Keys;
    RestrictToAll(r);
  }

  lemma NextSwept(s: State, r: Registry, now: uint64, i: nat)
    requires Inv(s) && Represents(s, r) && i < MAX_ACTIVE_SESSIONS
    requires Swept(r, s.table, now, i) == Restrict(r, Fresh(r, s.table, now, i))
    ensures Swept(r, s.table, now, i + 1) == Restrict(r, Fresh(r, s.table, now, i + 1))
  {
    FreshNext(s, r, now, i);
    RestrictDrop(r, Fresh(r, s.table, now, i), s.table[i].clientId);
  }

  lemma FreshNext(s: State, r: Registry, now: uint64, i: nat)
    requires Inv(s) && Represents(s, r) && i < MAX_ACTIVE_SESSIONS
    ensures Fresh(r, s.table, now, i + 1) ==
            if s.table[i].Expired(now) then Fresh(r, s.table, now, i) - {s.table[i].clientId}
            else Fresh(r, s.table, now, i)
  {
    var id := s.table[i].clientId;
    if s.table[i].isActive {
      OwnerIsFirst(s.table, i);
      assert HasSession(r, id, Lookup(s.table, id));
    }
    forall c | c in r.live && FirstMatch(s.table, c) == i
      ensures c == id && s.table[i].isActive
    {
      assert HasSession(r, c, Lookup(s.table, c));
    }
  }

  function Keep(cs: seq<ClientId>, f: set<ClientId>): seq<ClientId> {
    if cs == [] then [] else (if cs[0] in f then [cs[0]] else []) + Keep(cs[1..], f)
  }

  lemma {:induction false} KeepAll(cs: seq<ClientId>, f: set<ClientId>)
    requires forall k :: 0 <= k < |cs| ==> cs[k] in f
    ensures Keep(cs, f) == cs
  {
    if cs != [] {
      KeepAll(cs[1..], f);
    }
  }

  lemma {:induction false} KeepWithout(cs: seq<ClientId>, f: set<ClientId>, c: ClientId)
    ensures Keep(cs, f - {c}) == Without(Keep(cs, f), c)
  {
    if cs != [] {
      KeepWithout(cs[1..], f, c);
      if cs[0] in f {
        assert Keep(cs, f) == [cs[0]] + Keep(cs[1..], f);
      } else {
        assert Keep(cs, f) == Keep(cs[1..], f);
      }
    }
  }

  lemma {:induction false} KeepIsKeepFresh(r: Registry, cs: seq<ClientId>, f: set<ClientId>, now: uint64)
    requires forall k :: 0 <= k < |cs| ==> (cs[k] in f <==> !r.Stale(cs[k], now))
    ensures Keep(cs, f) == r.KeepFresh(cs, now)
  {
    if cs != [] {
      KeepIsKeepFresh(r, cs[1..], f, now);
    }
  }

  lemma SweptAllIsSweep(s: State, r: Registry, now: uint64)
    requires Inv(s) && Represents(s, r)
    ensures Swept(r, s.table, now, MAX_ACTIVE_SESSIONS) == r.Sweep(now)
  {
    var f := Fresh(r, s.table, now, MAX_ACTIVE_SESSIONS);
    forall c | c in r.live
      ensures c in f <==> !r.Stale(c, now)
    {
      assert HasSession(r, c, Lookup(s.table, c));
    }
    SweptIsRestriction(s, r, now, MAX_ACTIVE_SESSIONS);
    RestrictToFresh(s, r, f, now);
  }

  lemma RestrictToFresh(s: State, r: Registry, f: set<ClientId>, now: uint64)
    requires Inv(s) && Represents(s, r)
    requires forall c :: c in f <==> c in r.live && !r.Stale(c, now)
    ensures Restrict(r, f) == r.Sweep(now)
  {
    FreshLive(r, f, now);
    assert forall k :: 0 <= k < |r.order| ==> r.order[k] in r.live by {
      OrderListsLive(s, r);
    }
    KeepIsKeepFresh(r, r.order, f, now);
  }

  lemma FreshLive(r: Registry, f: set<ClientId>, now: uint64)
    requires forall c :: c in f <==> c in r.live && !r.Stale(c, now)
    ensures Restrict(r, f).live == r.Sweep(now).live
  {
  }

  lemma SweepSimulates(s: State, r: Registry, now: uint64)
    requires Inv(s) && Represents(s, r)
    ensures Represents(Sweep(s, now), r.Sweep(now))
  {
    SweepToSimulates(s, r, now, MAX_ACTIVE_SESSIONS);
    SweptAllIsSweep(s, r, now);
  }

  // --- Refinement: the table operations compute the registry operations ---------------------

  function CarriedIds(t: seq<TokenSlot>): set<ClientId> {
    set i | 0 <= i < |t| :: t[i].clientId
  }

  ghost function View(s: State): Registry
    requires WellFormed(s)
  {
    var t := s.table;
    Registry(Ids(t, s.order),
             map c | c in CarriedIds(t) && Lookup(t, c).Some? :: Lookup(t, c).value,
             set c | c in CarriedIds(t) && Barred(t, c))
  }

  lemma ViewRepresents(s: State)
    requires WellFormed(s)
    ensures Represents(s, View(s))
  {
  }

  lemma OnlyView(s: State, r: Registry)
    requires WellFormed(s) && Represents(s, r)
    ensures r == View(s)
  {
    ViewRepresents(s);
    forall c
      ensures c in r.live <==> c in View(s).live
      ensures c in r.live ==> r.live[c] == View(s).live[c]
      ensures c in r.barred <==> c in View(s).barred
    {
      assert HasSession(r, c, Lookup(s.table, c));
      assert HasSession(View(s), c, Lookup(s.table, c));
    }
  }

  lemma InitialRefines(listening: bool)
    ensures View(Initial(listening)) == EMPTY_REGISTRY
  {
  }

  lemma RegisterRefines(s: State, token: SessionToken, now: uint64)
    requires Inv(s)
    ensures var (s', status) := Register(s, token, now);
            (View(s'), status) == View(s).Register(token, now)
  {
    ViewRepresents(s);
    RegisterSimulates(s, View(s), token, now);
    OnlyView(Register(s, token, now).0, View(s).Register(token, now).0);
  }

  lemma ValidateRefines(s: State, c: ClientId, now: uint64)
    requires Inv(s)
    ensures var (s', status, key) := Validate(s, c, now);
            (View(s'), status, key) == View(s).Validate(c, now)
  {
    ViewRepresents(s);
    ValidateSimulates(s, View(s), c, now);
    OnlyView(Validate(s, c, now).0, View(s).Validate(c, now).0);
  }

  lemma RevokeRefines(s: State, c: ClientId, isAnomaly: bool)
    requires Inv(s)
    ensures var (s', status) := Revoke(s, c, isAnomaly);
            && status == (if Carried(s.table, c) then Ok else NotFound)
            && View(s') == View(s).Revoke(c, isAnomaly && status == Ok
                                             && Strikes(s.table, c) + 1 >= 3)
  {
    ViewRepresents(s);
    RevokeSimulates(s, View(s), c, isAnomaly);
    OnlyView(Revoke(s, c, isAnomaly).0,
             View(s).Revoke(c, isAnomaly && Carried(s.table, c) && Strikes(s.table, c) + 1 >= MAX_ANOMALY_COUNT));
  }

  lemma SweepRefines(s: State, now: uint64)
    requires Inv(s)
    ensures View(Sweep(s, now)) == View(s).Sweep(now)
  {
    ViewRepresents(s);
    SweepSimulates(s, View(s), now);
    OnlyView(Sweep(s, now), View(s).Sweep(now));
  }
}
