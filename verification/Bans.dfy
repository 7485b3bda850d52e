/**
 Locking clients out on purpose: three anomalous revocations bar any client that a slot carries, and
 eight barred clients fill the table for good.
 */
module Bans {
  import opened Bytes
  import opened CircularBuffers
  import opened SessionTable
  import opened SessionInvariants
  import opened SessionRegistry
  import opened SessionRuns
  import opened StrikePolicy

  function Ban(c: ClientId): seq<Op> {
    [RevokeOp(c, true), RevokeOp(c, true), RevokeOp(c, true)]
  }

  function BannedFrom(r: Registry, c: ClientId): Registry {
    r.Drop(c).(barred := r.barred + {c})
  }

  lemma RunThree(s: State, a: Op, b: Op, c: Op)
    requires WellFormed(s)
    ensures Run(s, [a, b, c]) == Step(Step(Step(s, a).0, b).0, c).0
  {
    RunCons(s, a, [b, c]);
    RunCons(Step(s, a).0, b, [c]);
    RunCons(Step(Step(s, a).0, b).0, c, []);
  }

  ghost predicate Revoked(r: Registry, r': Registry, c: ClientId) {
    r' == r.Drop(c) || r' == BannedFrom(r, c)
  }

  lemma RevokeKeepsCarried(s: State, c: ClientId)
    requires Inv(s) && Carried(s.table, c)
    ensures var (s', status) := Step(s, RevokeOp(c, true));
            && status == Ok && Inv(s') && Carried(s'.table, c)
            && Revoked(View(s), View(s'), c)
  {
    RevokeRefines(s, c, true);
    RevokeKeeps(s, c, true);
    MovesIff(s, RevokeOp(c, true), c);
  }

  lemma DropTwice(r: Registry, c: ClientId)
    ensures r.Drop(c).Drop(c) == r.Drop(c)
  {
    WithoutMembers(r.order, c);
    WithoutAbsent(Without(r.order, c), c);
  }

  lemma RevokedTwice(r: Registry, r1: Registry, r2: Registry, c: ClientId)
    requires Revoked(r, r1, c) && Revoked(r1, r2, c)
    ensures Revoked(r, r2, c)
  {
    DropTwice(r, c);
  }

  // Three anomalous revocations in a row bar a client that some slot carries, whatever came before.
  lemma ThreeRevocationsBar(s: State, c: ClientId)
    requires Inv(s) && Carried(s.table, c)
    ensures var s' := Run(s, Ban(c)); Inv(s') && View(s') == BannedFrom(View(s), c)
  {
    var r := RevokeOp(c, true);
    var s1 := Step(s, r).0;
    var s2 := Step(s1, r).0;
    var s3 := Step(s2, r).0;
    RunThree(s, r, r, r);
    RevokeKeepsCarried(s, c);
    RevokeKeepsCarried(s1, c);
    RevokeKeepsCarried(s2, c);
    RevokedTwice(View(s), View(s1), View(s2), c);
    RevokedTwice(View(s), View(s2), View(s3), c);
    BannedAfterThree(s, c);
    BarredIsIsLockedOut(s3, c);
    BarredStays(View(s), View(s3), c);
  }

  lemma BarredStays(r: Registry, r': Registry, c: ClientId)
    requires Revoked(r, r', c) && c in r'.barred
    ensures r' == BannedFrom(r, c)
  {
    assert r' == r.Drop(c) ==> r.barred + {c} == r.barred;
  }

  lemma BannedAfterThree(s: State, c: ClientId)
    requires Inv(s) && Carried(s.table, c)
    ensures IsLockedOut(Run(s, Ban(c)), c)
  {
    var r := RevokeOp(c, true);
    var s1 := Step(s, r).0;
    var s2 := Step(s1, r).0;
    RevokeKeepsCarried(s, c);
    RevokeKeepsCarried(s1, c);
    RevokeKeepsCarried(s2, c);
    StrikesCons(s, r, [r, r], c);
    StrikesCons(s1, r, [r], c);
    StrikesCons(s2, r, [], c);
    ThirdStrikeWhileInPlace(s, Ban(c), c);
  }

  lemma StrikesCons(s: State, op: Op, rest: seq<Op>, c: ClientId)
    requires WellFormed(s) && op == RevokeOp(c, true) && Step(s, op).1 == Ok
    ensures StrikesOn(s, [op] + rest, c) == 1 + StrikesOn(Step(s, op).0, rest, c)
    ensures Stays(Step(s, op).0, rest, c) ==> Stays(s, [op] + rest, c)
  {
    assert ([op] + rest)[1..] == rest;
  }

  // --- Eight bans ---------------------------------------------------------------------------

  lemma {:induction false} RunConcat(s: State, a: seq<Op>, b: seq<Op>)
    requires WellFormed(s)
    ensures Run(s, a + b) == Run(Run(s, a), b)
    decreases |a|
  {
    if a == [] {
      assert a + b == b;
    } else {
      assert (a + b)[1..] == a[1..] + b;
      RunConcat(Step(s, a[0]).0, a[1..], b);
    }
  }

  // Each client registers once and is then banned.
  function RegisterAndBan(c: ClientId): seq<Op> {
    [RegisterOp(TokenFor(c), 0)] + Ban(c)
  }

  function BanEach(cs: seq<ClientId>): seq<Op> {
    if cs == [] then [] else BanEach(cs[..|cs| - 1]) + RegisterAndBan(cs[|cs| - 1])
  }

  ghost function OnlyBarred(cs: seq<ClientId>): Registry {
    Registry([], map[], set c | c in cs)
  }

  ghost function OneSession(cs: seq<ClientId>, token: SessionToken, at: uint64): Registry {
    Registry([token.clientId], map[token.clientId := Session(token.key, token.nonce, at, at)], set d | d in cs)
  }

  lemma AdmitsOne(cs: seq<ClientId>, token: SessionToken, at: uint64)
    requires |cs| < MAX_ACTIVE_SESSIONS && Distinct(cs) && token.clientId != ZERO_ID && token.clientId !in cs
    ensures OnlyBarred(cs).Register(token, at) == (OneSession(cs, token, at), Ok)
  {
    DistinctCardinality(cs, OnlyBarred(cs).barred);
    var c, r, session := token.clientId, OnlyBarred(cs), Session(token.key, token.nonce, at, at);
    assert r.Drop(c) == r;
    assert r.Put(c, session).order == [c] && r.Put(c, session).live == map[c := session];
  }

  lemma BansOne(cs: seq<ClientId>, token: SessionToken, at: uint64)
    ensures BannedFrom(OneSession(cs, token, at), token.clientId) == OnlyBarred(cs + [token.clientId])
  {
    var c := token.clientId;
    assert (set d | d in cs + [c]) == (set d | d in cs) + {c};
    assert [c][1..] == [] && Without([c], c) == Without([c][1..], c) == [];
    assert OneSession(cs, token, at).live - {c} == map[];
  }

  lemma RegisterThenBan(s: State, cs: seq<ClientId>, token: SessionToken, at: uint64)
    requires Inv(s) && View(s) == OnlyBarred(cs) && |cs| < MAX_ACTIVE_SESSIONS && Distinct(cs)
    requires token.clientId != ZERO_ID && token.clientId !in cs
    ensures var (s1, status) := Register(s, token, at);
            var s' := Run(s1, Ban(token.clientId));
            status == Ok && Inv(s') && View(s') == OnlyBarred(cs + [token.clientId])
  {
    var s1 := Register(s, token, at).0;
    AdmitsOne(cs, token, at);
    RegisterRefines(s, token, at);
    RegisterKeeps(s, token, at);
    LiveIsCarried(s1, token.clientId);
    ThreeRevocationsBar(s1, token.clientId);
    BansOne(cs, token, at);
  }

  lemma LiveIsCarried(s: State, c: ClientId)
    requires Inv(s) && c in View(s).live
    ensures Carried(s.table, c)
  {
    ViewRepresents(s);
    assert HasSession(View(s), c, Lookup(s.table, c));
  }

  lemma InitialBarsNobody(listening: bool)
    ensures Inv(Initial(listening)) && View(Initial(listening)) == OnlyBarred([])
  {
    InitialInv(listening);
    InitialRefines(listening);
  }

  lemma Prefix(cs: seq<ClientId>)
    requires Distinct(cs) && ZERO_ID !in cs && cs != []
    ensures var n := |cs| - 1;
            && Distinct(cs[..n]) && ZERO_ID !in cs[..n] && cs[n] !in cs[..n] && cs[n] != ZERO_ID
            && cs[..n] + [cs[n]] == cs
  {
  }

  lemma {:induction false} EachIsBarred(listening: bool, cs: seq<ClientId>)
    requires Distinct(cs) && ZERO_ID !in cs && |cs| <= MAX_ACTIVE_SESSIONS
    ensures var s := Run(Initial(listening), BanEach(cs)); Inv(s) && View(s) == OnlyBarred(cs)
  {
    if cs == [] {
      InitialBarsNobody(listening);
    } else {
      var n := |cs| - 1;
      Prefix(cs);
      EachIsBarred(listening, cs[..n]);
      RunConcat(Initial(listening), BanEach(cs[..n]), RegisterAndBan(cs[n]));
      var s := Run(Initial(listening), BanEach(cs[..n]));
      RunCons(s, RegisterOp(TokenFor(cs[n]), 0), Ban(cs[n]));
      RegisterThenBan(s, cs[..n], TokenFor(cs[n]), 0);
    }
  }

  // Any eight clients fill the table for good: once each has registered and been revoked three times
  // as an anomaly, every other client is refused with kTableFull, whatever happens afterwards.
  lemma EightBansFillTheTable(listening: bool, cs: seq<ClientId>, ops: seq<Op>, token: SessionToken, now: uint64)
    requires Distinct(cs) && ZERO_ID !in cs && |cs| == 8
    requires token.clientId != ZERO_ID
    ensures var s := Run(Run(Initial(listening), BanEach(cs)), ops);
            && LockedCount(s.table) == 8
            && Register(s, token, now).1 == if token.clientId in cs then LockedOut else TableFull
  {
    var s := Run(Initial(listening), BanEach(cs));
    EachIsBarred(listening, cs);
    DistinctCardinality(cs, View(s).barred);
    ViewRepresents(s);
    Capacity(s, View(s));
    FullForGood(s, ops, token, now);
    BarredIsIsLockedOut(s, token.clientId);
  }

  // Eight clients to do it with.
  function Client(k: nat): ClientId
    requires k < MAX_ACTIVE_SESSIONS
  {
    [(k + 1) as byte, 0, 0, 0, 0, 0, 0, 0]
  }

  function EightClients(): (cs: seq<ClientId>)
    ensures |cs| == MAX_ACTIVE_SESSIONS && forall k :: 0 <= k < |cs| ==> cs[k] == Client(k)
  {
    seq(MAX_ACTIVE_SESSIONS, k requires 0 <= k < MAX_ACTIVE_SESSIONS => Client(k))
  }

  lemma EightClientsDiffer()
    ensures Distinct(EightClients()) && ZERO_ID !in EightClients()
  {
    forall j, k | 0 <= j < k < MAX_ACTIVE_SESSIONS
      ensures Client(j) != Client(k)
    {
      assert Client(j)[0] == (j + 1) as byte && Client(k)[0] == (k + 1) as byte;
    }
    forall k | 0 <= k < MAX_ACTIVE_SESSIONS
      ensures Client(k) != ZERO_ID
    {
      assert Client(k)[0] == (k + 1) as byte && ZERO_ID[0] == 0;
    }
  }
}
