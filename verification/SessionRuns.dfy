/**
 Theorems about whole runs of the session table: lockout is permanent, sessions and notices
 balance, strikes are accounted for, the oldest session is the one evicted, and no session
 outlives the periodic scan by more than one period.
 */
module SessionRuns {
  import opened Bytes
  import opened CircularBuffers
  import opened SessionTable
  import opened SessionInvariants
  import opened SessionRegistry

  // --- Lockout ------------------------------------------------------------------------------

  lemma BarredIsIsLockedOut(s: State, c: ClientId)
    requires WellFormed(s)
    ensures IsLockedOut(s, c) <==> c in View(s).barred
  {
  }

  // The client an operation may lock out.
  function MayBar(op: Op): set<ClientId> {
    if op.RevokeOp? && op.isAnomaly then {op.client} else {}
  }

  ghost predicate BarsOnly(r: Registry, r': Registry, named: set<ClientId>) {
    r.barred <= r'.barred <= r.barred + named
  }

  lemma StepBars(s: State, op: Op)
    requires Inv(s)
    ensures BarsOnly(View(s), View(Step(s, op).0), MayBar(op))
  {
    match op
    case RegisterOp(token, now) => RegisterBars(s, token, now);
    case ValidateOp(c, now) => ValidateBars(s, c, now);
    case RevokeOp(c, isAnomaly) => RevokeBars(s, c, isAnomaly);
    case SweepOp(now) => SweepRefines(s, now);
  }

  lemma RegisterBars(s: State, token: SessionToken, now: uint64)
    requires Inv(s)
    ensures BarsOnly(View(s), View(Register(s, token, now).0), {})
  {
    RegisterRefines(s, token, now);
  }

  lemma ValidateBars(s: State, c: ClientId, now: uint64)
    requires Inv(s)
    ensures BarsOnly(View(s), View(Validate(s, c, now).0), {})
  {
    ValidateRefines(s, c, now);
  }

  lemma RevokeBars(s: State, c: ClientId, isAnomaly: bool)
    requires Inv(s)
    ensures BarsOnly(View(s), View(Revoke(s, c, isAnomaly).0), if isAnomaly then {c} else {})
  {
    RevokeRefines(s, c, isAnomaly);
  }

  // Only an anomalous revocation naming a client can lock it out.
  lemma OnlyNamedIsBarred(s: State, op: Op, c: ClientId)
    requires Inv(s) && !IsLockedOut(s, c) && op != RevokeOp(c, true)
    ensures !IsLockedOut(Step(s, op).0, c)
  {
    BarredIsIsLockedOut(s, c);
    BarredIsIsLockedOut(Step(s, op).0, c);
    StepBars(s, op);
  }

  // Once a client is locked out it stays so after every later operation of any run.
  lemma {:induction false} LockoutIsPermanent(s: State, ops: seq<Op>, c: ClientId)
    requires Inv(s) && IsLockedOut(s, c)
    ensures IsLockedOut(Run(s, ops), c)
    decreases |ops|
  {
    if ops != [] {
      StepBars(s, ops[0]);
      StepKeeps(s, ops[0]);
      BarredIsIsLockedOut(s, c);
      BarredIsIsLockedOut(Step(s, ops[0]).0, c);
      LockoutIsPermanent(Step(s, ops[0]).0, ops[1..], c);
    }
  }

  // Locked slots only accumulate.
  lemma LockedNeverDecreases(s: State, op: Op)
    requires Inv(s)
    ensures LockedCount(s.table) <= LockedCount(Step(s, op).0.table)
  {
    var s' := Step(s, op).0;
    StepBars(s, op);
    StepKeeps(s, op);
    ViewRepresents(s);
    ViewRepresents(s');
    Capacity(s, View(s));
    Capacity(s', View(s'));
    SubsetCardinality(View(s).barred, View(s').barred);
  }

  lemma {:induction false} SubsetCardinality<T>(a: set<T>, b: set<T>)
    requires a <= b
    ensures |a| <= |b|
  {
    if a != {} {
      var x :| x in a;
      SubsetCardinality(a - {x}, b - {x});
    }
  }

  // --- Sessions -----------------------------------------------------------------------------

  predicate SameSession(x: Session, y: Session) {
    x.key == y.key && x.nonce == y.nonce && x.issuedAt == y.issuedAt
  }

  predicate Ends(op: Op, c: ClientId) {
    match op
    case RegisterOp(token, _) => token.clientId == c
    case RevokeOp(d, _) => d == c
    case _ => false
  }

  ghost predicate Continues(r: Registry, r': Registry, c: ClientId) {
    c in r'.live ==> c in r.live && SameSession(r.live[c], r'.live[c])
  }

  // A session after a step is the one just registered, or continues the one before it.
  lemma SessionAfter(s: State, op: Op, c: ClientId)
    requires Inv(s)
    ensures var (s', status) := Step(s, op);
            if !Ends(op, c) then Continues(View(s), View(s'), c)
            else if op.RegisterOp? && status == Ok then
              c in View(s').live
              && View(s').live[c] == Session(op.token.key, op.token.nonce, op.now, op.now)
            else c !in View(s').live
  {
    match op
    case RegisterOp(token, now) => RegisterSession(s, token, now, c);
    case ValidateOp(d, now) => ValidateSession(s, d, now, c);
    case RevokeOp(d, isAnomaly) => RevokeEnds(s, d, isAnomaly, c);
    case SweepOp(now) => SweepRefines(s, now);
  }

  lemma RegisterSession(s: State, token: SessionToken, now: uint64, c: ClientId)
    requires Inv(s)
    ensures var (s', status) := Register(s, token, now);
            if token.clientId != c then Continues(View(s), View(s'), c)
            else if status == Ok then
              c in View(s').live && View(s').live[c] == Session(token.key, token.nonce, now, now)
            else c !in View(s').live
  {
    RegisterRefines(s, token, now);
    NoSessionWhenRefused(s, token.clientId);
    RegistrySession(View(s), token, now, c);
  }

  lemma RegistrySession(r: Registry, token: SessionToken, now: uint64, c: ClientId)
    requires token.clientId == ZERO_ID || token.clientId in r.barred ==> token.clientId !in r.live
    ensures var (r', status) := r.Register(token, now);
            if token.clientId != c then Continues(r, r', c)
            else if status == Ok then
              c in r'.live && r'.live[c] == Session(token.key, token.nonce, now, now)
            else c !in r'.live
  {
  }

  lemma NoSessionWhenRefused(s: State, c: ClientId)
    requires Inv(s)
    ensures c == ZERO_ID || c in View(s).barred ==> c !in View(s).live
  {
  }

  lemma ValidateSession(s: State, d: ClientId, now: uint64, c: ClientId)
    requires Inv(s)
    ensures Continues(View(s), View(Validate(s, d, now).0), c)
  {
    ValidateRefines(s, d, now);
    RegistryValidates(View(s), d, now, c);
  }

  lemma RegistryValidates(r: Registry, d: ClientId, now: uint64, c: ClientId)
    ensures Continues(r, r.Validate(d, now).0, c)
  {
  }

  lemma RevokeEnds(s: State, d: ClientId, isAnomaly: bool, c: ClientId)
    requires Inv(s)
    ensures var r' := View(Revoke(s, d, isAnomaly).0);
            if d == c then c !in r'.live else Continues(View(s), r', c)
  {
    RevokeRefines(s, d, isAnomaly);
  }

  // --- Capacity -----------------------------------------------------------------------------

  // An admissible client is refused exactly when every slot is locked.
  lemma RefusedIffAllLocked(s: State, token: SessionToken, now: uint64)
    requires Inv(s) && token.clientId != ZERO_ID && !IsLockedOut(s, token.clientId)
    ensures var status := Register(s, token, now).1;
            && (status == TableFull <==> LockedCount(s.table) == 8)
            && (status == TableFull || status == Ok)
  {
    var c := token.clientId;
    RegisterRefines(s, token, now);
    BarredIsIsLockedOut(s, c);
    ViewRepresents(s);
    Capacity(s, View(s));
    if View(s).order != [] {
      EndExistingKeeps(s, c);
      EndExistingSimulates(s, View(s), c);
      Capacity(EndExisting(s, c), View(s).Drop(c));
    }
  }

  lemma {:induction false} StaysFull(s: State, ops: seq<Op>)
    requires Inv(s) && LockedCount(s.table) == 8
    ensures Inv(Run(s, ops)) && LockedCount(Run(s, ops).table) == 8
    decreases |ops|
  {
    if ops != [] {
      LockedNeverDecreases(s, ops[0]);
      StepKeeps(s, ops[0]);
      StaysFull(Step(s, ops[0]).0, ops[1..]);
    }
  }

  // Once every slot is locked the locked-out clients are settled: after any run they are the same,
  // and every other client is refused.
  lemma FullForGood(s: State, ops: seq<Op>, token: SessionToken, now: uint64)
    requires Inv(s) && LockedCount(s.table) == 8 && token.clientId != ZERO_ID
    ensures LockedCount(Run(s, ops).table) == 8
    ensures View(Run(s, ops)).barred == View(s).barred
    ensures Register(Run(s, ops), token, now).1 == if IsLockedOut(s, token.clientId) then LockedOut else TableFull
  {
    var s' := Run(s, ops);
    StaysFull(s, ops);
    ViewRepresents(s);
    ViewRepresents(s');
    Capacity(s, View(s));
    Capacity(s', View(s'));
    forall c | c in View(s).barred
      ensures c in View(s').barred
    {
      BarredIsIsLockedOut(s, c);
      LockoutIsPermanent(s, ops, c);
      BarredIsIsLockedOut(s', c);
    }
    EqualIfAsMany(View(s).barred, View(s').barred);
    BarredIsIsLockedOut(s, token.clientId);
    BarredIsIsLockedOut(s', token.clientId);
    if !IsLockedOut(s', token.clientId) {
      RefusedIffAllLocked(s', token, now);
    }
  }

  lemma EqualIfAsMany<T>(a: set<T>, b: set<T>)
    requires a <= b && |a| == |b|
    ensures a == b
  {
    assert b * a == a;
    assert |b - a| == 0;
  }

  // --- Conservation -------------------------------------------------------------------------

  // Every session still open or already reported, by client.
  ghost function Balance(s: State): multiset<ClientId>
    requires WellFormed(s)
  {
    multiset(Ids(s.table, s.order)) + multiset(s.notified)
  }

  ghost function Won(c: ClientId, status: TlmStatus): multiset<ClientId> {
    if status == Ok then multiset{c} else multiset{}
  }

  // The clients a step admits.
  ghost function Admitted(s: State, op: Op): multiset<ClientId>
    requires WellFormed(s)
  {
    if op.RegisterOp? then Won(op.token.clientId, Step(s, op).1) else multiset{}
  }

  // The clients a step reports although they had no session to end.
  ghost function Idle(s: State, op: Op): multiset<ClientId>
    requires WellFormed(s)
  {
    if op.RevokeOp? && Step(s, op).1 == Ok && Lookup(s.table, op.client) == None
    then multiset{op.client} else multiset{}
  }

  // The clients a step admits, and those it reports although they had no session to end.
  ghost function Deposits(s: State, op: Op): multiset<ClientId>
    requires WellFormed(s)
  {
    Admitted(s, op) + Idle(s, op)
  }

  lemma {:induction false} WithoutMultiset<T(!new)>(s: seq<T>, x: T)
    requires Distinct(s) && x in s
    ensures multiset(Without(s, x)) + multiset{x} == multiset(s)
  {
    DistinctTail(s);
    assert s == [s[0]] + s[1..];
    if s[0] == x {
      WithoutAbsent(s[1..], x);
    } else {
      WithoutMultiset(s[1..], x);
    }
  }

  lemma DeactivateBalances(s: State, i: nat, c: ClientId)
    requires Inv(s) && s.listening && i < MAX_ACTIVE_SESSIONS
    requires s.table[i].clientId == c
    ensures Balance(Deactivate(s, i, c)) ==
            Balance(s) + if s.table[i].isActive then multiset{} else multiset{c}
  {
    DeactivateOrder(s, i, c);
    var ids := Ids(s.table, s.order);
    assert Deactivate(s, i, c).notified == s.notified + [c];
    if s.table[i].isActive {
      IdsDistinct(s);
      assert i in s.order;
      var k :| 0 <= k < |s.order| && s.order[k] == i;
      assert ids[k] == c;
      WithoutMultiset(ids, c);
    }
  }

  lemma IdsDistinct(s: State)
    requires Inv(s)
    ensures Distinct(Ids(s.table, s.order))
  {
  }

  lemma AdmitBalances(s: State, i: nat, token: SessionToken, now: uint64)
    requires Inv(s) && i < MAX_ACTIVE_SESSIONS && !s.table[i].isActive
    ensures Balance(Admit(s, i, token, now)) == Balance(s) + multiset{token.clientId}
  {
    PushNeverFails(s, i);
    assert i !in s.order;
    var s' := Admit(s, i, token, now);
    assert Ids(s'.table, s'.order) == Ids(s.table, s.order) + [token.clientId];
  }

  lemma EvictOldestBalances(s: State)
    requires Inv(s) && s.listening && s.order != []
    ensures Balance(EvictOldest(s)) == Balance(s)
  {
    var v := s.order[0];
    assert v in s.order;
    DistinctTail(s.order);
    WithoutAbsent<nat>(s.order[1..], v);
    DeactivateBalances(s, v, s.table[v].clientId);
  }

  ghost predicate Balances(s: State, op: Op)
    requires WellFormed(s)
  {
    Step(s, op).0.listening == s.listening && Balance(Step(s, op).0) == Balance(s) + Deposits(s, op)
  }

  lemma RegisterBalances(s: State, token: SessionToken, now: uint64)
    requires Inv(s) && s.listening
    ensures Balances(s, RegisterOp(token, now))
  {
    var c := token.clientId;
    if c != ZERO_ID && !IsLockedOut(s, c) {
      EndExistingKeeps(s, c);
      var i, s1 := FirstMatch(s.table, c), EndExisting(s, c);
      assert Balance(s1) == Balance(s) by {
        if i < MAX_ACTIVE_SESSIONS && s.table[i].isActive {
          DeactivateBalances(s, i, c);
        }
      }
      PlaceBalances(s1, token, now);
    }
  }

  lemma PlaceBalances(s: State, token: SessionToken, now: uint64)
    requires Inv(s) && s.listening
    ensures var free := FirstFree(s.table);
            if free < MAX_ACTIVE_SESSIONS then
              Balance(Admit(s, free, token, now)) == Balance(s) + multiset{token.clientId}
            else s.order != [] ==>
              Balance(Admit(EvictOldest(s), s.order[0], token, now)) == Balance(s) + multiset{token.clientId}
  {
    var free := FirstFree(s.table);
    if free < MAX_ACTIVE_SESSIONS {
      AdmitBalances(s, free, token, now);
    } else if s.order != [] {
      EvictOldestKeeps(s);
      EvictOldestBalances(s);
      AdmitBalances(EvictOldest(s), s.order[0], token, now);
    }
  }

  // A revocation that finds a slot without a session reports it all the same.
  lemma RevokeDeposits(s: State, c: ClientId, isAnomaly: bool)
    requires Inv(s) && FirstMatch(s.table, c) < MAX_ACTIVE_SESSIONS
    ensures Deposits(s, RevokeOp(c, isAnomaly)) ==
            if s.table[FirstMatch(s.table, c)].isActive then multiset{} else multiset{c}
  {
  }

  lemma RevokeBalances(s: State, c: ClientId, isAnomaly: bool)
    requires Inv(s) && s.listening
    ensures Balances(s, RevokeOp(c, isAnomaly))
  {
    var i := FirstMatch(s.table, c);
    if i < MAX_ACTIVE_SESSIONS {
      RevokeIsDeactivation(s, c, isAnomaly);
      DeactivateBalances(s, i, c);
      RevokeDeposits(s, c, isAnomaly);
    }
  }

  lemma RevokeIsDeactivation(s: State, c: ClientId, isAnomaly: bool)
    requires WellFormed(s) && FirstMatch(s.table, c) < MAX_ACTIVE_SESSIONS
    ensures var s', d := Revoke(s, c, isAnomaly).0, Deactivate(s, FirstMatch(s.table, c), c);
            s'.listening == d.listening && Balance(s') == Balance(d)
  {
    RevokeIsMark(s, c, isAnomaly);
    MarkBalances(Deactivate(s, FirstMatch(s.table, c), c), FirstMatch(s.table, c));
  }

  lemma MarkBalances(s: State, i: nat)
    requires WellFormed(s) && i < MAX_ACTIVE_SESSIONS
    ensures WellFormed(Mark(s, i)) && Balance(Mark(s, i)) == Balance(s)
  {
    assert Ids(Mark(s, i).table, s.order) == Ids(s.table, s.order);
  }

  lemma {:induction false} SweepToBalances(s: State, now: uint64, n: nat)
    requires Inv(s) && s.listening && n <= MAX_ACTIVE_SESSIONS
    ensures Balance(SweepTo(s, now, n)) == Balance(s)
    ensures SweepTo(s, now, n).listening
  {
    if n != 0 {
      SweepToBalances(s, now, n - 1);
      SweepToKeeps(s, now, n - 1);
      var p := SweepTo(s, now, n - 1);
      DeactivateBalances(p, n - 1, p.table[n - 1].clientId);
    }
  }

  lemma ValidateBalances(s: State, c: ClientId, now: uint64)
    requires Inv(s) && s.listening
    ensures Balance(Validate(s, c, now).0) == Balance(s)
  {
    var i := FirstMatch(s.table, c);
    if i < MAX_ACTIVE_SESSIONS && s.table[i].isActive && !s.table[i].isLockedOut {
      if s.table[i].Expired(now) {
        DeactivateBalances(s, i, c);
      } else {
        var u := s.table[i := s.table[i].(lastSeen := now)];
        assert Ids(u, s.order) == Ids(s.table, s.order);
      }
    }
  }

  lemma ValidateStepBalances(s: State, c: ClientId, now: uint64)
    requires Inv(s) && s.listening
    ensures Balances(s, ValidateOp(c, now))
  {
    ValidateBalances(s, c, now);
  }

  lemma SweepStepBalances(s: State, now: uint64)
    requires Inv(s) && s.listening
    ensures Balances(s, SweepOp(now))
  {
    SweepToBalances(s, now, MAX_ACTIVE_SESSIONS);
  }

  lemma StepBalances(s: State, op: Op)
    requires Inv(s) && s.listening
    ensures Balances(s, op)
  {
    match op
    case RegisterOp(token, now) => RegisterBalances(s, token, now);
    case ValidateOp(c, now) => ValidateStepBalances(s, c, now);
    case RevokeOp(c, isAnomaly) => RevokeBalances(s, c, isAnomaly);
    case SweepOp(now) => SweepStepBalances(s, now);
  }

  // The clients whose session a step ends: by a refresh or an eviction, by expiry, by revocation.
  ghost function Ended(r: Registry, op: Op): multiset<ClientId> {
    match op
    case RegisterOp(token, now) =>
      var c, rest := token.clientId, r.Drop(token.clientId);
      if c == ZERO_ID || c in r.barred then multiset{}
      else Own(r, c) + if Crowded(rest) then multiset{rest.order[0]} else multiset{}
    case ValidateOp(c, now) => if c !in r.barred && r.Stale(c, now) then multiset{c} else multiset{}
    case RevokeOp(c, _) => Own(r, c)
    case SweepOp(now) => multiset(StaleAmong(r, r.order, now))
  }

  ghost function Own(r: Registry, c: ClientId): multiset<ClientId> {
    if c in r.live then multiset{c} else multiset{}
  }

  // There is no room, but a session to evict.
  predicate Crowded(r: Registry) {
    |r.order| + |r.barred| >= MAX_ACTIVE_SESSIONS && r.order != []
  }

  ghost predicate Listed(r: Registry) {
    Distinct(r.order) && forall c :: c in r.order <==> c in r.live
  }

  lemma DropBalances(r: Registry, c: ClientId)
    requires Listed(r)
    ensures Listed(r.Drop(c))
    ensures multiset(r.Drop(c).order) + Own(r, c) == multiset(r.order)
  {
    WithoutDistinct(r.order, c);
    WithoutMembers(r.order, c);
    if c in r.live {
      WithoutMultiset(r.order, c);
    } else {
      WithoutAbsent(r.order, c);
    }
  }

  ghost function StaleAmong(r: Registry, cs: seq<ClientId>, now: uint64): set<ClientId> {
    set c | c in cs && r.Stale(c, now)
  }

  lemma StaleTail(r: Registry, cs: seq<ClientId>, now: uint64)
    requires cs != [] && Distinct(cs)
    ensures var rest := StaleAmong(r, cs[1..], now);
            && cs[0] !in rest
            && StaleAmong(r, cs, now) == if r.Stale(cs[0], now) then rest + {cs[0]} else rest
  {
    DistinctTail(cs);
    assert cs == [cs[0]] + cs[1..];
  }

  lemma {:induction false} SweepBalances(r: Registry, cs: seq<ClientId>, now: uint64)
    requires Distinct(cs)
    ensures multiset(r.KeepFresh(cs, now)) + multiset(StaleAmong(r, cs, now)) == multiset(cs)
  {
    if cs != [] {
      DistinctTail(cs);
      StaleTail(r, cs, now);
      SweepBalances(r, cs[1..], now);
      HeadMoves(cs, r.KeepFresh(cs[1..], now), StaleAmong(r, cs[1..], now));
    }
  }

  lemma HeadMoves<T>(cs: seq<T>, kept: seq<T>, gone: set<T>)
    requires cs != [] && cs[0] !in gone && multiset(kept) + multiset(gone) == multiset(cs[1..])
    ensures multiset([cs[0]] + kept) + multiset(gone) == multiset(cs)
    ensures multiset(kept) + multiset(gone + {cs[0]}) == multiset(cs)
  {
    assert cs == [cs[0]] + cs[1..];
    assert multiset(gone + {cs[0]}) == multiset(gone) + multiset{cs[0]};
  }

  lemma Chain<T(!new)>(a: multiset<T>, b: multiset<T>, c: multiset<T>,
                 lost: multiset<T>, lost': multiset<T>, won: multiset<T>, won': multiset<T>)
    requires b + lost == a + won && c + lost' == b + won'
    ensures c + (lost + lost') == a + (won + won')
  {
    forall x
      ensures (c + (lost + lost'))[x] == (a + (won + won'))[x]
    {
      assert (b + lost)[x] == (a + won)[x] && (c + lost')[x] == (b + won')[x];
    }
  }

  lemma EvictionBalances(r: Registry)
    requires Listed(r) && Crowded(r)
    ensures multiset(r.Drop(r.order[0]).order) + multiset{r.order[0]} == multiset(r.order)
  {
    assert r.order[0] in r.order;
    DropBalances(r, r.order[0]);
  }

  // Lose `own`, then `evicted`, then gain `won`.
  lemma LoseAndGain<T(!new)>(a: multiset<T>, b: multiset<T>, c: multiset<T>,
                             own: multiset<T>, evicted: multiset<T>, won: multiset<T>)
    requires b + own == a && c + evicted == b
    ensures (c + won) + (own + evicted) == a + won
  {
    Chain(a, b, c, own, evicted, multiset{}, multiset{});
    Chain(a, c, c + won, own + evicted, multiset{}, multiset{}, won);
  }

  lemma AppendCounts<T>(s: seq<T>, x: T)
    ensures multiset(s + [x]) == multiset(s) + multiset{x}
  {
  }

  lemma CrowdedConserves(r: Registry, token: SessionToken, now: uint64)
    requires Listed(r) && token.clientId != ZERO_ID && token.clientId !in r.barred
    requires Crowded(r.Drop(token.clientId))
    ensures multiset(r.Register(token, now).0.order) + Ended(r, RegisterOp(token, now))
            == multiset(r.order) + multiset{token.clientId}
  {
    var c, rest := token.clientId, r.Drop(token.clientId);
    var last := rest.Drop(rest.order[0]);
    DropBalances(r, c);
    EvictionBalances(rest);
    AppendCounts(last.order, c);
    LoseAndGain(multiset(r.order), multiset(rest.order), multiset(last.order),
                Own(r, c), multiset{rest.order[0]}, multiset{c});
  }

  lemma RoomyConserves(r: Registry, token: SessionToken, now: uint64)
    requires Listed(r) && token.clientId != ZERO_ID && token.clientId !in r.barred
    requires !Crowded(r.Drop(token.clientId))
    ensures var (r', status) := r.Register(token, now);
            multiset(r'.order) + Ended(r, RegisterOp(token, now)) == multiset(r.order) + Won(token.clientId, status)
  {
    var c, rest := token.clientId, r.Drop(token.clientId);
    DropBalances(r, c);
    AppendCounts(rest.order, c);
    Chain(multiset(r.order), multiset(rest.order), multiset(rest.order + [c]),
          Own(r, c), multiset{}, multiset{}, multiset{c});
  }

  lemma RegisterConserves(r: Registry, token: SessionToken, now: uint64)
    requires Listed(r)
    ensures var (r', status) := r.Register(token, now);
            multiset(r'.order) + Ended(r, RegisterOp(token, now)) == multiset(r.order) + Won(token.clientId, status)
  {
    if token.clientId != ZERO_ID && token.clientId !in r.barred {
      if Crowded(r.Drop(token.clientId)) {
        CrowdedConserves(r, token, now);
      } else {
        RoomyConserves(r, token, now);
      }
    }
  }

  lemma ValidateConserves(r: Registry, c: ClientId, now: uint64)
    requires Listed(r)
    ensures multiset(r.Validate(c, now).0.order) + Ended(r, ValidateOp(c, now)) == multiset(r.order)
  {
    DropBalances(r, c);
  }

  // What `op` ends and what it admits account for the change in the order.
  ghost predicate Conserves(s: State, op: Op)
    requires WellFormed(s)
  {
    multiset(View(Step(s, op).0).order) + Ended(View(s), op) == multiset(View(s).order) + Admitted(s, op)
  }

  lemma RegisterStepConserves(s: State, token: SessionToken, now: uint64)
    requires Inv(s) && Listed(View(s))
    ensures Conserves(s, RegisterOp(token, now))
  {
    RegisterRefines(s, token, now);
    RegisterConserves(View(s), token, now);
  }

  lemma ValidateStepConserves(s: State, c: ClientId, now: uint64)
    requires Inv(s) && Listed(View(s))
    ensures Conserves(s, ValidateOp(c, now))
  {
    ValidateRefines(s, c, now);
    ValidateConserves(View(s), c, now);
  }

  lemma RevokeStepConserves(s: State, c: ClientId, isAnomaly: bool)
    requires Inv(s) && Listed(View(s))
    ensures Conserves(s, RevokeOp(c, isAnomaly))
  {
    RevokeRefines(s, c, isAnomaly);
    DropBalances(View(s), c);
  }

  lemma SweepStepConserves(s: State, now: uint64)
    requires Inv(s) && Listed(View(s))
    ensures Conserves(s, SweepOp(now))
  {
    SweepRefines(s, now);
    SweepBalances(View(s), View(s).order, now);
  }

  lemma StepConservesSessions(s: State, op: Op)
    requires Inv(s)
    ensures Conserves(s, op)
  {
    ViewRepresents(s);
    OrderListsLive(s, View(s));
    match op
    case RegisterOp(token, now) => RegisterStepConserves(s, token, now);
    case ValidateOp(c, now) => ValidateStepConserves(s, c, now);
    case RevokeOp(c, isAnomaly) => RevokeStepConserves(s, c, isAnomaly);
    case SweepOp(now) => SweepStepConserves(s, now);
  }

  ghost function RunAdmitted(s: State, ops: seq<Op>): multiset<ClientId>
    requires WellFormed(s)
    decreases |ops|
  {
    if ops == [] then multiset{} else Admitted(s, ops[0]) + RunAdmitted(Step(s, ops[0]).0, ops[1..])
  }

  ghost function RunEnded(s: State, ops: seq<Op>): multiset<ClientId>
    requires WellFormed(s)
    decreases |ops|
  {
    if ops == [] then multiset{} else Ended(View(s), ops[0]) + RunEnded(Step(s, ops[0]).0, ops[1..])
  }

  ghost function RunIdle(s: State, ops: seq<Op>): multiset<ClientId>
    requires WellFormed(s)
    decreases |ops|
  {
    if ops == [] then multiset{} else Idle(s, ops[0]) + RunIdle(Step(s, ops[0]).0, ops[1..])
  }

  // Client by client, with or without a callback: sessions open at the end plus sessions ended
  // equal sessions open at the start plus admissions.
  lemma {:induction false} SessionsConserved(s: State, ops: seq<Op>)
    requires Inv(s)
    ensures multiset(View(Run(s, ops)).order) + RunEnded(s, ops) == multiset(View(s).order) + RunAdmitted(s, ops)
    decreases |ops|
  {
    if ops != [] {
      var s' := Step(s, ops[0]).0;
      StepConservesSessions(s, ops[0]);
      StepKeeps(s, ops[0]);
      SessionsConserved(s', ops[1..]);
      Chain(multiset(View(s).order), multiset(View(s').order), multiset(View(Run(s, ops)).order),
            Ended(View(s), ops[0]), RunEnded(s', ops[1..]), Admitted(s, ops[0]), RunAdmitted(s', ops[1..]));
    }
  }

  lemma StepNotifies(s: State, op: Op)
    requires Inv(s) && s.listening
    ensures Step(s, op).0.listening
    ensures multiset(Step(s, op).0.notified) == multiset(s.notified) + Ended(View(s), op) + Idle(s, op)
  {
    StepBalances(s, op);
    StepConservesSessions(s, op);
    ViewRepresents(s);
    ViewRepresents(Step(s, op).0);
    Cancel(multiset(View(s).order), multiset(View(Step(s, op).0).order), multiset(s.notified),
           multiset(Step(s, op).0.notified), Admitted(s, op), Ended(View(s), op), Idle(s, op));
  }

  lemma Cancel<T(!new)>(ids: multiset<T>, ids': multiset<T>, notes: multiset<T>, notes': multiset<T>,
                  won: multiset<T>, lost: multiset<T>, idle: multiset<T>)
    requires ids' + notes' == ids + notes + (won + idle) && ids' + lost == ids + won
    ensures notes' == notes + lost + idle
  {
    forall x
      ensures notes'[x] == (notes + lost + idle)[x]
    {
      assert (ids' + notes')[x] == (ids + notes + (won + idle))[x] && (ids' + lost)[x] == (ids + won)[x];
    }
  }

  // Notices sent over a run equal the sessions ended plus the kOk revocations that found none to
  // end, each under the id of the client concerned.
  lemma {:induction false} NoticesConserved(s: State, ops: seq<Op>)
    requires Inv(s) && s.listening
    ensures multiset(Run(s, ops).notified) == multiset(s.notified) + RunEnded(s, ops) + RunIdle(s, ops)
    decreases |ops|
  {
    if ops != [] {
      StepNotifies(s, ops[0]);
      StepKeeps(s, ops[0]);
      NoticesConserved(Step(s, ops[0]).0, ops[1..]);
    }
  }

  lemma {:induction false} SweepToSilent(s: State, now: uint64, n: nat)
    requires WellFormed(s) && !s.listening && n <= MAX_ACTIVE_SESSIONS
    ensures !SweepTo(s, now, n).listening && SweepTo(s, now, n).notified == s.notified
  {
    if n != 0 {
      SweepToSilent(s, now, n - 1);
    }
  }

  // Without a callback nothing is ever sent.
  lemma {:induction false} NobodyListens(s: State, ops: seq<Op>)
    requires WellFormed(s) && !s.listening
    ensures Run(s, ops).notified == s.notified
    decreases |ops|
  {
    if ops != [] {
      if ops[0].SweepOp? {
        SweepToSilent(s, ops[0].now, MAX_ACTIVE_SESSIONS);
      }
      NobodyListens(Step(s, ops[0]).0, ops[1..]);
    }
  }

  // --- Strikes ------------------------------------------------------------------------------

  function SumStrikes(t: seq<TokenSlot>): nat {
    if t == [] then 0 else SumStrikes(t[..|t| - 1]) + t[|t| - 1].anomalyCount
  }

  // 1 for an anomalous revocation that found a slot.
  function Strike(s: State, op: Op): nat
    requires WellFormed(s)
  {
    if op.RevokeOp? && op.isAnomaly && Step(s, op).1 == Ok then 1 else 0
  }

  function RunStrikes(s: State, ops: seq<Op>): nat
    requires WellFormed(s)
    decreases |ops|
  {
    if ops == [] then 0 else Strike(s, ops[0]) + RunStrikes(Step(s, ops[0]).0, ops[1..])
  }

  ghost predicate Unsaturated(t: seq<TokenSlot>) {
    forall i :: 0 <= i < |t| ==> t[i].anomalyCount < MAX_UINT8
  }

  function Bumped(n: nat): nat {
    if n < MAX_UINT8 then n + 1 else n
  }

  // Counts that agree except for a saturating increment at `hit`.
  lemma {:induction false} SumAfterHit(t: seq<TokenSlot>, u: seq<TokenSlot>, hit: nat)
    requires |t| == |u|
    requires forall k :: 0 <= k < |t| ==>
               u[k].anomalyCount == if k == hit then Bumped(t[k].anomalyCount) else t[k].anomalyCount
    ensures SumStrikes(u) <= SumStrikes(t) + if hit < |t| then 1 else 0
    ensures Unsaturated(u) ==> Unsaturated(t) && SumStrikes(u) == SumStrikes(t) + if hit < |t| then 1 else 0
  {
    if t != [] {
      var last := |t| - 1;
      SumAfterHit(t[..last], u[..last], hit);
      if Unsaturated(u) {
        assert Unsaturated(u[..last]);
        assert forall k :: 0 <= k < last ==> t[..last][k] == t[k];
        assert u[last].anomalyCount < MAX_UINT8;
      }
    }
  }

  function CountAfter(s: State, op: Op, i: nat): nat
    requires WellFormed(s) && i < MAX_ACTIVE_SESSIONS
  {
    var n := s.table[i].anomalyCount;
    if Strike(s, op) == 1 && i == FirstMatch(s.table, op.client) then Bumped(n) else n
  }

  // Only an anomalous revocation changes a count, and only the count of the slot it finds.
  lemma StepStrikes(s: State, op: Op, i: nat)
    requires Inv(s) && i < MAX_ACTIVE_SESSIONS
    ensures Step(s, op).0.table[i].anomalyCount == CountAfter(s, op, i)
  {
    match op
    case RegisterOp(token, now) => RegisterStrikes(s, token, now, i);
    case ValidateOp(c, now) => ValidateStrikes(s, c, now, i);
    case RevokeOp(c, isAnomaly) => RevokeStrikes(s, c, isAnomaly, i);
    case SweepOp(now) => SweepToTable(s, now, MAX_ACTIVE_SESSIONS, i);
  }

  lemma RegisterStrikes(s: State, token: SessionToken, now: uint64, i: nat)
    requires Inv(s) && i < MAX_ACTIVE_SESSIONS
    ensures Register(s, token, now).0.table[i].anomalyCount == s.table[i].anomalyCount
  {
    var s1 := EndExisting(s, token.clientId);
    assert s1.table[i].anomalyCount == s.table[i].anomalyCount;
    if s1.order != [] {
      assert EvictOldest(s1).table[i].anomalyCount == s.table[i].anomalyCount;
    }
  }

  lemma ValidateStrikes(s: State, c: ClientId, now: uint64, i: nat)
    requires Inv(s) && i < MAX_ACTIVE_SESSIONS
    ensures Validate(s, c, now).0.table[i].anomalyCount == s.table[i].anomalyCount
  {
  }

  lemma RevokeStrikes(s: State, c: ClientId, isAnomaly: bool, i: nat)
    requires Inv(s) && i < MAX_ACTIVE_SESSIONS
    ensures Revoke(s, c, isAnomaly).0.table[i].anomalyCount == CountAfter(s, RevokeOp(c, isAnomaly), i)
  {
  }

  lemma StepSumsStrikes(s: State, op: Op)
    requires Inv(s)
    ensures var u := Step(s, op).0.table;
            && SumStrikes(u) <= SumStrikes(s.table) + Strike(s, op)
            && (Unsaturated(u) ==> Unsaturated(s.table) && SumStrikes(u) == SumStrikes(s.table) + Strike(s, op))
  {
    var t, u := s.table, Step(s, op).0.table;
    var hit := if Strike(s, op) == 1 then FirstMatch(t, op.client) else |t|;
    forall k | 0 <= k < |t|
      ensures u[k].anomalyCount == if k == hit then Bumped(t[k].anomalyCount) else t[k].anomalyCount
    {
      StepStrikes(s, op, k);
    }
    SumAfterHit(t, u, hit);
  }

  // The counts in the table add up to the anomalous revocations that found a slot, until one saturates.
  lemma {:induction false} StrikesAreCounted(s: State, ops: seq<Op>)
    requires Inv(s)
    ensures var s' := Run(s, ops);
            && SumStrikes(s'.table) <= SumStrikes(s.table) + RunStrikes(s, ops)
            && (Unsaturated(s'.table) ==>
                  Unsaturated(s.table) && SumStrikes(s'.table) == SumStrikes(s.table) + RunStrikes(s, ops))
    decreases |ops|
  {
    if ops != [] {
      StepSumsStrikes(s, ops[0]);
      StepKeeps(s, ops[0]);
      StrikesAreCounted(Step(s, ops[0]).0, ops[1..]);
    }
  }

  lemma {:induction false} LockedCostsThree(t: seq<TokenSlot>)
    requires SlotsOk(t)
    ensures MAX_ANOMALY_COUNT * LockedCount(t) <= SumStrikes(t)
  {
    if t != [] {
      assert SlotOk(t[|t| - 1]);
      LockedCostsThree(t[..|t| - 1]);
    }
  }

  lemma {:induction false} NoStrikes(t: seq<TokenSlot>)
    requires forall i :: 0 <= i < |t| ==> t[i].anomalyCount == 0
    ensures SumStrikes(t) == 0
  {
    if t != [] {
      NoStrikes(t[..|t| - 1]);
    }
  }

  // Locking out a client takes three anomalous revocations, whoever they named.
  lemma LockoutTakesThree(listening: bool, ops: seq<Op>)
    ensures 3 * LockedCount(Run(Initial(listening), ops).table)
              <= RunStrikes(Initial(listening), ops)
  {
    RunKeeps(Initial(listening), ops);
    StrikesAreCounted(Initial(listening), ops);
    NoStrikes(Initial(listening).table);
    LockedCostsThree(Run(Initial(listening), ops).table);
  }

  // --- Order and age ------------------------------------------------------------------------

  // The time after an operation, on a clock that showed `clock` before it.
  function TimeAfter(op: Op, clock: uint64): uint64 {
    match op
    case RegisterOp(_, now) => now
    case ValidateOp(_, now) => now
    case RevokeOp(_, _) => clock
    case SweepOp(now) => now
  }

  function EndTime(ops: seq<Op>, clock: uint64): uint64
    decreases |ops|
  {
    if ops == [] then clock else EndTime(ops[1..], TimeAfter(ops[0], clock))
  }

  ghost predicate Monotone(ops: seq<Op>, clock: uint64)
    decreases |ops|
  {
    ops != [] ==> clock <= TimeAfter(ops[0], clock) && Monotone(ops[1..], TimeAfter(ops[0], clock))
  }

  ghost predicate SortedByIssue(t: seq<TokenSlot>, order: seq<nat>)
    requires Below(order, |t|)
  {
    forall j, k :: 0 <= j < k < |order| ==> t[order[j]].issuedAt <= t[order[k]].issuedAt
  }

  ghost predicate IssuedBy(t: seq<TokenSlot>, now: uint64) {
    forall i :: 0 <= i < |t| && t[i].isActive ==> t[i].issuedAt <= now
  }

  ghost predicate OldestFirst(s: State, now: uint64)
    requires WellFormed(s)
  {
    SortedByIssue(s.table, s.order) && IssuedBy(s.table, now)
  }

  // Two survivors of a removal stood in the same order before it.
  lemma {:induction false} WithoutPair<T>(s: seq<T>, x: T, j: nat, k: nat) returns (a: nat, b: nat)
    requires j < k < |Without(s, x)|
    ensures a < b < |s| && s[a] == Without(s, x)[j] && s[b] == Without(s, x)[k]
  {
    if s[0] == x {
      a, b := WithoutPair(s[1..], x, j, k);
      a, b := a + 1, b + 1;
    } else if j == 0 {
      b := WithoutAt(s[1..], x, k - 1);
      a, b := 0, b + 1;
    } else {
      a, b := WithoutPair(s[1..], x, j - 1, k - 1);
      a, b := a + 1, b + 1;
    }
  }

  // The survivor at `k`, preceded by the survivors before it and occurrences of `x` only.
  lemma {:induction false} WithoutAt<T>(s: seq<T>, x: T, k: nat) returns (b: nat)
    requires k < |Without(s, x)|
    ensures b < |s| && s[b] == Without(s, x)[k]
    ensures k == 0 ==> forall i :: 0 <= i < b ==> s[i] == x
  {
    if s[0] == x {
      b := WithoutAt(s[1..], x, k);
      b := b + 1;
    } else if k == 0 {
      b := 0;
    } else {
      b := WithoutAt(s[1..], x, k - 1);
      b := b + 1;
    }
  }

  lemma SortedWithout(t: seq<TokenSlot>, order: seq<nat>, i: nat)
    requires Below(order, |t|) && SortedByIssue(t, order)
    ensures Below(Without<nat>(order, i), |t|) && SortedByIssue(t, Without<nat>(order, i))
  {
    WithoutMembers<nat>(order, i);
    forall j, k | 0 <= j < k < |Without<nat>(order, i)|
      ensures t[Without<nat>(order, i)[j]].issuedAt <= t[Without<nat>(order, i)[k]].issuedAt
    {
      var a, b := WithoutPair<nat>(order, i, j, k);
    }
  }

  lemma DeactivateSorted(s: State, i: nat, c: ClientId, now: uint64)
    requires Inv(s) && OldestFirst(s, now) && i < MAX_ACTIVE_SESSIONS
    ensures OldestFirst(Deactivate(s, i, c), now)
  {
    SortedWithout(s.table, s.order, i);
    WithoutMembers<nat>(s.order, i);
    var s' := Deactivate(s, i, c);
    forall k | 0 <= k < |s'.order|
      ensures s'.table[s'.order[k]] == s.table[s'.order[k]]
    {
      assert s'.order[k] in s'.order;
    }
  }

  lemma EvictSorted(s: State, now: uint64)
    requires Inv(s) && OldestFirst(s, now) && s.order != []
    ensures OldestFirst(EvictOldest(s), now)
  {
  }

  lemma AdmitSorted(s: State, i: nat, token: SessionToken, now: uint64)
    requires Inv(s) && OldestFirst(s, now) && i < MAX_ACTIVE_SESSIONS && !s.table[i].isActive
    ensures OldestFirst(Admit(s, i, token, now), now)
  {
  }

  lemma RegisterSorted(s: State, token: SessionToken, now: uint64)
    requires Inv(s) && OldestFirst(s, now)
    ensures OldestFirst(Register(s, token, now).0, now)
  {
    var c := token.clientId;
    if c != ZERO_ID && !IsLockedOut(s, c) {
      EndExistingKeeps(s, c);
      var i, s1 := FirstMatch(s.table, c), EndExisting(s, c);
      assert OldestFirst(s1, now) by {
        if i < MAX_ACTIVE_SESSIONS && s.table[i].isActive {
          DeactivateSorted(s, i, c, now);
        }
      }
      var free := FirstFree(s1.table);
      if free < MAX_ACTIVE_SESSIONS {
        AdmitSorted(s1, free, token, now);
      } else if s1.order != [] {
        EvictOldestKeeps(s1);
        EvictSorted(s1, now);
        AdmitSorted(EvictOldest(s1), s1.order[0], token, now);
      }
    }
  }

  lemma ValidateSorted(s: State, c: ClientId, now: uint64)
    requires Inv(s) && OldestFirst(s, now)
    ensures OldestFirst(Validate(s, c, now).0, now)
  {
    var i := FirstMatch(s.table, c);
    if i < MAX_ACTIVE_SESSIONS {
      DeactivateSorted(s, i, c, now);
      var u := s.table[i := s.table[i].(lastSeen := now)];
      assert forall k :: 0 <= k < |u| ==> u[k].issuedAt == s.table[k].issuedAt && u[k].isActive == s.table[k].isActive;
    }
  }

  lemma RevokeSorted(s: State, c: ClientId, isAnomaly: bool, now: uint64)
    requires Inv(s) && OldestFirst(s, now)
    ensures OldestFirst(Revoke(s, c, isAnomaly).0, now)
  {
    var i := FirstMatch(s.table, c);
    if i < MAX_ACTIVE_SESSIONS {
      RevokeIsMark(s, c, isAnomaly);
      DeactivateSorted(s, i, c, now);
      var v := Deactivate(s, i, c);
      assert forall k :: 0 <= k < |v.table| ==> Mark(v, i).table[k].issuedAt == v.table[k].issuedAt;
    }
  }

  lemma {:induction false} SweepToSorted(s: State, now: uint64, n: nat)
    requires Inv(s) && OldestFirst(s, now) && n <= MAX_ACTIVE_SESSIONS
    ensures OldestFirst(SweepTo(s, now, n), now)
  {
    if n != 0 {
      SweepToSorted(s, now, n - 1);
      SweepToKeeps(s, now, n - 1);
      var p := SweepTo(s, now, n - 1);
      DeactivateSorted(p, n - 1, p.table[n - 1].clientId, now);
    }
  }

  lemma StepSorted(s: State, op: Op, clock: uint64)
    requires Inv(s) && OldestFirst(s, clock) && clock <= TimeAfter(op, clock)
    ensures OldestFirst(Step(s, op).0, TimeAfter(op, clock))
  {
    assert OldestFirst(s, TimeAfter(op, clock));
    match op
    case RegisterOp(token, now) => RegisterSorted(s, token, now);
    case ValidateOp(c, now) => ValidateSorted(s, c, now);
    case RevokeOp(c, isAnomaly) => RevokeSorted(s, c, isAnomaly, clock);
    case SweepOp(now) => SweepToSorted(s, now, MAX_ACTIVE_SESSIONS);
  }

  // While the clock does not run backwards, the order lists sessions from the oldest to the newest.
  lemma {:induction false} OrderIsByAge(s: State, ops: seq<Op>, clock: uint64)
    requires Inv(s) && OldestFirst(s, clock) && Monotone(ops, clock)
    ensures OldestFirst(Run(s, ops), EndTime(ops, clock))
    decreases |ops|
  {
    if ops != [] {
      StepSorted(s, ops[0], clock);
      StepKeeps(s, ops[0]);
      OrderIsByAge(Step(s, ops[0]).0, ops[1..], TimeAfter(ops[0], clock));
    }
  }

  // So a client other than the newcomer loses its session to a registration only if it is the oldest.
  lemma EvictsTheOldest(s: State, clock: uint64, token: SessionToken, now: uint64, lost: ClientId, kept: ClientId)
    requires Inv(s) && OldestFirst(s, clock)
    requires lost in View(s).live && lost !in View(Register(s, token, now).0).live
    requires lost != token.clientId
    requires kept in View(s).live && kept != token.clientId
    ensures View(s).live[lost].issuedAt <= View(s).live[kept].issuedAt
  {
    RegisterRefines(s, token, now);
    LostIsHead(View(s), token, now, lost);
    HeadIsOldest(s, clock, token.clientId, kept);
  }

  lemma HeadIsOldest(s: State, clock: uint64, c: ClientId, kept: ClientId)
    requires Inv(s) && OldestFirst(s, clock)
    requires kept in View(s).live && kept != c
    requires Without(View(s).order, c) != []
    ensures var head := Without(View(s).order, c)[0];
            head in View(s).live && View(s).live[head].issuedAt <= View(s).live[kept].issuedAt
  {
    var order := View(s).order;
    var j := WithoutAt(order, c, 0);
    assert kept in order by {
      ViewRepresents(s);
      OrderListsLive(s, View(s));
    }
    var k :| 0 <= k < |order| && order[k] == kept;
    assert j <= k;
    LiveAt(s, j);
    LiveAt(s, k);
  }

  lemma LostIsHead(r: Registry, token: SessionToken, now: uint64, lost: ClientId)
    requires lost in r.live && lost !in r.Register(token, now).0.live && lost != token.clientId
    ensures var rest := Without(r.order, token.clientId); rest != [] && rest[0] == lost
  {
  }

  lemma LiveAt(s: State, k: nat)
    requires Inv(s) && k < |s.order|
    ensures var c := View(s).order[k]; c in View(s).live && View(s).live[c] == SessionOf(s.table[s.order[k]])
  {
    ViewRepresents(s);
    assert s.order[k] in s.order;
    OwnerIsFirst(s.table, s.order[k]);
    assert HasSession(View(s), View(s).order[k], Lookup(s.table, View(s).order[k]));
  }

  // --- Expiry -------------------------------------------------------------------------------

  // No timed operation runs more than one tick period after the last sweep.
  ghost predicate Punctual(ops: seq<Op>, clock: uint64, swept: uint64)
    decreases |ops|
  {
    ops != [] ==>
      var now := TimeAfter(ops[0], clock);
      && clock <= now <= swept + 15_000
      && Punctual(ops[1..], now, if ops[0].SweepOp? then now else swept)
  }

  // Every open session was at most one lifetime old at the last sweep.
  ghost predicate SweptAt(t: seq<TokenSlot>, swept: uint64) {
    forall i :: 0 <= i < |t| && t[i].isActive ==> swept <= t[i].issuedAt + TOKEN_LIFETIME_MS
  }

  ghost predicate NoneOlder(t: seq<TokenSlot>, now: uint64, age: nat) {
    forall i :: 0 <= i < |t| && t[i].isActive ==> 0 <= now - t[i].issuedAt <= age
  }

  // An active slot after a step was already active with the same issue time, or was just filled.
  lemma ActiveAfter(s: State, op: Op, i: nat)
    requires Inv(s) && i < MAX_ACTIVE_SESSIONS && Step(s, op).0.table[i].isActive
    ensures var u := Step(s, op).0.table[i];
            || (s.table[i].isActive && u.issuedAt == s.table[i].issuedAt && u.clientId == s.table[i].clientId)
            || (op.RegisterOp? && u.issuedAt == op.now)
  {
    match op
    case RegisterOp(token, now) => RegisterActiveAfter(s, token, now, i);
    case ValidateOp(c, now) =>
    case RevokeOp(c, isAnomaly) =>
    case SweepOp(now) => SweepToTable(s, now, MAX_ACTIVE_SESSIONS, i);
  }

  lemma RegisterActiveAfter(s: State, token: SessionToken, now: uint64, i: nat)
    requires Inv(s) && i < MAX_ACTIVE_SESSIONS && Register(s, token, now).0.table[i].isActive
    ensures var u := Register(s, token, now).0.table[i];
            || (s.table[i].isActive && u == s.table[i])
            || (u.issuedAt == now && u.clientId == token.clientId)
  {
    if token.clientId != ZERO_ID && !IsLockedOut(s, token.clientId) {
      var s1 := EndExisting(s, token.clientId);
      assert s1.table[i].isActive ==> s1.table[i] == s.table[i];
      var free := FirstFree(s1.table);
      if free == MAX_ACTIVE_SESSIONS && s1.order != [] {
        var s2 := EvictOldest(s1);
        assert s2.table[i].isActive ==> s2.table[i] == s1.table[i];
      }
    }
  }

  lemma StepSwept(s: State, op: Op, clock: uint64, swept: uint64)
    requires Inv(s) && IssuedBy(s.table, clock) && SweptAt(s.table, swept)
    requires swept <= clock <= TimeAfter(op, clock)
    ensures var u, now := Step(s, op).0.table, TimeAfter(op, clock);
            IssuedBy(u, now) && SweptAt(u, if op.SweepOp? then now else swept)
  {
    var u := Step(s, op).0.table;
    forall i | 0 <= i < |u| && u[i].isActive
      ensures u[i].issuedAt <= TimeAfter(op, clock)
      ensures (if op.SweepOp? then TimeAfter(op, clock) else swept) <= u[i].issuedAt + TOKEN_LIFETIME_MS
    {
      ActiveAfter(s, op, i);
      if op.SweepOp? {
        SweepToTable(s, op.now, MAX_ACTIVE_SESSIONS, i);
      }
    }
  }

  // With a sweep at least every 15 s, no open session is ever older than 45 s.
  lemma {:induction false} NoSessionOutlivesTheScan(s: State, ops: seq<Op>, clock: uint64, swept: uint64)
    requires Inv(s) && IssuedBy(s.table, clock) && SweptAt(s.table, swept)
    requires swept <= clock <= swept + 15_000
    requires Punctual(ops, clock, swept)
    ensures NoneOlder(Run(s, ops).table, EndTime(ops, clock), 45_000)
    decreases |ops|
  {
    if ops != [] {
      StepSwept(s, ops[0], clock, swept);
      StepKeeps(s, ops[0]);
      NoSessionOutlivesTheScan(Step(s, ops[0]).0, ops[1..], TimeAfter(ops[0], clock),
                               if ops[0].SweepOp? then TimeAfter(ops[0], clock) else swept);
    }
  }

  lemma {:induction false} KeepFreshWithout(r: Registry, r': Registry, cs: seq<ClientId>, c: ClientId, now: uint64)
    requires r.Stale(c, now)
    requires forall d :: d != c ==> r'.Stale(d, now) == r.Stale(d, now)
    ensures r'.KeepFresh(Without(cs, c), now) == r.KeepFresh(cs, now)
  {
    if cs != [] {
      KeepFreshWithout(r, r', cs[1..], c, now);
      if cs[0] != c {
        assert Without(cs, c)[1..] == Without(cs[1..], c);
      }
    }
  }

  lemma {:induction false} KeepFreshAgrees(r: Registry, r': Registry, cs: seq<ClientId>, now: uint64)
    requires forall d :: r'.Stale(d, now) == r.Stale(d, now)
    ensures r'.KeepFresh(cs, now) == r.KeepFresh(cs, now)
  {
    if cs != [] {
      KeepFreshAgrees(r, r', cs[1..], now);
    }
  }

  lemma LazyEagerRegistry(r: Registry, c: ClientId, now: uint64)
    ensures var lazy, eager := r.Validate(c, now), r.Sweep(now).Validate(c, now);
            eager.1 == lazy.1 && eager.2 == lazy.2 && eager.0 == lazy.0.Sweep(now)
  {
    if c !in r.barred && c in r.live {
      var lazy, eager := r.Validate(c, now), r.Sweep(now).Validate(c, now);
      if r.Stale(c, now) {
        KeepFreshWithout(r, r.Drop(c), r.order, c, now);
        assert lazy.0.Sweep(now).live == eager.0.live;
      } else {
        KeepFreshAgrees(r, lazy.0, r.order, now);
        assert lazy.0.Sweep(now).live == eager.0.live;
      }
    }
  }

  // Validation answers the same, and leaves the same sessions, with or without a sweep first.
  lemma LazyEagerAgree(s: State, c: ClientId, now: uint64)
    requires Inv(s)
    ensures var lazy, eager := Validate(s, c, now), Validate(Sweep(s, now), c, now);
            && eager.1 == lazy.1 && eager.2 == lazy.2
            && View(eager.0) == View(Sweep(lazy.0, now))
  {
    SweepToKeeps(s, now, MAX_ACTIVE_SESSIONS);
    SweepRefines(s, now);
    ValidateRefines(s, c, now);
    ValidateRefines(Sweep(s, now), c, now);
    ValidateKeeps(s, c, now);
    SweepRefines(Validate(s, c, now).0, now);
    LazyEagerRegistry(View(s), c, now);
  }
}
