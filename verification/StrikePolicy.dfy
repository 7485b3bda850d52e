/**
 The three-strike rule: exact when a run names one client, and not a rule about clients when
 it names several, because strikes belong to the slot and a slot changes hands.
 */
module StrikePolicy {
  import opened Bytes
  import opened SessionTable
  import opened SessionInvariants
  import opened SessionRegistry
  import opened SessionRuns

  predicate Names(op: Op, c: ClientId) {
    match op
    case RegisterOp(token, _) => token.clientId == c
    case ValidateOp(d, _) => d == c
    case RevokeOp(d, _) => d == c
    case SweepOp(_) => true
  }

  ghost predicate AllName(ops: seq<Op>, c: ClientId) {
    forall k :: 0 <= k < |ops| ==> Names(ops[k], c)
  }

  // Only slot 0 is ever used, and it has collected `strikes` strikes.
  ghost predicate Alone(s: State, c: ClientId, strikes: nat) {
    && Inv(s)
    && (forall k :: 1 <= k < MAX_ACTIVE_SESSIONS ==> s.table[k] == UNUSED_SLOT)
    && (if s.table[0].clientId == c
        then s.table[0].anomalyCount == if strikes < MAX_UINT8 then strikes else MAX_UINT8
        else s.table[0] == UNUSED_SLOT && strikes == 0)
  }

  lemma AloneIsLocked(s: State, c: ClientId, strikes: nat)
    requires Alone(s, c, strikes)
    ensures IsLockedOut(s, c) <==> strikes >= 3
  {
  }

  lemma RegisterAlone(s: State, token: SessionToken, now: uint64, strikes: nat)
    requires Alone(s, token.clientId, strikes)
    ensures Alone(Register(s, token, now).0, token.clientId, strikes)
  {
    var c := token.clientId;
    RegisterKeeps(s, token, now);
    AloneIsLocked(s, c, strikes);
    if c != ZERO_ID && !IsLockedOut(s, c) {
      EndExistingKeeps(s, c);
      var s1 := EndExisting(s, c);
      assert FirstMatch(s.table, c) == 0 || FirstMatch(s.table, c) == MAX_ACTIVE_SESSIONS;
      assert s1.table[0].Free();
      assert FirstFree(s1.table) == 0;
    }
  }

  lemma SweepAlone(s: State, c: ClientId, now: uint64, strikes: nat)
    requires Alone(s, c, strikes)
    ensures Alone(Sweep(s, now), c, strikes)
  {
    SweepToKeeps(s, now, MAX_ACTIVE_SESSIONS);
    forall k | 0 <= k < MAX_ACTIVE_SESSIONS
      ensures Sweep(s, now).table[k] == if s.table[k].Expired(now) then s.table[k].Retired() else s.table[k]
    {
      SweepToTable(s, now, MAX_ACTIVE_SESSIONS, k);
    }
  }

  lemma RevokeAlone(s: State, c: ClientId, isAnomaly: bool, strikes: nat)
    requires Alone(s, c, strikes)
    ensures Alone(Revoke(s, c, isAnomaly).0, c, strikes + Strike(s, RevokeOp(c, isAnomaly)))
  {
    RevokeKeeps(s, c, isAnomaly);
    assert FirstMatch(s.table, c) == 0 || FirstMatch(s.table, c) == MAX_ACTIVE_SESSIONS;
  }

  lemma ValidateAlone(s: State, c: ClientId, now: uint64, strikes: nat)
    requires Alone(s, c, strikes)
    ensures Alone(Validate(s, c, now).0, c, strikes)
  {
    ValidateKeeps(s, c, now);
    assert FirstMatch(s.table, c) == 0 || FirstMatch(s.table, c) == MAX_ACTIVE_SESSIONS;
  }

  lemma {:induction false} RunAlone(s: State, ops: seq<Op>, c: ClientId, strikes: nat)
    requires Alone(s, c, strikes) && AllName(ops, c)
    ensures Alone(Run(s, ops), c, strikes + RunStrikes(s, ops))
    decreases |ops|
  {
    if ops != [] {
      match ops[0] {
        case RegisterOp(token, now) => RegisterAlone(s, token, now, strikes);
        case ValidateOp(_, now) => ValidateAlone(s, c, now, strikes);
        case RevokeOp(_, isAnomaly) => RevokeAlone(s, c, isAnomaly, strikes);
        case SweepOp(now) => SweepAlone(s, c, now, strikes);
      }
      assert AllName(ops[1..], c) by {
        assert forall k :: 0 <= k < |ops[1..]| ==> ops[1..][k] == ops[k + 1];
      }
      RunAlone(Step(s, ops[0]).0, ops[1..], c, strikes + Strike(s, ops[0]));
    }
  }

  // In a run naming one client, it is locked out exactly from the third strike.
  lemma ThirdStrikeLocksOut(listening: bool, ops: seq<Op>, c: ClientId)
    requires AllName(ops, c)
    ensures var s := Initial(listening);
            IsLockedOut(Run(s, ops), c) <==> RunStrikes(s, ops) >= 3
  {
    var s := Initial(listening);
    RunAlone(s, ops, c, 0);
    AloneIsLocked(Run(s, ops), c, RunStrikes(s, ops));
  }

  // --- Several clients ----------------------------------------------------------------------

  // The slot a successful registration fills.
  function Target(s: State, token: SessionToken): nat
    requires WellFormed(s)
  {
    var s1 := EndExisting(s, token.clientId);
    var free := FirstFree(s1.table);
    if free == MAX_ACTIVE_SESSIONS && s1.order != [] then s1.order[0] else free
  }

  // A registration moves `c` when it hands the slot of `c` to another client, or gives `c` a new slot.
  predicate Moves(s: State, op: Op, c: ClientId)
    requires WellFormed(s)
  {
    && op.RegisterOp?
    && Step(s, op).1 == Ok
    && ((op.token.clientId == c) != (Target(s, op.token) == FirstMatch(s.table, c)))
  }

  lemma RegisterIds(s: State, token: SessionToken, now: uint64, k: nat)
    requires Inv(s) && k < MAX_ACTIVE_SESSIONS
    ensures Register(s, token, now).0.table[k].clientId ==
            if Register(s, token, now).1 == Ok && k == Target(s, token) then token.clientId
            else s.table[k].clientId
  {
    if token.clientId != ZERO_ID && !IsLockedOut(s, token.clientId) {
      var s1 := EndExisting(s, token.clientId);
      assert s1.table[k].clientId == s.table[k].clientId;
    }
  }

  lemma OtherIds(s: State, op: Op, k: nat)
    requires Inv(s) && k < MAX_ACTIVE_SESSIONS && !op.RegisterOp?
    ensures Step(s, op).0.table[k].clientId == s.table[k].clientId
  {
    if op.SweepOp? {
      SweepToTable(s, op.now, MAX_ACTIVE_SESSIONS, k);
    }
  }

  // A registering client never moves to a higher slot.
  lemma TargetIsLowest(s: State, token: SessionToken, now: uint64)
    requires Inv(s) && Register(s, token, now).1 == Ok
    ensures Target(s, token) <= FirstMatch(s.table, token.clientId)
    ensures Target(s, token) < MAX_ACTIVE_SESSIONS
  {
    var c := token.clientId;
    EndExistingKeeps(s, c);
    var s1, i := EndExisting(s, c), FirstMatch(s.table, c);
    if i < MAX_ACTIVE_SESSIONS {
      assert s1.table[i].clientId == c && s1.table[i].Free();
    }
  }

  // Writing `d` into slot `f`, not above the slot of `d`, moves `c` exactly when one of the two
  // conditions `d == c` and "`f` is the slot of `c`" holds.
  lemma WriteMoves(t: seq<TokenSlot>, u: seq<TokenSlot>, f: nat, d: ClientId, c: ClientId)
    requires |t| == |u| && f < |t| && f <= FirstMatch(t, d) && FirstMatch(t, c) < |t|
    requires forall k :: 0 <= k < |t| ==> u[k].clientId == if k == f then d else t[k].clientId
    ensures FirstMatch(u, c) == FirstMatch(t, c) <==> (d == c <==> f == FirstMatch(t, c))
  {
    var i := FirstMatch(t, c);
    assert u[i].clientId == if i == f then d else c;
    assert u[f].clientId == d;
  }

  lemma NoWrite(s: State, op: Op, k: nat)
    requires Inv(s) && k < MAX_ACTIVE_SESSIONS && !(op.RegisterOp? && Step(s, op).1 == Ok)
    ensures Step(s, op).0.table[k].clientId == s.table[k].clientId
  {
    if op.RegisterOp? {
      RegisterIds(s, op.token, op.now, k);
    } else {
      OtherIds(s, op, k);
    }
  }

  // Lookup finds the same slot for `c` after a step exactly when the step does not move it.
  lemma MovesIff(s: State, op: Op, c: ClientId)
    requires Inv(s) && Carried(s.table, c)
    ensures FirstMatch(Step(s, op).0.table, c) == FirstMatch(s.table, c) <==> !Moves(s, op, c)
  {
    if op.RegisterOp? && Step(s, op).1 == Ok {
      RegistrationMovesIff(s, op.token, op.now, c);
    } else {
      OthersMoveNone(s, op, c);
    }
  }

  lemma RegistrationMovesIff(s: State, token: SessionToken, now: uint64, c: ClientId)
    requires Inv(s) && Carried(s.table, c) && Register(s, token, now).1 == Ok
    ensures FirstMatch(Register(s, token, now).0.table, c) == FirstMatch(s.table, c) <==>
              (token.clientId == c <==> Target(s, token) == FirstMatch(s.table, c))
  {
    RegisterWrites(s, token, now, s.table, Register(s, token, now).0.table, Target(s, token));
    TargetIsLowest(s, token, now);
    WriteMoves(s.table, Register(s, token, now).0.table, Target(s, token), token.clientId, c);
  }

  lemma RegisterWrites(s: State, token: SessionToken, now: uint64, t: seq<TokenSlot>, u: seq<TokenSlot>, f: nat)
    requires Inv(s) && Register(s, token, now).1 == Ok
    requires t == s.table && u == Register(s, token, now).0.table && f == Target(s, token)
    ensures |u| == |t| && forall k :: 0 <= k < |t| ==> u[k].clientId == if k == f then token.clientId else t[k].clientId
  {
    forall k | 0 <= k < |t|
      ensures u[k].clientId == if k == f then token.clientId else t[k].clientId
    {
      RegisterIds(s, token, now, k);
    }
  }

  lemma OthersMoveNone(s: State, op: Op, c: ClientId)
    requires Inv(s) && !(op.RegisterOp? && Step(s, op).1 == Ok)
    ensures FirstMatch(Step(s, op).0.table, c) == FirstMatch(s.table, c)
  {
    var t, u := s.table, Step(s, op).0.table;
    forall k | 0 <= k < MAX_ACTIVE_SESSIONS
      ensures u[k].clientId == t[k].clientId
    {
      NoWrite(s, op, k);
    }
    SameMatch(t, u, c);
  }

  ghost predicate Stays(s: State, ops: seq<Op>, c: ClientId)
    requires WellFormed(s)
    decreases |ops|
  {
    ops != [] ==> !Moves(s, ops[0], c) && Stays(Step(s, ops[0]).0, ops[1..], c)
  }

  function StrikesOn(s: State, ops: seq<Op>, c: ClientId): nat
    requires WellFormed(s)
    decreases |ops|
  {
    if ops == [] then 0
    else (if ops[0].RevokeOp? && ops[0].client == c then Strike(s, ops[0]) else 0)
         + StrikesOn(Step(s, ops[0]).0, ops[1..], c)
  }

  lemma StepStrikesOn(s: State, op: Op, c: ClientId)
    requires Inv(s) && Carried(s.table, c) && !Moves(s, op, c)
    ensures var u, n := Step(s, op).0.table, Strikes(s.table, c);
            var hit := if op.RevokeOp? && op.client == c then Strike(s, op) else 0;
            && Carried(u, c)
            && Strikes(u, c) == if n + hit <= MAX_UINT8 then n + hit else MAX_UINT8
  {
    MovesIff(s, op, c);
    StepStrikes(s, op, FirstMatch(s.table, c));
  }

  // While no registration moves a client, the three-strike rule holds for it among any others.
  lemma {:induction false} ThirdStrikeWhileInPlace(s: State, ops: seq<Op>, c: ClientId)
    requires Inv(s) && Carried(s.table, c) && Stays(s, ops, c)
    ensures IsLockedOut(Run(s, ops), c) <==> Strikes(s.table, c) + StrikesOn(s, ops, c) >= 3
    decreases |ops|
  {
    if ops != [] {
      StepStrikesOn(s, ops[0], c);
      StepKeeps(s, ops[0]);
      ThirdStrikeWhileInPlace(Step(s, ops[0]).0, ops[1..], c);
    }
  }

  // --- Any clients, any registrations -------------------------------------------------------

  // The anomalous revocations of a run that lookup resolved to slot `i`, whomever they named.
  function SlotStrikes(s: State, ops: seq<Op>, i: nat): nat
    requires WellFormed(s)
    decreases |ops|
  {
    if ops == [] then 0
    else (if ops[0].RevokeOp? && FirstMatch(s.table, ops[0].client) == i then Strike(s, ops[0]) else 0)
         + SlotStrikes(Step(s, ops[0]).0, ops[1..], i)
  }

  lemma {:induction false} CountAfterRun(s: State, ops: seq<Op>, i: nat)
    requires Inv(s) && i < MAX_ACTIVE_SESSIONS
    ensures var n := s.table[i].anomalyCount + SlotStrikes(s, ops, i);
            Run(s, ops).table[i].anomalyCount == if n <= MAX_UINT8 then n else MAX_UINT8
    decreases |ops|
  {
    if ops != [] {
      StepStrikes(s, ops[0], i);
      StepKeeps(s, ops[0]);
      CountAfterRun(Step(s, ops[0]).0, ops[1..], i);
    }
  }

  // What the code does instead of counting clients: after any run a client is locked out exactly
  // when the slot lookup then finds for it has collected three strikes, whomever they were for.
  lemma LockedIffSlotStruckThrice(listening: bool, ops: seq<Op>, c: ClientId)
    ensures var s := Initial(listening);
            var i := FirstMatch(Run(s, ops).table, c);
            IsLockedOut(Run(s, ops), c) <==>
              i < MAX_ACTIVE_SESSIONS && SlotStrikes(s, ops, i) >= 3
  {
    var s := Initial(listening);
    InitialInv(listening);
    RunKeeps(s, ops);
    var i := FirstMatch(Run(s, ops).table, c);
    if i < MAX_ACTIVE_SESSIONS {
      CountAfterRun(s, ops, i);
    }
  }

  const FIRST: ClientId := [1, 0, 0, 0, 0, 0, 0, 0]
  const SECOND: ClientId := [2, 0, 0, 0, 0, 0, 0, 0]

  function TokenFor(c: ClientId): SessionToken {
    SessionToken(c, Zeros(NONCE_LEN), Zeros(SESSION_KEY_LEN))
  }

  const BORROWED_SLOT: seq<Op> := [
    RegisterOp(TokenFor(FIRST), 0), RevokeOp(FIRST, true), RegisterOp(TokenFor(SECOND), 0),
    RegisterOp(TokenFor(FIRST), 0), RevokeOp(FIRST, true), RevokeOp(FIRST, true)]

  datatype Seat = Seat(client: ClientId, strikes: nat, active: bool)

  ghost predicate Holds(t: TokenSlot, seat: Seat) {
    t.clientId == seat.client && t.anomalyCount == seat.strikes && t.isActive == seat.active
  }

  // Slots 0 and 1 as given, the rest never used.
  ghost predicate Pair(s: State, a: Seat, b: Seat) {
    && Inv(s)
    && Holds(s.table[0], a)
    && Holds(s.table[1], b)
    && forall k :: 2 <= k < MAX_ACTIVE_SESSIONS ==> s.table[k] == UNUSED_SLOT
  }

  lemma EntersSlot0(s: State, c: ClientId, a: Seat, b: Seat)
    requires Pair(s, a, b) && !a.active && a.strikes < MAX_ANOMALY_COUNT
    requires c != ZERO_ID && b.client != c
    ensures Pair(Step(s, RegisterOp(TokenFor(c), 0)).0, Seat(c, a.strikes, true), b)
  {
    RegisterKeeps(s, TokenFor(c), 0);
    assert FirstMatch(s.table, c) == 0 || FirstMatch(s.table, c) == MAX_ACTIVE_SESSIONS;
    assert EndExisting(s, c) == s && FirstFree(s.table) == 0;
  }

  lemma EntersSlot1(s: State, c: ClientId, a: Seat, b: Seat)
    requires Pair(s, a, b) && a.active && !b.active && b.strikes < MAX_ANOMALY_COUNT
    requires c != ZERO_ID && a.client != c
    ensures Pair(Step(s, RegisterOp(TokenFor(c), 0)).0, a, Seat(c, b.strikes, true))
  {
    RegisterKeeps(s, TokenFor(c), 0);
    assert FirstMatch(s.table, c) == 1 || FirstMatch(s.table, c) == MAX_ACTIVE_SESSIONS;
    assert EndExisting(s, c) == s && FirstFree(s.table) == 1;
  }

  lemma StrikesSlot0(s: State, a: Seat, b: Seat)
    requires Pair(s, a, b) && a.strikes < MAX_UINT8
    ensures var op := RevokeOp(a.client, true);
            Pair(Step(s, op).0, Seat(a.client, a.strikes + 1, false), b) && Strike(s, op) == 1
  {
    RevokeKeeps(s, a.client, true);
    assert FirstMatch(s.table, a.client) == 0;
  }

  lemma StrikesSlot1(s: State, a: Seat, b: Seat)
    requires Pair(s, a, b) && b.strikes < MAX_UINT8 && a.client != b.client
    ensures var op := RevokeOp(b.client, true);
            Pair(Step(s, op).0, a, Seat(b.client, b.strikes + 1, false)) && Strike(s, op) == 1
  {
    RevokeKeeps(s, b.client, true);
    assert FirstMatch(s.table, b.client) == 1;
  }

  lemma RunCons(s: State, op: Op, rest: seq<Op>)
    requires WellFormed(s)
    ensures Run(s, [op] + rest) == Run(Step(s, op).0, rest)
    ensures RunStrikes(s, [op] + rest) == Strike(s, op) + RunStrikes(Step(s, op).0, rest)
  {
  }

  lemma DistinctClients()
    ensures FIRST != SECOND && FIRST != ZERO_ID && SECOND != ZERO_ID
  {
  }

  // All three revocations of FIRST succeed, yet it is not locked out: SECOND took over the slot
  // that held its first strike, and the strike with it.
  lemma StrikesStayWithTheSlot(listening: bool)
    ensures var s := Initial(listening);
            && RunStrikes(s, BORROWED_SLOT) == 3
            && !IsLockedOut(Run(s, BORROWED_SLOT), FIRST)
            && Strikes(Run(s, BORROWED_SLOT).table, SECOND) == 1
  {
    DistinctClients();
    var s := Initial(listening);
    var first, second, strike := RegisterOp(TokenFor(FIRST), 0), RegisterOp(TokenFor(SECOND), 0), RevokeOp(FIRST, true);
    var empty := Seat(ZERO_ID, 0, false);
    var s1 := Step(s, first).0;
    EntersSlot0(s, FIRST, empty, empty);
    var s2 := Step(s1, strike).0;
    StrikesSlot0(s1, Seat(FIRST, 0, true), empty);
    var s3 := Step(s2, second).0;
    EntersSlot0(s2, SECOND, Seat(FIRST, 1, false), empty);
    assert BORROWED_SLOT == [first] + ([strike] + ([second] + [first, strike, strike]));
    RunCons(s, first, [strike] + ([second] + [first, strike, strike]));
    RunCons(s1, strike, [second] + [first, strike, strike]);
    RunCons(s2, second, [first, strike, strike]);
    ReturnsToSlot1(s3);
  }

  lemma ReturnsToSlot1(s: State)
    requires Pair(s, Seat(SECOND, 1, true), Seat(ZERO_ID, 0, false))
    ensures var ops := [RegisterOp(TokenFor(FIRST), 0), RevokeOp(FIRST, true), RevokeOp(FIRST, true)];
            && RunStrikes(s, ops) == 2
            && !IsLockedOut(Run(s, ops), FIRST)
            && Strikes(Run(s, ops).table, SECOND) == 1
  {
    DistinctClients();
    var first, strike := RegisterOp(TokenFor(FIRST), 0), RevokeOp(FIRST, true);
    var second := Seat(SECOND, 1, true);
    var s1 := Step(s, first).0;
    EntersSlot1(s, FIRST, second, Seat(ZERO_ID, 0, false));
    var s2 := Step(s1, strike).0;
    StrikesSlot1(s1, second, Seat(FIRST, 0, true));
    var s3 := Step(s2, strike).0;
    StrikesSlot1(s2, second, Seat(FIRST, 1, false));
    assert [first, strike, strike] == [first] + ([strike] + ([strike] + []));
    RunCons(s, first, [strike] + ([strike] + []));
    RunCons(s1, strike, [strike] + []);
    RunCons(s2, strike, []);
    assert FirstMatch(s3.table, FIRST) == 1 && FirstMatch(s3.table, SECOND) == 0;
  }
}
