/**
 What the token lifecycle manager computes, as functions on its state: the eight-slot
 session table, the order in which its active slots were filled, and the revocation
 notices sent so far. `TokenLifecycleManager` is proved to compute exactly these functions.
 */
module SessionTable {
  import opened Bytes
  import opened CircularBuffers

  const MAX_ACTIVE_SESSIONS := 8
  const TOKEN_LIFETIME_MS := 30_000
  const MAX_ANOMALY_COUNT := 3
  const MAX_UINT8 := 255

  datatype TlmStatus = Ok | TableFull | NotFound | LockedOut | InvalidParam

  datatype SessionToken = SessionToken(clientId: ClientId, nonce: Nonce, key: SessionKey)

  datatype TokenSlot = TokenSlot(
    clientId: ClientId,
    sessionKey: SessionKey,
    sessionNonce: Nonce,
    issuedAt: uint64,
    lastSeen: uint64,
    anomalyCount: nat,
    isActive: bool,
    isLockedOut: bool)
  {
    // Erases key, nonce and timestamps; the client id and the anomaly state stay behind.
    function ZeroSecrets(): TokenSlot {
      this.(sessionKey := Zeros(SESSION_KEY_LEN), sessionNonce := Zeros(NONCE_LEN), issuedAt := 0, lastSeen := 0)
    }

    function Retired(): TokenSlot {
      ZeroSecrets().(isActive := false)
    }

    function Holding(token: SessionToken, now: uint64): TokenSlot {
      this.(clientId := token.clientId, sessionKey := token.key, sessionNonce := token.nonce,
            issuedAt := now, lastSeen := now, isActive := true)
    }

    function WithAnomaly(): TokenSlot {
      if anomalyCount < MAX_UINT8
      then this.(anomalyCount := anomalyCount + 1,
                 isLockedOut := isLockedOut || anomalyCount + 1 >= MAX_ANOMALY_COUNT)
      else this
    }

    predicate Expired(now: uint64) {
      isActive && Age(now, issuedAt) > TOKEN_LIFETIME_MS
    }

    predicate Free() {
      !isActive && !isLockedOut
    }
  }

  // Elapsed time by unsigned 64-bit subtraction.
  function Age(now: uint64, issuedAt: uint64): (age: uint64)
    ensures issuedAt <= now ==> age == now - issuedAt
    ensures now < issuedAt ==> age == now - issuedAt + 0x1_0000_0000_0000_0000
  {
    (now - issuedAt) % TWO_TO_THE_64
  }

  const UNUSED_SLOT :=
    TokenSlot(ZERO_ID, Zeros(SESSION_KEY_LEN), Zeros(NONCE_LEN), 0, 0, 0, false, false)

  // The revocation callback is optional: without one, `listening` is false and nothing is notified.
  datatype State = State(table: seq<TokenSlot>, order: seq<nat>, listening: bool, notified: seq<ClientId>)

  function Initial(listening: bool): State {
    State(seq(MAX_ACTIVE_SESSIONS, _ => UNUSED_SLOT), [], listening, [])
  }

  // Shape only: what the functions below need in order to index the table.
  predicate WellFormed(s: State) {
    && |s.table| == MAX_ACTIVE_SESSIONS
    && |s.order| <= MAX_ACTIVE_SESSIONS
    && forall k :: 0 <= k < |s.order| ==> s.order[k] < MAX_ACTIVE_SESSIONS
  }

  // Lookup: the first slot carrying `c`, active or not; the table length when there is none.
  function FirstMatch(t: seq<TokenSlot>, c: ClientId): (i: nat)
    ensures i <= |t|
    ensures i < |t| ==> t[i].clientId == c
    ensures forall k :: 0 <= k < i ==> t[k].clientId != c
  {
    if t == [] || t[0].clientId == c then 0 else 1 + FirstMatch(t[1..], c)
  }

  function FirstFree(t: seq<TokenSlot>): (i: nat)
    ensures i <= |t|
    ensures i < |t| ==> t[i].Free()
    ensures forall k :: 0 <= k < i ==> !t[k].Free()
  {
    if t == [] || t[0].Free() then 0 else 1 + FirstFree(t[1..])
  }

  // The slot that lookup finds for `c` is locked.
  predicate Barred(t: seq<TokenSlot>, c: ClientId) {
    var i := FirstMatch(t, c);
    i < |t| && t[i].isLockedOut
  }

  predicate IsLockedOut(s: State, c: ClientId)
    requires WellFormed(s)
  {
    Barred(s.table, c)
  }

  function ActiveCount(t: seq<TokenSlot>): (n: nat)
    ensures n <= |t|
  {
    if t == [] then 0
    else ActiveCount(t[..|t| - 1]) + if t[|t| - 1].isActive then 1 else 0
  }

  function Notify(s: State, c: ClientId): State {
    if s.listening then s.(notified := s.notified + [c]) else s
  }

  // Ends whatever session slot `i` holds and reports it under the id `c`.
  function Deactivate(s: State, i: nat, c: ClientId): (s': State)
    requires WellFormed(s) && i < MAX_ACTIVE_SESSIONS
    ensures WellFormed(s')
  {
    WithoutMembers<nat>(s.order, i);
    Notify(s.(table := s.table[i := s.table[i].Retired()], order := Without<nat>(s.order, i)), c)
  }

  function Admit(s: State, i: nat, token: SessionToken, now: uint64): (s': State)
    requires WellFormed(s) && i < MAX_ACTIVE_SESSIONS
    ensures WellFormed(s')
  {
    s.(table := s.table[i := s.table[i].Holding(token, now)],
       order := if |s.order| < MAX_ACTIVE_SESSIONS then s.order + [i] else s.order)
  }

  // Refresh: an active session of the same client ends before the new one is admitted.
  function EndExisting(s: State, c: ClientId): (s': State)
    requires WellFormed(s)
    ensures WellFormed(s')
  {
    var i := FirstMatch(s.table, c);
    if i < MAX_ACTIVE_SESSIONS && s.table[i].isActive then Deactivate(s, i, c) else s
  }

  // Eviction: the slot at the head of the order, reported under the id it carries.
  function EvictOldest(s: State): (s': State)
    requires WellFormed(s) && s.order != []
    ensures WellFormed(s')
  {
    var victim := s.order[0];
    Notify(s.(table := s.table[victim := s.table[victim].Retired()], order := s.order[1..]),
           s.table[victim].clientId)
  }

  function Place(s: State, token: SessionToken, now: uint64): (r: (State, TlmStatus))
    requires WellFormed(s)
    ensures WellFormed(r.0)
  {
    var free := FirstFree(s.table);
    if free < MAX_ACTIVE_SESSIONS then (Admit(s, free, token, now), Ok)
    else if s.order == [] then (s, TableFull)
    else (Admit(EvictOldest(s), s.order[0], token, now), Ok)
  }

  function Register(s: State, token: SessionToken, now: uint64): (r: (State, TlmStatus))
    requires WellFormed(s)
    ensures WellFormed(r.0)
  {
    if token.clientId == ZERO_ID then (s, InvalidParam)
    else if IsLockedOut(s, token.clientId) then (s, LockedOut)
    else Place(EndExisting(s, token.clientId), token, now)
  }

  datatype Option<+T> = None | Some(value: T)

  function Validate(s: State, c: ClientId, now: uint64): (r: (State, TlmStatus, Option<SessionKey>))
    requires WellFormed(s)
    ensures WellFormed(r.0)
  {
    if IsLockedOut(s, c) then (s, LockedOut, None)
    else
      var i := FirstMatch(s.table, c);
      if i == MAX_ACTIVE_SESSIONS || !s.table[i].isActive then (s, NotFound, None)
      else if s.table[i].Expired(now) then (Deactivate(s, i, c), NotFound, None)
      else (s.(table := s.table[i := s.table[i].(lastSeen := now)]), Ok, Some(s.table[i].sessionKey))
  }

  function Revoke(s: State, c: ClientId, isAnomaly: bool): (r: (State, TlmStatus))
    requires WellFormed(s)
    ensures WellFormed(r.0)
  {
    var i := FirstMatch(s.table, c);
    if i == MAX_ACTIVE_SESSIONS then (s, NotFound)
    else
      var marked := if isAnomaly then s.table[i].WithAnomaly() else s.table[i];
      (Deactivate(s.(table := s.table[i := marked]), i, c), Ok)
  }

  function ExpireSlot(s: State, i: nat, now: uint64): (s': State)
    requires WellFormed(s) && i < MAX_ACTIVE_SESSIONS
    ensures WellFormed(s')
  {
    if s.table[i].Expired(now) then Deactivate(s, i, s.table[i].clientId) else s
  }

  // The periodic scan, after its first `n` slots.
  function SweepTo(s: State, now: uint64, n: nat): (s': State)
    requires WellFormed(s) && n <= MAX_ACTIVE_SESSIONS
    ensures WellFormed(s')
  {
    if n == 0 then s else ExpireSlot(SweepTo(s, now, n - 1), n - 1, now)
  }

  function Sweep(s: State, now: uint64): (s': State)
    requires WellFormed(s)
    ensures WellFormed(s')
  {
    SweepTo(s, now, MAX_ACTIVE_SESSIONS)
  }

  datatype Op =
    | RegisterOp(token: SessionToken, now: uint64)
    | ValidateOp(client: ClientId, now: uint64)
    | RevokeOp(client: ClientId, isAnomaly: bool)
    | SweepOp(now: uint64)

  function Step(s: State, op: Op): (r: (State, TlmStatus))
    requires WellFormed(s)
    ensures WellFormed(r.0)
  {
    match op
    case RegisterOp(token, now) => Register(s, token, now)
    case ValidateOp(c, now) => var r := Validate(s, c, now); (r.0, r.1)
    case RevokeOp(c, isAnomaly) => Revoke(s, c, isAnomaly)
    case SweepOp(now) => (Sweep(s, now), Ok)
  }

  function Run(s: State, ops: seq<Op>): (s': State)
    requires WellFormed(s)
    ensures WellFormed(s')
    decreases |ops|
  {
    if ops == [] then s else Run(Step(s, ops[0]).0, ops[1..])
  }
}
