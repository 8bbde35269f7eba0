/** The server's session and revocation store (src/auth/mod.rs).

    A `SessionStore` holds one session per primary wallet address and the set
    of revoked token identifiers (JWT `jti` claims). The clock the source
    reads inside `create_session`, `add_wallet` and `cleanup_expired` is a
    `now` parameter here, and the read-write locks around the two
    collections are not modelled: every operation runs on its own. */
module Sessions {
  import opened Wrappers

  /** `UserSession`: the primary address, every wallet address linked to it,
      and two Unix timestamps in seconds. */
  datatype UserSession = UserSession(
    address: string,
    walletAddresses: set<string>,
    createdAt: int,
    lastActiveAt: int)

  /** Every session is filed under its own primary address, and that address
      is one of its wallet addresses. */
  predicate WellKeyed(sessions: map<string, UserSession>) {
    forall a :: a in sessions ==> sessions[a].address == a && a in sessions[a].walletAddresses
  }

  /** The session `create_session(address)` leaves under `address`: the one
      already there (or a fresh one created now), with `address` added to its
      wallet addresses and its activity time set to now. */
  function CreatedSession(sessions: map<string, UserSession>, address: string, now: int): (s: UserSession)
    ensures address in s.walletAddresses && s.lastActiveAt == now
    ensures address !in sessions ==> s == UserSession(address, {address}, now, now)
    ensures address in sessions ==>
      s.address == sessions[address].address && s.createdAt == sessions[address].createdAt
      && s.walletAddresses == sessions[address].walletAddresses + {address}
  {
    var base := if address in sessions then sessions[address] else UserSession(address, {}, now, now);
    base.(walletAddresses := base.walletAddresses + {address}, lastActiveAt := now)
  }

  /** `add_wallet(primary, new_address)` on the map of sessions: the primary's
      session gains the address and is marked active now; a missing primary is
      the error "Session not found". */
  function AddedWallet(sessions: map<string, UserSession>, primary: string, newAddress: string, now: int)
    : (r: Result<map<string, UserSession>, string>)
    ensures r.Err? <==> primary !in sessions
    ensures r.Err? ==> r.error == "Session not found"
    ensures r.Ok? ==> r.value.Keys == sessions.Keys
    ensures r.Ok? ==> forall a :: a in sessions && a != primary ==> r.value[a] == sessions[a]
    ensures r.Ok? ==> r.value[primary] == sessions[primary].(
      walletAddresses := sessions[primary].walletAddresses + {newAddress}, lastActiveAt := now)
  {
    if primary in sessions then
      var s := sessions[primary];
      Ok(sessions[primary := s.(walletAddresses := s.walletAddresses + {newAddress}, lastActiveAt := now)])
    else
      Err("Session not found")
  }

  /** `cleanup_expired(max_age)`: the sessions active less than `maxAge`
      seconds before now, unchanged. */
  function Unexpired(sessions: map<string, UserSession>, maxAge: int, now: int): (r: map<string, UserSession>)
    ensures forall a :: a in r <==> a in sessions && now - sessions[a].lastActiveAt < maxAge
    ensures forall a :: a in r ==> r[a] == sessions[a]
  {
    map a | a in sessions && now - sessions[a].lastActiveAt < maxAge :: sessions[a]
  }

  /** The whole store as a value. */
  datatype Store = Store(sessions: map<string, UserSession>, revoked: set<string>)

  /** The operations that change the store. */
  datatype Op =
    | CreateSessionOp(address: string, now: int)
    | AddWalletOp(primary: string, newAddress: string, now: int)
    | RevokeOp(jti: string)
    | CleanupOp(maxAge: int, now: int)

  /** What one operation does to the store. */
  function Step(st: Store, op: Op): Store {
    match op
    case CreateSessionOp(a, now) =>
      st.(sessions := st.sessions[a := CreatedSession(st.sessions, a, now)])
    case AddWalletOp(p, a, now) =>
      (match AddedWallet(st.sessions, p, a, now)
       case Ok(m) => st.(sessions := m)
       case Err(_) => st)
    case RevokeOp(j) => st.(revoked := st.revoked + {j})
    case CleanupOp(maxAge, now) => st.(sessions := Unexpired(st.sessions, maxAge, now))
  }

  /** A sequence of operations applied in order. */
  function Run(st: Store, ops: seq<Op>): Store
    decreases |ops|
  {
    if |ops| == 0 then st else Run(Step(st, ops[0]), ops[1..])
  }

  /** Each operation keeps every session filed under its own address. */
  lemma StepKeepsWellKeyed(st: Store, op: Op)
    requires WellKeyed(st.sessions)
    ensures WellKeyed(Step(st, op).sessions)
  {
    match op
    case CreateSessionOp(a, now) =>
    case AddWalletOp(p, a, now) =>
    case RevokeOp(j) =>
    case CleanupOp(maxAge, now) =>
  }

  /** The invariant holds after any sequence of operations. */
  lemma {:induction false} RunKeepsWellKeyed(st: Store, ops: seq<Op>)
    requires WellKeyed(st.sessions)
    ensures WellKeyed(Run(st, ops).sessions)
    decreases |ops|
  {
    if |ops| > 0 {
      StepKeepsWellKeyed(st, ops[0]);
      RunKeepsWellKeyed(Step(st, ops[0]), ops[1..]);
    }
  }

  /** Nothing removes a revocation: a revoked token stays revoked after any
      sequence of operations. */
  lemma {:induction false} RevocationIsPermanent(st: Store, ops: seq<Op>, jti: string)
    requires jti in st.revoked
    ensures jti in Run(st, ops).revoked
    decreases |ops|
  {
    if |ops| > 0 {
      RevocationIsPermanent(Step(st, ops[0]), ops[1..], jti);
    }
  }

  /** Only a revocation changes the revoked set. */
  lemma OnlyRevokeRevokes(st: Store, op: Op)
    ensures Step(st, op).revoked == if op.RevokeOp? then st.revoked + {op.jti} else st.revoked
  {
  }

  /** Creating a session for an address records that address under its own
      key in a well-keyed store. */
  lemma CreatedSessionIsOwn(sessions: map<string, UserSession>, address: string, now: int)
    requires WellKeyed(sessions)
    ensures CreatedSession(sessions, address, now).address == address
    ensures address in sessions ==>
      sessions[address].walletAddresses <= CreatedSession(sessions, address, now).walletAddresses
  {
  }

  /** Adding the same wallet twice at the same time is the same as adding it once. */
  lemma AddWalletIdempotent(sessions: map<string, UserSession>, primary: string, newAddress: string, now: int)
    requires primary in sessions
    ensures AddedWallet(AddedWallet(sessions, primary, newAddress, now).value, primary, newAddress, now)
      == AddedWallet(sessions, primary, newAddress, now)
  {
    var once := AddedWallet(sessions, primary, newAddress, now).value;
    var s := sessions[primary];
    assert once[primary].walletAddresses + {newAddress} == s.walletAddresses + {newAddress};
    assert once[primary := once[primary].(walletAddresses := once[primary].walletAddresses + {newAddress},
                                          lastActiveAt := now)] == once;
  }

  /** Cleaning up twice with the same clock reading removes nothing more. */
  lemma CleanupIdempotent(sessions: map<string, UserSession>, maxAge: int, now: int)
    ensures Unexpired(Unexpired(sessions, maxAge, now), maxAge, now) == Unexpired(sessions, maxAge, now)
  {
  }

  /** A later cleanup keeps no session that an earlier one removed. */
  lemma CleanupLaterKeepsFewer(sessions: map<string, UserSession>, maxAge: int, t1: int, t2: int)
    requires t1 <= t2
    ensures Unexpired(sessions, maxAge, t2).Keys <= Unexpired(sessions, maxAge, t1).Keys
  {
  }

  /** `SessionStore`: the session map and the revoked-token set, updated in place. */
  class SessionStore {
    var sessions: map<string, UserSession>
    var revokedTokens: set<string>

    /** The store as a value. */
    function Snapshot(): Store
      reads this
    {
      Store(sessions, revokedTokens)
    }

    /** The store's invariant. */
    predicate Valid()
      reads this
    {
      WellKeyed(sessions)
    }

    /** `SessionStore::new`: no sessions, nothing revoked. */
    constructor()
      ensures sessions == map[] && revokedTokens == {}
      ensures Valid()
    {
      sessions := map[];
      revokedTokens := {};
    }

    /** `create_session(address)`: insert a new session or refresh the
        existing one, and return a copy of what is stored. */
    method CreateSession(address: string, now: int) returns (s: UserSession)
      requires Valid()
      modifies this
      ensures Valid()
      ensures s == CreatedSession(old(sessions), address, now)
      ensures s.address == address && address in s.walletAddresses
      ensures sessions == old(sessions)[address := s]
      ensures Snapshot() == Step(old(Snapshot()), CreateSessionOp(address, now))
    {
      var entry: UserSession;
      if address in sessions {
        entry := sessions[address];
      } else {
        entry := UserSession(address, {}, now, now);
        sessions := sessions[address := entry];
      }
      entry := entry.(walletAddresses := entry.walletAddresses + {address});
      entry := entry.(lastActiveAt := now);
      sessions := sessions[address := entry];
      s := entry;
    }

    /** `add_wallet(primary, new_address)`. */
    method AddWallet(primary: string, newAddress: string, now: int) returns (r: Result<(), string>)
      requires Valid()
      modifies this
      ensures Valid()
      ensures r.Err? <==> primary !in old(sessions)
      ensures r.Err? ==> r.error == "Session not found" && sessions == old(sessions)
      ensures r.Ok? ==> sessions == AddedWallet(old(sessions), primary, newAddress, now).value
      ensures revokedTokens == old(revokedTokens)
      ensures Snapshot() == Step(old(Snapshot()), AddWalletOp(primary, newAddress, now))
    {
      if primary in sessions {
        var s := sessions[primary];
        s := s.(walletAddresses := s.walletAddresses + {newAddress});
        s := s.(lastActiveAt := now);
        sessions := sessions[primary := s];
        r := Ok(());
      } else {
        r := Err("Session not found");
      }
    }

    /** `get_session(address)`: a copy of the stored session, if any. */
    method GetSession(address: string) returns (s: Option<UserSession>)
      requires Valid()
      ensures s.Some? <==> address in sessions
      ensures s.Some? ==> s.value == sessions[address] && s.value.address == address
    {
      if address in sessions {
        s := Some(sessions[address]);
      } else {
        s := None;
      }
    }

    /** `revoked_token(jti)`: add the identifier to the revoked set. */
    method RevokeToken(jti: string)
      modifies this
      ensures revokedTokens == old(revokedTokens) + {jti}
      ensures sessions == old(sessions)
      ensures Snapshot() == Step(old(Snapshot()), RevokeOp(jti))
    {
      revokedTokens := revokedTokens + {jti};
    }

    /** `is_token_revoked(jti)`. */
    method IsTokenRevoked(jti: string) returns (b: bool)
      ensures b <==> jti in revokedTokens
    {
      b := jti in revokedTokens;
    }

    /** `cleanup_expired(max_age)`: keep the sessions active less than
        `maxAge` seconds before now. */
    method CleanupExpired(maxAge: int, now: int)
      requires Valid()
      modifies this
      ensures Valid()
      ensures sessions == Unexpired(old(sessions), maxAge, now)
      ensures revokedTokens == old(revokedTokens)
      ensures Snapshot() == Step(old(Snapshot()), CleanupOp(maxAge, now))
    {
      sessions := Unexpired(sessions, maxAge, now);
    }
  }
}
