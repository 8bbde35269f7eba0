/** The authentication endpoints (src/auth/routes.rs) as decisions over the
    session store.

    Each handler reads the clock once: `now` stands for every clock reading
    made while one request is handled (the challenge check, the session
    update and the issued tokens). The random token identifiers are
    parameters, and so is `order`, the order in which the session's
    `HashSet` of addresses yields its elements when it is copied into a
    `Vec`. */
module Routes {
  import opened Wrappers
  import opened Strings
  import opened Jwt
  import opened Http
  import opened AuthTypes
  import opened Sessions
  import opened Verification
  import opened Middleware

  /** The oldest challenge `login` accepts, in seconds. */
  const CHALLENGE_MAX_AGE: i64 := 300

  /** An iteration order that lists each element of the set once. */
  ghost predicate IsListing(order: set<string> -> seq<string>) {
    forall s: set<string> :: (forall x :: x in order(s) <==> x in s)
  }

  // ---------------------------------------------------------------------------
  // get_challenge
  // ---------------------------------------------------------------------------

  /** `get_challenge(address)`: a fresh challenge for the address, and the
      address echoed back. */
  function GetChallenge(address: string, timestamp: i64, nonce: string): (r: Response<Body>)
    ensures r.status == OK && r.body.Challenge? && r.body.address == address
    ensures StartsWith(r.body.message, CHALLENGE_PREAMBLE)
    ensures OccursAt(r.body.message, address, |CHALLENGE_PREAMBLE|)
  {
    Response(OK, Challenge(GenerateChallenge(address, timestamp, nonce), address))
  }

  // ---------------------------------------------------------------------------
  // login
  // ---------------------------------------------------------------------------

  /** The checks `login` makes before it touches the store: the challenge's
      age first, then the signature. `None` lets the login go on. */
  function LoginGate(crypto: Crypto, req: AuthReq, now: i64): (r: Option<Response<Body>>)
    ensures r.None? <==>
      VerifyChallengeTimestamp(req.message, CHALLENGE_MAX_AGE, now).Ok?
      && VerifySignSpec(crypto, req.message, req.signature, req.publicKey) == Ok(true)
    ensures VerifyChallengeTimestamp(req.message, CHALLENGE_MAX_AGE, now).Err? ==>
      r == Some(Response(BAD_REQUEST, InvalidChallenge(VerifyChallengeTimestamp(req.message, CHALLENGE_MAX_AGE, now).error)))
    ensures VerifyChallengeTimestamp(req.message, CHALLENGE_MAX_AGE, now).Ok? ==>
      match VerifySignSpec(crypto, req.message, req.signature, req.publicKey)
      case Ok(true) => r.None?
      case Ok(false) => r == Some(Response(UNAUTHORIZED, Error("invalid sign")))
      case Err(e) => r == Some(Response(BAD_REQUEST, SignVerificationFailed(e)))
  {
    match VerifyChallengeTimestamp(req.message, CHALLENGE_MAX_AGE, now)
    case Err(e) => Some(Response(BAD_REQUEST, InvalidChallenge(e)))
    case Ok(_) =>
      match VerifySignSpec(crypto, req.message, req.signature, req.publicKey)
      case Ok(true) => None
      case Ok(false) => Some(Response(UNAUTHORIZED, Error("invalid sign")))
      case Err(e) => Some(Response(BAD_REQUEST, SignVerificationFailed(e)))
  }

  /** The second half of `login`, once the session is stored: both tokens
      for the address and the session's linked addresses, or a 500. */
  function LoginTokens(codec: Codec, req: AuthReq, session: UserSession, order: set<string> -> seq<string>,
                       now: int, accessJti: string, refreshJti: string): (r: Response<Body>)
    ensures var addresses := order(session.walletAddresses);
      var access := GenerateAccessToken(codec, req.address, addresses, now, accessJti);
      var refresh := GenerateRefreshToken(codec, req.address, addresses, now, refreshJti);
      && (r.status == OK <==> access.Some? && refresh.Some?)
      && (access.None? ==> r == Response(INTERNAL_SERVER_ERROR, Error("Failed to generate token")))
      && (access.Some? && refresh.None? ==>
            r == Response(INTERNAL_SERVER_ERROR, Error("failed to genrate refersh token")))
      && (r.status == OK ==> r.body == Authenticated(AuthRes(access.value, refresh.value, "Bearer", 900,
                                         UserInfo(req.address, addresses, session.createdAt))))
  {
    var addresses := order(session.walletAddresses);
    match GenerateAccessToken(codec, req.address, addresses, now, accessJti)
    case None => Response(INTERNAL_SERVER_ERROR, Error("Failed to generate token"))
    case Some(access) =>
      match GenerateRefreshToken(codec, req.address, addresses, now, refreshJti)
      case None => Response(INTERNAL_SERVER_ERROR, Error("failed to genrate refersh token"))
      case Some(refresh) =>
        Response(OK, Authenticated(AuthRes(access, refresh, "Bearer", ACCESS_TOKEN_EXPIRY,
                                           UserInfo(req.address, addresses, session.createdAt))))
  }

  /** `login`: a refused challenge or signature answers at once and leaves
      the store alone; otherwise the session is created or refreshed (even
      when issuing a token then fails) and the tokens are issued. */
  method Login(store: SessionStore, crypto: Crypto, codec: Codec, req: AuthReq, now: i64,
               order: set<string> -> seq<string>, accessJti: string, refreshJti: string)
    returns (resp: Response<Body>)
    requires store.Valid()
    modifies store
    ensures store.Valid()
    ensures store.revokedTokens == old(store.revokedTokens)
    ensures LoginGate(crypto, req, now).Some? ==>
      resp == LoginGate(crypto, req, now).value && store.sessions == old(store.sessions)
    ensures LoginGate(crypto, req, now).None? ==>
      && store.sessions == old(store.sessions)[req.address := CreatedSession(old(store.sessions), req.address, now)]
      && resp == LoginTokens(codec, req, store.sessions[req.address], order, now, accessJti, refreshJti)
  {
    var age := VerifyChallengeTimestamp(req.message, CHALLENGE_MAX_AGE, now);
    if age.Err? {
      return Response(BAD_REQUEST, InvalidChallenge(age.error));
    }
    var verdict := VerifySign(crypto, req.message, req.signature, req.publicKey);
    match verdict {
      case Ok(true) =>
      case Ok(false) => return Response(UNAUTHORIZED, Error("invalid sign"));
      case Err(e) => return Response(BAD_REQUEST, SignVerificationFailed(e));
    }
    var session := store.CreateSession(req.address, now);
    var addresses := order(session.walletAddresses);
    var access := GenerateAccessToken(codec, req.address, addresses, now, accessJti);
    if access.None? {
      return Response(INTERNAL_SERVER_ERROR, Error("Failed to generate token"));
    }
    var refresh := GenerateRefreshToken(codec, req.address, addresses, now, refreshJti);
    if refresh.None? {
      return Response(INTERNAL_SERVER_ERROR, Error("failed to genrate refersh token"));
    }
    resp := Response(OK, Authenticated(AuthRes(access.value, refresh.value, "Bearer", ACCESS_TOKEN_EXPIRY,
                                               UserInfo(req.address, addresses, session.createdAt))));
  }

  /** A challenge the server issued, signed acceptably and sent back within
      300 seconds, passes the login checks. */
  lemma IssuedChallengePassesGate(crypto: Crypto, address: string, timestamp: i64, nonce: string,
                                  signature: string, publicKey: string, now: i64)
    requires !Contains(address + " ", TIMESTAMP_PREFIX)
    requires 0 <= now - timestamp <= 300
    requires VerifySignSpec(crypto, GenerateChallenge(address, timestamp, nonce), signature, publicKey) == Ok(true)
    ensures LoginGate(crypto, AuthReq(address, GetChallenge(address, timestamp, nonce).body.message, signature, publicKey),
                      now).None?
  {
    ChallengeRoundTrip(address, timestamp, nonce, CHALLENGE_MAX_AGE, now);
  }

  /** A stale challenge is refused before the signature is looked at: the
      answer does not depend on the signature or the key. */
  lemma StaleChallengeRefusedFirst(crypto: Crypto, req: AuthReq, now: i64, signature: string, publicKey: string)
    requires VerifyChallengeTimestamp(req.message, CHALLENGE_MAX_AGE, now).Err?
    ensures LoginGate(crypto, req, now) == LoginGate(crypto, req.(signature := signature, publicKey := publicKey), now)
    ensures LoginGate(crypto, req, now).value.status == BAD_REQUEST
  {
  }

  /** The tokens a successful login returns verify, at a later clock
      reading `at`, to the logged-in address and the addresses listed in the
      answer: the access token until 900 seconds and the refresh token until
      seven days after the login (each plus the leeway), and neither
      afterwards. For an order that lists the set, the logged-in address is
      among the listed ones. */
  lemma LoginTokenVerifies(codec: Codec, req: AuthReq, sessions: map<string, UserSession>,
                           order: set<string> -> seq<string>, now: int, accessJti: string, refreshJti: string,
                           at: int)
    requires SoundCodec(codec)
    requires LoginTokens(codec, req, CreatedSession(sessions, req.address, now), order, now, accessJti, refreshJti).status == OK
    ensures var auth := LoginTokens(codec, req, CreatedSession(sessions, req.address, now), order, now, accessJti, refreshJti).body.auth;
      && auth.user.address == req.address
      && VerifyToken(codec, auth.accessToken, at)
         == (if at <= now + 960 then Some(AccessClaims(req.address, auth.user.walletAddresses, now, accessJti)) else None)
      && VerifyToken(codec, auth.refreshToken, at)
         == (if at <= now + 604860 then Some(RefreshClaims(req.address, auth.user.walletAddresses, now, refreshJti)) else None)
      && (IsListing(order) ==> req.address in auth.user.walletAddresses)
  {
    var session := CreatedSession(sessions, req.address, now);
    var addresses := order(session.walletAddresses);
    assert codec.encode(AccessClaims(req.address, addresses, now, accessJti)).Some?;
    assert codec.encode(RefreshClaims(req.address, addresses, now, refreshJti)).Some?;
    if IsListing(order) {
      assert req.address in session.walletAddresses;
      assert req.address in order(session.walletAddresses);
    }
  }

  // ---------------------------------------------------------------------------
  // logout
  // ---------------------------------------------------------------------------

  /** `logout`: with claims attached, revoke the token's identifier. */
  method Logout(store: SessionStore, req: Request) returns (resp: Response<Body>)
    modifies store
    ensures store.sessions == old(store.sessions)
    ensures GetClaims(req).Some? ==>
      store.revokedTokens == old(store.revokedTokens) + {GetClaims(req).value.jti}
      && resp == Response(OK, Message("loggedout vayo"))
    ensures GetClaims(req).None? ==>
      store.revokedTokens == old(store.revokedTokens)
      && resp == Response(UNAUTHORIZED, Error("unauthorized/not auhtenticated"))
  {
    match GetClaims(req)
    case Some(claims) =>
      store.RevokeToken(claims.jti);
      resp := Response(OK, Message("loggedout vayo"));
    case None =>
      resp := Response(UNAUTHORIZED, Error("unauthorized/not auhtenticated"));
  }

  /** After a logout through the middleware, the same token is refused with
      "Token has been revoked". */
  lemma LoggedOutTokenRefused(req: Request, codec: Codec, revoked: set<string>, now: int, later: int)
    requires Authenticate(req, codec, revoked, now).Forward?
    requires later <= GetClaims(Authenticate(req, codec, revoked, now).request).value.exp + EXP_LEEWAY
    ensures var claims := GetClaims(Authenticate(req, codec, revoked, now).request).value;
      Authenticate(req, codec, revoked + {claims.jti}, later) == Reject(Unauthorized("Token has been revoked"))
  {
  }

  // ---------------------------------------------------------------------------
  // referesh_token
  // ---------------------------------------------------------------------------

  /** `referesh_token`: any token that verifies yields a new access token for
      its subject and addresses; the token's kind and revocation are not
      looked at. */
  function RefereshToken(codec: Codec, refereshToken: string, now: int, jti: string): (r: Response<Body>)
    ensures r.status == UNAUTHORIZED <==> VerifyToken(codec, refereshToken, now).None?
    ensures r.status == UNAUTHORIZED ==> r.body == Error("invalid or expired refereh")
    ensures VerifyToken(codec, refereshToken, now).Some? ==>
      var claims := VerifyToken(codec, refereshToken, now).value;
      var token := GenerateAccessToken(codec, claims.sub, claims.addresses, now, jti);
      && (token.Some? ==> r == Response(OK, Refreshed(token.value, "Bearer", 900)))
      && (token.None? ==> r == Response(INTERNAL_SERVER_ERROR, Error("failed to generate refersh token")))
  {
    match VerifyToken(codec, refereshToken, now)
    case None => Response(UNAUTHORIZED, Error("invalid or expired refereh"))
    case Some(claims) =>
      match GenerateAccessToken(codec, claims.sub, claims.addresses, now, jti)
      case Some(token) => Response(OK, Refreshed(token, "Bearer", ACCESS_TOKEN_EXPIRY))
      case None => Response(INTERNAL_SERVER_ERROR, Error("failed to generate refersh token"))
  }

  /** Refreshing with a refresh token issued at `issuedAt`, within seven
      days plus the leeway, gives an access token for the same subject and
      addresses, which verifies at the refresh and expires 900 seconds
      later. */
  lemma RefreshKeepsIdentity(codec: Codec, address: string, addresses: seq<string>, issuedAt: int,
                             refreshJti: string, now: int, jti: string)
    requires SoundCodec(codec)
    requires GenerateRefreshToken(codec, address, addresses, issuedAt, refreshJti).Some?
    requires GenerateAccessToken(codec, address, addresses, now, jti).Some?
    requires now <= issuedAt + 604860
    ensures var r := RefereshToken(codec, GenerateRefreshToken(codec, address, addresses, issuedAt, refreshJti).value, now, jti);
      r.status == OK && VerifyToken(codec, r.body.accessToken, now) == Some(AccessClaims(address, addresses, now, jti))
  {
    RefreshTokenRoundTrip(codec, address, addresses, issuedAt, refreshJti, now);
    assert codec.encode(RefreshClaims(address, addresses, issuedAt, refreshJti)).Some?;
    assert codec.encode(AccessClaims(address, addresses, now, jti)).Some?;
  }

  /** A refresh token more than seven days (plus the leeway) old is refused
      with a 401. */
  lemma ExpiredRefreshRefused(codec: Codec, address: string, addresses: seq<string>, issuedAt: int,
                              refreshJti: string, now: int, jti: string)
    requires SoundCodec(codec)
    requires GenerateRefreshToken(codec, address, addresses, issuedAt, refreshJti).Some?
    requires now > issuedAt + 604860
    ensures RefereshToken(codec, GenerateRefreshToken(codec, address, addresses, issuedAt, refreshJti).value, now, jti)
      == Response(UNAUTHORIZED, Error("invalid or expired refereh"))
  {
    RefreshTokenRoundTrip(codec, address, addresses, issuedAt, refreshJti, now);
  }

  /** The endpoint does not tell the two kinds of token apart: an access
      token is accepted as a refresh token exactly while it is itself
      unexpired. */
  lemma AccessTokenAlsoRefreshes(codec: Codec, address: string, addresses: seq<string>, issuedAt: int,
                                 accessJti: string, now: int, jti: string)
    requires SoundCodec(codec)
    requires GenerateAccessToken(codec, address, addresses, issuedAt, accessJti).Some?
    requires GenerateAccessToken(codec, address, addresses, now, jti).Some?
    ensures RefereshToken(codec, GenerateAccessToken(codec, address, addresses, issuedAt, accessJti).value, now, jti).status == OK
      <==> now <= issuedAt + 960
  {
    AccessTokenRoundTrip(codec, address, addresses, issuedAt, accessJti, now);
    assert codec.encode(AccessClaims(address, addresses, issuedAt, accessJti)).Some?;
  }

  // ---------------------------------------------------------------------------
  // get_current_user
  // ---------------------------------------------------------------------------

  /** The answer of `get_current_user` for given claims and sessions. */
  function CurrentUser(sessions: map<string, UserSession>, claims: Option<Claims>,
                       order: set<string> -> seq<string>): (r: Response<Body>)
    ensures r.status == OK <==> claims.Some? && claims.value.sub in sessions
    ensures r.status == OK ==>
      r.body == User(UserInfo(claims.value.sub, order(sessions[claims.value.sub].walletAddresses),
                              sessions[claims.value.sub].createdAt))
    ensures r.status != OK ==> r == Response(UNAUTHORIZED, Error("Not authenticated"))
  {
    if claims.Some? && claims.value.sub in sessions then
      var session := sessions[claims.value.sub];
      Response(OK, User(UserInfo(claims.value.sub, order(session.walletAddresses), session.createdAt)))
    else
      Response(UNAUTHORIZED, Error("Not authenticated"))
  }

  /** `get_current_user`: reads the store and changes nothing. */
  method GetCurrentUser(store: SessionStore, req: Request, order: set<string> -> seq<string>)
    returns (resp: Response<Body>)
    requires store.Valid()
    ensures resp == CurrentUser(store.sessions, GetClaims(req), order)
  {
    match GetClaims(req)
    case None =>
      resp := Response(UNAUTHORIZED, Error("Not authenticated"));
    case Some(claims) =>
      var session := store.GetSession(claims.sub);
      match session
      case Some(s) =>
        resp := Response(OK, User(UserInfo(claims.sub, order(s.walletAddresses), s.createdAt)));
      case None =>
        resp := Response(UNAUTHORIZED, Error("Not authenticated"));
  }

  /** Right after a login, asking who is logged in with the issued access
      token's claims gives back the user record the login returned. */
  lemma MeAfterLogin(codec: Codec, req: AuthReq, sessions: map<string, UserSession>,
                     order: set<string> -> seq<string>, now: int, accessJti: string, refreshJti: string)
    requires WellKeyed(sessions)
    requires LoginTokens(codec, req, CreatedSession(sessions, req.address, now), order, now, accessJti, refreshJti).status == OK
    ensures var after := sessions[req.address := CreatedSession(sessions, req.address, now)];
      var auth := LoginTokens(codec, req, CreatedSession(sessions, req.address, now), order, now, accessJti, refreshJti).body.auth;
      CurrentUser(after, Some(AccessClaims(req.address, auth.user.walletAddresses, now, accessJti)), order)
        == Response(OK, User(auth.user))
  {
  }

  // ---------------------------------------------------------------------------
  // add_wallet
  // ---------------------------------------------------------------------------

  /** `AddWalletRequest`: the wallet to link and its signed message. */
  datatype AddWalletRequest = AddWalletRequest(address: string, message: string, signature: string, publicKey: string)

  /** The answer of `add_wallet` and the sessions afterwards, given the
      attached claims and the signature verdict. */
  function AddWalletOutcome(sessions: map<string, UserSession>, claims: Option<Claims>,
                            verdict: Result<bool, VerifyError>, address: string, now: int)
    : (r: (Response<Body>, map<string, UserSession>))
    ensures r.0.status == OK <==> claims.Some? && verdict == Ok(true) && claims.value.sub in sessions
    ensures r.0.status != OK ==> r.1 == sessions
    ensures r.0.status == OK ==>
      r.0.body == WalletAdded("Wallet added successfully", address)
      && r.1 == AddedWallet(sessions, claims.value.sub, address, now).value
    ensures claims.None? ==> r.0 == Response(UNAUTHORIZED, Error("Not authenticated"))
    ensures claims.Some? && verdict != Ok(true) ==> r.0 == Response(BAD_REQUEST, Error("Invalid signature"))
    ensures claims.Some? && verdict == Ok(true) && claims.value.sub !in sessions ==>
      r.0 == Response(INTERNAL_SERVER_ERROR, Error("Failed to add wallet: Session not found"))
  {
    match claims
    case None => (Response(UNAUTHORIZED, Error("Not authenticated")), sessions)
    case Some(c) =>
      if verdict == Ok(true) then
        match AddedWallet(sessions, c.sub, address, now)
        case Err(e) =>
          assert "Failed to add wallet: " + e == "Failed to add wallet: Session not found";
          (Response(INTERNAL_SERVER_ERROR, Error("Failed to add wallet: " + e)), sessions)
        case Ok(updated) => (Response(OK, WalletAdded("Wallet added successfully", address)), updated)
      else
        (Response(BAD_REQUEST, Error("Invalid signature")), sessions)
  }

  /** `add_wallet`: the claims first, then the signature (the message's age
      is not checked), then the store. */
  method AddWallet(store: SessionStore, crypto: Crypto, req: Request, body: AddWalletRequest, now: int)
    returns (resp: Response<Body>)
    requires store.Valid()
    modifies store
    ensures store.Valid()
    ensures store.revokedTokens == old(store.revokedTokens)
    ensures (resp, store.sessions) == AddWalletOutcome(old(store.sessions), GetClaims(req),
      VerifySignSpec(crypto, body.message, body.signature, body.publicKey), body.address, now)
  {
    if GetClaims(req).None? {
      return Response(UNAUTHORIZED, Error("Not authenticated"));
    }
    var claims := GetClaims(req).value;
    var verdict := VerifySign(crypto, body.message, body.signature, body.publicKey);
    if verdict == Ok(true) {
      var added := store.AddWallet(claims.sub, body.address, now);
      if added.Err? {
        return Response(INTERNAL_SERVER_ERROR, Error("Failed to add wallet: " + added.error));
      }
      resp := Response(OK, WalletAdded("Wallet added successfully", body.address));
    } else {
      resp := Response(BAD_REQUEST, Error("Invalid signature"));
    }
  }

  /** A linked wallet shows up in the next `get_current_user` answer (for
      an order that lists the set). */
  lemma AddedWalletListed(sessions: map<string, UserSession>, claims: Claims, address: string, now: int,
                          order: set<string> -> seq<string>)
    requires IsListing(order)
    requires AddWalletOutcome(sessions, Some(claims), Ok(true), address, now).0.status == OK
    ensures var after := AddWalletOutcome(sessions, Some(claims), Ok(true), address, now).1;
      CurrentUser(after, Some(claims), order).status == OK
      && address in CurrentUser(after, Some(claims), order).body.info.walletAddresses
  {
    var after := AddWalletOutcome(sessions, Some(claims), Ok(true), address, now).1;
    assert address in after[claims.sub].walletAddresses;
  }
}
