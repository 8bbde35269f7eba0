/** The authentication middleware (src/auth/middleware.rs): the decision
    whether a request reaches the route behind it, and `get_claims`.

    A request is reduced to what the middleware reads and writes: the raw
    bytes of its `Authorization` header, if any, and the claims slot of its
    extensions. The wrapped route is a function from request to response,
    and the revoked-token set is the one the session store holds; `now` is
    the clock reading the token library checks expiry against. */
module Middleware {
  import opened Wrappers
  import opened Strings
  import opened Jwt
  import opened Http
  import opened AuthTypes

  datatype Request = Request(authorization: Option<seq<byte>>, claims: Option<Claims>)

  /** What the middleware decides: answer the request itself, or pass it on
      (with the verified claims attached) to the route. */
  datatype Decision =
    | Reject(response: Response<Body>)
    | Forward(request: Request)

  /** The bytes `HeaderValue::to_str` accepts: visible ASCII and the tab. */
  predicate IsVisibleAscii(b: byte) {
    (32 <= b < 127) || b == 9
  }

  /** `HeaderValue::to_str`: the header as text when every byte is visible
      ASCII, and nothing otherwise. */
  function HeaderText(bytes: seq<byte>): (r: Option<string>)
    ensures r.Some? <==> forall k :: 0 <= k < |bytes| ==> IsVisibleAscii(bytes[k])
    ensures r.Some? ==> |r.value| == |bytes| && forall k :: 0 <= k < |bytes| ==> r.value[k] as int == bytes[k] as int
  {
    if forall k :: 0 <= k < |bytes| ==> IsVisibleAscii(bytes[k]) then
      Some(seq(|bytes|, k requires 0 <= k < |bytes| => bytes[k] as char))
    else None
  }

  /** The bearer token of a request: the header, read as text, with the
      "Bearer " prefix removed. */
  function BearerToken(req: Request): Option<string> {
    match req.authorization
    case None => None
    case Some(bytes) =>
      match HeaderText(bytes)
      case None => None
      case Some(text) => ExtractTokenFromHeader(text)
  }

  function Unauthorized(message: string): Response<Body> {
    Response(UNAUTHORIZED, Error(message))
  }

  /** `AuthMiddlewareService::call` up to the call of the wrapped service. */
  function Authenticate(req: Request, codec: Codec, revoked: set<string>, now: int): (d: Decision)
    ensures d.Forward? <==>
      BearerToken(req).Some? && VerifyToken(codec, BearerToken(req).value, now).Some?
      && VerifyToken(codec, BearerToken(req).value, now).value.jti !in revoked
    ensures d.Forward? ==> d.request == req.(claims := VerifyToken(codec, BearerToken(req).value, now))
    ensures BearerToken(req).None? ==> d == Reject(Unauthorized("Authentication required"))
    ensures BearerToken(req).Some? && VerifyToken(codec, BearerToken(req).value, now).None? ==>
      d == Reject(Unauthorized("Invalid or expired token"))
    ensures (BearerToken(req).Some? && VerifyToken(codec, BearerToken(req).value, now).Some?
             && VerifyToken(codec, BearerToken(req).value, now).value.jti in revoked) ==>
      d == Reject(Unauthorized("Token has been revoked"))
  {
    match BearerToken(req)
    case None => Reject(Unauthorized("Authentication required"))
    case Some(token) =>
      match VerifyToken(codec, token, now)
      case None => Reject(Unauthorized("Invalid or expired token"))
      case Some(claims) =>
        if claims.jti in revoked then Reject(Unauthorized("Token has been revoked"))
        else Forward(req.(claims := Some(claims)))
  }

  /** The whole middleware: its own answer, or the route's answer to the
      request with the claims attached. */
  function Call(req: Request, codec: Codec, revoked: set<string>, now: int, service: Request -> Response<Body>)
    : Response<Body>
  {
    match Authenticate(req, codec, revoked, now)
    case Reject(response) => response
    case Forward(forwarded) => service(forwarded)
  }

  /** `get_claims`: the claims the middleware attached, if any. */
  function GetClaims(req: Request): Option<Claims> {
    req.claims
  }

  /** A request the middleware passes on carries exactly the claims its token
      verified to, and the route sees it once, unchanged otherwise. */
  lemma ForwardedClaims(req: Request, codec: Codec, revoked: set<string>, now: int,
                         service: Request -> Response<Body>)
    requires Authenticate(req, codec, revoked, now).Forward?
    ensures var fwd := Authenticate(req, codec, revoked, now).request;
      GetClaims(fwd) == VerifyToken(codec, BearerToken(req).value, now)
      && GetClaims(fwd).value.jti !in revoked
      && fwd.authorization == req.authorization
      && Call(req, codec, revoked, now, service) == service(fwd)
  {
  }

  /** A rejected request never reaches the route: the answer is the same
      whatever the route would do, and it is a 401. */
  lemma RejectedIgnoresService(req: Request, codec: Codec, revoked: set<string>, now: int,
                               s1: Request -> Response<Body>, s2: Request -> Response<Body>)
    requires Authenticate(req, codec, revoked, now).Reject?
    ensures Call(req, codec, revoked, now, s1) == Call(req, codec, revoked, now, s2)
    ensures Call(req, codec, revoked, now, s1).status == UNAUTHORIZED
  {
  }

  /** The prefix is checked before the token: without a bearer token the
      verdict does not depend on the token library, the revoked set or the
      clock. */
  lemma PrefixCheckedFirst(req: Request, c1: Codec, c2: Codec, r1: set<string>, r2: set<string>, t1: int, t2: int)
    requires BearerToken(req).None?
    ensures Authenticate(req, c1, r1, t1) == Authenticate(req, c2, r2, t2)
  {
  }

  /** Verification comes before revocation: a token that does not verify is
      answered the same way whatever has been revoked. */
  lemma VerificationBeforeRevocation(req: Request, codec: Codec, r1: set<string>, r2: set<string>, now: int)
    requires BearerToken(req).Some? && VerifyToken(codec, BearerToken(req).value, now).None?
    ensures Authenticate(req, codec, r1, now) == Authenticate(req, codec, r2, now)
  {
  }

  /** The header bytes of a text made of visible ASCII characters. */
  function HeaderBytes(s: string): (b: seq<byte>)
    requires forall k :: 0 <= k < |s| ==> 32 <= s[k] as int < 127
    ensures |b| == |s| && forall k :: 0 <= k < |s| ==> b[k] as int == s[k] as int
  {
    seq(|s|, k requires 0 <= k < |s| => s[k] as int as byte)
  }

  /** The header of a request sending `token` as a bearer token. */
  function BearerRequest(token: string): Request
    requires forall k :: 0 <= k < |token| ==> 32 <= token[k] as int < 127
  {
    Request(Some(HeaderBytes(BEARER + token)), None)
  }

  /** A bearer header built from visible ASCII gives its token back. */
  lemma BearerRequestToken(token: string)
    requires forall k :: 0 <= k < |token| ==> 32 <= token[k] as int < 127
    ensures BearerToken(BearerRequest(token)) == Some(token)
  {
    var header := BEARER + token;
    var bytes := HeaderBytes(header);
    assert forall k :: 0 <= k < |bytes| ==> IsVisibleAscii(bytes[k]);
    var text := HeaderText(bytes).value;
    assert forall k :: 0 <= k < |header| ==> text[k] == header[k];
    assert text == header;
    ExtractBearer(token);
  }

  /** An access token the server issued at `issuedAt`, sent as
      "Bearer <token>" and not revoked, is let through with the claims it was
      issued with until 900 seconds plus the leeway have passed, and refused
      as "Invalid or expired token" afterwards. */
  lemma IssuedTokenAccepted(codec: Codec, address: string, addresses: seq<string>, issuedAt: int, jti: string,
                            revoked: set<string>, now: int)
    requires SoundCodec(codec)
    requires GenerateAccessToken(codec, address, addresses, issuedAt, jti).Some?
    requires forall k :: 0 <= k < |GenerateAccessToken(codec, address, addresses, issuedAt, jti).value| ==>
      32 <= GenerateAccessToken(codec, address, addresses, issuedAt, jti).value[k] as int < 127
    requires jti !in revoked
    ensures var req := BearerRequest(GenerateAccessToken(codec, address, addresses, issuedAt, jti).value);
      && (now <= issuedAt + 960 ==>
            Authenticate(req, codec, revoked, now) == Forward(req.(claims := Some(AccessClaims(address, addresses, issuedAt, jti)))))
      && (now > issuedAt + 960 ==>
            Authenticate(req, codec, revoked, now) == Reject(Unauthorized("Invalid or expired token")))
  {
    var token := GenerateAccessToken(codec, address, addresses, issuedAt, jti).value;
    BearerRequestToken(token);
    assert codec.encode(AccessClaims(address, addresses, issuedAt, jti)).Some?;
  }
}
