/** Token claims and the Authorization header (src/auth/jwt.rs).

    The HS256 signing and checking done by the `jsonwebtoken` library, with
    its secret, is not part of this model: a `Codec` value stands for it, and
    whatever the library promises about it is stated as the predicate
    `SoundCodec` that lemmas take as a precondition. The expiry check the
    library makes while decoding is written out in `VerifyToken`. The clock
    readings and the random UUID used as `jti` are parameters. */
module Jwt {
  import opened Wrappers
  import opened Strings

  /** The JWT claims of RFC 7519, section 4.1, that the server writes:
      subject, issued-at, expiry, token identifier, plus the linked addresses. */
  datatype Claims = Claims(sub: string, iat: int, exp: int, jti: string, addresses: seq<string>)

  const ACCESS_TOKEN_EXPIRY: int := 900
  const REFRESH_TOKEN_EXPIRY: int := 604800

  /** Signing (`encode`, which may fail) and reading a token back
      (`decode`: the HS256 signature check and the parsing of the claims,
      which fail for a forged or malformed token). Neither reads the clock. */
  datatype Codec = Codec(encode: Claims -> Option<string>, decode: string -> Option<Claims>)

  /** What the library promises: a token it produced decodes to the claims it
      was produced from. */
  ghost predicate SoundCodec(codec: Codec) {
    forall c :: codec.encode(c).Some? ==> codec.decode(codec.encode(c).value) == Some(c)
  }

  /** The claims of `generate_access_token(address, addresses)`. */
  function AccessClaims(address: string, addresses: seq<string>, now: int, jti: string): (c: Claims)
    ensures c.sub == address && c.addresses == addresses && c.jti == jti
    ensures c.iat == now && c.exp == c.iat + 900
  {
    Claims(address, now, now + ACCESS_TOKEN_EXPIRY, jti, addresses)
  }

  /** The claims of `generate_refresh_token(address, addresses)`. */
  function RefreshClaims(address: string, addresses: seq<string>, now: int, jti: string): (c: Claims)
    ensures c.sub == address && c.addresses == addresses && c.jti == jti
    ensures c.iat == now && c.exp == c.iat + 604800
  {
    Claims(address, now, now + REFRESH_TOKEN_EXPIRY, jti, addresses)
  }

  /** `generate_access_token`: the access claims, signed. */
  function GenerateAccessToken(codec: Codec, address: string, addresses: seq<string>, now: int, jti: string)
    : Option<string>
  {
    codec.encode(AccessClaims(address, addresses, now, jti))
  }

  /** `generate_refresh_token`: the refresh claims, signed. */
  function GenerateRefreshToken(codec: Codec, address: string, addresses: seq<string>, now: int, jti: string)
    : Option<string>
  {
    codec.encode(RefreshClaims(address, addresses, now, jti))
  }

  /** The leeway, in seconds, of the library's default `Validation`. */
  const EXP_LEEWAY: int := 60

  /** `verify_token` at clock reading `now`: `Validation::new(HS256)` takes
      the decoded claims only while `exp` is at most 60 seconds in the
      past; an expired token fails like a forged one. */
  function VerifyToken(codec: Codec, token: string, now: int): (r: Option<Claims>)
    ensures r.Some? <==> codec.decode(token).Some? && now <= codec.decode(token).value.exp + EXP_LEEWAY
    ensures r.Some? ==> r == codec.decode(token)
  {
    match codec.decode(token)
    case None => None
    case Some(claims) => if claims.exp < now - EXP_LEEWAY then None else Some(claims)
  }

  /** An access token the server issued at `now` verifies, at any later
      reading `at` up to 900 seconds plus the leeway after `now`, to its
      subject and addresses with expiry `now + 900`; after that it is
      refused. */
  lemma AccessTokenRoundTrip(codec: Codec, address: string, addresses: seq<string>, now: int, jti: string, at: int)
    requires SoundCodec(codec)
    requires GenerateAccessToken(codec, address, addresses, now, jti).Some?
    ensures var c := VerifyToken(codec, GenerateAccessToken(codec, address, addresses, now, jti).value, at);
      && (at <= now + 960 ==>
            c.Some? && c.value.sub == address && c.value.addresses == addresses && c.value.exp == now + 900)
      && (at > now + 960 ==> c.None?)
  {
    var c := AccessClaims(address, addresses, now, jti);
    assert codec.encode(c).Some?;
  }

  /** The same for a refresh token, which expires after seven days. */
  lemma RefreshTokenRoundTrip(codec: Codec, address: string, addresses: seq<string>, now: int, jti: string, at: int)
    requires SoundCodec(codec)
    requires GenerateRefreshToken(codec, address, addresses, now, jti).Some?
    ensures var c := VerifyToken(codec, GenerateRefreshToken(codec, address, addresses, now, jti).value, at);
      && (at <= now + 604860 ==>
            c.Some? && c.value.sub == address && c.value.addresses == addresses && c.value.exp == now + 604800)
      && (at > now + 604860 ==> c.None?)
  {
    var c := RefreshClaims(address, addresses, now, jti);
    assert codec.encode(c).Some?;
  }

  const BEARER: string := "Bearer "

  /** `extract_token_from_header`: the text after a leading "Bearer ",
      matched case-sensitively. */
  function ExtractTokenFromHeader(header: string): (r: Option<string>)
    ensures r.Some? <==> StartsWith(header, BEARER)
    ensures r.Some? ==> BEARER + r.value == header
  {
    if StartsWith(header, BEARER) then
      assert header == header[..7] + header[7..];
      Some(header[7..])
    else None
  }

  /** A header built from a token gives that token back. */
  lemma ExtractBearer(token: string)
    ensures ExtractTokenFromHeader(BEARER + token) == Some(token)
  {
    assert (BEARER + token)[..7] == BEARER;
    assert (BEARER + token)[7..] == token;
  }

  /** The scheme is matched case-sensitively, although section 2.1 of
      RFC 6750 (through RFC 7235) makes the scheme name case-insensitive: a
      lower-case "bearer " header is refused. */
  lemma LowerCaseSchemeRefused(token: string)
    ensures ExtractTokenFromHeader("bearer " + token) == None
  {
    assert ("bearer " + token)[0] != BEARER[0];
  }
}
