/** The browser's API client (frontend/cardano_frontend/lib/api.ts): the
    normalisation of the wallet's hexadecimal key and signature, and the
    `APIClient` object with its access token and the tokens it keeps in
    `localStorage`.

    `fetch` is a function parameter from the outgoing request to what the
    server answers (or the network failure); the request body is the JSON
    value before `JSON.stringify`. Only the browser side is modelled (the
    page always runs with `window` defined). */
module ApiClient {
  import opened Wrappers
  import opened Strings
  import opened Json
  import opened Browser

  // ---------------------------------------------------------------------------
  // extractFromCBOR
  // ---------------------------------------------------------------------------

  /** `replace(/^0x/i, '')`: one leading "0x" or "0X" removed. */
  function StripHexPrefix(s: string): (r: string)
    ensures r == s || (|s| >= 2 && s[0] == '0' && (s[1] == 'x' || s[1] == 'X') && r == s[2..])
  {
    if |s| >= 2 && s[0] == '0' && (s[1] == 'x' || s[1] == 'X') then s[2..] else s
  }

  /** The text `extractFromCBOR` works on: trimmed, without a "0x" prefix,
      lower-cased. */
  function CleanHex(s: string): string {
    AsciiLower(StripHexPrefix(JsTrim(s)))
  }

  /** The CBOR byte-string header looked for: `58 20` before a 32-byte key,
      `58 40` before a 64-byte signature, and none for other lengths. */
  function Marker(n: nat): Option<string> {
    if n == 32 then Some("5820") else if n == 64 then Some("5840") else None
  }

  /** The first occurrence of the marker, when it is followed by at least
      `2n` more characters. */
  predicate MarkerUsable(h: string, n: nat) {
    Marker(n).Some? && IndexOf(h, Marker(n).value).Some?
    && |h| >= IndexOf(h, Marker(n).value).value + 4 + 2 * n
  }

  /** `hex.length / 2` as JavaScript prints it: a half for an odd length. */
  function HalfToString(len: nat): string {
    if len % 2 == 0 then NatToString(len / 2) else NatToString(len / 2) + ".5"
  }

  /** The error `extractFromCBOR` throws for a text of `len` characters. */
  function ExtractError(n: nat, len: nat): JsError {
    Thrown("Cannot extract " + NatToString(n) + " bytes from CBOR hex (length: " + HalfToString(len) + " bytes)")
  }

  /** `extractFromCBOR` after cleaning: the `2n` characters after the first
      marker, else the whole text when it has exactly `2n` characters, else
      its last `2n` characters; a shorter text is an error. */
  function ExtractHex(h: string, n: nat): (r: Result<string, JsError>)
    ensures r.Ok? ==> |r.value| == 2 * n && exists i :: OccursAt(h, r.value, i)
    ensures r.Err? <==> !MarkerUsable(h, n) && |h| < 2 * n
    ensures MarkerUsable(h, n) ==>
      var start := IndexOf(h, Marker(n).value).value + 4;
      r == Ok(h[start..start + 2 * n])
    ensures !MarkerUsable(h, n) && |h| >= 2 * n ==> r == Ok(h[|h| - 2 * n..])
    ensures r.Err? ==> r.error == ExtractError(n, |h|)
  {
    var want := 2 * n;
    if MarkerUsable(h, n) then
      var start := IndexOf(h, Marker(n).value).value + 4;
      assert OccursAt(h, h[start..start + want], start);
      Ok(h[start..start + want])
    else if |h| >= want then
      assert OccursAt(h, h[|h| - want..], |h| - want);
      Ok(h[|h| - want..])
    else
      Err(ExtractError(n, |h|))
  }

  /** `extractFromCBOR(hexStr, n)`. */
  function ExtractFromCbor(hexStr: string, n: nat): Result<string, JsError> {
    ExtractHex(CleanHex(hexStr), n)
  }

  /** Cleaning leaves lower-case hexadecimal text unchanged. */
  lemma CleanHexNoop(s: string)
    requires forall k :: 0 <= k < |s| ==> IsHexDigit(s[k]) && !('A' <= s[k] <= 'Z')
    ensures CleanHex(s) == s
  {
    if |s| > 0 {
      assert IsHexDigit(s[0]) && IsHexDigit(s[|s| - 1]);
    }
    JsTrimNoop(s);
    assert StripHexPrefix(s) == s by {
      if |s| >= 2 { assert IsHexDigit(s[1]); }
    }
    AsciiLowerNoop(s);
  }

  /** `normalizePublicKey`: 32 bytes, as 64 hexadecimal characters. */
  function NormalizePublicKey(raw: string): Result<string, JsError> {
    ExtractFromCbor(raw, 32)
  }

  /** `normalizeSignature`: 64 bytes, as 128 hexadecimal characters. */
  function NormalizeSignature(raw: string): Result<string, JsError> {
    ExtractFromCbor(raw, 64)
  }

  /** Text of exactly `2n` lower-case hexadecimal digits comes back unchanged. */
  lemma ExactHexUnchanged(s: string, n: nat)
    requires |s| == 2 * n
    requires forall k :: 0 <= k < |s| ==> IsHexDigit(s[k]) && !('A' <= s[k] <= 'Z')
    ensures ExtractFromCbor(s, n) == Ok(s)
  {
    CleanHexNoop(s);
    assert s[|s| - 2 * n..] == s;
  }

  /** Normalising is idempotent on every input whose result is made of
      hexadecimal digits (the result of a hexadecimal input always is). */
  lemma NormalizeIdempotent(raw: string, n: nat)
    requires ExtractFromCbor(raw, n).Ok?
    requires forall k :: 0 <= k < |ExtractFromCbor(raw, n).value| ==> IsHexDigit(ExtractFromCbor(raw, n).value[k])
    ensures ExtractFromCbor(ExtractFromCbor(raw, n).value, n) == ExtractFromCbor(raw, n)
  {
    var h := CleanHex(raw);
    var r := ExtractHex(h, n).value;
    CleanHexIsLower(raw);
    PieceIsLower(h, r);
    ExactHexUnchanged(r, n);
  }

  /** Cleaned text holds no upper-case letter. */
  lemma CleanHexIsLower(raw: string)
    ensures forall k :: 0 <= k < |CleanHex(raw)| ==> !('A' <= CleanHex(raw)[k] <= 'Z')
  {
  }

  lemma PieceIsLower(h: string, r: string)
    requires forall k :: 0 <= k < |h| ==> !('A' <= h[k] <= 'Z')
    requires exists i :: OccursAt(h, r, i)
    ensures forall k :: 0 <= k < |r| ==> !('A' <= r[k] <= 'Z')
  {
    var i :| OccursAt(h, r, i);
    assert forall k :: 0 <= k < |r| ==> r[k] == h[i + k];
  }

  /** The fixed COSE_Key prefix a CIP-30 wallet puts before an Ed25519 key:
      map(4) {1: 1, 3: -8, -1: 6, -2: bytes(32)}. */
  const COSE_KEY_PREFIX: string := "a4010103272006215820"

  /** Where a text begins with `prefix` and `prefix` holds `p` only at
      `at`, the first occurrence of `p` is `at`. */
  lemma FirstOccurrenceInPrefix(prefix: string, rest: string, p: string, at: nat)
    requires OccursAt(prefix, p, at) && at + |p| == |prefix|
    requires forall i :: 0 <= i < at ==> !OccursAt(prefix, p, i)
    ensures IndexOf(prefix + rest, p) == Some(at)
  {
    var s := prefix + rest;
    assert s[at..at + |p|] == prefix[at..at + |p|];
    forall i | 0 <= i < at ensures !OccursAt(s, p, i) {
      assert !OccursAt(prefix, p, i);
      assert s[i..i + |p|] == prefix[i..i + |p|];
    }
    IndexOfIs(s, p, at);
  }

  /** The key a CIP-30 wallet returns as a COSE_Key normalises to the raw
      32-byte key. */
  lemma CoseKeyNormalizes(key: seq<byte>)
    requires |key| == 32
    ensures NormalizePublicKey(COSE_KEY_PREFIX + HexEncode(key)) == Ok(HexEncode(key))
  {
    var hex := HexEncode(key);
    var s := COSE_KEY_PREFIX + hex;
    CoseKeyIsLowerHex(hex);
    CleanHexNoop(s);
    CoseKeyMarker(hex);
    ExtractAfterMarker(s, 32, 16, 20, 84);
    assert s[20..84] == hex by { SliceOfSuffix(COSE_KEY_PREFIX, hex); }
    assert NormalizePublicKey(s) == ExtractHex(CleanHex(s), 32);
  }

  /** When the first marker sits at `at`, the `2n` characters after it are
      taken. */
  lemma ExtractAfterMarker(h: string, n: nat, at: nat, start: nat, end: nat)
    requires Marker(n).Some? && IndexOf(h, Marker(n).value) == Some(at)
    requires start == at + 4 && end == start + 2 * n && end <= |h|
    ensures ExtractHex(h, n) == Ok(h[start..end])
  {
  }

  lemma SliceOfSuffix(p: string, x: string)
    ensures (p + x)[|p|..|p| + |x|] == x
  {
  }

  lemma CoseKeyIsLowerHex(hex: string)
    requires forall k :: 0 <= k < |hex| ==> IsHexDigit(hex[k]) && !('A' <= hex[k] <= 'Z')
    ensures var s := COSE_KEY_PREFIX + hex;
      forall k :: 0 <= k < |s| ==> IsHexDigit(s[k]) && !('A' <= s[k] <= 'Z')
  {
    var s := COSE_KEY_PREFIX + hex;
    forall k | 0 <= k < |s| ensures IsHexDigit(s[k]) && !('A' <= s[k] <= 'Z') {
      if k >= |COSE_KEY_PREFIX| {
        assert s[k] == hex[k - |COSE_KEY_PREFIX|];
      } else {
        assert s[k] == COSE_KEY_PREFIX[k];
      }
    }
  }

  lemma CoseKeyMarker(hex: string)
    requires |hex| == 64
    ensures MarkerUsable(COSE_KEY_PREFIX + hex, 32)
    ensures IndexOf(COSE_KEY_PREFIX + hex, "5820") == Some(16)
  {
    PrefixFirstMarker();
    FirstOccurrenceInPrefix(COSE_KEY_PREFIX, hex, "5820", 16);
  }

  /** In the COSE_Key prefix "5820" occurs first where the key's byte
      string begins. */
  lemma PrefixFirstMarker()
    ensures OccursAt(COSE_KEY_PREFIX, "5820", 16)
    ensures forall i :: 0 <= i < 16 ==> !OccursAt(COSE_KEY_PREFIX, "5820", i)
  {
    forall i | 0 <= i < 16 ensures !OccursAt(COSE_KEY_PREFIX, "5820", i) {
      assert COSE_KEY_PREFIX[i..i + 4] != "5820" by {
        assert COSE_KEY_PREFIX[i..i + 4][0] == COSE_KEY_PREFIX[i];
        assert COSE_KEY_PREFIX[i..i + 4][1] == COSE_KEY_PREFIX[i + 1];
        assert COSE_KEY_PREFIX[i..i + 4][2] == COSE_KEY_PREFIX[i + 2];
      }
    }
    assert COSE_KEY_PREFIX[16..20] == "5820";
  }

  // ---------------------------------------------------------------------------
  // Requests
  // ---------------------------------------------------------------------------

  /** What `fetch` is given. */
  datatype Outgoing = Outgoing(url: string, verb: string, headers: map<string, string>, body: Option<Value>)

  /** The body of an answer: JSON, or text `response.json()` rejects. */
  datatype ReplyBody = Parsed(json: Value) | Unparsable(syntaxMessage: string)

  /** What `fetch` resolves or rejects with. */
  datatype FetchResult =
    | NetworkFailure(message: string)
    | Reply(ok: bool, status: nat, statusText: string, body: ReplyBody)

  /** The headers `request` sends: the JSON content type, and a bearer
      Authorization header exactly when the access token is truthy. */
  function RequestHeaders(token: Option<Value>): (h: map<string, string>)
    ensures "Content-Type" in h && h["Content-Type"] == "application/json"
    ensures "Authorization" in h <==> Truthy(token)
    ensures "Authorization" in h ==> h["Authorization"] == "Bearer " + ToJsString(token)
    ensures h.Keys <= {"Content-Type", "Authorization"}
  {
    var headers := map["Content-Type" := "application/json"];
    if Truthy(token) then headers["Authorization" := "Bearer " + ToJsString(token)] else headers
  }

  /** How `request` ends for a given answer: the parsed body of a 2xx
      answer, or the error it throws. */
  function Answer(reply: FetchResult): (r: Result<Value, JsError>)
    ensures r.Ok? <==> reply.Reply? && reply.ok && reply.body.Parsed?
    ensures r.Ok? ==> r.value == reply.body.json
    ensures reply.NetworkFailure? ==> r == Err(JsError("TypeError", reply.message))
    ensures reply.Reply? && reply.ok && reply.body.Unparsable? ==> r == Err(JsError("SyntaxError", reply.body.syntaxMessage))
    ensures reply.Reply? && !reply.ok && reply.body.Unparsable? ==>
      r == Err(Thrown("HTTP " + NatToString(reply.status) + ": " + reply.statusText))
  {
    match reply
    case NetworkFailure(m) => Err(JsError("TypeError", m))
    case Reply(ok, status, statusText, body) =>
      if ok then
        match body
        case Parsed(v) => Ok(v)
        case Unparsable(m) => Err(JsError("SyntaxError", m))
      else
        var e := match body
          case Parsed(v) => v
          case Unparsable(_) => Obj(map["error" := Str("HTTP " + NatToString(status) + ": " + statusText)]);
        match ReadMember(Some(e), "error")
        case Err(typeError) => Err(typeError)
        case Ok(message) => Err(Thrown(if Truthy(message) then ToJsString(message) else "API request failed"))
  }

  /** A refusal with an `error` text surfaces that text; one without falls
      back to "API request failed". */
  lemma ServerErrorSurfaces(status: nat, statusText: string, body: map<string, Value>)
    ensures var r := Answer(Reply(false, status, statusText, Parsed(Obj(body))));
      && ("error" in body && body["error"].Str? && body["error"].s != "" ==> r == Err(Thrown(body["error"].s)))
      && ("error" !in body ==> r == Err(Thrown("API request failed")))
  {
  }

  /** `encodeURIComponent` (section 19.2.6.5 of ECMA-262): the unreserved
      characters stay, every other character becomes its UTF-8 bytes as
      upper-case %XX escapes. */
  predicate IsUriUnreserved(c: char) {
    ('A' <= c <= 'Z') || ('a' <= c <= 'z') || ('0' <= c <= '9')
    || c == '-' || c == '_' || c == '.' || c == '!' || c == '~' || c == '*' || c == '\'' || c == '(' || c == ')'
  }

  function HexDigitUpper(d: nat): (c: char)
    requires d < 16
    ensures IsUriUnreserved(c)
  {
    if d < 10 then ('0' as int + d) as char else ('A' as int + d - 10) as char
  }

  /** Each byte as '%' followed by its two upper-case hex digits. */
  function PercentBytes(bytes: seq<byte>): (r: string)
    ensures |r| == 3 * |bytes|
    ensures forall k :: 0 <= k < |r| ==> IsUriUnreserved(r[k]) || r[k] == '%'
    ensures forall k :: 0 <= k < |bytes| ==>
      r[3 * k] == '%' && r[3 * k + 1] == HexDigitUpper(bytes[k] / 16) && r[3 * k + 2] == HexDigitUpper(bytes[k] % 16)
  {
    if |bytes| == 0 then ""
    else
      var rest := PercentBytes(bytes[1..]);
      var r := ['%', HexDigitUpper(bytes[0] / 16), HexDigitUpper(bytes[0] % 16)] + rest;
      EscapesShift(bytes, r, rest);
      r
  }

  /** The escape of byte k + 1 of `bytes` is the escape of byte k of its
      tail, three characters further on. */
  lemma EscapesShift(bytes: seq<byte>, r: string, rest: string)
    requires |bytes| > 0 && |r| == 3 * |bytes| && |rest| == 3 * (|bytes| - 1)
    requires r == ['%', HexDigitUpper(bytes[0] / 16), HexDigitUpper(bytes[0] % 16)] + rest
    requires forall k :: 0 <= k < |bytes| - 1 ==>
      rest[3 * k] == '%' && rest[3 * k + 1] == HexDigitUpper(bytes[1..][k] / 16)
      && rest[3 * k + 2] == HexDigitUpper(bytes[1..][k] % 16)
    ensures forall k :: 0 <= k < |bytes| ==>
      r[3 * k] == '%' && r[3 * k + 1] == HexDigitUpper(bytes[k] / 16) && r[3 * k + 2] == HexDigitUpper(bytes[k] % 16)
  {
    forall k | 0 < k < |bytes|
      ensures r[3 * k] == '%' && r[3 * k + 1] == HexDigitUpper(bytes[k] / 16)
        && r[3 * k + 2] == HexDigitUpper(bytes[k] % 16)
    {
      var j := k - 1;
      assert 3 * k == 3 * j + 3;
      assert bytes[k] == bytes[1..][j];
      assert r[3 * k] == rest[3 * j] && r[3 * k + 1] == rest[3 * j + 1] && r[3 * k + 2] == rest[3 * j + 2];
    }
  }

  function EncodeUriComponent(s: string): (r: string)
    ensures (forall k :: 0 <= k < |s| ==> IsUriUnreserved(s[k])) ==> r == s
    ensures forall k :: 0 <= k < |r| ==> IsUriUnreserved(r[k]) || r[k] == '%'
  {
    if |s| == 0 then ""
    else (if IsUriUnreserved(s[0]) then [s[0]] else PercentBytes(Utf8Char(s[0]))) + EncodeUriComponent(s[1..])
  }

  /** The bytes a percent-encoded text stands for, as `decodeURIComponent`
      reads them before it decodes UTF-8: an escape `%XY` is the byte with
      hex digits X and Y, any other ASCII character is its own byte; a
      broken escape or a character beyond ASCII is not encoded text. */
  function PercentDecode(r: string): (b: Option<seq<byte>>)
    ensures b.Some? ==> |b.value| <= |r|
  {
    if |r| == 0 then Some([])
    else if r[0] == '%' then
      if |r| < 3 || HexValue(r[1]).None? || HexValue(r[2]).None? then None
      else
        match PercentDecode(r[3..])
        case None => None
        case Some(rest) => Some([HexValue(r[1]).value * 16 + HexValue(r[2]).value] + rest)
    else if r[0] as int < 0x80 then
      match PercentDecode(r[1..])
      case None => None
      case Some(rest) => Some([r[0] as int] + rest)
    else None
  }

  lemma HexDigitUpperValue(d: nat)
    requires d < 16
    ensures HexValue(HexDigitUpper(d)) == Some(d)
  {
  }

  /** One escape decodes to its byte, ahead of whatever follows. */
  lemma EscapeDecodes(x: byte, rest: string)
    requires PercentDecode(rest).Some?
    ensures PercentDecode(['%', HexDigitUpper(x / 16), HexDigitUpper(x % 16)] + rest)
      == Some([x] + PercentDecode(rest).value)
  {
    var r := ['%', HexDigitUpper(x / 16), HexDigitUpper(x % 16)] + rest;
    HexDigitUpperValue(x / 16);
    HexDigitUpperValue(x % 16);
    assert r[3..] == rest;
  }

  lemma PercentBytesHead(bytes: seq<byte>, tail: string)
    requires |bytes| > 0
    ensures PercentBytes(bytes) + tail
      == ['%', HexDigitUpper(bytes[0] / 16), HexDigitUpper(bytes[0] % 16)] + (PercentBytes(bytes[1..]) + tail)
  {
  }

  lemma ConsAppend(bytes: seq<byte>, t: seq<byte>)
    requires |bytes| > 0
    ensures bytes + t == [bytes[0]] + (bytes[1..] + t)
  {
    assert bytes == [bytes[0]] + bytes[1..];
  }

  /** Escaped bytes decode to themselves, ahead of whatever follows. */
  lemma {:induction false} PercentBytesDecode(bytes: seq<byte>, tail: string)
    requires PercentDecode(tail).Some?
    ensures PercentDecode(PercentBytes(bytes) + tail) == Some(bytes + PercentDecode(tail).value)
  {
    if |bytes| == 0 {
      assert PercentBytes(bytes) + tail == tail;
      assert bytes + PercentDecode(tail).value == PercentDecode(tail).value;
    } else {
      var rest := PercentBytes(bytes[1..]) + tail;
      PercentBytesHead(bytes, tail);
      PercentBytesDecode(bytes[1..], tail);
      assert PercentDecode(rest) == Some(bytes[1..] + PercentDecode(tail).value);
      EscapeDecodes(bytes[0], rest);
      ConsAppend(bytes, PercentDecode(tail).value);
    }
  }

  /** `decodeURIComponent` undoes `encodeURIComponent`: the encoding of
      any text decodes to exactly that text's UTF-8 bytes. */
  lemma {:induction false} EncodeUriComponentDecodes(s: string)
    ensures PercentDecode(EncodeUriComponent(s)) == Some(Utf8(s))
  {
    if |s| > 0 {
      var c := s[0];
      var rest := EncodeUriComponent(s[1..]);
      EncodeUriComponentDecodes(s[1..]);
      if IsUriUnreserved(c) {
        assert EncodeUriComponent(s) == [c] + rest;
        assert ([c] + rest)[1..] == rest;
        assert Utf8Char(c) == [c as int];
      } else {
        assert EncodeUriComponent(s) == PercentBytes(Utf8Char(c)) + rest;
        PercentBytesDecode(Utf8Char(c), rest);
      }
    }
  }

  /** The fields `login` and `addWallet` are given. */
  datatype WalletProof = WalletProof(address: string, message: string, signature: string, publicKey: string)

  /** The JSON object posted to the login and add-wallet endpoints. */
  function ProofBody(address: string, message: string, signature: string, publicKey: string): Value {
    Obj(map["address" := Str(address), "message" := Str(message), "signature" := Str(signature),
            "public_key" := Str(publicKey)])
  }

  /** The address and the message of a proof body are the ones given. */
  lemma ProofBodyFields(address: string, message: string, signature: string, publicKey: string)
    ensures var fields := ProofBody(address, message, signature, publicKey).fields;
      "address" in fields && fields["address"] == Str(address)
      && "message" in fields && fields["message"] == Str(message)
  {
  }

  /** What `getItem` returns, as a JavaScript value: the string or `null`. */
  function Stored(items: map<string, string>, key: string): Option<Value> {
    if key in items then Some(Str(items[key])) else Some(Null)
  }

  /** The server's login answer names its second token `refresh_token`, but
      `login` reads `referesh_token`: from such an answer the client stores
      the text "undefined", which is truthy, so a later `refreshToken` posts
      it instead of failing with "No refresh token available". */
  lemma MisnamedRefreshTokenStoredAsUndefined(answer: map<string, Value>)
    requires "referesh_token" !in answer
    ensures ToJsString(Get(Obj(answer), "referesh_token")) == "undefined"
    ensures Truthy(Stored(map["refresh_token" := ToJsString(Get(Obj(answer), "referesh_token"))], "refresh_token"))
  {
  }

  // ---------------------------------------------------------------------------
  // The requests the client sends
  // ---------------------------------------------------------------------------

  function ChallengeRequest(baseURL: string, token: Option<Value>, address: string): Outgoing {
    Outgoing(baseURL + ("/api/auth/challenge?address=" + EncodeUriComponent(address)), "GET",
             RequestHeaders(token), None)
  }

  function MeRequest(baseURL: string, token: Option<Value>): Outgoing {
    Outgoing(baseURL + "/api/auth/me", "GET", RequestHeaders(token), None)
  }

  function LoginRequest(baseURL: string, token: Option<Value>, data: WalletProof, publicKey: string): Outgoing {
    Outgoing(baseURL + "/api/auth/login", "POST", RequestHeaders(token),
             Some(ProofBody(data.address, data.message, data.signature, publicKey)))
  }

  function LogoutRequest(baseURL: string, token: Option<Value>): Outgoing {
    Outgoing(baseURL + "/api/auth/logout", "POST", RequestHeaders(token), None)
  }

  function RefreshRequest(baseURL: string, token: Option<Value>, refresh: Value): Outgoing {
    Outgoing(baseURL + "/api/auth/refresh", "POST", RequestHeaders(token), Some(Obj(map["refresh_token" := refresh])))
  }

  function AddWalletRequest(baseURL: string, token: Option<Value>, data: WalletProof, publicKey: string,
                            signature: string): Outgoing {
    Outgoing(baseURL + "/api/auth/add-wallet", "POST", RequestHeaders(token),
             Some(ProofBody(data.address, data.message, signature, publicKey)))
  }

  // ---------------------------------------------------------------------------
  // The client's state and what each call does to it
  // ---------------------------------------------------------------------------

  /** The access-token field and the browser storage. */
  datatype ClientState = ClientState(token: Option<Value>, items: map<string, string>)

  /** `setAccessToken(token)`: the field and the stored copy. */
  function WithAccessToken(s: ClientState, token: Option<Value>): ClientState {
    ClientState(token, s.items["access_token" := ToJsString(token)])
  }

  /** `clearTokens()`: the field becomes null and both stored tokens go. */
  function Cleared(s: ClientState): (r: ClientState)
    ensures r.token == Some(Null) && !Truthy(r.token)
    ensures "access_token" !in r.items && "refresh_token" !in r.items
    ensures forall k :: k in s.items && k != "access_token" && k != "refresh_token" ==> k in r.items && r.items[k] == s.items[k]
  {
    ClientState(Some(Null), s.items - {"access_token", "refresh_token"})
  }

  /** `login(data)`: the key normalised first (a failure there sends
      nothing), the signature sent as given, then the access token set and
      the answer's `referesh_token` stored under "refresh_token". */
  function LoginStep(fetch: Outgoing -> FetchResult, baseURL: string, s: ClientState, data: WalletProof)
    : (r: (Result<Value, JsError>, ClientState))
    ensures NormalizePublicKey(data.publicKey).Err? ==> r == (Err(NormalizePublicKey(data.publicKey).error), s)
    ensures r.0.Err? ==> r.1 == s
    ensures r.0.Ok? <==>
      && NormalizePublicKey(data.publicKey).Ok?
      && Answer(fetch(LoginRequest(baseURL, s.token, data, NormalizePublicKey(data.publicKey).value))).Ok?
      && Answer(fetch(LoginRequest(baseURL, s.token, data, NormalizePublicKey(data.publicKey).value))).value != Null
    ensures r.0.Ok? ==>
      && r.0 == Answer(fetch(LoginRequest(baseURL, s.token, data, NormalizePublicKey(data.publicKey).value)))
      && r.1.token == Get(r.0.value, "access_token")
      && r.1.items == s.items["access_token" := ToJsString(Get(r.0.value, "access_token"))]
                             ["refresh_token" := ToJsString(Get(r.0.value, "referesh_token"))]
  {
    match NormalizePublicKey(data.publicKey)
    case Err(e) => (Err(e), s)
    case Ok(key) =>
      match Answer(fetch(LoginRequest(baseURL, s.token, data, key)))
      case Err(e) => (Err(e), s)
      case Ok(response) =>
        match ReadMember(Some(response), "access_token")
        case Err(e) => (Err(e), s)
        case Ok(token) =>
          var t := WithAccessToken(s, token);
          (Ok(response), t.(items := t.items["refresh_token" := ToJsString(Get(response, "referesh_token"))]))
  }

  /** `logout()`: the tokens are cleared whether or not the request
      succeeds, and its failure is passed on. */
  function LogoutStep(fetch: Outgoing -> FetchResult, baseURL: string, s: ClientState)
    : (r: (Result<(), JsError>, ClientState))
    ensures r.1 == Cleared(s)
    ensures r.0.Ok? <==> Answer(fetch(LogoutRequest(baseURL, s.token))).Ok?
    ensures r.0.Err? ==> r.0.error == Answer(fetch(LogoutRequest(baseURL, s.token))).error
  {
    var answer := Answer(fetch(LogoutRequest(baseURL, s.token)));
    (if answer.Ok? then Ok(()) else Err(answer.error), Cleared(s))
  }

  /** `refreshToken()`: refuses before any request without a stored
      refresh token, otherwise posts it and keeps the new access token. */
  function RefreshStep(fetch: Outgoing -> FetchResult, baseURL: string, s: ClientState)
    : (r: (Result<Value, JsError>, ClientState))
    ensures !Truthy(Stored(s.items, "refresh_token")) ==> r == (Err(Thrown("No refresh token available")), s)
    ensures r.0.Err? ==> r.1 == s
    ensures r.0.Ok? <==>
      && Truthy(Stored(s.items, "refresh_token"))
      && Answer(fetch(RefreshRequest(baseURL, s.token, Stored(s.items, "refresh_token").value))).Ok?
      && Answer(fetch(RefreshRequest(baseURL, s.token, Stored(s.items, "refresh_token").value))).value != Null
    ensures r.0.Ok? ==>
      && r.0 == Answer(fetch(RefreshRequest(baseURL, s.token, Stored(s.items, "refresh_token").value)))
      && r.1 == ClientState(Get(r.0.value, "access_token"),
                            s.items["access_token" := ToJsString(Get(r.0.value, "access_token"))])
  {
    var refresh := Stored(s.items, "refresh_token");
    if !Truthy(refresh) then (Err(Thrown("No refresh token available")), s)
    else
      match Answer(fetch(RefreshRequest(baseURL, s.token, refresh.value)))
      case Err(e) => (Err(e), s)
      case Ok(response) =>
        match ReadMember(Some(response), "access_token")
        case Err(e) => (Err(e), s)
        case Ok(token) => (Ok(response), WithAccessToken(s, token))
  }

  /** `addWallet(data)`: the key and then the signature normalised (a
      failure sends nothing), then the request; no state changes. */
  function AddWalletStep(fetch: Outgoing -> FetchResult, baseURL: string, token: Option<Value>, data: WalletProof)
    : (r: Result<Value, JsError>)
    ensures NormalizePublicKey(data.publicKey).Err? ==> r == Err(NormalizePublicKey(data.publicKey).error)
    ensures NormalizePublicKey(data.publicKey).Ok? && NormalizeSignature(data.signature).Err? ==>
      r == Err(NormalizeSignature(data.signature).error)
    ensures NormalizePublicKey(data.publicKey).Ok? && NormalizeSignature(data.signature).Ok? ==>
      r == Answer(fetch(AddWalletRequest(baseURL, token, data, NormalizePublicKey(data.publicKey).value,
                                         NormalizeSignature(data.signature).value)))
  {
    var key :- NormalizePublicKey(data.publicKey);
    var signature :- NormalizeSignature(data.signature);
    Answer(fetch(AddWalletRequest(baseURL, token, data, key, signature)))
  }

  /** After a logout, nothing is authenticated and no refresh is possible,
      whatever the server answered. */
  lemma LogoutForgetsTokens(fetch: Outgoing -> FetchResult, baseURL: string, s: ClientState)
    ensures var after := LogoutStep(fetch, baseURL, s).1;
      !Truthy(after.token) && "Authorization" !in RequestHeaders(after.token)
      && RefreshStep(fetch, baseURL, after).0 == Err(Thrown("No refresh token available"))
  {
  }

  /** A successful login leaves the client authenticated exactly when the
      answer carried a truthy `access_token`, and later requests carry it. */
  lemma LoginAuthenticates(fetch: Outgoing -> FetchResult, baseURL: string, s: ClientState, data: WalletProof)
    requires LoginStep(fetch, baseURL, s, data).0.Ok?
    ensures var (r, after) := LoginStep(fetch, baseURL, s, data);
      && (Truthy(after.token) <==> Truthy(Get(r.value, "access_token")))
      && (Truthy(after.token) ==>
            RequestHeaders(after.token)["Authorization"] == "Bearer " + ToJsString(Get(r.value, "access_token")))
  {
  }

  // ---------------------------------------------------------------------------
  // APIClient
  // ---------------------------------------------------------------------------

  class APIClient {
    const baseURL: string
    const storage: LocalStorage
    /** `string | null`, or whatever the server sent as `access_token`
        (`None` is `undefined`). */
    var accessToken: Option<Value>

    function State(): ClientState
      reads this, storage
    {
      ClientState(accessToken, storage.items)
    }

    /** The constructor loads the stored access token. */
    constructor(baseURL: string, storage: LocalStorage)
      ensures this.baseURL == baseURL && this.storage == storage
      ensures accessToken == Stored(storage.items, "access_token")
    {
      this.baseURL := baseURL;
      this.storage := storage;
      var loaded := storage.GetItem("access_token");
      accessToken := if loaded.Some? then Some(Str(loaded.value)) else Some(Null);
    }

    /** `request(endpoint, options)`: the headers built in place, the call,
        and the answer. */
    method Request(fetch: Outgoing -> FetchResult, endpoint: string, verb: string, body: Option<Value>)
      returns (r: Result<Value, JsError>)
      ensures r == Answer(fetch(Outgoing(baseURL + endpoint, verb, RequestHeaders(accessToken), body)))
    {
      var headers := map["Content-Type" := "application/json"];
      if Truthy(accessToken) {
        headers := headers["Authorization" := "Bearer " + ToJsString(accessToken)];
      }
      var reply := fetch(Outgoing(baseURL + endpoint, verb, headers, body));
      r := Answer(reply);
    }

    /** `getChallenge(address)`. */
    method GetChallenge(fetch: Outgoing -> FetchResult, address: string) returns (r: Result<Value, JsError>)
      ensures r == Answer(fetch(ChallengeRequest(baseURL, accessToken, address)))
    {
      r := Request(fetch, "/api/auth/challenge?address=" + EncodeUriComponent(address), "GET", None);
    }

    /** `getCurrentUser()`. */
    method GetCurrentUser(fetch: Outgoing -> FetchResult) returns (r: Result<Value, JsError>)
      ensures r == Answer(fetch(MeRequest(baseURL, accessToken)))
    {
      r := Request(fetch, "/api/auth/me", "GET", None);
    }

    /** `setAccessToken(token)`. */
    method SetAccessToken(token: Option<Value>)
      modifies this, storage
      ensures State() == WithAccessToken(old(State()), token)
    {
      accessToken := token;
      storage.SetItem("access_token", ToJsString(token));
    }

    /** `getAccessToken()`. */
    method GetAccessToken() returns (token: Option<Value>)
      ensures token == accessToken
    {
      token := accessToken;
    }

    /** `clearTokens()`. */
    method ClearTokens()
      modifies this, storage
      ensures State() == Cleared(old(State()))
    {
      accessToken := Some(Null);
      storage.RemoveItem("access_token");
      storage.RemoveItem("refresh_token");
    }

    /** `isAuthenticated()`: the token is truthy (neither null nor empty),
        which is when requests carry it. */
    method IsAuthenticated() returns (b: bool)
      ensures b == Truthy(accessToken)
      ensures b <==> "Authorization" in RequestHeaders(accessToken)
    {
      b := Truthy(accessToken);
    }

    /** `login(data)`. */
    method Login(fetch: Outgoing -> FetchResult, data: WalletProof) returns (r: Result<Value, JsError>)
      modifies this, storage
      ensures (r, State()) == LoginStep(fetch, baseURL, old(State()), data)
    {
      var key := NormalizePublicKey(data.publicKey);
      if key.Err? {
        return Err(key.error);
      }
      var answer := Request(fetch, "/api/auth/login", "POST",
                            Some(ProofBody(data.address, data.message, data.signature, key.value)));
      if answer.Err? {
        return answer;
      }
      var token := ReadMember(Some(answer.value), "access_token");
      if token.Err? {
        return Err(token.error);
      }
      SetAccessToken(token.value);
      var refresh := Get(answer.value, "referesh_token");
      storage.SetItem("refresh_token", ToJsString(refresh));
      r := answer;
    }

    /** `logout()`. */
    method Logout(fetch: Outgoing -> FetchResult) returns (r: Result<(), JsError>)
      modifies this, storage
      ensures (r, State()) == LogoutStep(fetch, baseURL, old(State()))
    {
      var answer := Request(fetch, "/api/auth/logout", "POST", None);
      ClearTokens();
      r := if answer.Ok? then Ok(()) else Err(answer.error);
    }

    /** `refreshToken()`. */
    method RefreshToken(fetch: Outgoing -> FetchResult) returns (r: Result<Value, JsError>)
      modifies this, storage
      ensures (r, State()) == RefreshStep(fetch, baseURL, old(State()))
    {
      var item := storage.GetItem("refresh_token");
      var refresh := if item.Some? then Some(Str(item.value)) else Some(Null);
      if !Truthy(refresh) {
        return Err(Thrown("No refresh token available"));
      }
      var answer := Request(fetch, "/api/auth/refresh", "POST", Some(Obj(map["refresh_token" := refresh.value])));
      if answer.Err? {
        return answer;
      }
      var token := ReadMember(Some(answer.value), "access_token");
      if token.Err? {
        return Err(token.error);
      }
      SetAccessToken(token.value);
      r := answer;
    }

    /** `addWallet(data)`. */
    method AddWallet(fetch: Outgoing -> FetchResult, data: WalletProof) returns (r: Result<Value, JsError>)
      ensures r == AddWalletStep(fetch, baseURL, accessToken, data)
    {
      var key := NormalizePublicKey(data.publicKey);
      if key.Err? {
        return Err(key.error);
      }
      var signature := NormalizeSignature(data.signature);
      if signature.Err? {
        return Err(signature.error);
      }
      r := Request(fetch, "/api/auth/add-wallet", "POST",
                   Some(ProofBody(data.address, data.message, signature.value, key.value)));
    }
  }
}
