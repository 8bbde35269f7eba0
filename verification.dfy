/** Wallet-signature verification and the sign-in challenge
    (src/auth/verification.rs).

    A CIP-30 wallet signs a message either as a COSE_Sign1 structure
    (RFC 9052, section 4.2: a CBOR array of protected header, unprotected
    header, payload and signature) or as a bare 64-byte Ed25519 signature.
    The server rebuilds the Sig_structure of RFC 9052, section 4.4, and asks
    the Ed25519 library to check the signature over three candidate messages.
    The Ed25519 and Blake2b primitives are not part of this model: they are
    the fields of a `Crypto` value that every operation takes as a parameter. */
module Verification {
  import opened Wrappers
  import opened Strings
  import opened Cbor

  /** The cryptographic library: whether a byte run is a valid Ed25519 public
      key (`PublicKey::try_from`), Ed25519 verification of (key, message,
      signature), and the Blake2b-256 hash. */
  datatype Crypto = Crypto(
    isPublicKey: seq<byte> -> bool,
    verify: (seq<byte>, seq<byte>, seq<byte>) -> bool,
    blake2b256: seq<byte> -> seq<byte>)

  /** The error strings of `verify_sign`, one constructor per message. */
  datatype VerifyError =
    | InvalidSignatureHex            // "Invalid signature hex: …"
    | ArrayLength64Unsupported       // "Array length 64-bit unsupported"
    | Malformed(cbor: CborError)     // an error of the CBOR reader, passed on
    | ProtectedNotBstr               // "protected not bstr"
    | SignatureNotBstr               // "signature not bstr"
    | SignatureNot64Bytes(got: nat)  // "signature not 64 bytes (got …)"
    | SignatureSizeUnexpected(got: nat) // "signature field size unexpected: …"
    | InvalidPublicKeyHex            // "Invalid public key …" (hex decoding)
    | InvalidPublicKey               // "Invalid public key" (not a key)

  /** The three parts `verify_sign` extracts from the signature field. */
  datatype SignatureParts = SignatureParts(protected: seq<byte>, payload: seq<byte>, signature: seq<byte>)

  /** A reader error becomes an error of `verify_sign` (the `?` operator). */
  function LiftCbor<T>(r: Result<T, CborError>): Result<T, VerifyError> {
    match r
    case Ok(v) => Ok(v)
    case Err(e) => Err(Malformed(e))
  }

  /** Where the first element of the top-level array starts: the array's own
      length argument is skipped, not read, and additional information 27 is
      refused. Additional information 28..31 is taken as a one-byte header. */
  function CoseFirstElement(first: byte): (r: Result<nat, VerifyError>)
    ensures r.Ok? ==> 1 <= r.value <= 5
    ensures r.Err? <==> AdditionalInfo(first) == 27
  {
    var ai := AdditionalInfo(first);
    if ai == 24 then Ok(2)
    else if ai == 25 then Ok(3)
    else if ai == 26 then Ok(5)
    else if ai == 27 then Err(ArrayLength64Unsupported)
    else Ok(1)
  }

  /** The COSE_Sign1 branch: four items read one after the other; the
      protected header and the signature must be byte strings, a payload that
      is not a byte string counts as empty, and the signature must have 64
      bytes. */
  function ParseCoseSign1(sig: seq<byte>): (r: Result<SignatureParts, VerifyError>)
    requires |sig| > 0
    ensures r.Ok? ==> |r.value.signature| == 64
  {
    CoseSign1With(sig, ReadItem)
  }

  /** The same steps with the item reader as a parameter, so that what the
      branch does with each item can be reasoned about apart from how an
      item is read. */
  function CoseSign1With(sig: seq<byte>, read: (seq<byte>, nat) -> Result<Item, CborError>): (r: Result<SignatureParts, VerifyError>)
    requires |sig| > 0
    ensures r.Ok? ==> |r.value.signature| == 64
  {
    var idx :- CoseFirstElement(sig[0]);
    var p :- LiftCbor(read(sig, idx));
    var protected :- if p.bstr.Some? then Ok(p.bstr.value) else Err(ProtectedNotBstr);
    var u :- LiftCbor(read(sig, idx + p.size));
    CoseTail(sig, read, idx + p.size + u.size, protected)
  }

  /** The payload and the signature, read from `at` on, after the protected
      header and the unprotected map. */
  function CoseTail(sig: seq<byte>, read: (seq<byte>, nat) -> Result<Item, CborError>, at: nat,
                    protected: seq<byte>): (r: Result<SignatureParts, VerifyError>)
    ensures r.Ok? ==> |r.value.signature| == 64 && r.value.protected == protected
  {
    var pay :- LiftCbor(read(sig, at));
    var s :- LiftCbor(read(sig, at + pay.size));
    var signature :- if s.bstr.Some? then Ok(s.bstr.value) else Err(SignatureNotBstr);
    if |signature| != 64 then Err(SignatureNot64Bytes(|signature|))
    else Ok(SignatureParts(protected, pay.bstr.GetOr([]), signature))
  }

  /** How the decoded signature field is split: more than 64 bytes starting
      with an array header is COSE_Sign1; exactly 64 bytes is a bare
      signature over the message encoded as a CBOR text string; any other
      size is refused. */
  function SplitSignature(sig: seq<byte>, message: string): (r: Result<SignatureParts, VerifyError>)
    ensures r.Ok? ==> |r.value.signature| == 64
    ensures |sig| == 64 ==> r == Ok(SignatureParts([], CborEncodeText(message), sig))
    ensures |sig| < 64 ==> r == Err(SignatureSizeUnexpected(|sig|))
    ensures |sig| > 64 && MajorType(sig[0]) != 4 ==> r == Err(SignatureSizeUnexpected(|sig|))
  {
    if |sig| > 64 && MajorType(sig[0]) == 4 then ParseCoseSign1(sig)
    else if |sig| == 64 then Ok(SignatureParts([], CborEncodeText(message), sig))
    else Err(SignatureSizeUnexpected(|sig|))
  }

  /** The CBOR text string "Signature1", as the source spells it out byte by byte. */
  const SIGNATURE1: seq<byte> := [0x6A, 0x53, 0x69, 0x67, 0x6E, 0x61, 0x74, 0x75, 0x72, 0x65, 0x31]

  /** The Sig_structure of RFC 9052, section 4.4, for COSE_Sign1: the array
      ["Signature1", protected, external_aad = empty, payload]. */
  function SigStructure(protected: seq<byte>, payload: seq<byte>): seq<byte> {
    [0x84] + SIGNATURE1 + BstrPrefix(|protected|) + protected + [0x40] + BstrPrefix(|payload|) + payload
  }

  /** What the ownership of a valid key and signature means: Ed25519 accepts
      the signature over the Sig_structure, over the raw message bytes, or
      over the Blake2b-256 hash of the Sig_structure. */
  predicate Accepts(crypto: Crypto, key: seq<byte>, message: string, parts: SignatureParts) {
    var s := SigStructure(parts.protected, parts.payload);
    crypto.verify(key, s, parts.signature)
    || crypto.verify(key, Utf8(message), parts.signature)
    || crypto.verify(key, crypto.blake2b256(s), parts.signature)
  }

  /** `verify_sign(message, signature_hex, public_key_hex)`. Both hex inputs
      are trimmed before decoding; the signature is decoded and split before
      the public key is looked at. */
  function VerifySignSpec(crypto: Crypto, message: string, signatureHex: string, publicKeyHex: string)
    : (r: Result<bool, VerifyError>)
    ensures r.Ok? ==> HexDecode(RustTrim(signatureHex)).Some? && HexDecode(RustTrim(publicKeyHex)).Some?
    ensures r.Ok? ==> crypto.isPublicKey(HexDecode(RustTrim(publicKeyHex)).value)
    ensures r.Ok? ==> SplitSignature(HexDecode(RustTrim(signatureHex)).value, message).Ok?
    ensures r == Ok(true) <==>
      r.Ok? && Accepts(crypto, HexDecode(RustTrim(publicKeyHex)).value, message,
                       SplitSignature(HexDecode(RustTrim(signatureHex)).value, message).value)
  {
    var sig :- OkOr(HexDecode(RustTrim(signatureHex)), InvalidSignatureHex);
    var parts :- SplitSignature(sig, message);
    var key :- OkOr(HexDecode(RustTrim(publicKeyHex)), InvalidPublicKeyHex);
    if !crypto.isPublicKey(key) then Err(InvalidPublicKey)
    else Ok(Accepts(crypto, key, message, parts))
  }

  /** The COSE_Sign1 branch of `verify_sign` as the source writes it: a
      cursor that starts after the array header and advances past each of
      the four items. */
  method ReadCoseSign1(sigBytes: seq<byte>) returns (r: Result<SignatureParts, VerifyError>)
    requires |sigBytes| > 0
    ensures r == ParseCoseSign1(sigBytes)
  {
    var idx :- CoseFirstElement(sigBytes[0]);
    var p := ReadCborItem(sigBytes, idx);
    if p.Err? { return Err(Malformed(p.error)); }
    if p.value.bstr.None? { return Err(ProtectedNotBstr); }
    var protected := p.value.bstr.value;
    idx := idx + p.value.size;
    var u := ReadCborItem(sigBytes, idx);
    if u.Err? { return Err(Malformed(u.error)); }
    idx := idx + u.value.size;
    r := ReadCoseTail(sigBytes, idx, protected);
  }

  /** The payload and the signature of a COSE_Sign1 array. */
  method ReadCoseTail(sigBytes: seq<byte>, at: nat, protected: seq<byte>) returns (r: Result<SignatureParts, VerifyError>)
    ensures r == CoseTail(sigBytes, ReadItem, at, protected)
  {
    var idx := at;
    var pay := ReadCborItem(sigBytes, idx);
    if pay.Err? { return Err(Malformed(pay.error)); }
    var payload := pay.value.bstr.GetOr([]);
    idx := idx + pay.value.size;
    var s := ReadCborItem(sigBytes, idx);
    if s.Err? { return Err(Malformed(s.error)); }
    if s.value.bstr.None? { return Err(SignatureNotBstr); }
    var signature := s.value.bstr.value;
    if |signature| != 64 { return Err(SignatureNot64Bytes(|signature|)); }
    return Ok(SignatureParts(protected, payload, signature));
  }

  /** The size dispatch of `verify_sign`: the COSE_Sign1 branch above for
      more than 64 bytes under an array header, the bare-signature branch
      for exactly 64 bytes, and the size error otherwise. */
  method SplitSignatureField(sigBytes: seq<byte>, message: string) returns (r: Result<SignatureParts, VerifyError>)
    ensures r == SplitSignature(sigBytes, message)
  {
    if |sigBytes| > 64 && sigBytes[0] / 32 == 4 {
      r := ReadCoseSign1(sigBytes);
    } else if |sigBytes| == 64 {
      r := Ok(SignatureParts([], CborEncodeText(message), sigBytes));
    } else {
      r := Err(SignatureSizeUnexpected(|sigBytes|));
    }
  }

  /** The Sig_structure buffer as the source fills it, one append at a time. */
  method BuildSigStructure(protected: seq<byte>, payload: seq<byte>) returns (sigStruct: seq<byte>)
    ensures sigStruct == SigStructure(protected, payload)
  {
    sigStruct := [];
    sigStruct := sigStruct + [0x84];
    sigStruct := sigStruct + SIGNATURE1;
    sigStruct := sigStruct + BstrPrefix(|protected|);
    sigStruct := sigStruct + protected;
    sigStruct := sigStruct + [0x40];
    sigStruct := sigStruct + BstrPrefix(|payload|);
    sigStruct := sigStruct + payload;
    assert sigStruct == [] + [0x84] + SIGNATURE1 + BstrPrefix(|protected|) + protected + [0x40]
                         + BstrPrefix(|payload|) + payload;
  }

  /** `verify_sign` as the source writes it: the signature field decoded and
      split, the public key decoded and checked, the Sig_structure built, and
      three verification attempts in order. */
  method VerifySign(crypto: Crypto, message: string, signatureHex: string, publicKeyHex: string)
    returns (r: Result<bool, VerifyError>)
    ensures r == VerifySignSpec(crypto, message, signatureHex, publicKeyHex)
  {
    var decoded := HexDecode(RustTrim(signatureHex));
    if decoded.None? { return Err(InvalidSignatureHex); }
    var parts :- SplitSignatureField(decoded.value, message);

    var keyBytes := HexDecode(RustTrim(publicKeyHex));
    if keyBytes.None? { return Err(InvalidPublicKeyHex); }
    var key := keyBytes.value;
    if !crypto.isPublicKey(key) { return Err(InvalidPublicKey); }

    var sigStruct := BuildSigStructure(parts.protected, parts.payload);
    if crypto.verify(key, sigStruct, parts.signature) { return Ok(true); }
    if crypto.verify(key, Utf8(message), parts.signature) { return Ok(true); }
    var hash := crypto.blake2b256(sigStruct);
    if crypto.verify(key, hash, parts.signature) { return Ok(true); }
    return Ok(false);
  }

  // ---------------------------------------------------------------------------
  // Properties of signature verification
  // ---------------------------------------------------------------------------

  /** The COSE_Sign1 encoding a wallet produces: array(4), the protected
      header as a byte string, an empty unprotected map, the payload as a
      byte string, and the 64-byte signature as a byte string. */
  function EncodeCoseSign1(protected: seq<byte>, payload: seq<byte>, signature: seq<byte>): (r: seq<byte>)
    requires |signature| == 64
    ensures |r| > 64 && MajorType(r[0]) == 4
  {
    [0x84] + BstrPrefix(|protected|) + protected + [0xA0] + BstrPrefix(|payload|) + payload
      + BstrPrefix(64) + signature
  }

  /** `ParseCoseSign1` depends only on what its four reads return: the
      protected header at offset 1, then the unprotected map, the payload and
      the signature, each read where the previous one ends. */
  lemma CoseFromItems(b: seq<byte>, p: Item, u: Item, pay: Item, sig: Item, i1: nat, i2: nat, i3: nat)
    requires |b| > 0 && AdditionalInfo(b[0]) < 24
    requires i1 == 1 + p.size && i2 == i1 + u.size && i3 == i2 + pay.size
    requires ReadAt(b, 1) == Ok(p) && p.bstr.Some?
    requires ReadAt(b, i1) == Ok(u) && ReadAt(b, i2) == Ok(pay) && ReadAt(b, i3) == Ok(sig)
    requires sig.bstr.Some? && |sig.bstr.value| == 64
    ensures ParseCoseSign1(b) == Ok(SignatureParts(p.bstr.value, pay.bstr.GetOr([]), sig.bstr.value))
  {
    CoseWithItems(b, ReadItem, p, u, pay, sig, i1, i2, i3);
  }

  lemma CoseWithItems(b: seq<byte>, read: (seq<byte>, nat) -> Result<Item, CborError>,
                      p: Item, u: Item, pay: Item, sig: Item, i1: nat, i2: nat, i3: nat)
    requires |b| > 0 && AdditionalInfo(b[0]) < 24
    requires i1 == 1 + p.size && i2 == i1 + u.size && i3 == i2 + pay.size
    requires read(b, 1) == Ok(p) && p.bstr.Some?
    requires read(b, i1) == Ok(u) && read(b, i2) == Ok(pay) && read(b, i3) == Ok(sig)
    requires sig.bstr.Some? && |sig.bstr.value| == 64
    ensures CoseSign1With(b, read) == Ok(SignatureParts(p.bstr.value, pay.bstr.GetOr([]), sig.bstr.value))
  {
    assert CoseFirstElement(b[0]) == Ok(1);
  }

  /** An empty map is one byte long and holds no byte string. */
  lemma EmptyMapAt(b: seq<byte>, at: nat)
    requires at < |b| && b[at] == 0xA0
    ensures ReadItem(b, at) == Ok(Item(1, None))
  {
    assert ReadHeader(b, at) == Ok(Header(5, 0, 1));
    assert ReadItems(b, at + 1, 0) == Ok(at + 1);
  }

  /** The COSE_Sign1 encoding split at each item boundary. */
  lemma CoseLayout(protected: seq<byte>, payload: seq<byte>, signature: seq<byte>)
    requires |signature| == 64
    ensures var b := EncodeCoseSign1(protected, payload, signature);
      var x1 := BstrPrefix(|protected|) + protected;
      var x3 := BstrPrefix(|payload|) + payload;
      var x4 := BstrPrefix(64) + signature;
      && b == [0x84] + x1 + ([0xA0] + x3 + x4)
      && b == ([0x84] + x1 + [0xA0]) + x3 + x4
      && b == ([0x84] + x1 + [0xA0] + x3) + x4 + []
  {
    Regroup8([0x84], BstrPrefix(|protected|), protected, [0xA0], BstrPrefix(|payload|), payload,
             BstrPrefix(64), signature);
  }

  /** Regrouping eight concatenated pieces around the item boundaries of
      a COSE_Sign1 encoding. */
  lemma Regroup8(a: seq<byte>, b: seq<byte>, c: seq<byte>, d: seq<byte>, e: seq<byte>, f: seq<byte>,
                 g: seq<byte>, h: seq<byte>)
    ensures var s := a + b + c + d + e + f + g + h;
      && s == a + (b + c) + (d + (e + f) + (g + h))
      && s == (a + (b + c) + d) + (e + f) + (g + h)
      && s == (a + (b + c) + d + (e + f)) + (g + h) + []
  {
  }

  /** The first element of an encoded COSE_Sign1 reads as the protected header. */
  lemma CoseProtectedAt(protected: seq<byte>, payload: seq<byte>, signature: seq<byte>)
    requires |protected| <= 0xFFFF && |signature| == 64
    ensures ReadAt(EncodeCoseSign1(protected, payload, signature), 1)
      == Ok(Item(|BstrPrefix(|protected|)| + |protected|, Some(protected)))
  {
    CoseLayout(protected, payload, signature);
    BstrAt(EncodeCoseSign1(protected, payload, signature), 1, [0x84], protected,
           [0xA0] + (BstrPrefix(|payload|) + payload) + (BstrPrefix(64) + signature));
  }

  /** The second element of an encoded COSE_Sign1 is the one-byte empty map. */
  lemma CoseMapAt(protected: seq<byte>, payload: seq<byte>, signature: seq<byte>)
    requires |signature| == 64
    ensures ReadAt(EncodeCoseSign1(protected, payload, signature), 1 + |BstrPrefix(|protected|)| + |protected|)
      == Ok(Item(1, None))
  {
    var b := EncodeCoseSign1(protected, payload, signature);
    var i1 := 1 + |BstrPrefix(|protected|)| + |protected|;
    assert b[i1] == 0xA0;
    EmptyMapAt(b, i1);
  }

  /** The third element of an encoded COSE_Sign1 reads as the payload. */
  lemma CosePayloadAt(protected: seq<byte>, payload: seq<byte>, signature: seq<byte>)
    requires |payload| <= 0xFFFF && |signature| == 64
    ensures ReadAt(EncodeCoseSign1(protected, payload, signature), 2 + |BstrPrefix(|protected|)| + |protected|)
      == Ok(Item(|BstrPrefix(|payload|)| + |payload|, Some(payload)))
  {
    CoseLayout(protected, payload, signature);
    BstrAt(EncodeCoseSign1(protected, payload, signature), 2 + |BstrPrefix(|protected|)| + |protected|,
           [0x84] + (BstrPrefix(|protected|) + protected) + [0xA0], payload, BstrPrefix(64) + signature);
  }

  /** The fourth element of an encoded COSE_Sign1 reads as the signature. */
  lemma CoseSignatureAt(protected: seq<byte>, payload: seq<byte>, signature: seq<byte>)
    requires |signature| == 64
    ensures ReadAt(EncodeCoseSign1(protected, payload, signature),
                   2 + |BstrPrefix(|protected|)| + |protected| + |BstrPrefix(|payload|)| + |payload|)
      == Ok(Item(|BstrPrefix(64)| + 64, Some(signature)))
  {
    CoseLayout(protected, payload, signature);
    BstrAt(EncodeCoseSign1(protected, payload, signature),
           2 + |BstrPrefix(|protected|)| + |protected| + |BstrPrefix(|payload|)| + |payload|,
           [0x84] + (BstrPrefix(|protected|) + protected) + [0xA0] + (BstrPrefix(|payload|) + payload),
           signature, []);
  }

  /** Splitting a COSE_Sign1 encoding gives back exactly the protected header,
      the payload and the signature that were encoded. */
  lemma CoseRoundTrip(protected: seq<byte>, payload: seq<byte>, signature: seq<byte>, message: string)
    requires |protected| <= 0xFFFF && |payload| <= 0xFFFF && |signature| == 64
    ensures SplitSignature(EncodeCoseSign1(protected, payload, signature), message)
      == Ok(SignatureParts(protected, payload, signature))
  {
    var b := EncodeCoseSign1(protected, payload, signature);
    CoseParses(protected, payload, signature);
    assert |b| > 64 && MajorType(b[0]) == 4;
  }

  /** The COSE_Sign1 branch of `SplitSignature` on an encoding. */
  lemma CoseParses(protected: seq<byte>, payload: seq<byte>, signature: seq<byte>)
    requires |protected| <= 0xFFFF && |payload| <= 0xFFFF && |signature| == 64
    ensures ParseCoseSign1(EncodeCoseSign1(protected, payload, signature))
      == Ok(SignatureParts(protected, payload, signature))
  {
    var b := EncodeCoseSign1(protected, payload, signature);
    var i1 := 1 + |BstrPrefix(|protected|)| + |protected|;
    var i2 := 2 + |BstrPrefix(|protected|)| + |protected|;
    var i3 := 2 + |BstrPrefix(|protected|)| + |protected| + |BstrPrefix(|payload|)| + |payload|;
    CoseProtectedAt(protected, payload, signature);
    CoseMapAt(protected, payload, signature);
    CosePayloadAt(protected, payload, signature);
    CoseSignatureAt(protected, payload, signature);
    var p := Item(|BstrPrefix(|protected|)| + |protected|, Some(protected));
    var pay := Item(|BstrPrefix(|payload|)| + |payload|, Some(payload));
    var sig := Item(|BstrPrefix(64)| + 64, Some(signature));
    assert |b| > 0 && AdditionalInfo(b[0]) < 24;
    CoseFromItems(b, p, Item(1, None), pay, sig, i1, i2, i3);
  }

  /** An array header for four items followed by four items that end exactly
      at the end of the input reads as one item spanning all of it. */
  lemma ArrayOfFour(b: seq<byte>, i1: nat, i2: nat, i3: nat)
    requires |b| > 1 && b[0] == 0x84
    requires 1 <= i1 && ReadAt(b, 1).Ok? && ReadAt(b, 1).value.size == i1 - 1
    requires i1 <= i2 && ReadAt(b, i1).Ok? && ReadAt(b, i1).value.size == i2 - i1
    requires i2 <= i3 && ReadAt(b, i2).Ok? && ReadAt(b, i2).value.size == i3 - i2
    requires i3 <= |b| && ReadAt(b, i3).Ok? && ReadAt(b, i3).value.size == |b| - i3
    ensures ReadItem(b, 0) == Ok(Item(|b|, None))
  {
    assert ReadItems(b, |b|, 0) == Ok(|b|);
    ItemsStep(b, i3, 1, |b|, |b|);
    ItemsStep(b, i2, 2, i3, |b|);
    ItemsStep(b, i1, 3, i2, |b|);
    ItemsStep(b, 1, 4, i1, |b|);
    assert ReadHeader(b, 0) == Ok(Header(4, 4, 1));
  }

  /** One item at `cur` followed by `n - 1` more is `n` items. */
  lemma ItemsStep(b: seq<byte>, cur: nat, n: nat, next: nat, end: nat)
    requires n > 0 && cur <= next <= |b|
    requires ReadAt(b, cur).Ok? && ReadAt(b, cur).value.size == next - cur
    requires ReadItems(b, next, n - 1) == Ok(end)
    ensures ReadItems(b, cur, n) == Ok(end)
  {
  }

  /** Regrouping seven concatenated pieces around the item boundaries of
      the Sig_structure. */
  lemma Regroup7(a: seq<byte>, b: seq<byte>, c: seq<byte>, d: seq<byte>, e: seq<byte>, f: seq<byte>, g: seq<byte>)
    ensures var s := a + b + c + d + e + f + g;
      && s == a + b + (c + d + e + (f + g))
      && s == (a + b) + (c + d) + (e + (f + g))
      && s == (a + b + (c + d)) + e + (f + g)
      && s == (a + b + (c + d) + e) + (f + g) + []
  {
  }

  /** The Sig_structure split at each item boundary. */
  lemma SigLayout(protected: seq<byte>, payload: seq<byte>)
    ensures var b := SigStructure(protected, payload);
      var x2 := BstrPrefix(|protected|) + protected;
      var x4 := BstrPrefix(|payload|) + payload;
      && b == [0x84] + SIGNATURE1 + (x2 + [0x40] + x4)
      && b == ([0x84] + SIGNATURE1) + x2 + ([0x40] + x4)
      && b == ([0x84] + SIGNATURE1 + x2) + [0x40] + x4
      && b == ([0x84] + SIGNATURE1 + x2 + [0x40]) + x4 + []
  {
    Regroup7([0x84], SIGNATURE1, BstrPrefix(|protected|), protected, [0x40], BstrPrefix(|payload|), payload);
  }

  /** The context string of the Sig_structure reads as an 11-byte text item. */
  lemma SigContextAt(protected: seq<byte>, payload: seq<byte>)
    ensures ReadAt(SigStructure(protected, payload), 1) == Ok(Item(11, None))
  {
    var b := SigStructure(protected, payload);
    assert b[1] == 0x6A && 12 <= |b|;
    ShortTextAt(b, 1, 10);
  }

  /** A text string whose length fits in its header byte is that byte and
      the text. */
  lemma ShortTextAt(b: seq<byte>, at: nat, len: nat)
    requires len < 24 && at + 1 + len <= |b| && b[at] == 0x60 + len
    ensures ReadAt(b, at) == Ok(Item(1 + len, None))
  {
    assert ReadHeader(b, at) == Ok(Header(3, len, 1));
    assert ReadItem(b, at) == ItemBody(b, at, Header(3, len, 1));
  }

  /** The protected header inside the Sig_structure reads as a byte string. */
  lemma SigProtectedAt(protected: seq<byte>, payload: seq<byte>)
    requires |protected| <= 0xFFFF
    ensures ReadAt(SigStructure(protected, payload), 12)
      == Ok(Item(|BstrPrefix(|protected|)| + |protected|, Some(protected)))
  {
    SigLayout(protected, payload);
    BstrAt(SigStructure(protected, payload), 12, [0x84] + SIGNATURE1, protected, [0x40] + (BstrPrefix(|payload|) + payload));
  }

  /** An empty byte string is one byte long. */
  lemma EmptyBstrAt(b: seq<byte>, at: nat)
    requires at < |b| && b[at] == 0x40
    ensures ReadItem(b, at) == Ok(Item(1, Some([])))
  {
    assert ReadHeader(b, at) == Ok(Header(2, 0, 1));
    assert b[at + 1..at + 1] == [];
  }

  /** The external_aad inside the Sig_structure reads as an empty byte string. */
  lemma SigAadAt(protected: seq<byte>, payload: seq<byte>)
    ensures ReadAt(SigStructure(protected, payload), 12 + |BstrPrefix(|protected|)| + |protected|)
      == Ok(Item(1, Some([])))
  {
    var b := SigStructure(protected, payload);
    var i2 := 12 + |BstrPrefix(|protected|)| + |protected|;
    SigLayout(protected, payload);
    assert b[i2] == 0x40;
    EmptyBstrAt(b, i2);
  }

  /** The payload inside the Sig_structure reads as a byte string. */
  lemma SigPayloadAt(protected: seq<byte>, payload: seq<byte>)
    requires |payload| <= 0xFFFF
    ensures ReadAt(SigStructure(protected, payload), 13 + |BstrPrefix(|protected|)| + |protected|)
      == Ok(Item(|BstrPrefix(|payload|)| + |payload|, Some(payload)))
  {
    var pre := [0x84] + SIGNATURE1 + (BstrPrefix(|protected|) + protected) + [0x40];
    SigLayout(protected, payload);
    BstrAt(SigStructure(protected, payload), 13 + |BstrPrefix(|protected|)| + |protected|, pre, payload, []);
  }

  /** The Sig_structure the server builds is itself well-formed CBOR: one
      array of four items that consumes the whole buffer. */
  lemma SigStructureIsOneItem(protected: seq<byte>, payload: seq<byte>)
    requires |protected| <= 0xFFFF && |payload| <= 0xFFFF
    ensures ReadItem(SigStructure(protected, payload), 0) == Ok(Item(|SigStructure(protected, payload)|, None))
  {
    var b := SigStructure(protected, payload);
    var i2 := 12 + |BstrPrefix(|protected|)| + |protected|;
    var i3 := 13 + |BstrPrefix(|protected|)| + |protected|;
    SigContextAt(protected, payload);
    SigProtectedAt(protected, payload);
    SigAadAt(protected, payload);
    SigPayloadAt(protected, payload);
    ArrayOfFour(b, 12, i2, i3);
  }

  /** A bare 64-byte signature is checked against the Sig_structure whose
      payload is the message as a CBOR text string, with an empty protected
      header. */
  lemma RawSignatureVerdict(crypto: Crypto, message: string, signatureHex: string, publicKeyHex: string)
    requires HexDecode(RustTrim(signatureHex)).Some? && |HexDecode(RustTrim(signatureHex)).value| == 64
    requires HexDecode(RustTrim(publicKeyHex)).Some? && crypto.isPublicKey(HexDecode(RustTrim(publicKeyHex)).value)
    ensures VerifySignSpec(crypto, message, signatureHex, publicKeyHex)
      == Ok(Accepts(crypto, HexDecode(RustTrim(publicKeyHex)).value, message,
                    SignatureParts([], CborEncodeText(message), HexDecode(RustTrim(signatureHex)).value)))
  {
  }

  /** A signature field that decodes to neither a bare signature nor an
      array is refused before the public key is examined: a bad key cannot
      mask it and a good key cannot rescue it. */
  lemma BadSignatureSizeReported(crypto: Crypto, message: string, signatureHex: string, publicKeyHex: string)
    requires HexDecode(RustTrim(signatureHex)).Some?
    requires var sig := HexDecode(RustTrim(signatureHex)).value;
      |sig| != 64 && !(|sig| > 64 && MajorType(sig[0]) == 4)
    ensures VerifySignSpec(crypto, message, signatureHex, publicKeyHex)
      == Err(SignatureSizeUnexpected(|HexDecode(RustTrim(signatureHex)).value|))
  {
  }

  // ---------------------------------------------------------------------------
  // Address ownership
  // ---------------------------------------------------------------------------

  /** The error strings of `verify_address_ownership`. */
  datatype OwnershipError = BadKeyHex | NotAKey

  /** `verify_address_ownership(address, public_key_hex)`: the key is decoded
      (without trimming) and checked to be a key; the address itself is only
      logged, so every address is accepted with any valid key. */
  function VerifyAddressOwnership(crypto: Crypto, address: string, publicKeyHex: string)
    : (r: Result<bool, OwnershipError>)
    ensures r != Ok(false)
    ensures r.Ok? <==> HexDecode(publicKeyHex).Some? && crypto.isPublicKey(HexDecode(publicKeyHex).value)
    ensures HexDecode(publicKeyHex).None? ==> r == Err(BadKeyHex)
  {
    var key :- OkOr(HexDecode(publicKeyHex), BadKeyHex);
    if !crypto.isPublicKey(key) then Err(NotAKey) else Ok(true)
  }

  /** The verdict does not depend on the address. */
  lemma OwnershipIgnoresAddress(crypto: Crypto, a1: string, a2: string, publicKeyHex: string)
    ensures VerifyAddressOwnership(crypto, a1, publicKeyHex) == VerifyAddressOwnership(crypto, a2, publicKeyHex)
  {
  }

  // ---------------------------------------------------------------------------
  // The challenge message
  // ---------------------------------------------------------------------------

  type i64 = x: int | I64_MIN <= x <= I64_MAX

  /** The fixed text before the address, written in three pieces so that
      each can be inspected on its own. */
  const CHALLENGE_PREAMBLE: string :=
    "Sign this message to " + "authenticate with " + "Cardano Explorer:\n\nAddress: "
  const TIMESTAMP_PREFIX: string := "Timestamp: "

  /** `generate_challenge(address)`, with the clock reading and the random
      UUID (rendered as text) as parameters. */
  function GenerateChallenge(address: string, timestamp: i64, nonce: string): (r: string)
    ensures StartsWith(r, CHALLENGE_PREAMBLE)
    ensures OccursAt(r, address, |CHALLENGE_PREAMBLE|)
    ensures OccursAt(r, nonce, |r| - |nonce|)
  {
    var r := CHALLENGE_PREAMBLE + address + " \n" + TIMESTAMP_PREFIX + IntToString(timestamp) + " \nNonce: " + nonce;
    assert r[|CHALLENGE_PREAMBLE|..|CHALLENGE_PREAMBLE| + |address|] == address;
    r
  }

  /** The error strings of `verify_challenge_timestamp`. */
  datatype ChallengeError =
    | TimestampNotFound                  // "Timestamp not found in message"
    | InvalidTimestampFormat             // "Invalid timestamp format: …"
    | Expired(age: int, maxAge: int)     // "Challenge expired (age: …"
    | NotPossible                        // "not possible "

  /** Two's-complement wrap-around of the difference of two `i64` values, as
      a release build computes it. */
  function WrapI64(x: int): (r: i64)
    requires I64_MIN - I64_MAX <= x <= I64_MAX - I64_MIN
    ensures (r - x) % 0x1_0000_0000_0000_0000 == 0
    ensures I64_MIN <= x <= I64_MAX ==> r == x
  {
    if x > I64_MAX then x - 0x1_0000_0000_0000_0000
    else if x < I64_MIN then x + 0x1_0000_0000_0000_0000
    else x
  }

  /** The timestamp written after the first "Timestamp: " of the message: the
      text up to the next newline (or the end), trimmed, read as an `i64`. */
  function ChallengeTimestamp(message: string): (r: Result<i64, ChallengeError>)
    ensures r.Ok? ==> Contains(message, TIMESTAMP_PREFIX)
    ensures !Contains(message, TIMESTAMP_PREFIX) ==> r == Err(TimestampNotFound)
  {
    var start :- OkOr(IndexOf(message, TIMESTAMP_PREFIX), TimestampNotFound);
    var rest := message[start + |TIMESTAMP_PREFIX|..];
    var end := IndexOf(rest, "\n").GetOr(|rest|);
    var ts :- OkOr(ParseI64(RustTrim(rest[..end])), InvalidTimestampFormat);
    Ok(ts)
  }

  /** `verify_challenge_timestamp(message, max_age_seconds)`, with the clock
      reading as a parameter: the age is now minus the written timestamp, and
      is refused when above the maximum or below zero. */
  function VerifyChallengeTimestamp(message: string, maxAge: i64, now: i64): (r: Result<bool, ChallengeError>)
    ensures r != Ok(false)
    ensures r.Ok? <==>
      (ChallengeTimestamp(message).Ok? && 0 <= WrapI64(now - ChallengeTimestamp(message).value) <= maxAge)
    ensures ChallengeTimestamp(message).Err? ==> r == Err(ChallengeTimestamp(message).error)
  {
    var ts :- ChallengeTimestamp(message);
    var age := WrapI64(now - ts);
    if age > maxAge then Err(Expired(age, maxAge))
    else if age < 0 then Err(NotPossible)
    else Ok(true)
  }

  /** An overflowing age wraps to a negative number. */
  lemma WrapOverflowIsNegative(x: int)
    requires I64_MAX < x <= I64_MAX - I64_MIN
    ensures WrapI64(x) == x - 0x1_0000_0000_0000_0000 < 0
  {
  }

  /** With a clock that reads a non-negative time, the wrap-around of the age
      never lets a challenge through: an accepted challenge's timestamp is
      really at most `maxAge` seconds old and not in the future. */
  lemma AcceptedChallengeIsFresh(message: string, maxAge: i64, now: i64)
    requires now >= 0
    ensures VerifyChallengeTimestamp(message, maxAge, now).Ok? ==>
      0 <= now - ChallengeTimestamp(message).value <= maxAge
  {
    var t := ChallengeTimestamp(message);
    if t.Ok? && now - t.value > I64_MAX {
      WrapOverflowIsNegative(now - t.value);
    }
  }

  /** The preamble of a challenge holds no capital T, so no "Timestamp: "
      starts inside it. */
  lemma PreambleHasNoT()
    ensures forall k :: 0 <= k < |CHALLENGE_PREAMBLE| ==> CHALLENGE_PREAMBLE[k] != 'T'
  {
    assert 'T' !in "Sign this message to ";
    assert 'T' !in "authenticate with ";
    assert 'T' !in "Cardano Explorer:\n\nAddress: ";
  }

  /** Seven concatenated pieces: where the first four sit. */
  lemma LeadingFour<T>(a: seq<T>, b: seq<T>, c: seq<T>, d: seq<T>, e: seq<T>, f: seq<T>, g: seq<T>)
    ensures var s := a + b + c + d + e + f + g;
      var i := |a| + |b| + |c|;
      && s[..|a|] == a && s[|a|..|a| + |b|] == b && s[|a| + |b|..i] == c && s[i..i + |d|] == d
  {
    var s := a + b + c + d + e + f + g;
    assert s == a + b + c + d + (e + f + g);
  }

  /** A slice of a part of `m` is the same slice of `m`, shifted. */
  lemma SliceWithin<T>(m: seq<T>, pre: nat, a: seq<T>, i: nat, k: nat)
    requires pre + |a| <= |m| && m[pre..pre + |a|] == a && i + k <= |a|
    ensures m[pre + i..pre + i + k] == a[i..i + k]
  {
    var x, y := m[pre + i..pre + i + k], a[i..i + k];
    forall t | 0 <= t < k ensures x[t] == y[t] {
      assert y[t] == a[i + t] == m[pre..pre + |a|][i + t];
    }
    assert x == y;
  }

  /** In a text made of a part without a capital T, a part that holds no
      "Timestamp: ", a newline and a "Timestamp: ", the first "Timestamp: " is
      the one after the newline. */
  lemma FirstTimestampAt(m: string, pre: nat, a: string)
    requires pre + |a| < |m| && m[pre..pre + |a|] == a && m[pre + |a|] == '\n'
    requires forall j :: 0 <= j < pre ==> m[j] != 'T'
    requires !Contains(a, TIMESTAMP_PREFIX)
    requires OccursAt(m, TIMESTAMP_PREFIX, pre + |a| + 1)
    ensures IndexOf(m, TIMESTAMP_PREFIX) == Some(pre + |a| + 1)
  {
    var nl := pre + |a|;
    forall j | 0 <= j <= nl
      ensures !OccursAt(m, TIMESTAMP_PREFIX, j)
    {
      if j < pre || j == nl {
        NotOccursAtOtherHead(m, TIMESTAMP_PREFIX, j);
      } else if j + |TIMESTAMP_PREFIX| <= nl {
        var i := j - pre;
        assert !OccursAt(a, TIMESTAMP_PREFIX, i);
        SliceWithin(m, pre, a, i, |TIMESTAMP_PREFIX|);
      } else if j + |TIMESTAMP_PREFIX| <= |m| {
        assert m[j..j + |TIMESTAMP_PREFIX|][nl - j] == '\n';
        assert '\n' !in TIMESTAMP_PREFIX;
      }
    }
    IndexOfIs(m, TIMESTAMP_PREFIX, nl + 1);
  }

  /** The first "Timestamp: " of a challenge is the one the generator wrote,
      provided the address cannot start one (counting the space after it). */
  lemma ChallengeTimestampAt(address: string, timestamp: i64, nonce: string)
    requires !Contains(address + " ", TIMESTAMP_PREFIX)
    ensures IndexOf(GenerateChallenge(address, timestamp, nonce), TIMESTAMP_PREFIX)
      == Some(|CHALLENGE_PREAMBLE| + |address| + 2)
  {
    var m := GenerateChallenge(address, timestamp, nonce);
    var a := address + " ";
    var pre := |CHALLENGE_PREAMBLE|;
    var nl := pre + |a|;
    LeadingFour(CHALLENGE_PREAMBLE, address, " \n", TIMESTAMP_PREFIX, IntToString(timestamp), " \nNonce: ", nonce);
    assert m[pre..nl] == a by {
      assert m[pre..pre + |address|] == address && m[nl - 1] == ' ';
    }
    PreambleHasNoT();
    assert forall j :: 0 <= j < pre ==> m[j] != 'T' by {
      forall j | 0 <= j < pre ensures m[j] != 'T' {
        assert m[j] == m[..pre][j];
      }
    }
    FirstTimestampAt(m, pre, a);
  }

  /** The text after "Timestamp: " in a challenge: the number, then a
      space and the first newline. */
  lemma TimestampLine(timestamp: i64, nonce: string)
    ensures var rest := IntToString(timestamp) + " \nNonce: " + nonce;
      IndexOf(rest, "\n") == Some(|IntToString(timestamp)| + 1)
      && rest[..|IntToString(timestamp)| + 1] == IntToString(timestamp) + [' ']
  {
    var t := IntToString(timestamp);
    var rest := t + " \nNonce: " + nonce;
    var nl := |t| + 1;
    assert OccursAt(rest, "\n", nl);
    forall j | 0 <= j < nl
      ensures !OccursAt(rest, "\n", j)
    {
      assert rest[j] == if j < |t| then t[j] else ' ';
      NotOccursAtOtherHead(rest, "\n", j);
    }
    IndexOfIs(rest, "\n", nl);
    assert rest[..nl] == t + [' '];
  }

  /** Seven concatenated pieces, cut after the fourth. */
  lemma CutSeven<T>(a: seq<T>, b: seq<T>, c: seq<T>, d: seq<T>, e: seq<T>, f: seq<T>, g: seq<T>)
    ensures (a + b + c + d + e + f + g)[|a| + |b| + |c| + |d|..] == e + f + g
  {
    assert a + b + c + d + e + f + g == (a + b + c + d) + (e + f + g);
  }

  /** What follows the "Timestamp: " the generator wrote. */
  lemma AfterTimestampPrefix(address: string, timestamp: i64, nonce: string)
    ensures var m := GenerateChallenge(address, timestamp, nonce);
      m[|CHALLENGE_PREAMBLE| + |address| + 2 + |TIMESTAMP_PREFIX|..] == IntToString(timestamp) + " \nNonce: " + nonce
  {
    CutSeven(CHALLENGE_PREAMBLE, address, " \n", TIMESTAMP_PREFIX, IntToString(timestamp), " \nNonce: ", nonce);
  }

  /** A challenge reads back the timestamp it was generated with. */
  lemma ChallengeTimestampRoundTrip(address: string, timestamp: i64, nonce: string)
    requires !Contains(address + " ", TIMESTAMP_PREFIX)
    ensures ChallengeTimestamp(GenerateChallenge(address, timestamp, nonce)) == Ok(timestamp)
  {
    var t := IntToString(timestamp);
    ChallengeTimestampAt(address, timestamp, nonce);
    AfterTimestampPrefix(address, timestamp, nonce);
    TimestampLine(timestamp, nonce);
    TrimTrailing(t, ' ', IsRustWhitespace);
    IntToStringParses(timestamp);
  }

  /** The verdict on a message whose timestamp reads back as `timestamp`. */
  lemma VerdictForTimestamp(message: string, timestamp: i64, maxAge: i64, now: i64)
    requires ChallengeTimestamp(message) == Ok(timestamp)
    requires I64_MIN <= now - timestamp <= I64_MAX
    ensures VerifyChallengeTimestamp(message, maxAge, now)
      == if now - timestamp > maxAge then Err(Expired(now - timestamp, maxAge))
         else if now - timestamp < 0 then Err(NotPossible)
         else Ok(true)
  {
  }

  /** Generating a challenge and checking it later: accepted exactly when the
      time passed is between zero and the maximum age, and otherwise refused
      with the reason the source gives. */
  lemma ChallengeRoundTrip(address: string, timestamp: i64, nonce: string, maxAge: i64, now: i64)
    requires !Contains(address + " ", TIMESTAMP_PREFIX)
    requires I64_MIN <= now - timestamp <= I64_MAX
    ensures VerifyChallengeTimestamp(GenerateChallenge(address, timestamp, nonce), maxAge, now)
      == if now - timestamp > maxAge then Err(Expired(now - timestamp, maxAge))
         else if now - timestamp < 0 then Err(NotPossible)
         else Ok(true)
  {
    ChallengeTimestampRoundTrip(address, timestamp, nonce);
    VerdictForTimestamp(GenerateChallenge(address, timestamp, nonce), timestamp, maxAge, now);
  }
}
