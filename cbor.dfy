/** The hand-written CBOR reader and the two string-header encoders that
    `verify_sign` uses (src/auth/verification.rs). CBOR is the binary format of
    RFC 8949: every item starts with a header byte whose top three bits are the
    major type and whose low five bits ("additional information") give the
    length directly (0..23) or say how many big-endian bytes follow (24, 25,
    26 for 1, 2, 4 bytes; section 3 of RFC 8949).

    `ReadItem` is the specification of the reader; `ReadCborItem` is the
    reader as the source writes it, a recursive procedure with a cursor, and
    is proved to compute `ReadItem`. */
module Cbor {
  import opened Wrappers
  import opened Strings

  /** The reader's error strings, one constructor per message. */
  datatype CborError =
    | ReadPastEnd              // "read past end"
    | EofLen1                  // "EOF len1"
    | EofLen2                  // "EOF len2"
    | EofLen4                  // "EOF len4"
    | Unsupported64BitLength   // "64-bit lengths unsupported"
    | IndefiniteLength         // "indefinite lengths unsupported"
    | InvalidAdditionalInfo    // "invalid additional info"
    | BstrOutOfBounds          // "bstr OOB"
    | TstrOutOfBounds          // "tstr OOB"

  /** A decoded header: major type, the length argument, and how many bytes
      the header itself occupies (the initial byte included). */
  datatype Header = Header(major: nat, length: nat, size: nat)

  /** What the reader returns for one item: how many bytes it occupies in all,
      and its content when it is a byte string (or a tag around one). */
  datatype Item = Item(size: nat, bstr: Option<seq<byte>>)

  /** The top three bits of a header byte (`b >> 5`), by comparisons. */
  function MajorType(b: byte): (m: nat)
    ensures m < 8
  {
    if b < 128 then
      if b < 64 then (if b < 32 then 0 else 1) else (if b < 96 then 2 else 3)
    else
      if b < 192 then (if b < 160 then 4 else 5) else (if b < 224 then 6 else 7)
  }

  /** The low five bits of a header byte (`b & 0x1f`). */
  function AdditionalInfo(b: byte): (ai: nat)
    ensures ai < 32
  {
    b - 32 * MajorType(b)
  }

  /** Unsigned big-endian value of a byte run: the reference reading of
      section 3 of RFC 8949. */
  function BigEndian(bs: seq<byte>): nat {
    if |bs| == 0 then 0 else BigEndian(bs[..|bs| - 1]) * 256 + bs[|bs| - 1]
  }

  /** `read_u16_be`, written with shifts in the source. */
  function ReadU16(b: seq<byte>, idx: nat): (v: nat)
    requires idx + 2 <= |b|
    ensures v < 0x1_0000
  {
    (b[idx] as int) * 256 + (b[idx + 1] as int)
  }

  /** `read_u32_be`. */
  function ReadU32(b: seq<byte>, idx: nat): (v: nat)
    requires idx + 4 <= |b|
    ensures v < 0x1_0000_0000
  {
    (b[idx] as int) * 0x100_0000 + (b[idx + 1] as int) * 0x1_0000 + (b[idx + 2] as int) * 0x100 + (b[idx + 3] as int)
  }

  /** The shifts of `read_u16_be` and `read_u32_be` compute the big-endian
      value of the bytes they read. */
  lemma ReadUIsBigEndian(b: seq<byte>, idx: nat)
    ensures idx + 2 <= |b| ==> ReadU16(b, idx) == BigEndian(b[idx..idx + 2])
    ensures idx + 4 <= |b| ==> ReadU32(b, idx) == BigEndian(b[idx..idx + 4])
  {
    if idx + 2 <= |b| {
      assert b[idx..idx + 2][..1] == [b[idx]];
      assert BigEndian([b[idx]]) == b[idx];
    }
    if idx + 4 <= |b| {
      assert b[idx..idx + 4][..3] == b[idx..idx + 3];
      assert b[idx..idx + 3][..2] == b[idx..idx + 2];
      assert BigEndian(b[idx..idx + 3]) == (b[idx] as int) * 0x1_0000 + (b[idx + 1] as int) * 256 + b[idx + 2];
    }
  }

  /** The header part of `read_cbor_item`; `HeaderRule` states what it
      reads. */
  function ReadHeader(bytes: seq<byte>, start: nat): (r: Result<Header, CborError>)
    requires start < |bytes|
    ensures r.Ok? ==> r.value.major == MajorType(bytes[start])
    ensures r.Ok? ==> 1 <= r.value.size && start + r.value.size <= |bytes|
  {
    var hdr := bytes[start];
    var major := MajorType(hdr);
    var ai := AdditionalInfo(hdr);
    var idx := start + 1;
    if ai <= 23 then Ok(Header(major, ai, 1))
    else if ai == 24 then
      if idx >= |bytes| then Err(EofLen1)
      else Ok(Header(major, bytes[idx], 2))
    else if ai == 25 then
      if idx + 1 >= |bytes| then Err(EofLen2) else Ok(Header(major, ReadU16(bytes, idx), 3))
    else if ai == 26 then
      if idx + 3 >= |bytes| then Err(EofLen4) else Ok(Header(major, ReadU32(bytes, idx), 5))
    else if ai == 27 then Err(Unsupported64BitLength)
    else if ai == 31 then Err(IndefiniteLength)
    else Err(InvalidAdditionalInfo)
  }

  /** The length rule of section 3 of RFC 8949 as the reader applies it:
      additional information 0..23 is the length itself; 24, 25 and 26 read
      1, 2 and 4 big-endian bytes when they are there; 27 (64-bit lengths),
      31 (indefinite lengths) and 28..30 (reserved) are errors. */
  lemma HeaderRule(bytes: seq<byte>, start: nat)
    requires start < |bytes|
    ensures var r := ReadHeader(bytes, start);
      && (AdditionalInfo(bytes[start]) < 24 ==>
            r == Ok(Header(MajorType(bytes[start]), AdditionalInfo(bytes[start]), 1)))
      && (var w := WidthOf(AdditionalInfo(bytes[start]));
          24 <= AdditionalInfo(bytes[start]) <= 26 ==>
            if start + 1 + w <= |bytes|
            then r == Ok(Header(MajorType(bytes[start]), BigEndian(bytes[start + 1..start + 1 + w]), 1 + w))
            else r.Err?)
      && (AdditionalInfo(bytes[start]) == 27 ==> r == Err(Unsupported64BitLength))
      && (AdditionalInfo(bytes[start]) == 31 ==> r == Err(IndefiniteLength))
      && (28 <= AdditionalInfo(bytes[start]) <= 30 ==> r == Err(InvalidAdditionalInfo))
  {
    var idx := start + 1;
    if AdditionalInfo(bytes[start]) == 24 && idx < |bytes| {
      assert bytes[idx..idx + 1][..0] == [];
    }
    ReadUIsBigEndian(bytes, idx);
  }

  /** How many length bytes follow additional information 24, 25 and 26. */
  function WidthOf(ai: nat): nat {
    if ai == 24 then 1 else if ai == 25 then 2 else 4
  }

  /** `read_cbor_item(bytes, start)`: reads one complete item, a header and
      then what `ItemBody` says follows it. */
  function ReadItem(bytes: seq<byte>, start: nat): (r: Result<Item, CborError>)
    ensures r.Ok? ==> 1 <= r.value.size && start + r.value.size <= |bytes|
    decreases |bytes| - start, 1
  {
    if start >= |bytes| then Err(ReadPastEnd)
    else
      match ReadHeader(bytes, start)
      case Err(e) => Err(e)
      case Ok(h) => ItemBody(bytes, start, h)
  }

  /** What follows a header `h` read at `start`. Byte strings and text
      strings are checked against the end of the input, arrays read `length`
      items and maps `2 * length` items (a key and a value each), a tag reads
      one inner item and passes its content through, and major types 0, 1
      and 7 are the header alone. The source's "unsupported major type" arm
      cannot be reached: a header byte has only eight major types, and all
      eight are handled. */
  function ItemBody(bytes: seq<byte>, start: nat, h: Header): (r: Result<Item, CborError>)
    requires 1 <= h.size && start + h.size <= |bytes|
    ensures r.Ok? ==> 1 <= r.value.size && start + r.value.size <= |bytes|
    decreases |bytes| - start, 0
  {
    var idx := start + h.size;
    if h.major == 2 then
      if idx + h.length > |bytes| then Err(BstrOutOfBounds)
      else Ok(Item(h.size + h.length, Some(bytes[idx..idx + h.length])))
    else if h.major == 3 then
      if idx + h.length > |bytes| then Err(TstrOutOfBounds)
      else Ok(Item(h.size + h.length, None))
    else if h.major == 4 then
      match ReadItems(bytes, idx, h.length)
      case Err(e) => Err(e)
      case Ok(cur) => Ok(Item(cur - start, None))
    else if h.major == 5 then
      match ReadItems(bytes, idx, 2 * h.length)
      case Err(e) => Err(e)
      case Ok(cur) => Ok(Item(cur - start, None))
    else if h.major == 6 then
      match ReadItem(bytes, idx)
      case Err(e) => Err(e)
      case Ok(inner) => Ok(Item(h.size + inner.size, inner.bstr))
    else
      Ok(Item(h.size, None))
  }

  /** `ReadItem` under a name that proofs about fixed buffers can cite
      without unfolding the decoder. */
  function ReadAt(bytes: seq<byte>, at: nat): Result<Item, CborError> {
    ReadItem(bytes, at)
  }

  /** Reads `n` consecutive items starting at `cur` and returns the cursor
      after the last one. */
  function ReadItems(bytes: seq<byte>, cur: nat, n: nat): (r: Result<nat, CborError>)
    requires cur <= |bytes|
    ensures r.Ok? ==> cur <= r.value <= |bytes|
    ensures r.Ok? && n > 0 ==> cur < r.value
    decreases |bytes| - cur, 2, n
  {
    if n == 0 then Ok(cur)
    else
      match ReadItem(bytes, cur)
      case Err(e) => Err(e)
      case Ok(item) => ReadItems(bytes, cur + item.size, n - 1)
  }

  /** Reading `a + b` items is reading `a` items and then `b` more. */
  lemma {:induction false} ReadItemsSplit(bytes: seq<byte>, cur: nat, a: nat, b: nat)
    requires cur <= |bytes|
    ensures ReadItems(bytes, cur, a + b) ==
      match ReadItems(bytes, cur, a)
      case Err(e) => Err(e)
      case Ok(mid) => ReadItems(bytes, mid, b)
    decreases a
  {
    if a > 0 {
      match ReadItem(bytes, cur)
      case Err(e) =>
      case Ok(item) =>
        ReadItemsSplit(bytes, cur + item.size, a - 1, b);
    }
  }

  /** Bytes appended after a successfully read item do not change it. */
  lemma ReadItemExtend(x: seq<byte>, post: seq<byte>, i: nat)
    requires ReadItem(x, i).Ok?
    ensures ReadItem(x + post, i) == ReadItem(x, i)
  {
    ReadItemLocal([], x, post, i);
    assert [] + x + post == x + post;
  }

  /** Bytes prepended before a successfully read item only shift it. */
  lemma ReadItemShift(pre: seq<byte>, x: seq<byte>, i: nat)
    requires ReadItem(x, i).Ok?
    ensures ReadItem(pre + x, |pre| + i) == ReadItem(x, i)
  {
    ReadItemLocal(pre, x, [], i);
    assert pre + x + [] == pre + x;
  }

  /** The header part of `read_cbor_item` as the source writes it, with a
      cursor that moves past the length bytes. */
  method ReadItemHeader(bytes: seq<byte>, start: nat) returns (r: Result<Header, CborError>)
    requires start < |bytes|
    ensures r == ReadHeader(bytes, start)
  {
    var hdr := bytes[start];
    var major := hdr / 32;
    var ai := hdr % 32;
    var idx := start + 1;
    var length: nat;
    if ai <= 23 {
      length := ai;
    } else if ai == 24 {
      if idx >= |bytes| { return Err(EofLen1); }
      length := bytes[idx];
      idx := idx + 1;
    } else if ai == 25 {
      if idx + 1 >= |bytes| { return Err(EofLen2); }
      length := ReadU16(bytes, idx);
      idx := idx + 2;
    } else if ai == 26 {
      if idx + 3 >= |bytes| { return Err(EofLen4); }
      length := ReadU32(bytes, idx);
      idx := idx + 4;
    } else if ai == 27 {
      return Err(Unsupported64BitLength);
    } else if ai == 31 {
      return Err(IndefiniteLength);
    } else {
      return Err(InvalidAdditionalInfo);
    }
    r := Ok(Header(major, length, idx - start));
  }

  // ---------------------------------------------------------------------------
  // Locality: an item that reads successfully reads the same inside any
  // longer input.
  // ---------------------------------------------------------------------------

  lemma HeaderLocal(pre: seq<byte>, x: seq<byte>, post: seq<byte>, i: nat)
    requires i < |x| && ReadHeader(x, i).Ok?
    ensures ReadHeader(pre + x + post, |pre| + i) == ReadHeader(x, i)
  {
    var b := pre + x + post;
    forall k | 0 <= k < |x|
      ensures b[|pre| + k] == x[k]
    {
    }
    var w := ReadHeader(x, i).value.size;
    assert b[|pre| + i..|pre| + i + w] == x[i..i + w];
  }

  /** Reading at offset `i` of `x` and at the same byte inside
      `pre + x + post` agree whenever the former succeeds. */
  lemma {:induction false} ReadItemLocal(pre: seq<byte>, x: seq<byte>, post: seq<byte>, i: nat)
    requires ReadItem(x, i).Ok?
    ensures ReadItem(pre + x + post, |pre| + i) == ReadItem(x, i)
    decreases |x| - i, 1
  {
    HeaderLocal(pre, x, post, i);
    ItemBodyLocal(pre, x, post, i, ReadHeader(x, i).value);
  }

  lemma {:induction false} ItemBodyLocal(pre: seq<byte>, x: seq<byte>, post: seq<byte>, i: nat, h: Header)
    requires 1 <= h.size && i + h.size <= |x| && ItemBody(x, i, h).Ok?
    ensures ItemBody(pre + x + post, |pre| + i, h) == ItemBody(x, i, h)
    decreases |x| - i, 0
  {
    var b := pre + x + post;
    var idx := i + h.size;
    if h.major == 2 {
      assert b[|pre| + idx..|pre| + idx + h.length] == x[idx..idx + h.length];
    } else if h.major == 4 {
      ReadItemsLocal(pre, x, post, idx, h.length);
    } else if h.major == 5 {
      ReadItemsLocal(pre, x, post, idx, 2 * h.length);
    } else if h.major == 6 {
      ReadItemLocal(pre, x, post, idx);
    }
  }

  lemma {:induction false} ReadItemsLocal(pre: seq<byte>, x: seq<byte>, post: seq<byte>, cur: nat, n: nat)
    requires cur <= |x| && ReadItems(x, cur, n).Ok?
    ensures ReadItems(pre + x + post, |pre| + cur, n) == Ok(|pre| + ReadItems(x, cur, n).value)
    decreases |x| - cur, 2, n
  {
    if n > 0 {
      ReadItemLocal(pre, x, post, cur);
      ReadItemsLocal(pre, x, post, cur + ReadItem(x, cur).value.size, n - 1);
    }
  }

  /** The reader as the source writes it: a header, then a loop over the
      elements of an array or a map that recurses for every element. */
  method ReadCborItem(bytes: seq<byte>, start: nat) returns (r: Result<Item, CborError>)
    ensures r == ReadItem(bytes, start)
    decreases |bytes| - start, 0
  {
    if start >= |bytes| {
      return Err(ReadPastEnd);
    }
    var h :- ReadItemHeader(bytes, start);
    var idx := start + h.size;
    if h.major == 2 {
      if idx + h.length > |bytes| { return Err(BstrOutOfBounds); }
      r := Ok(Item(h.size + h.length, Some(bytes[idx..idx + h.length])));
    } else if h.major == 3 {
      if idx + h.length > |bytes| { return Err(TstrOutOfBounds); }
      r := Ok(Item(h.size + h.length, None));
    } else if h.major == 4 {
      var cur :- ReadArrayElements(bytes, idx, h.length);
      r := Ok(Item(cur - start, None));
    } else if h.major == 5 {
      var cur :- ReadMapEntries(bytes, idx, h.length);
      r := Ok(Item(cur - start, None));
    } else if h.major == 6 {
      var inner :- ReadCborItem(bytes, idx);
      r := Ok(Item(h.size + inner.size, inner.bstr));
    } else {
      r := Ok(Item(h.size, None));
    }
  }

  /** The array loop: one item per round, the cursor advancing by its size. */
  method ReadArrayElements(bytes: seq<byte>, idx: nat, length: nat) returns (r: Result<nat, CborError>)
    requires idx <= |bytes|
    ensures r == ReadItems(bytes, idx, length)
    decreases |bytes| - idx, 1
  {
    var cur := idx;
    for i := 0 to length
      invariant idx <= cur <= |bytes|
      invariant ReadItems(bytes, idx, length) == ReadItems(bytes, cur, length - i)
    {
      var item :- ReadCborItem(bytes, cur);
      cur := cur + item.size;
    }
    r := Ok(cur);
  }

  /** The map loop: a key and then a value per round. */
  method ReadMapEntries(bytes: seq<byte>, idx: nat, length: nat) returns (r: Result<nat, CborError>)
    requires idx <= |bytes|
    ensures r == ReadItems(bytes, idx, 2 * length)
    decreases |bytes| - idx, 1
  {
    var cur := idx;
    for i := 0 to length
      invariant idx <= cur <= |bytes|
      invariant ReadItems(bytes, idx, 2 * length) == ReadItems(bytes, cur, 2 * (length - i))
    {
      ReadItemsSplit(bytes, cur, 1, 2 * (length - i) - 1);
      var key :- ReadCborItem(bytes, cur);
      cur := cur + key.size;
      var value :- ReadCborItem(bytes, cur);
      cur := cur + value.size;
    }
    r := Ok(cur);
  }

  // ---------------------------------------------------------------------------
  // Encoders
  // ---------------------------------------------------------------------------

  /** The bytes `push_cbor_bstr_prefix(out, len)` appends: a byte-string
      header. Lengths above 0xFFFF take the same two-byte form as lengths up
      to 0xFFFF, so only the low 16 bits of the length survive. */
  function BstrPrefix(len: nat): (r: seq<byte>)
    ensures 1 <= |r| <= 3
  {
    if len <= 23 then [0x40 + len]
    else if len <= 0xFF then [0x58, len]
    else [0x59, (len / 256) % 256, len % 256]
  }

  /** The header `cbor_encode_text` writes before the UTF-8 bytes, with the
      same two-byte form above 0xFFFF. */
  function TextPrefix(len: nat): (r: seq<byte>)
    ensures 1 <= |r| <= 3
  {
    if len <= 23 then [0x60 + len]
    else if len <= 0xFF then [0x78, len]
    else [0x79, (len / 256) % 256, len % 256]
  }

  /** `cbor_encode_text(s)`: a CBOR text string holding the UTF-8 bytes of `s`. */
  function CborEncodeText(s: string): (r: seq<byte>)
    ensures |r| == |TextPrefix(|Utf8(s)|)| + |Utf8(s)|
    ensures r[|r| - |Utf8(s)|..] == Utf8(s)
  {
    TextPrefix(|Utf8(s)|) + Utf8(s)
  }

  /** A header written with major type `major` (the top bits of `first`) for
      a length up to 0xFFFF reads back as that length. */
  lemma HeaderRoundTrip(bytes: seq<byte>, at: nat, hdr: seq<byte>, len: nat, major: nat)
    requires len <= 0xFFFF && major < 8
    requires hdr == (if len <= 23 then [major * 32 + len]
                     else if len <= 0xFF then [major * 32 + 24, len]
                     else [major * 32 + 25, (len / 256) % 256, len % 256])
    requires at + |hdr| <= |bytes| && bytes[at..at + |hdr|] == hdr
    ensures ReadHeader(bytes, at) == Ok(Header(major, len, |hdr|))
  {
    assert bytes[at] == hdr[0];
    if len <= 23 {
      HeaderByte(major, len);
    } else if len <= 0xFF {
      HeaderByte(major, 24);
      assert bytes[at + 1] == hdr[1];
    } else {
      HeaderByte(major, 25);
      assert bytes[at + 1] == hdr[1] && bytes[at + 2] == hdr[2];
      assert ((len / 256) % 256) * 256 + len % 256 == len;
    }
  }

  /** The header byte written for a major type and additional information
      splits back into the two. */
  lemma HeaderByte(major: nat, ai: nat)
    requires major < 8 && ai < 32
    ensures MajorType(major * 32 + ai) == major && AdditionalInfo(major * 32 + ai) == ai
  {
  }

  /** A byte-string header followed by enough bytes reads as that run. */
  lemma ReadBstrAt(bytes: seq<byte>, at: nat, h: Header)
    requires at < |bytes| && ReadHeader(bytes, at) == Ok(h) && h.major == 2
    requires at + h.size + h.length <= |bytes|
    ensures ReadItem(bytes, at) == Ok(Item(h.size + h.length, Some(bytes[at + h.size..at + h.size + h.length])))
  {
  }

  /** For every length up to 0xFFFF, reading `BstrPrefix(|data|) + data`
      returns exactly `data` and consumes the header and the data. */
  lemma BstrRoundTrip(data: seq<byte>)
    requires |data| <= 0xFFFF
    ensures ReadItem(BstrPrefix(|data|) + data, 0) == Ok(Item(|BstrPrefix(|data|)| + |data|, Some(data)))
  {
    var hdr := BstrPrefix(|data|);
    var bytes := hdr + data;
    assert bytes[..|hdr|] == hdr;
    assert bytes[|hdr|..|hdr| + |data|] == data;
    HeaderRoundTrip(bytes, 0, hdr, |data|, 2);
    ReadBstrAt(bytes, 0, Header(2, |data|, |hdr|));
  }

  /** For every text of up to 0xFFFF UTF-8 bytes, its encoding reads back as
      a text item (no byte-string content) that consumes all of it. */
  lemma TextRoundTrip(s: string)
    requires |Utf8(s)| <= 0xFFFF
    ensures ReadItem(CborEncodeText(s), 0) == Ok(Item(|CborEncodeText(s)|, None))
  {
    var hdr := TextPrefix(|Utf8(s)|);
    var bytes := CborEncodeText(s);
    assert bytes[..|hdr|] == hdr;
    HeaderRoundTrip(bytes, 0, hdr, |Utf8(s)|, 3);
  }

  /** `BstrRoundTrip` for an encoding written between two other byte runs. */
  lemma BstrBetween(pre: seq<byte>, data: seq<byte>, post: seq<byte>)
    requires |data| <= 0xFFFF
    ensures ReadItem(pre + (BstrPrefix(|data|) + data) + post, |pre|)
      == Ok(Item(|BstrPrefix(|data|)| + |data|, Some(data)))
  {
    BstrRoundTrip(data);
    ReadItemLocal(pre, BstrPrefix(|data|) + data, post, 0);
  }

  /** `BstrBetween` with the buffer and the offset named. */
  lemma BstrAt(b: seq<byte>, at: nat, pre: seq<byte>, data: seq<byte>, post: seq<byte>)
    requires |data| <= 0xFFFF && b == pre + (BstrPrefix(|data|) + data) + post && at == |pre|
    ensures ReadItem(b, at) == Ok(Item(|BstrPrefix(|data|)| + |data|, Some(data)))
  {
    BstrBetween(pre, data, post);
  }

  /** `TextRoundTrip` for an encoding written between two other byte runs. */
  lemma TextBetween(pre: seq<byte>, s: string, post: seq<byte>)
    requires |Utf8(s)| <= 0xFFFF
    ensures ReadItem(pre + CborEncodeText(s) + post, |pre|) == Ok(Item(|CborEncodeText(s)|, None))
  {
    TextRoundTrip(s);
    ReadItemLocal(pre, CborEncodeText(s), post, 0);
  }

  /** Above 0xFFFF the byte-string header keeps only the low 16 bits of the
      length: a 65536-byte string reads back as an empty one. */
  lemma BstrPrefixTruncates(data: seq<byte>)
    requires |data| == 0x1_0000
    ensures BstrPrefix(|data|) == [0x59, 0, 0]
    ensures ReadItem(BstrPrefix(|data|) + data, 0) == Ok(Item(3, Some([])))
  {
    assert (0x1_0000 / 256) % 256 == 0 && 0x1_0000 % 256 == 0;
    var bytes := BstrPrefix(|data|) + data;
    assert bytes[1..3] == [0, 0];
    assert bytes[1..3][..1] == [0];
    assert ReadHeader(bytes, 0) == Ok(Header(2, 0, 3));
    ReadBstrAt(bytes, 0, Header(2, 0, 3));
    assert bytes[3..3] == [];
  }
}
