/** The wire form of one record and the AEAD call that protects it. */
module Record {
  import opened Wrappers
  import opened Bytes
  import opened Gcm
  import opened Profile

  const VERSION: byte := 1
  const HEADER_LEN := 16
  const MAX_PLAINTEXT := 0x4000
  const AAD_LEN := 2 + 24 + 2 * HASH_LEN + 1 + HEADER_LEN
  const U64 := 0x1_0000_0000_0000_0000

  type EncodedHeader = s: seq<byte> | |s| == HEADER_LEN witness seq(HEADER_LEN, _ => 0)

  datatype RecordType = Data | Commit | RefreshRequired | Close

  function TypeByte(t: RecordType): byte {
    match t
    case Data => 0x00
    case Commit => 0x80
    case RefreshRequired => 0x81
    case Close => 0x82
  }

  function TypeFromByte(value: byte): Option<RecordType> {
    match value
    case 0x00 => Some(Data)
    case 0x80 => Some(Commit)
    case 0x81 => Some(RefreshRequired)
    case 0x82 => Some(Close)
    case _ => None
  }

  datatype Header = Header(
    recordType: RecordType, channel: Channel, sequence: nat, plaintextLen: nat, encoded: EncodedHeader)

  /** The fields of a header, laid out at offsets 0, 1, 2, 4 and 12. */
  function Encode(t: RecordType, c: Channel, sequence: nat, plaintextLen: nat): EncodedHeader {
    [VERSION] + ([TypeByte(t)]
      + (BigEndian(ChannelId(c), 2) + (BigEndian(sequence, 8) + BigEndian(plaintextLen, 4))))
  }

  /** A header as `NewHeader` builds it: 64-bit sequence, bounded length, canonical bytes. */
  ghost predicate Canonical(h: Header) {
    && h.sequence < U64
    && h.plaintextLen <= MAX_PLAINTEXT
    && h.encoded == Encode(h.recordType, h.channel, h.sequence, h.plaintextLen)
  }

  /** Fills a header buffer field by field. */
  method FillHeader(t: RecordType, c: Channel, sequence: nat, plaintextLen: nat) returns (encoded: array<byte>)
    ensures fresh(encoded) && encoded[..] == Encode(t, c, sequence, plaintextLen)
  {
    encoded := new byte[HEADER_LEN](_ => 0);
    encoded[0] := VERSION;
    encoded[1] := TypeByte(t);
    assert encoded[..2] == [VERSION] + [TypeByte(t)];
    CopyInto(encoded, 2, BigEndian(ChannelId(c), 2));
    assert encoded[..4] == encoded[..2] + encoded[2..4];
    CopyInto(encoded, 4, BigEndian(sequence, 8));
    assert encoded[..12] == encoded[..4] + encoded[4..12];
    CopyInto(encoded, 12, BigEndian(plaintextLen, 4));
    assert encoded[..] == encoded[..12] + encoded[12..16];
    EncodedFlat(t, c, sequence, plaintextLen);
  }

  /** A header for the given fields, unless the plaintext is too long. */
  method NewHeader(t: RecordType, c: Channel, sequence: nat, plaintextLen: nat) returns (r: Result<Header>)
    requires sequence < U64
    ensures r == HeaderFor(t, c, sequence, plaintextLen)
    ensures r.Ok? <==> plaintextLen <= 16384
    ensures r.Err? ==> r.error == PlaintextTooLarge
    ensures r.Ok? ==>
              && r.value.encoded[..4] == [1, TypeCode(t), ChannelId(c) / 256, ChannelId(c) % 256]
              && Value(r.value.encoded[4..12]) == sequence && Value(r.value.encoded[12..]) == plaintextLen
  {
    if plaintextLen > MAX_PLAINTEXT {
      return Err(PlaintextTooLarge);
    }
    var encoded := FillHeader(t, c, sequence, plaintextLen);
    HeaderReads(t, c, sequence, plaintextLen);
    r := Ok(Header(t, c, sequence, plaintextLen, encoded[..]));
  }

  lemma EncodedFlat(t: RecordType, c: Channel, sequence: nat, plaintextLen: nat)
    ensures Encode(t, c, sequence, plaintextLen) ==
              [VERSION] + [TypeByte(t)] + BigEndian(ChannelId(c), 2)
              + BigEndian(sequence, 8) + BigEndian(plaintextLen, 4)
  {
  }

  /** The type bytes of the wire format. */
  function TypeCode(t: RecordType): byte {
    if t.Data? then 0 else if t.Commit? then 128 else if t.RefreshRequired? then 129 else 130
  }

  lemma HeaderReads(t: RecordType, c: Channel, sequence: nat, plaintextLen: nat)
    requires sequence < U64 && plaintextLen <= MAX_PLAINTEXT
    ensures var e := Encode(t, c, sequence, plaintextLen);
            && e[..4] == [1, TypeCode(t), ChannelId(c) / 256, ChannelId(c) % 256]
            && Value(e[4..12]) == sequence && Value(e[12..]) == plaintextLen
  {
    var e := Encode(t, c, sequence, plaintextLen);
    EncodeFields(t, c, sequence, plaintextLen);
    Widths();
    TwoBytes(ChannelId(c));
    ValueOfBigEndian(sequence, 8);
    ValueOfBigEndian(plaintextLen, 4);
    assert e[..4] == [e[0], e[1]] + e[2..4];
    assert e[12..] == e[12..16];
  }

  function HeaderFor(t: RecordType, c: Channel, sequence: nat, plaintextLen: nat): Result<Header> {
    if plaintextLen > MAX_PLAINTEXT then Err(PlaintextTooLarge)
    else Ok(Header(t, c, sequence, plaintextLen, Encode(t, c, sequence, plaintextLen)))
  }

  /** Overwrites `a[at..]` with `part`, leaving the rest alone. */
  method CopyInto(a: array<byte>, at: nat, part: seq<byte>)
    requires at + |part| <= a.Length
    modifies a
    ensures a[..at] == old(a[..at])
    ensures a[at..at + |part|] == part
    ensures a[at + |part|..] == old(a[at + |part|..])
  {
    for i := 0 to |part|
      invariant a[..at] == old(a[..at])
      invariant a[at..at + i] == part[..i]
      invariant a[at + |part|..] == old(a[at + |part|..])
    {
      a[at + i] := part[i];
      assert a[at..at + i + 1] == a[at..at + i] + [part[i]];
    }
  }

  function Decode(encoded: EncodedHeader): Result<Header> {
    var recordType := TypeFromByte(encoded[1]);
    var channel := ChannelFromId(Value(encoded[2..4]));
    var plaintextLen := Value(encoded[12..16]);
    if encoded[0] != VERSION || recordType.None? || channel.None? || plaintextLen > MAX_PLAINTEXT then
      Err(InvalidRecord)
    else
      Ok(Header(recordType.value, channel.value, Value(encoded[4..12]), plaintextLen, encoded))
  }

  function ExpectedWireLen(h: Header): nat {
    HEADER_LEN + h.plaintextLen + TAG_LEN
  }

  datatype Parsed = Parsed(header: Header, ciphertext: seq<byte>, tag: Tag)

  /** Splits one complete record into header, ciphertext and tag. */
  function Parse(input: seq<byte>): Result<Parsed> {
    if |input| < HEADER_LEN + TAG_LEN then Err(InvalidRecord)
    else
      match Decode(input[..HEADER_LEN])
      case Err(error) => Err(error)
      case Ok(header) =>
        if |input| != ExpectedWireLen(header) then Err(InvalidRecord)
        else
          Ok(Parsed(header, input[HEADER_LEN..HEADER_LEN + header.plaintextLen],
                    input[HEADER_LEN + header.plaintextLen..]))
  }

  function Wire(encoded: EncodedHeader, ciphertext: seq<byte>, tag: Tag): seq<byte> {
    encoded + ciphertext + tag
  }

  lemma EncodeFields(t: RecordType, c: Channel, sequence: nat, plaintextLen: nat)
    ensures var e := Encode(t, c, sequence, plaintextLen);
            && e[0] == VERSION && e[1] == TypeByte(t)
            && e[2..4] == BigEndian(ChannelId(c), 2)
            && e[4..12] == BigEndian(sequence, 8)
            && e[12..16] == BigEndian(plaintextLen, 4)
  {
  }

  /** Decoding reads back the fields it is given at their offsets. */
  lemma DecodeFields(e: EncodedHeader, t: RecordType, c: Channel, sequence: nat, plaintextLen: nat)
    requires e[0] == VERSION && e[1] == TypeByte(t) && Value(e[2..4]) == ChannelId(c)
    requires Value(e[4..12]) == sequence && Value(e[12..16]) == plaintextLen <= MAX_PLAINTEXT
    ensures Decode(e) == Ok(Header(t, c, sequence, plaintextLen, e))
  {
    ChannelIdRoundTrip(c);
  }

  /** Decoding inverts encoding. */
  lemma DecodeEncode(t: RecordType, c: Channel, sequence: nat, plaintextLen: nat)
    requires sequence < U64 && plaintextLen <= MAX_PLAINTEXT
    ensures Decode(Encode(t, c, sequence, plaintextLen)) == HeaderFor(t, c, sequence, plaintextLen)
  {
    EncodeFields(t, c, sequence, plaintextLen);
    Widths();
    ValueOfBigEndian(ChannelId(c), 2);
    ValueOfBigEndian(sequence, 8);
    ValueOfBigEndian(plaintextLen, 4);
    DecodeFields(Encode(t, c, sequence, plaintextLen), t, c, sequence, plaintextLen);
  }

  /** Every header that decodes is canonical, so encoding inverts decoding. */
  lemma DecodedIsCanonical(encoded: EncodedHeader)
    requires Decode(encoded).Ok?
    ensures Canonical(Decode(encoded).value) && Decode(encoded).value.encoded == encoded
  {
    var h := Decode(encoded).value;
    Widths();
    BigEndianOfValue(encoded[2..4]);
    BigEndianOfValue(encoded[4..12]);
    BigEndianOfValue(encoded[12..16]);
    ChannelIdCanonical(Value(encoded[2..4]));
    assert encoded == [encoded[0]] + ([encoded[1]] + (encoded[2..4] + (encoded[4..12] + encoded[12..16])));
  }

  /** Two canonical headers with the same bytes have the same fields. */
  lemma EncodeInjective(h: Header, h': Header)
    requires Canonical(h) && Canonical(h') && h.encoded == h'.encoded
    ensures h == h'
  {
    DecodeEncode(h.recordType, h.channel, h.sequence, h.plaintextLen);
    DecodeEncode(h'.recordType, h'.channel, h'.sequence, h'.plaintextLen);
  }

  /** Parsing a printed record gives back exactly its parts. */
  lemma ParseOfWire(h: Header, ciphertext: seq<byte>, tag: Tag)
    requires Canonical(h) && |ciphertext| == h.plaintextLen
    ensures Parse(Wire(h.encoded, ciphertext, tag)) == Ok(Parsed(h, ciphertext, tag))
  {
    var wire := Wire(h.encoded, ciphertext, tag);
    assert wire[..HEADER_LEN] == h.encoded;
    DecodeEncode(h.recordType, h.channel, h.sequence, h.plaintextLen);
    assert wire[HEADER_LEN..HEADER_LEN + h.plaintextLen] == ciphertext;
    assert wire[HEADER_LEN + h.plaintextLen..] == tag;
  }

  /** Every accepted byte string is the one printed form of its parsed parts. */
  lemma ParsedIsCanonical(input: seq<byte>)
    requires Parse(input).Ok?
    ensures var p := Parse(input).value;
            && Canonical(p.header)
            && |p.ciphertext| == p.header.plaintextLen
            && input == Wire(p.header.encoded, p.ciphertext, p.tag)
  {
    DecodedIsCanonical(input[..HEADER_LEN]);
    var p := Parse(input).value;
    assert input == input[..HEADER_LEN] + p.ciphertext + p.tag;
  }

  /** The type and the channel of a parsed record are those its bytes name. */
  lemma ParsedFields(input: seq<byte>)
    requires Parse(input).Ok?
    ensures var h := Parse(input).value.header;
            && |input| >= 32 && TypeCode(h.recordType) == input[1]
            && ChannelFromId(Value(input[2..4])) == Some(h.channel)
  {
    assert input[..HEADER_LEN][2..4] == input[2..4];
  }

  // ---------- nonce and additional data

  function SuiteLength(): (s: seq<byte>)
    ensures |s| == 2
  {
    BigEndian(|SUITE|, 2)
  }

  function Aad(m: Hash, h: Hash, d: Direction, header: EncodedHeader): (s: seq<byte>)
    ensures |s| == AAD_LEN
  {
    SuiteLength() + (SUITE + (m + (h + ([DirectionByte(d)] + header))))
  }

  /** The additional data determines both hashes, the direction and the header. */
  lemma AadInjective(m: Hash, h: Hash, d: Direction, e: EncodedHeader, m': Hash, h': Hash, d': Direction,
                     e': EncodedHeader)
    requires Aad(m, h, d, e) == Aad(m', h', d', e')
    ensures m == m' && h == h' && d == d' && e == e'
  {
    var x, x' := [DirectionByte(d)] + e, [DirectionByte(d')] + e';
    EqualParts(SuiteLength(), SUITE + (m + (h + x)), SuiteLength(), SUITE + (m' + (h' + x')));
    EqualParts(SUITE, m + (h + x), SUITE, m' + (h' + x'));
    EqualParts(m, h + x, m', h' + x');
    EqualParts(h, x, h', x');
    EqualParts([DirectionByte(d)], e, [DirectionByte(d')], e');
    assert [DirectionByte(d)][0] == [DirectionByte(d')][0];
  }

  function Concat(parts: seq<seq<byte>>): (s: seq<byte>)
  {
    if parts == [] then [] else Concat(parts[..|parts| - 1]) + parts[|parts| - 1]
  }

  lemma ConcatGrows(parts: seq<seq<byte>>, i: nat)
    requires i < |parts|
    ensures Concat(parts[..i + 1]) == Concat(parts[..i]) + parts[i]
  {
    assert parts[..i + 1][..i] == parts[..i];
  }

  lemma {:induction false} ConcatMonotonic(parts: seq<seq<byte>>, i: nat)
    requires i <= |parts|
    ensures |Concat(parts[..i])| <= |Concat(parts)|
    decreases |parts| - i
  {
    if i < |parts| {
      ConcatMonotonic(parts, i + 1);
      ConcatGrows(parts, i);
    } else {
      assert parts[..i] == parts;
    }
  }

  lemma SixParts(a: seq<byte>, b: seq<byte>, c: seq<byte>, d: seq<byte>, e: seq<byte>, f: seq<byte>)
    ensures Concat([a, b, c, d, e, f]) == a + (b + (c + (d + (e + f))))
  {
    var parts := [a, b, c, d, e, f];
    assert parts[..6] == parts;
    ConcatGrows(parts, 0);
    ConcatGrows(parts, 1);
    ConcatGrows(parts, 2);
    ConcatGrows(parts, 3);
    ConcatGrows(parts, 4);
    ConcatGrows(parts, 5);
    assert Concat(parts) == a + b + c + d + e + f;
    assert a + b + c + d + e + f == a + (b + (c + (d + (e + f))));
  }

  /** Copies the six parts one behind the other; the last byte written is byte 138. */
  method BuildAad(m: Hash, h: Hash, d: Direction, header: EncodedHeader) returns (aad: array<byte>)
    ensures fresh(aad) && aad[..] == Aad(m, h, d, header)
    ensures aad.Length == 139 && aad[..] == [0, 24] + SUITE + m + h + [if d.ClientToServer? then 0 else 1] + header
  {
    aad := new byte[AAD_LEN](_ => 0);
    var parts: seq<seq<byte>> := [SuiteLength(), SUITE, m, h, [DirectionByte(d)], header];
    SixParts(SuiteLength(), SUITE, m, h, [DirectionByte(d)], header);
    var offset := 0;
    for i := 0 to |parts|
      invariant offset == |Concat(parts[..i])| <= AAD_LEN
      invariant aad[..offset] == Concat(parts[..i])
    {
      ConcatGrows(parts, i);
      ConcatMonotonic(parts, i + 1);
      CopyInto(aad, offset, parts[i]);
      assert aad[..offset + |parts[i]|] == aad[..offset] + aad[offset..offset + |parts[i]|];
      offset := offset + |parts[i]|;
    }
    assert parts[..|parts|] == parts;
    assert aad[..offset] == aad[..];
    AadIs(m, h, d, header);
  }

  lemma AadIs(m: Hash, h: Hash, d: Direction, header: EncodedHeader)
    ensures Aad(m, h, d, header) == [0, 24] + SUITE + m + h + [if d.ClientToServer? then 0 else 1] + header
  {
    TwoBytes(24);
  }

  /** The IV with the sequence number folded into its last eight bytes. */
  function Nonce(iv: Iv, sequence: nat): Iv {
    iv[..4] + seq(8, i requires 0 <= i < 8 => Xor(iv[4 + i], BigEndian(sequence, 8)[i]))
  }

  method BuildNonce(iv: Iv, sequence: nat) returns (out: array<byte>)
    requires sequence < U64
    ensures fresh(out) && out[..] == Nonce(iv, sequence)
    ensures out.Length == 12 && out[..4] == iv[..4]
    ensures forall k :: 4 <= k < 12 ==> IsXor(out[k], iv[k], BigEndian(sequence, 8)[k - 4])
  {
    out := new byte[IV_LEN](i requires 0 <= i < IV_LEN => iv[i]);
    var encoded := BigEndian(sequence, 8);
    for i := 0 to 8
      invariant forall k :: 0 <= k < 4 || 4 + i <= k < IV_LEN ==> out[k] == iv[k]
      invariant forall k :: 4 <= k < 4 + i ==> out[k] == Xor(iv[k], encoded[k - 4])
    {
      out[4 + i] := Xor(out[4 + i], encoded[i]);
    }
    assert out[..] == Nonce(iv, sequence);
    NonceIsFolded(iv, sequence);
  }

  /** The nonce keeps four bytes of the IV, and in the others flips the bits that the sequence number has set. */
  lemma NonceIsFolded(iv: Iv, sequence: nat)
    ensures Nonce(iv, sequence)[..4] == iv[..4]
    ensures forall k :: 4 <= k < 12 ==> IsXor(Nonce(iv, sequence)[k], iv[k], BigEndian(sequence, 8)[k - 4])
  {
    forall k | 4 <= k < 12
      ensures IsXor(Nonce(iv, sequence)[k], iv[k], BigEndian(sequence, 8)[k - 4])
    {
      XorIsExclusiveOr(Nonce(iv, sequence)[k], iv[k], BigEndian(sequence, 8)[k - 4]);
    }
  }

  lemma {:induction false} ZeroIsZeros(width: nat, i: nat)
    requires i < width
    ensures BigEndian(0, width)[i] == 0
  {
    if i < width - 1 {
      ZeroIsZeros(width - 1, i);
    }
  }

  /** The first nonce is the IV itself. */
  lemma FirstNonce(iv: Iv)
    ensures Nonce(iv, 0) == iv
  {
    forall i | 4 <= i < 12
      ensures Nonce(iv, 0)[i] == iv[i]
    {
      ZeroIsZeros(8, i - 4);
      XorZero(iv[i]);
    }
  }

  lemma OneIsLast()
    ensures BigEndian(1, 8)[7] == 1 && forall i :: 0 <= i < 7 ==> BigEndian(1, 8)[i] == 0
  {
    forall i | 0 <= i < 7
      ensures BigEndian(1, 8)[i] == 0
    {
      ZeroIsZeros(7, i);
    }
  }

  /** The published example: sequence number 1 under the IV 3f3bc8cfde490a24c9f00a90. */
  lemma PublishedNonce()
    ensures Nonce([0x3f, 0x3b, 0xc8, 0xcf, 0xde, 0x49, 0x0a, 0x24, 0xc9, 0xf0, 0x0a, 0x90], 1)
            == [0x3f, 0x3b, 0xc8, 0xcf, 0xde, 0x49, 0x0a, 0x24, 0xc9, 0xf0, 0x0a, 0x91]
  {
    var iv: Iv := [0x3f, 0x3b, 0xc8, 0xcf, 0xde, 0x49, 0x0a, 0x24, 0xc9, 0xf0, 0x0a, 0x90];
    OneIsLast();
    forall i | 4 <= i < 11
      ensures Nonce(iv, 1)[i] == iv[i]
    {
      XorZero(iv[i]);
    }
    assert IsXor(0x91, 0x90, 1);
    XorIsExclusiveOr(0x91, 0x90, 1);
  }

  /** Under one IV, different 64-bit sequence numbers give different nonces. */
  lemma NonceInjective(iv: Iv, a: nat, b: nat)
    requires a < U64 && b < U64
    requires Nonce(iv, a) == Nonce(iv, b)
    ensures a == b
  {
    var x, y := BigEndian(a, 8), BigEndian(b, 8);
    forall i | 0 <= i < 8
      ensures x[i] == y[i]
    {
      assert Nonce(iv, a)[4 + i] == Nonce(iv, b)[4 + i];
      XorCancels(iv[4 + i], x[i], y[i]);
    }
    assert x == y;
    Widths();
    BigEndianInjective(a, b, 8);
  }

  // ---------- authenticated encryption

  /** AES-256-GCM as two uninterpreted functions. */
  datatype Aead = Aead(
    seal: (Key, Iv, seq<byte>, seq<byte>) -> (seq<byte>, Tag),
    open: (Key, Iv, seq<byte>, seq<byte>, Tag) -> Option<seq<byte>>)

  /** Opening what was sealed gives back the plaintext, and sealing keeps the length. */
  ghost predicate Correct(a: Aead) {
    forall k, n, d, p {:trigger a.seal(k, n, d, p)} ::
      && |a.seal(k, n, d, p).0| == |p|
      && a.open(k, n, d, a.seal(k, n, d, p).0, a.seal(k, n, d, p).1) == Some(p)
  }

  /** What one AEAD call authenticates. */
  datatype Query = Query(key: Key, nonce: Iv, aad: seq<byte>, ciphertext: seq<byte>, tag: Tag)

  function Open(a: Aead, q: Query): Option<seq<byte>> {
    a.open(q.key, q.nonce, q.aad, q.ciphertext, q.tag)
  }

  /** How the cryptographic library behaves during one call: normally, or with a failure of its own. */
  datatype Library = Works | Fails(error: Error)

  function LibraryError(l: Library): Error
    requires l.Fails?
  {
    if l.error == AuthenticationFailed then AuthenticationFailed else Crypto
  }

  /** One protected record: the AEAD tuple and its wire form. */
  datatype Protected = Protected(query: Query, wire: seq<byte>)

  function Protect(a: Aead, t: TrafficKey, m: Hash, h: Hash, d: Direction, header: Header, plaintext: seq<byte>)
    : Protected
  {
    var aad := Aad(m, h, d, header.encoded);
    var nonce := Nonce(t.iv, header.sequence);
    var sealed := a.seal(t.key, nonce, aad, plaintext);
    Protected(Query(t.key, nonce, aad, sealed.0, sealed.1), Wire(header.encoded, sealed.0, sealed.1))
  }

  function SealRecord(a: Aead, t: TrafficKey, m: Hash, h: Hash, d: Direction, recordType: RecordType, c: Channel,
                      sequence: nat, plaintext: seq<byte>, library: Library): Result<Protected>
  {
    match HeaderFor(recordType, c, sequence, |plaintext|)
    case Err(error) => Err(error)
    case Ok(header) =>
      var protected := Protect(a, t, m, h, d, header, plaintext);
      if library.Fails? || |protected.query.ciphertext| != |plaintext| then Err(Crypto) else Ok(protected)
  }

  /** The AEAD call that opening a parsed record makes. */
  function OpenQuery(t: TrafficKey, m: Hash, h: Hash, d: Direction, p: Parsed): Query {
    Query(t.key, Nonce(t.iv, p.header.sequence), Aad(m, h, d, p.header.encoded), p.ciphertext, p.tag)
  }

  function Authenticate(a: Aead, t: TrafficKey, m: Hash, h: Hash, d: Direction, p: Parsed, library: Library)
    : Result<seq<byte>>
  {
    if library.Fails? then Err(LibraryError(library))
    else
      match Open(a, OpenQuery(t, m, h, d, p))
      case None => Err(AuthenticationFailed)
      case Some(plaintext) =>
        if |plaintext| != p.header.plaintextLen then Err(AuthenticationFailed) else Ok(plaintext)
  }

  /** Fills the two buffers an AEAD call takes beside the text: additional data and nonce. */
  method Frame(t: TrafficKey, m: Hash, h: Hash, d: Direction, header: EncodedHeader, sequence: nat)
    returns (aad: array<byte>, nonce: array<byte>)
    requires sequence < U64
    ensures fresh(aad) && fresh(nonce) && aad[..] == Aad(m, h, d, header) && nonce[..] == Nonce(t.iv, sequence)
  {
    aad := BuildAad(m, h, d, header);
    nonce := BuildNonce(t.iv, sequence);
  }

  /**
   * Seals one record: header buffer, additional data and nonce first, then one AEAD call, then header ++
   * ciphertext ++ tag.
   */
  method Seal(a: Aead, t: TrafficKey, m: Hash, h: Hash, d: Direction, recordType: RecordType, c: Channel,
              sequence: nat, plaintext: seq<byte>, library: Library) returns (r: Result<Protected>)
    requires sequence < U64
    ensures r == SealRecord(a, t, m, h, d, recordType, c, sequence, plaintext, library)
  {
    var made := NewHeader(recordType, c, sequence, |plaintext|);
    if made.Err? {
      return Err(made.error);
    }
    var header := made.value;
    var aad, nonce := Frame(t, m, h, d, header.encoded, sequence);
    if library.Fails? {
      return Err(Crypto);
    }
    var output: seq<byte> := header.encoded;
    var (ciphertext, tag) := a.seal(t.key, nonce[..], aad[..], plaintext);
    output := output + ciphertext;
    if |ciphertext| != |plaintext| {
      return Err(Crypto);
    }
    output := output + tag;
    r := Ok(Protected(Query(t.key, nonce[..], aad[..], ciphertext, tag), output));
  }

  /** Opens one parsed record with a single AEAD call. */
  method OpenParsed(a: Aead, t: TrafficKey, m: Hash, h: Hash, d: Direction, p: Parsed, library: Library)
    returns (r: Result<seq<byte>>)
    requires p.header.sequence < U64
    ensures r == Authenticate(a, t, m, h, d, p, library)
  {
    var aad, nonce := Frame(t, m, h, d, p.header.encoded, p.header.sequence);
    if library.Fails? {
      return Err(LibraryError(library));
    }
    var plaintext := a.open(t.key, nonce[..], aad[..], p.ciphertext, p.tag);
    if plaintext.None? || |plaintext.value| != p.header.plaintextLen {
      return Err(AuthenticationFailed);
    }
    r := Ok(plaintext.value);
  }

  /** The peer of a seal: whoever opens the printed record with the same inputs gets the plaintext. */
  lemma OpenOfSeal(a: Aead, t: TrafficKey, m: Hash, h: Hash, d: Direction, recordType: RecordType, c: Channel,
                   sequence: nat, plaintext: seq<byte>)
    requires Correct(a) && sequence < U64 && |plaintext| <= MAX_PLAINTEXT
    ensures var sealed := SealRecord(a, t, m, h, d, recordType, c, sequence, plaintext, Works);
            && sealed.Ok?
            && var parsed := Parse(sealed.value.wire);
            && parsed.Ok?
            && parsed.value.header == HeaderFor(recordType, c, sequence, |plaintext|).value
            && OpenQuery(t, m, h, d, parsed.value) == sealed.value.query
            && Authenticate(a, t, m, h, d, parsed.value, Works) == Ok(plaintext)
  {
    var header := HeaderFor(recordType, c, sequence, |plaintext|).value;
    var q := Protect(a, t, m, h, d, header, plaintext).query;
    assert (q.ciphertext, q.tag) == a.seal(t.key, q.nonce, q.aad, plaintext);
    ParseOfWire(header, q.ciphertext, q.tag);
  }
}
