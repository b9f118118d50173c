/** The fixed suite: channels, directions, framing of the key schedule and the derivation of ten contexts. */
module Profile {
  import opened Wrappers
  import opened Bytes
  import opened Gcm

  const HASH_LEN := 48
  const MATERIAL_COUNT := 10

  /** The ASCII text "G301-ORLOGTHATTR-AEAD-v1". */
  const SUITE: seq<byte> :=
    [71, 51, 48, 49, 45, 79, 82, 76, 79, 71, 84, 72, 65, 84, 84, 82, 45, 65, 69, 65, 68, 45, 118, 49]

  type Hash = s: seq<byte> | |s| == HASH_LEN witness seq(HASH_LEN, _ => 0)

  datatype Direction = ClientToServer | ServerToClient

  datatype Channel = Menora | Chanukkia | JomKippur | Tzafah | Guard

  datatype Role = Client | Server

  const DIRECTIONS: seq<Direction> := [ClientToServer, ServerToClient]
  const CHANNELS: seq<Channel> := [Menora, Chanukkia, JomKippur, Tzafah, Guard]

  function DirectionByte(d: Direction): byte {
    match d
    case ClientToServer => 0
    case ServerToClient => 1
  }

  function SendDirection(role: Role): Direction {
    match role
    case Client => ClientToServer
    case Server => ServerToClient
  }

  function ReceiveDirection(role: Role): Direction {
    match role
    case Client => ServerToClient
    case Server => ClientToServer
  }

  function ChannelId(c: Channel): (id: nat)
    ensures id < 0x1_0000
  {
    match c
    case Menora => 301
    case Chanukkia => 99
    case JomKippur => 372
    case Tzafah => 175
    case Guard => 947
  }

  function ChannelFromId(id: nat): Option<Channel> {
    match id
    case 301 => Some(Menora)
    case 99 => Some(Chanukkia)
    case 372 => Some(JomKippur)
    case 175 => Some(Tzafah)
    case 947 => Some(Guard)
    case _ => None
  }

  function ChannelRole(c: Channel): byte {
    if c == Guard then 1 else 0
  }

  function Label(c: Channel): (s: seq<byte>)
    ensures |s| < 256
  {
    match c
    case Menora => [77, 69, 78, 79, 82, 65]
    case Chanukkia => [67, 72, 65, 78, 85, 75, 75, 73, 65]
    case JomKippur => [74, 79, 77, 45, 75, 73, 80, 80, 85, 82]
    case Tzafah => [84, 90, 65, 70, 65, 72]
    case Guard => [71, 85, 65, 82, 68]
  }

  function Ordinal(c: Channel): (n: nat)
    ensures n < 5 && CHANNELS[n] == c
  {
    match c
    case Menora => 0
    case Chanukkia => 1
    case JomKippur => 2
    case Tzafah => 3
    case Guard => 4
  }

  /** The place of a channel and direction among the ten contexts. */
  function MaterialIndex(c: Channel, d: Direction): (i: nat)
    ensures i < MATERIAL_COUNT
  {
    Ordinal(c) * 2 + DirectionByte(d)
  }

  /** `MaterialIndex` is one-to-one and reaches all of 0..9. */
  lemma MaterialIndexIsBijective()
    ensures forall c, d, c', d' :: MaterialIndex(c, d) == MaterialIndex(c', d') ==> c == c' && d == d'
    ensures forall i :: 0 <= i < MATERIAL_COUNT ==> MaterialIndex(CHANNELS[i / 2], DIRECTIONS[i % 2]) == i
  {
    forall c, d, c', d' | MaterialIndex(c, d) == MaterialIndex(c', d')
      ensures c == c' && d == d'
    {
      assert Ordinal(c) == MaterialIndex(c, d) / 2 && DirectionByte(d) == MaterialIndex(c, d) % 2;
      assert Ordinal(c') == MaterialIndex(c', d') / 2;
      assert c == CHANNELS[Ordinal(c)] && c' == CHANNELS[Ordinal(c')];
    }
  }

  /** A peer's sending direction is the local receiving direction, and the two directions differ. */
  lemma DirectionsMirror(role: Role, peer: Role)
    requires role != peer
    ensures SendDirection(peer) == ReceiveDirection(role)
    ensures SendDirection(role) != ReceiveDirection(role)
  {
  }

  lemma ChannelIdRoundTrip(c: Channel)
    ensures ChannelFromId(ChannelId(c)) == Some(c)
  {
  }

  lemma ChannelIdCanonical(id: nat)
    requires ChannelFromId(id).Some?
    ensures ChannelId(ChannelFromId(id).value) == id
  {
  }

  // ---------- length-prefixed framing

  function AppendLp8(out: seq<byte>, value: seq<byte>): Result<seq<byte>> {
    if |value| > 255 then Err(InvalidContext) else Ok(out + BigEndian(|value|, 1) + value)
  }

  function AppendLp16(out: seq<byte>, value: seq<byte>): Result<seq<byte>> {
    if |value| > 65535 then Err(InvalidContext) else Ok(out + BigEndian(|value|, 2) + value)
  }

  /** A length-prefixed field at the head of a string determines the field and the rest. */
  lemma PrefixedFieldInjective(a: seq<byte>, b: seq<byte>, x: seq<byte>, y: seq<byte>, width: nat)
    requires |a| < Pow256(width) && |b| < Pow256(width)
    requires BigEndian(|a|, width) + a + x == BigEndian(|b|, width) + b + y
    ensures a == b && x == y
  {
    var p, q := BigEndian(|a|, width), BigEndian(|b|, width);
    EqualHeads(p, a, x, q, b, y);
    BigEndianInjective(|a|, |b|, width);
    EqualParts(a, x, b, y);
  }

  /** The 83 bytes of the suite manifest, as published with the profile's test vectors. */
  const MANIFEST_HEAD: seq<byte> :=
    [0x00, 0x18] + [0x47, 0x33, 0x30, 0x31, 0x2d, 0x4f, 0x52, 0x4c, 0x4f, 0x47, 0x54, 0x48,
                    0x41, 0x54, 0x54, 0x52, 0x2d, 0x41, 0x45, 0x41, 0x44, 0x2d, 0x76, 0x31] + [0x05]

  function PublishedEntry(c: Channel): seq<byte> {
    match c
    case Menora => [0x00, 0x01, 0x2d, 0x06] + [0x4d, 0x45, 0x4e, 0x4f, 0x52, 0x41]
    case Chanukkia => [0x00, 0x00, 0x63, 0x09] + [0x43, 0x48, 0x41, 0x4e, 0x55, 0x4b, 0x4b, 0x49, 0x41]
    case JomKippur => [0x00, 0x01, 0x74, 0x0a] + [0x4a, 0x4f, 0x4d, 0x2d, 0x4b, 0x49, 0x50, 0x50, 0x55, 0x52]
    case Tzafah => [0x00, 0x00, 0xaf, 0x06] + [0x54, 0x5a, 0x41, 0x46, 0x41, 0x48]
    case Guard => [0x01, 0x03, 0xb3, 0x05] + [0x47, 0x55, 0x41, 0x52, 0x44]
  }

  const MANIFEST: seq<byte> :=
    MANIFEST_HEAD + PublishedEntry(Menora) + PublishedEntry(Chanukkia) + PublishedEntry(JomKippur)
    + PublishedEntry(Tzafah) + PublishedEntry(Guard)

  function ChannelEntry(c: Channel): seq<byte> {
    [ChannelRole(c)] + BigEndian(ChannelId(c), 2) + (BigEndian(|Label(c)|, 1) + Label(c))
  }

  function ManifestUpTo(count: nat): seq<byte>
    requires count <= |CHANNELS|
  {
    if count == 0 then MANIFEST_HEAD else ManifestUpTo(count - 1) + ChannelEntry(CHANNELS[count - 1])
  }

  function EntryHead(c: Channel): seq<byte> {
    [ChannelRole(c), ChannelId(c) / 256, ChannelId(c) % 256, |Label(c)|]
  }

  lemma PublishedParts(c: Channel)
    ensures PublishedEntry(c) == EntryHead(c) + Label(c)
  {
    match c
    case Menora =>
    case Chanukkia =>
    case JomKippur =>
    case Tzafah =>
    case Guard =>
  }

  lemma EntryIsPublished(c: Channel)
    ensures ChannelEntry(c) == PublishedEntry(c)
  {
    TwoBytes(ChannelId(c));
    OneByte(|Label(c)|);
    assert ChannelEntry(c) == EntryHead(c) + Label(c);
    PublishedParts(c);
  }

  lemma ManifestIsComplete()
    ensures ManifestUpTo(5) == MANIFEST
  {
    EntryIsPublished(Menora);
    EntryIsPublished(Chanukkia);
    EntryIsPublished(JomKippur);
    EntryIsPublished(Tzafah);
    EntryIsPublished(Guard);
    assert ManifestUpTo(2) == ManifestUpTo(0) + ChannelEntry(Menora) + ChannelEntry(Chanukkia);
    assert ManifestUpTo(4) == ManifestUpTo(2) + ChannelEntry(JomKippur) + ChannelEntry(Tzafah);
  }

  lemma HeadIs(head: seq<byte>)
    requires head == [] + BigEndian(|SUITE|, 2) + SUITE + [5]
    ensures head == MANIFEST_HEAD
  {
    TwoBytes(|SUITE|);
  }

  lemma AppendedEntry(before: seq<byte>, c: Channel)
    ensures before + [ChannelRole(c)] + BigEndian(ChannelId(c), 2) + BigEndian(|Label(c)|, 1) + Label(c)
         == before + ChannelEntry(c)
  {
    var x, y, z, w := [ChannelRole(c)], BigEndian(ChannelId(c), 2), BigEndian(|Label(c)|, 1), Label(c);
    assert before + x + y + z + w == before + (x + y + (z + w));
  }

  /** Pushes the suite, the channel count and one entry per channel, in order. */
  method BuildManifest() returns (r: Result<seq<byte>>)
    ensures r == Ok(MANIFEST)
  {
    var out := AppendLp16([], SUITE).value;
    out := out + [5];
    HeadIs(out);
    for i := 0 to |CHANNELS|
      invariant out == ManifestUpTo(i)
    {
      var channel := CHANNELS[i];
      AppendedEntry(out, channel);
      out := out + [ChannelRole(channel)];
      out := out + BigEndian(ChannelId(channel), 2);
      out := AppendLp8(out, Label(channel)).value;
    }
    ManifestIsComplete();
    r := Ok(out);
  }

  // ---------- key schedule

  /** SHA-384 and HKDF (RFC 5869) as uninterpreted functions; `Expand*` differ in output length only. */
  datatype Kdf = Kdf(
    sha384: seq<byte> -> Hash,
    extract: (seq<byte>, Hash) -> Hash,
    expandSecret: (Hash, seq<byte>) -> Hash,
    expandKey: (Hash, seq<byte>) -> Key,
    expandIv: (Hash, seq<byte>) -> Iv)

  datatype TrafficKey = TrafficKey(key: Key, iv: Iv)

  const ZEROED := TrafficKey(seq(KEY_LEN, _ => 0), seq(IV_LEN, _ => 0))

  const TRAFFIC: seq<byte> := [116, 114, 97, 102, 102, 105, 99]
  const KEY: seq<byte> := [107, 101, 121]
  const IV: seq<byte> := [105, 118]

  function SuiteField(): seq<byte> {
    BigEndian(|SUITE|, 2) + SUITE
  }

  /** The input of the context hash. */
  function ContextInput(manifestHash: Hash, context: seq<byte>): Result<seq<byte>> {
    if |context| > 65535 then Err(InvalidContext)
    else Ok(SuiteField() + (manifestHash + (BigEndian(|context|, 2) + context)))
  }

  function SaltInput(manifestHash: Hash, contextHash: Hash): seq<byte> {
    SuiteField() + manifestHash + contextHash
  }

  function BuildInfo(purpose: seq<byte>, manifestHash: Hash, contextHash: Hash, c: Channel, d: Direction)
    : Result<seq<byte>>
  {
    if |purpose| > 255 then Err(InvalidContext)
    else Ok(SuiteField() + (BigEndian(|purpose|, 1) + purpose
              + (manifestHash + (contextHash + (BigEndian(ChannelId(c), 2) + [ChannelRole(c), DirectionByte(d)])))))
  }

  /** Two expansions share an info string only if they agree on every input. */
  lemma BuildInfoInjective(
      p: seq<byte>, m: Hash, h: Hash, c: Channel, d: Direction,
      p': seq<byte>, m': Hash, h': Hash, c': Channel, d': Direction)
    requires BuildInfo(p, m, h, c, d).Ok? && BuildInfo(p', m', h', c', d').Ok?
    requires BuildInfo(p, m, h, c, d) == BuildInfo(p', m', h', c', d')
    ensures p == p' && m == m' && h == h' && c == c' && d == d'
  {
    Widths();
    var id, id' := BigEndian(ChannelId(c), 2), BigEndian(ChannelId(c'), 2);
    var end, end' := [ChannelRole(c), DirectionByte(d)], [ChannelRole(c'), DirectionByte(d')];
    var rest, rest' := m + (h + (id + end)), m' + (h' + (id' + end'));
    var field, field' := BigEndian(|p|, 1) + p + rest, BigEndian(|p'|, 1) + p' + rest';
    EqualParts(SuiteField(), field, SuiteField(), field');
    PrefixedFieldInjective(p, p', rest, rest', 1);
    EqualParts(m, h + (id + end), m', h' + (id' + end'));
    EqualParts(h, id + end, h', id' + end');
    EqualParts(id, end, id', end');
    BigEndianInjective(ChannelId(c), ChannelId(c'), 2);
    ChannelIdRoundTrip(c);
    ChannelIdRoundTrip(c');
    assert end[1] == end'[1];
  }

  /** The context-hash input determines the manifest hash and the application context. */
  lemma ContextInputInjective(m: Hash, a: seq<byte>, m': Hash, a': seq<byte>)
    requires ContextInput(m, a).Ok? && ContextInput(m, a) == ContextInput(m', a')
    ensures m == m' && a == a'
  {
    Widths();
    var tail, tail' := BigEndian(|a|, 2) + a, BigEndian(|a'|, 2) + a';
    EqualParts(SuiteField(), m + tail, SuiteField(), m' + tail');
    EqualParts(m, tail, m', tail');
    assert tail + [] == tail && tail' + [] == tail';
    PrefixedFieldInjective(a, a', [], [], 2);
  }

  /** The key and IV of one channel and direction. */
  function Derived(kdf: Kdf, prk: Hash, manifestHash: Hash, contextHash: Hash, c: Channel, d: Direction): TrafficKey {
    var secret := kdf.expandSecret(prk, BuildInfo(TRAFFIC, manifestHash, contextHash, c, d).value);
    TrafficKey(
      kdf.expandKey(secret, BuildInfo(KEY, manifestHash, contextHash, c, d).value),
      kdf.expandIv(secret, BuildInfo(IV, manifestHash, contextHash, c, d).value))
  }

  datatype Secrets = Secrets(manifestHash: Hash, contextHash: Hash, traffic: seq<TrafficKey>)

  function ManifestHash(kdf: Kdf): Hash {
    kdf.sha384(MANIFEST)
  }

  /** The application context hashed with the manifest; only 1 to 255 bytes are accepted. */
  function ContextHash(kdf: Kdf, context: seq<byte>): Result<Hash> {
    if |context| == 0 || |context| > 255 then Err(InvalidContext)
    else Ok(kdf.sha384(ContextInput(ManifestHash(kdf), context).value))
  }

  ghost predicate HoldsDerived(traffic: seq<TrafficKey>, kdf: Kdf, prk: Hash, m: Hash, h: Hash, c: Channel,
                               d: Direction)
    requires |traffic| == MATERIAL_COUNT
  {
    traffic[MaterialIndex(c, d)] == Derived(kdf, prk, m, h, c, d)
  }

  /** The extracted root key of one exporter value. */
  function RootKey(kdf: Kdf, exporter: seq<byte>, m: Hash, h: Hash): Hash {
    kdf.extract(exporter, kdf.sha384(SaltInput(m, h)))
  }

  /** The library calls made while a session is set up; any of them may fail. */
  datatype LibraryStep =
    | HashManifest
    | HashContext
    | HashSalt
    | Extract
    | ExpandSecret(channel: Channel, direction: Direction)
    | ExpandKey(channel: Channel, direction: Direction)
    | ExpandIv(channel: Channel, direction: Direction)
    | FetchCipher

  predicate ExpansionsWork(fails: LibraryStep -> bool, c: Channel, d: Direction) {
    !fails(ExpandSecret(c, d)) && !fails(ExpandKey(c, d)) && !fails(ExpandIv(c, d))
  }

  ghost predicate DerivationWorks(fails: LibraryStep -> bool) {
    !fails(HashSalt) && !fails(Extract) && forall c, d :: ExpansionsWork(fails, c, d)
  }

  lemma AllStepsWork(fails: LibraryStep -> bool)
    requires !fails(HashManifest) && !fails(HashContext) && DerivationWorks(fails) && !fails(FetchCipher)
    ensures forall x: LibraryStep :: !fails(x)
  {
    forall x: LibraryStep
      ensures !fails(x)
    {
      match x
      case ExpandSecret(c, d) => assert ExpansionsWork(fails, c, d);
      case ExpandKey(c, d) => assert ExpansionsWork(fails, c, d);
      case ExpandIv(c, d) => assert ExpansionsWork(fails, c, d);
      case _ =>
    }
  }

  lemma SomeStepFails(fails: LibraryStep -> bool)
    requires !DerivationWorks(fails)
    ensures exists x: LibraryStep :: fails(x)
  {
    if !fails(HashSalt) && !fails(Extract) {
      var c, d :| !ExpansionsWork(fails, c, d);
      assert fails(ExpandSecret(c, d)) || fails(ExpandKey(c, d)) || fails(ExpandIv(c, d));
    }
  }

  /** Derives all ten contexts. `fails` says which library calls fail. */
  method DeriveSecrets(kdf: Kdf, exporter: seq<byte>, manifestHash: Hash, contextHash: Hash,
                       fails: LibraryStep -> bool)
    returns (r: Result<Secrets>)
    ensures r.Ok? <==> DerivationWorks(fails)
    ensures r.Err? ==> r.error == Crypto
    ensures r.Ok? ==>
              && r.value.manifestHash == manifestHash && r.value.contextHash == contextHash
              && |r.value.traffic| == MATERIAL_COUNT
              && forall c, d ::
                   HoldsDerived(r.value.traffic, kdf, RootKey(kdf, exporter, manifestHash, contextHash),
                                manifestHash, contextHash, c, d)
  {
    if fails(HashSalt) || fails(Extract) {
      return Err(Crypto);
    }
    var prk := RootKey(kdf, exporter, manifestHash, contextHash);
    var traffic := new TrafficKey[MATERIAL_COUNT](_ => ZEROED);
    MaterialIndexIsBijective();
    for i := 0 to |CHANNELS|
      invariant forall c, d :: Ordinal(c) < i ==>
                  ExpansionsWork(fails, c, d) && HoldsDerived(traffic[..], kdf, prk, manifestHash, contextHash, c, d)
    {
      for j := 0 to |DIRECTIONS|
        invariant forall c, d :: Ordinal(c) < i || (Ordinal(c) == i && DirectionByte(d) < j) ==>
                    ExpansionsWork(fails, c, d) && HoldsDerived(traffic[..], kdf, prk, manifestHash, contextHash, c, d)
      {
        var channel, direction := CHANNELS[i], DIRECTIONS[j];
        var index := MaterialIndex(channel, direction);
        if fails(ExpandSecret(channel, direction)) {
          assert !ExpansionsWork(fails, channel, direction);
          return Err(Crypto);
        }
        var secret := kdf.expandSecret(prk, BuildInfo(TRAFFIC, manifestHash, contextHash, channel, direction).value);
        if fails(ExpandKey(channel, direction)) {
          assert !ExpansionsWork(fails, channel, direction);
          return Err(Crypto);
        }
        var key := kdf.expandKey(secret, BuildInfo(KEY, manifestHash, contextHash, channel, direction).value);
        traffic[index] := traffic[index].(key := key);
        if fails(ExpandIv(channel, direction)) {
          assert !ExpansionsWork(fails, channel, direction);
          return Err(Crypto);
        }
        var iv := kdf.expandIv(secret, BuildInfo(IV, manifestHash, contextHash, channel, direction).value);
        traffic[index] := traffic[index].(iv := iv);
        assert traffic[index] == Derived(kdf, prk, manifestHash, contextHash, channel, direction);
      }
    }
    r := Ok(Secrets(manifestHash, contextHash, traffic[..]));
  }

  /** The two inputs of the expansion that yields the key of one channel and direction. */
  function KeyInput(kdf: Kdf, prk: Hash, m: Hash, h: Hash, c: Channel, d: Direction): (Hash, seq<byte>) {
    (kdf.expandSecret(prk, BuildInfo(TRAFFIC, m, h, c, d).value), BuildInfo(KEY, m, h, c, d).value)
  }

  /** The ten key expansions of one derivation do not collide. */
  ghost predicate CollisionFree(kdf: Kdf, prk: Hash, m: Hash, h: Hash) {
    forall c, d, c', d' {:trigger KeyInput(kdf, prk, m, h, c, d), KeyInput(kdf, prk, m, h, c', d')} ::
      var x, y := KeyInput(kdf, prk, m, h, c, d), KeyInput(kdf, prk, m, h, c', d');
      kdf.expandKey(x.0, x.1) == kdf.expandKey(y.0, y.1) ==> x == y
  }

  /** Unless its expansions collide, a derivation yields ten pairwise different traffic keys. */
  lemma DerivedKeysDiffer(kdf: Kdf, prk: Hash, m: Hash, h: Hash, c: Channel, d: Direction, c': Channel, d': Direction)
    requires CollisionFree(kdf, prk, m, h)
    requires Derived(kdf, prk, m, h, c, d).key == Derived(kdf, prk, m, h, c', d').key
    ensures c == c' && d == d'
  {
    assert KeyInput(kdf, prk, m, h, c, d) == KeyInput(kdf, prk, m, h, c', d');
    BuildInfoInjective(KEY, m, h, c, d, KEY, m, h, c', d');
  }

  // ---------- the key schedule byte by byte

  /** The suite field: its length in two bytes, and the text "G301-ORLOGTHATTR-AEAD-v1". */
  const SUITE_BYTES: seq<byte> := [0, 24] + SUITE

  /** The last four bytes of an info string: identifier, role, direction. */
  function PlaceBytes(c: Channel, d: Direction): seq<byte> {
    [ChannelId(c) / 256, ChannelId(c) % 256, if c.Guard? then 1 else 0, if d.ClientToServer? then 0 else 1]
  }

  lemma SuiteFieldIs()
    ensures SuiteField() == SUITE_BYTES
  {
    TwoBytes(24);
  }

  lemma ContextInputIs(m: Hash, context: seq<byte>)
    requires 0 < |context| <= 255
    ensures ContextInput(m, context) == Ok(SUITE_BYTES + m + [0, |context|] + context)
  {
    SuiteFieldIs();
    TwoBytes(|context|);
    var length: seq<byte> := [0, |context|];
    assert SUITE_BYTES + m + length + context == SUITE_BYTES + (m + (length + context));
  }

  lemma SaltInputIs(m: Hash, h: Hash)
    ensures SaltInput(m, h) == SUITE_BYTES + m + h
  {
    SuiteFieldIs();
  }

  lemma InfoIs(purpose: seq<byte>, m: Hash, h: Hash, c: Channel, d: Direction)
    requires |purpose| <= 255
    ensures BuildInfo(purpose, m, h, c, d) == Ok(SUITE_BYTES + [|purpose|] + purpose + m + h + PlaceBytes(c, d))
  {
    SuiteFieldIs();
    OneByte(|purpose|);
    TwoBytes(ChannelId(c));
    var place := BigEndian(ChannelId(c), 2) + [ChannelRole(c), DirectionByte(d)];
    assert place == PlaceBytes(c, d);
    assert SUITE_BYTES + ([|purpose|] + purpose + (m + (h + place)))
           == SUITE_BYTES + [|purpose|] + purpose + m + h + place;
  }

  /** The key and IV of one context, from the info strings labelled "traffic", "key" and "iv". */
  ghost predicate IsExpanded(kdf: Kdf, prk: Hash, m: Hash, h: Hash, c: Channel, d: Direction, t: TrafficKey) {
    var place := m + h + PlaceBytes(c, d);
    var secret := kdf.expandSecret(prk, SUITE_BYTES + [7] + [116, 114, 97, 102, 102, 105, 99] + place);
    && t.key == kdf.expandKey(secret, SUITE_BYTES + [3] + [107, 101, 121] + place)
    && t.iv == kdf.expandIv(secret, SUITE_BYTES + [2] + [105, 118] + place)
  }

  lemma InfoWithPlace(purpose: seq<byte>, m: Hash, h: Hash, c: Channel, d: Direction)
    requires |purpose| <= 255
    ensures BuildInfo(purpose, m, h, c, d) == Ok(SUITE_BYTES + [|purpose|] + purpose + (m + h + PlaceBytes(c, d)))
  {
    InfoIs(purpose, m, h, c, d);
    var front := SUITE_BYTES + [|purpose|] + purpose;
    assert front + m + h + PlaceBytes(c, d) == front + (m + h + PlaceBytes(c, d));
  }

  lemma DerivedIsExpanded(kdf: Kdf, prk: Hash, m: Hash, h: Hash, c: Channel, d: Direction)
    ensures IsExpanded(kdf, prk, m, h, c, d, Derived(kdf, prk, m, h, c, d))
  {
    InfoWithPlace(TRAFFIC, m, h, c, d);
    InfoWithPlace(KEY, m, h, c, d);
    InfoWithPlace(IV, m, h, c, d);
    assert TRAFFIC == [116, 114, 97, 102, 102, 105, 99] && KEY == [107, 101, 121] && IV == [105, 118];
    assert |TRAFFIC| == 7 && |KEY| == 3 && |IV| == 2;
  }

  // ---------- what one derivation starts from

  /** One exporter value and one application context. */
  datatype Source = Source(exporter: seq<byte>, context: seq<byte>)

  predicate Acceptable(x: Source) {
    0 < |x.context| <= 255
  }

  function HashOf(kdf: Kdf, x: Source): Hash
    requires Acceptable(x)
  {
    ContextHash(kdf, x.context).value
  }

  function RootOf(kdf: Kdf, x: Source): Hash
    requires Acceptable(x)
  {
    RootKey(kdf, x.exporter, ManifestHash(kdf), HashOf(kdf, x))
  }

  /** `s` is what a session derives from `x`. */
  ghost predicate DerivedFrom(kdf: Kdf, x: Source, s: Secrets) {
    && Acceptable(x) && |s.traffic| == MATERIAL_COUNT
    && s.manifestHash == ManifestHash(kdf) && s.contextHash == HashOf(kdf, x)
    && forall c, d :: HoldsDerived(s.traffic, kdf, RootOf(kdf, x), s.manifestHash, s.contextHash, c, d)
  }

  /** What a session derives, byte by byte: the two hashes, the salt, and the ten expansions. */
  lemma DerivedBytes(kdf: Kdf, x: Source, s: Secrets)
    requires DerivedFrom(kdf, x, s)
    ensures 0 < |x.context| <= 255 && s.manifestHash == kdf.sha384(MANIFEST)
    ensures s.contextHash == kdf.sha384(SUITE_BYTES + s.manifestHash + [0, |x.context|] + x.context)
    ensures var prk := kdf.extract(x.exporter, kdf.sha384(SUITE_BYTES + s.manifestHash + s.contextHash));
            forall c, d :: IsExpanded(kdf, prk, s.manifestHash, s.contextHash, c, d, s.traffic[MaterialIndex(c, d)])
  {
    var m, h := s.manifestHash, s.contextHash;
    ContextInputIs(m, x.context);
    SaltInputIs(m, h);
    forall c, d
      ensures IsExpanded(kdf, RootOf(kdf, x), m, h, c, d, s.traffic[MaterialIndex(c, d)])
    {
      assert HoldsDerived(s.traffic, kdf, RootOf(kdf, x), m, h, c, d);
      DerivedIsExpanded(kdf, RootOf(kdf, x), m, h, c, d);
    }
  }

  /** No hash, extraction or expansion collides between the derivations from `x` and from `y` at one context. */
  ghost predicate Separates(kdf: Kdf, x: Source, y: Source, c: Channel, d: Direction)
    requires Acceptable(x) && Acceptable(y)
  {
    var m, hx, hy, px, py := ManifestHash(kdf), HashOf(kdf, x), HashOf(kdf, y), RootOf(kdf, x), RootOf(kdf, y);
    var kx, ky := KeyInput(kdf, px, m, hx, c, d), KeyInput(kdf, py, m, hy, c, d);
    && (hx == hy ==> ContextInput(m, x.context) == ContextInput(m, y.context))
    && (px == py ==> x.exporter == y.exporter)
    && (kx.0 == ky.0 ==> px == py)
    && (kdf.expandKey(kx.0, kx.1) == kdf.expandKey(ky.0, ky.1) ==> kx == ky)
  }

  /** Then one shared key and one shared context hash mean one exporter value and one application context. */
  lemma SharedKeyMeansSharedSource(kdf: Kdf, x: Source, y: Source, s: Secrets, t: Secrets, c: Channel, d: Direction)
    requires DerivedFrom(kdf, x, s) && DerivedFrom(kdf, y, t) && Separates(kdf, x, y, c, d)
    requires s.contextHash == t.contextHash && s.traffic[MaterialIndex(c, d)].key == t.traffic[MaterialIndex(c, d)].key
    ensures x == y
  {
    assert HoldsDerived(s.traffic, kdf, RootOf(kdf, x), s.manifestHash, s.contextHash, c, d);
    assert HoldsDerived(t.traffic, kdf, RootOf(kdf, y), t.manifestHash, t.contextHash, c, d);
    ContextInputInjective(s.manifestHash, x.context, t.manifestHash, y.context);
  }
}
