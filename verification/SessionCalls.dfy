/**
 * What every call of a session answers and does, in terms of the bytes and values its caller sees: a reference for
 * the session that names none of its steps.
 */
module SessionCalls {
  import opened Wrappers
  import opened Bytes
  import opened Gcm
  import opened Profile
  import opened Record
  import opened EndpointModel
  import opened EndpointInvariant
  import opened EndpointRuns

  // ---------- records as bytes

  /** The channel that the two bytes of an identifier name. */
  function Named(high: byte, low: byte): Option<Channel> {
    if high == 1 && low == 45 then Some(Menora)
    else if high == 0 && low == 99 then Some(Chanukkia)
    else if high == 1 && low == 116 then Some(JomKippur)
    else if high == 0 && low == 175 then Some(Tzafah)
    else if high == 3 && low == 179 then Some(Guard)
    else None
  }

  function Pair(high: nat, low: nat): nat {
    high * 256 + low
  }

  /** The length field. */
  function Announced(input: seq<byte>): nat
    requires |input| >= 16
  {
    Pair(Pair(Pair(input[12], input[13]), input[14]), input[15])
  }

  /** One complete record: version, type, channel, number, length, and as many bytes as that announces. */
  predicate Complete(input: seq<byte>) {
    && |input| >= 32 && input[0] == 1
    && (input[1] == 0x00 || input[1] == 0x80 || input[1] == 0x81 || input[1] == 0x82)
    && Named(input[2], input[3]).Some?
    && Announced(input) <= 16384 && |input| == 32 + Announced(input)
  }

  /** `h` is what the first sixteen bytes of a record say. */
  ghost predicate Says(h: Header, input: seq<byte>) {
    && |input| >= 16 && h.encoded == input[..16]
    && TypeCode(h.recordType) == input[1] && Named(input[2], input[3]) == Some(h.channel)
    && h.sequence == Value(input[4..12]) && h.plaintextLen == Announced(input)
  }

  lemma FourBytes(s: seq<byte>)
    requires |s| == 4
    ensures Value(s) == Pair(Pair(Pair(s[0], s[1]), s[2]), s[3])
  {
    assert s[..3][..2] == s[..2] && s[..2][..1] == s[..1] && s[..1][..0] == [];
    assert Value(s[..1]) == s[0];
    assert Value(s[..2]) == Pair(s[0], s[1]);
    assert Value(s[..3]) == Pair(Pair(s[0], s[1]), s[2]);
  }

  lemma NamedIsDecoded(high: byte, low: byte)
    ensures Value([high, low]) == Pair(high, low)
    ensures ChannelFromId(Pair(high, low)) == Named(high, low)
  {
    assert [high, low][..1] == [high] && [high][..0] == [];
    assert Value([high]) == high;
  }

  lemma DecodeExactly(input: seq<byte>)
    requires |input| >= 32
    ensures Decode(input[..16]).Ok? <==>
              && input[0] == 1
              && (input[1] == 0x00 || input[1] == 0x80 || input[1] == 0x81 || input[1] == 0x82)
              && Named(input[2], input[3]).Some? && Announced(input) <= 16384
    ensures Decode(input[..16]).Ok? ==> Says(Decode(input[..16]).value, input)
    ensures Decode(input[..16]).Err? ==> Decode(input[..16]).error == InvalidRecord
  {
    var encoded := input[..16];
    assert encoded[2..4] == [input[2], input[3]];
    NamedIsDecoded(input[2], input[3]);
    assert encoded[4..12] == input[4..12];
    assert encoded[12..16] == [input[12], input[13], input[14], input[15]];
    FourBytes(encoded[12..16]);
  }

  /** Exactly the well-formed inputs parse, into just their parts. */
  lemma ParseExactly(input: seq<byte>)
    ensures Parse(input).Ok? <==> Complete(input)
    ensures Parse(input).Err? ==> Parse(input).error == InvalidRecord
    ensures Parse(input).Ok? ==>
              var p, len := Parse(input).value, Announced(input);
              Says(p.header, input) && p.ciphertext == input[16..16 + len] && p.tag == input[16 + len..]
  {
    if |input| >= 32 {
      DecodeExactly(input);
    }
  }

  // ---------- opening

  /** Data is for the four data channels; the other types are for Guard, and empty. */
  predicate Sensible(input: seq<byte>)
    requires Complete(input)
  {
    if input[1] == 0x00 then Named(input[2], input[3]) != Some(Guard)
    else Named(input[2], input[3]) == Some(Guard) && Announced(input) == 0
  }

  /** Whether the state has room for the type of a record. */
  predicate Expected(e: Endpoint, input: seq<byte>)
    requires Complete(input)
  {
    if input[1] == 0x80 then e.state == Committing && !e.peerCommit
    else if input[1] == 0x82 then (e.state == Active || e.state == Draining) && !e.peerClose
    else e.state == Active
  }

  /** Why a live session turns an input down before any key is used on it, if it does. */
  function Objection(e: Endpoint, input: seq<byte>): Option<Error> {
    if !Complete(input) || !Sensible(input) then Some(InvalidRecord)
    else if !Expected(e, input) then Some(InvalidState)
    else if Value(input[4..12]) != |OnChannel(e.received, Named(input[2], input[3]).value)| then Some(InvalidRecord)
    else None
  }

  lemma ValidatesExactly(e: Endpoint, input: seq<byte>, h: Header)
    requires Complete(input) && Says(h, input)
    ensures SemanticallyValid(h) <==> Sensible(input)
    ensures StateValid(e, h.recordType) <==> Expected(e, input)
  {
  }

  lemma PrecheckExactly(a: Aead, s: Secrets, e: Endpoint, input: seq<byte>)
    requires Inv(a, s, e) && !e.state.Terminal()
    ensures match Objection(e, input)
            case Some(error) => Precheck(e, input) == Err(error)
            case None => Precheck(e, input) == Parse(input) && Parse(input).Ok?
  {
    ParseExactly(input);
    if Complete(input) {
      var h := Parse(input).value.header;
      ValidatesExactly(e, input, h);
      ContextFits(a, s, e, h.channel, h.plaintextLen);
    }
  }

  /** What the AEAD says of a record sent to `role`. */
  function Asked(a: Aead, role: Role, s: Secrets, input: seq<byte>): Option<seq<byte>>
    requires |s.traffic| == MATERIAL_COUNT && Complete(input)
  {
    var direction: byte := if role.Client? then 1 else 0;
    var t := s.traffic[2 * Ordinal(Named(input[2], input[3]).value) + direction];
    var end := 16 + Announced(input);
    a.open(t.key, Nonce(t.iv, Value(input[4..12])),
           [0, 24] + SUITE + s.manifestHash + s.contextHash + [direction] + input[..16], input[16..end], input[end..])
  }

  lemma AskedIsOpened(a: Aead, s: Secrets, e: Endpoint, input: seq<byte>)
    requires Inv(a, s, e) && !e.state.Terminal() && Complete(input) && Parse(input).Ok?
    ensures Open(a, QueryFor(e, Parse(input).value)) == Asked(a, e.role, s, input)
  {
    ParseExactly(input);
    AadIs(e.manifestHash, e.contextHash, ReceiveDirection(e.role), input[..16]);
  }

  /** What a record tells the application. */
  function Told(input: seq<byte>, plaintext: seq<byte>): OpenedRecord
    requires Complete(input) && Sensible(input)
  {
    if input[1] == 0x80 then OpenedCommit
    else if input[1] == 0x81 then OpenedRefreshRequired
    else if input[1] == 0x82 then OpenedClose
    else OpenedData(Named(input[2], input[3]).value, plaintext)
  }

  lemma ToldIsDelivered(input: seq<byte>, h: Header, plaintext: seq<byte>)
    requires Complete(input) && Sensible(input) && Says(h, input)
    ensures h.recordType == Data ==> h.channel != Guard
    ensures Delivered(Rec(h.recordType, h.channel, h.sequence, plaintext)) == Told(input, plaintext)
  {
  }

  /** The answer of an open, from the bytes and the AEAD alone. */
  function Answered(a: Aead, s: Secrets, e: Endpoint, input: seq<byte>, library: Library): Outcome
    requires |s.traffic| == MATERIAL_COUNT
  {
    if e.state == Closed || e.state == Failed then Refused(InvalidState)
    else
      match Objection(e, input)
      case Some(error) => Refused(error)
      case None =>
        if library.Fails? then Refused(if library.error == AuthenticationFailed then AuthenticationFailed else Crypto)
        else
          match Asked(a, e.role, s, input)
          case None => Refused(AuthenticationFailed)
          case Some(plaintext) =>
            if |plaintext| != Announced(input) then Refused(AuthenticationFailed) else Opened(Told(input, plaintext))
  }

  /** The answer of an open that got as far as the AEAD. */
  function Verdict(h: Header, found: Option<seq<byte>>, library: Library): Outcome
    requires h.recordType == Data ==> h.channel != Guard
  {
    if library.Fails? then Refused(LibraryError(library))
    else
      match found
      case None => Refused(AuthenticationFailed)
      case Some(plaintext) =>
        if |plaintext| != h.plaintextLen then Refused(AuthenticationFailed)
        else Opened(Delivered(Rec(h.recordType, h.channel, h.sequence, plaintext)))
  }

  lemma AcceptedAnswer(a: Aead, e: Endpoint, input: seq<byte>, library: Library, p: Parsed) returns (outcome: Outcome)
    requires e.Shaped() && !e.state.Terminal() && Precheck(e, input) == Ok(p)
    requires e.usage[e.Receiving(p.header.channel)].Consume(p.header.plaintextLen).Ok?
    requires p.header.recordType == Data ==> p.header.channel != Guard
    ensures outcome == Apply(a, e, CallOpen(input), library).1
    ensures outcome == Verdict(p.header, Open(a, QueryFor(e, p)), library)
  {
    outcome := Apply(a, e, CallOpen(input), library).1;
  }

  lemma VerdictIsAnswered(a: Aead, s: Secrets, e: Endpoint, input: seq<byte>, library: Library, h: Header)
    requires |s.traffic| == MATERIAL_COUNT && !e.state.Terminal() && Objection(e, input).None? && Says(h, input)
    ensures h.recordType == Data ==> h.channel != Guard
    ensures Verdict(h, Asked(a, e.role, s, input), library) == Answered(a, s, e, input, library)
  {
    var found := Asked(a, e.role, s, input);
    if found.Some? {
      ToldIsDelivered(input, h, found.value);
    } else {
      ToldIsDelivered(input, h, []);
    }
  }

  lemma EndedAnswer(a: Aead, s: Secrets, e: Endpoint, input: seq<byte>, library: Library)
    requires Inv(a, s, e) && (e.state.Terminal() || Objection(e, input).Some?)
    ensures Apply(a, e, CallOpen(input), library).1 == Answered(a, s, e, input, library)
  {
    if !e.state.Terminal() {
      PrecheckExactly(a, s, e, input);
    }
  }

  lemma OpenAnswer(a: Aead, s: Secrets, e: Endpoint, input: seq<byte>, library: Library)
    requires Inv(a, s, e)
    ensures Apply(a, e, CallOpen(input), library).1 == Answered(a, s, e, input, library)
  {
    if e.state.Terminal() || Objection(e, input).Some? {
      EndedAnswer(a, s, e, input, library);
    } else {
      ParseExactly(input);
      PrecheckExactly(a, s, e, input);
      var p := Parse(input).value;
      AcceptedFits(a, s, e, input);
      AskedIsOpened(a, s, e, input);
      VerdictIsAnswered(a, s, e, input, library, p.header);
      var outcome := AcceptedAnswer(a, e, input, library, p);
    }
  }

  /** One context has carried one more record of `len` bytes, and the others have not changed. */
  predicate CountedOne(e: Endpoint, n: Endpoint, index: nat, k: nat, len: nat) {
    && |e.usage| == |n.usage| == 10 && index < 10
    && n.usage[index].nextSequence == k + 1 && n.usage[index].records == k + 1
    && n.usage[index].plaintextBytes == e.usage[index].plaintextBytes + len
    && forall i :: 0 <= i < 10 && i != index ==> n.usage[i] == e.usage[i]
  }

  /** `n` is `e` after it opened `r`; a Commit or a Close moves the state, and the session may end. */
  ghost predicate Heard(e: Endpoint, r: Rec, n: Endpoint) {
    var k := |OnChannel(e.received, r.channel)|;
    && n.Shaped() && n.received == e.received + [r]
    && n.role == e.role && n.manifestHash == e.manifestHash && n.contextHash == e.contextHash
    && n.sealed == e.sealed && n.queries == e.queries
    && n.localCommit == e.localCommit && n.localClose == e.localClose
    && n.peerCommit == (e.peerCommit || r.kind == Commit) && n.peerClose == (e.peerClose || r.kind == Close)
    && n.state == (if r.kind == Close && e.localClose then Closed
                   else if k + 1 == 4194304 then Failed
                   else if r.kind == Close then Draining
                   else if r.kind == Commit && e.localCommit then Active
                   else e.state)
    && (if n.state == Closed || n.state == Failed then forall i :: 0 <= i < 10 ==> Blank(n.traffic[i], n.usage[i])
        else
          && n.traffic == e.traffic
          && CountedOne(e, n, 2 * Ordinal(r.channel) + (if e.role.Client? then 1 else 0), k, |r.plaintext|))
  }

  lemma GotCounts(e: Endpoint, r: Rec)
    requires e.Shaped() && e.usage[e.Receiving(r.channel)].Consume(|r.plaintext|).Ok?
    requires var u, k := e.usage[e.Receiving(r.channel)], |OnChannel(e.received, r.channel)|;
             u.nextSequence == k && u.records == k
    ensures CountedOne(e, Got(e, r), 2 * Ordinal(r.channel) + (if e.role.Client? then 1 else 0),
                       |OnChannel(e.received, r.channel)|, |r.plaintext|)
  {
  }

  /** Where a record leaves the state before the limit is looked at. */
  function Moved(e: Endpoint, kind: RecordType): State {
    if kind == Close && e.localClose then Closed
    else if kind == Close then Draining
    else if kind == Commit && e.localCommit then Active
    else e.state
  }

  lemma ReceiveMoves(e: Endpoint, kind: RecordType)
    requires e.Shaped() && !e.state.Terminal()
    ensures var n := Receive(e, kind);
            && n == e.(state := n.state, peerCommit := n.peerCommit, peerClose := n.peerClose,
                       traffic := n.traffic, usage := n.usage)
            && n.peerCommit == (e.peerCommit || kind == Commit) && n.peerClose == (e.peerClose || kind == Close)
            && n.state == Moved(e, kind)
            && if n.state == Closed then Erased(n) else n.traffic == e.traffic && n.usage == e.usage
  {
  }

  lemma TerminateMoves(e: Endpoint, reached: bool)
    requires e.Shaped() && e.state != Failed
    ensures var n := TerminateIf(e, reached);
            && n == e.(state := n.state, traffic := n.traffic, usage := n.usage)
            && n.state == (if reached && e.state != Closed then Failed else e.state)
            && if n.state == Failed then Erased(n) else n == e
  {
  }

  lemma AfterOpenFields(e: Endpoint, r: Rec)
    requires e.Shaped() && !e.state.Terminal()
    requires var u, k := e.usage[e.Receiving(r.channel)], |OnChannel(e.received, r.channel)|;
             && u.nextSequence == k && u.records == k && u.Consume(|r.plaintext|).Ok?
             && (u.Consume(|r.plaintext|).value.1 <==> k + 1 == 4194304)
    ensures Heard(e, r, AfterOpen(e, r))
  {
    var got := Got(e, r);
    GotCounts(e, r);
    ReceiveMoves(got, r.kind);
    TerminateMoves(Receive(got, r.kind), e.usage[e.Receiving(r.channel)].Consume(|r.plaintext|).value.1);
    var n := AfterOpen(e, r);
    if n.state.Terminal() {
      ErasedIsBlank(n);
    }
  }

  /** The record that an accepted input is taken as. */
  ghost predicate TakenAs(e: Endpoint, input: seq<byte>, plaintext: seq<byte>, r: Rec)
    requires Complete(input)
  {
    && TypeCode(r.kind) == input[1] && Named(input[2], input[3]) == Some(r.channel)
    && r.sequence == Value(input[4..12]) == |OnChannel(e.received, r.channel)| && r.plaintext == plaintext
  }

  /** What an open that answers with a record does. */
  lemma OpenEffect(a: Aead, s: Secrets, e: Endpoint, input: seq<byte>, library: Library)
    returns (n: Endpoint, r: Rec)
    requires Inv(a, s, e) && Answered(a, s, e, input, library).Opened?
    ensures n == Apply(a, e, CallOpen(input), library).0
    ensures Objection(e, input).None? && Asked(a, e.role, s, input).Some?
    ensures TakenAs(e, input, Asked(a, e.role, s, input).value, r)
    ensures Heard(e.(attempts := n.attempts), r, n) && |n.attempts| == |e.attempts| + 1
  {
    OpenAnswer(a, s, e, input, library);
    ParseExactly(input);
    PrecheckExactly(a, s, e, input);
    var p := Parse(input).value;
    AcceptedFits(a, s, e, input);
    AskedIsOpened(a, s, e, input);
    var output;
    n, output := OpenUnfolded(a, e, input, library);
    r := OpenedRec(p, Asked(a, e.role, s, input).value);
    ContextFits(a, s, e, r.channel, |r.plaintext|);
    AfterOpenFields(TryOpen(e, p), r);
    AfterOpenKeeps(TryOpen(e, p), r);
  }

  /** What a refused open does: nothing in an ended session, and the end of a live one. */
  lemma RefusedEffect(a: Aead, s: Secrets, e: Endpoint, input: seq<byte>, library: Library) returns (n: Endpoint)
    requires Inv(a, s, e) && Answered(a, s, e, input, library).Refused?
    ensures n == Apply(a, e, CallOpen(input), library).0 && Stopped(e, n)
  {
    var outcome;
    OpenAnswer(a, s, e, input, library);
    n, outcome := OpenCall(a, s, e, input, library);
    ErasedIsBlank(n);
  }

  /** The session ended with an error, or had ended before. */
  ghost predicate Stopped(e: Endpoint, n: Endpoint) {
    && Ended(e.(attempts := n.attempts), n)
    && n.state == if e.state == Closed || e.state == Failed then e.state else Failed
  }

  // ---------- sealing

  function CodeOf(op: Op): byte
    requires IsSeal(op)
  {
    if op.CallSealCommit? then 0x80 else if op.CallSealRefreshRequired? then 0x81
    else if op.CallSealClose? then 0x82 else 0x00
  }

  function LineOf(op: Op): Channel {
    if op.CallSealData? then op.channel else Guard
  }

  function TextOf(op: Op): seq<byte> {
    if op.CallSealData? then op.plaintext else []
  }

  /** What the state asks of a sealing call. */
  predicate InPlace(e: Endpoint, op: Op)
    requires IsSeal(op)
  {
    if op.CallSealCommit? then e.state == Committing && !e.localCommit
    else if op.CallSealClose? then (e.state == Active || (e.state == Draining && e.peerClose)) && !e.localClose
    else e.state == Active
  }

  /** Header, ciphertext and tag of record `k` that `role` sends on a channel. */
  function Printed(a: Aead, role: Role, s: Secrets, code: byte, c: Channel, k: nat, text: seq<byte>)
    : (seq<byte>, seq<byte>, Tag)
    requires |s.traffic| == MATERIAL_COUNT
  {
    var direction: byte := if role.Client? then 0 else 1;
    var t := s.traffic[2 * Ordinal(c) + direction];
    var header := [1, code, ChannelId(c) / 256, ChannelId(c) % 256] + BigEndian(k, 8) + BigEndian(|text|, 4);
    var (ciphertext, tag) := a.seal(
      t.key, Nonce(t.iv, k), [0, 24] + SUITE + s.manifestHash + s.contextHash + [direction] + header, text);
    (header, ciphertext, tag)
  }

  /** The answer of a sealing call, from the state, the values given and the AEAD alone. */
  function SealAnswered(a: Aead, s: Secrets, e: Endpoint, op: Op, library: Library): Outcome
    requires |s.traffic| == MATERIAL_COUNT && IsSeal(op)
  {
    if !InPlace(e, op) then Refused(InvalidState)
    else if |TextOf(op)| > 16384 then Refused(PlaintextTooLarge)
    else
      var (header, ciphertext, tag) :=
        Printed(a, e.role, s, CodeOf(op), LineOf(op), |OnChannel(e.sealed, LineOf(op))|, TextOf(op));
      if library.Fails? || |ciphertext| != |TextOf(op)| then Refused(Crypto) else Sealed(header + ciphertext + tag)
  }

  lemma HeaderIs(kind: RecordType, c: Channel, k: nat, len: nat)
    ensures Encode(kind, c, k, len)
            == [1, TypeCode(kind), ChannelId(c) / 256, ChannelId(c) % 256] + BigEndian(k, 8) + BigEndian(len, 4)
  {
    EncodedFlat(kind, c, k, len);
    TwoBytes(ChannelId(c));
  }

  lemma TupleIsPrinted(a: Aead, role: Role, s: Secrets, r: Rec)
    requires |s.traffic| == MATERIAL_COUNT && |r.plaintext| <= MAX_PLAINTEXT
    ensures var (header, ciphertext, tag) :=
              Printed(a, role, s, TypeCode(r.kind), r.channel, r.sequence, r.plaintext);
            var p := TupleFor(a, role, s, r);
            p.wire == header + ciphertext + tag && p.query.ciphertext == ciphertext
  {
    HeaderIs(r.kind, r.channel, r.sequence, |r.plaintext|);
    AadIs(s.manifestHash, s.contextHash, SendDirection(role),
          Encode(r.kind, r.channel, r.sequence, |r.plaintext|));
  }

  lemma SealedRecIs(e: Endpoint, op: Op)
    requires IsSeal(op)
    ensures var r := SealedRec(e, op);
            && TypeCode(r.kind) == CodeOf(op) && r.channel == LineOf(op) && r.plaintext == TextOf(op)
            && r.sequence == |OnChannel(e.sealed, LineOf(op))|
    ensures SealAllowed(e, op) <==> InPlace(e, op) && |TextOf(op)| <= 16384
  {
  }

  lemma RecordOutcome(a: Aead, t: TrafficKey, m: Hash, h: Hash, d: Direction, kind: RecordType, c: Channel,
                      sequence: nat, text: seq<byte>, library: Library)
    requires |text| <= MAX_PLAINTEXT
    ensures var p := Protect(a, t, m, h, d, HeaderFor(kind, c, sequence, |text|).value, text);
            SealRecord(a, t, m, h, d, kind, c, sequence, text, library)
            == if library.Fails? || |p.query.ciphertext| != |text| then Err(Crypto) else Ok(p)
  {
  }

  /** What a permitted raw seal answers. */
  lemma RawOutcome(a: Aead, s: Secrets, e: Endpoint, r: Rec, library: Library)
    requires e.Shaped() && |s.traffic| == MATERIAL_COUNT && |r.plaintext| <= MAX_PLAINTEXT
    requires e.traffic == s.traffic && e.manifestHash == s.manifestHash && e.contextHash == s.contextHash
    requires var u := e.usage[e.Sending(r.channel)];
             u.Permits(|r.plaintext|) && u.Consume(|r.plaintext|).Ok? && u.nextSequence == r.sequence
    ensures var p := TupleFor(a, e.role, s, r);
            SealRaw(a, e, r.kind, r.channel, r.plaintext, library).1
            == if library.Fails? || |p.query.ciphertext| != |r.plaintext| then Err(Crypto) else Ok(p.wire)
  {
    RecordOutcome(a, e.traffic[e.Sending(r.channel)], e.manifestHash, e.contextHash, SendDirection(e.role),
                  r.kind, r.channel, r.sequence, r.plaintext, library);
  }

  lemma ForbiddenAnswer(a: Aead, e: Endpoint, op: Op, library: Library)
    requires e.Shaped() && IsSeal(op) && !SealAllowed(e, op)
    ensures Apply(a, e, op, library).1 == Refused(if InPlace(e, op) then PlaintextTooLarge else InvalidState)
  {
  }

  lemma SealAnswer(a: Aead, s: Secrets, e: Endpoint, op: Op, library: Library)
    requires Inv(a, s, e) && IsSeal(op)
    ensures Apply(a, e, op, library).1 == SealAnswered(a, s, e, op, library)
  {
    SealedRecIs(e, op);
    if SealAllowed(e, op) {
      var r := SealedRec(e, op);
      AllowedFollows(a, s, e, op);
      SendingFits(a, s, e, r.channel, |r.plaintext|);
      RawOutcome(a, s, e, r, library);
      TupleIsPrinted(a, e.role, s, r);
      AllowedUnfolded(a, e, op, library);
    } else {
      ForbiddenAnswer(a, e, op, library);
    }
  }

  /** `n` is `e` after it sealed `r`; a Commit or a Close moves the state unless the record was the last one allowed. */
  ghost predicate SentOff(e: Endpoint, r: Rec, n: Endpoint) {
    var k := |OnChannel(e.sealed, r.channel)|;
    var last := k + 1 == 4194304;
    && n.Shaped() && n.sealed == e.sealed + [r] && n.received == e.received
    && n.role == e.role && n.manifestHash == e.manifestHash && n.contextHash == e.contextHash
    && n.peerCommit == e.peerCommit && n.peerClose == e.peerClose
    && n.localCommit == (e.localCommit || (r.kind == Commit && !last))
    && n.localClose == (e.localClose || (r.kind == Close && !last))
    && n.state == (if last then Failed
                   else if r.kind == Commit then if e.peerCommit then Active else Committing
                   else if r.kind == Close then if e.peerClose then Closed else Draining
                   else Active)
    && (if n.state == Closed || n.state == Failed then forall i :: 0 <= i < 10 ==> Blank(n.traffic[i], n.usage[i])
        else
          && n.traffic == e.traffic
          && CountedOne(e, n, 2 * Ordinal(r.channel) + (if e.role.Client? then 0 else 1), k, |r.plaintext|))
  }

  /** A raw seal that succeeded, without the AEAD. */
  ghost predicate RawSent(e: Endpoint, r: Rec, n: Endpoint)
    requires e.Shaped() && e.usage[e.Sending(r.channel)].Consume(|r.plaintext|).Ok?
  {
    var (used, reached) := e.usage[e.Sending(r.channel)].Consume(|r.plaintext|).value;
    && n.Shaped() && |n.queries| == |e.queries| + 1
    && n == TerminateIf(e.(sealed := e.sealed + [r], queries := n.queries, attempts := n.attempts,
                           usage := e.usage[e.Sending(r.channel) := used]), reached)
  }

  lemma RawIsSent(a: Aead, s: Secrets, e: Endpoint, r: Rec, n: Endpoint, output: Result<seq<byte>>)
    requires e.Shaped() && |s.traffic| == MATERIAL_COUNT && |r.plaintext| <= MAX_PLAINTEXT
    requires e.usage[e.Sending(r.channel)].Consume(|r.plaintext|).Ok?
    requires SealResult(a, s, e, r, n, output) && output.Ok?
    ensures RawSent(e, r, n) && n.attempts == e.attempts + [NextSealing(e, r.channel)]
  {
  }

  lemma EnterMoves(op: Op, e: Endpoint)
    requires IsSeal(op) && e.Shaped() && !e.state.Terminal()
    ensures var n := Enter(op, e);
            && n == e.(state := n.state, localCommit := n.localCommit, localClose := n.localClose,
                       traffic := n.traffic, usage := n.usage)
            && n.localCommit == (e.localCommit || op.CallSealCommit?)
            && n.localClose == (e.localClose || op.CallSealClose?)
            && n.state == (if op.CallSealCommit? && e.peerCommit then Active
                           else if op.CallSealClose? then if e.peerClose then Closed else Draining
                           else e.state)
            && if n.state == Closed then Erased(n) else n.traffic == e.traffic && n.usage == e.usage
  {
  }

  lemma SentFields(e: Endpoint, op: Op, m: Endpoint, n: Endpoint)
    requires IsSeal(op) && e.Shaped() && SealAllowed(e, op)
    requires var r := SealedRec(e, op);
             var u, k := e.usage[e.Sending(r.channel)], |OnChannel(e.sealed, r.channel)|;
             && u.nextSequence == k && u.records == k && u.Consume(|r.plaintext|).Ok?
             && (u.Consume(|r.plaintext|).value.1 <==> k + 1 == 4194304)
             && RawSent(e, r, m) && n == if m.state == Failed then m else Enter(op, m)
    ensures SentOff(e, SealedRec(e, op), n)
  {
    var r := SealedRec(e, op);
    var (used, reached) := e.usage[e.Sending(r.channel)].Consume(|r.plaintext|).value;
    TerminateMoves(e.(sealed := e.sealed + [r], queries := m.queries, attempts := m.attempts,
                      usage := e.usage[e.Sending(r.channel) := used]), reached);
    if !m.state.Terminal() {
      EnterMoves(op, m);
    }
    if n.state.Terminal() {
      ErasedIsBlank(n);
    }
  }

  /** What a sealing call that answers with a record does. */
  lemma SealEffect(a: Aead, s: Secrets, e: Endpoint, op: Op, library: Library) returns (n: Endpoint)
    requires Inv(a, s, e) && IsSeal(op) && SealAnswered(a, s, e, op, library).Sealed?
    ensures n == Apply(a, e, op, library).0 && SentOff(e, SealedRec(e, op), n)
  {
    var r := SealedRec(e, op);
    SealedRecIs(e, op);
    SealAnswer(a, s, e, op, library);
    AllowedFollows(a, s, e, op);
    SendingFits(a, s, e, r.channel, |r.plaintext|);
    ContextFits(a, s, e, r.channel, |r.plaintext|);
    SealRawUnfolded(a, s, e, r.kind, r.channel, r.plaintext, library);
    AllowedUnfolded(a, e, op, library);
    var (m, output) := SealRaw(a, e, r.kind, r.channel, r.plaintext, library);
    RawIsSent(a, s, e, r, m, output);
    n := Apply(a, e, op, library).0;
    SentFields(e, op, m, n);
  }

  lemma RefusedSealEffect(a: Aead, s: Secrets, e: Endpoint, op: Op, library: Library) returns (n: Endpoint)
    requires Inv(a, s, e) && IsSeal(op) && SealAnswered(a, s, e, op, library).Refused?
    ensures n == Apply(a, e, op, library).0 && Stopped(e, n)
  {
    n := Apply(a, e, op, library).0;
    SealAnswer(a, s, e, op, library);
    SealStep(a, s, e, op, library);
    ErasedIsBlank(n);
  }

  // ---------- on every run

  /** What a sealing call answers, and the session after it. */
  ghost predicate SealDone(a: Aead, s: Secrets, e: Endpoint, op: Op, library: Library, n: Endpoint, outcome: Outcome)
    requires |s.traffic| == MATERIAL_COUNT && IsSeal(op)
  {
    && outcome == SealAnswered(a, s, e, op, library)
    && if outcome.Refused? then Stopped(e, n)
       else
         && n.sealed != []
         && var r := n.sealed[|n.sealed| - 1];
         && TypeCode(r.kind) == CodeOf(op) && r.channel == LineOf(op) && r.plaintext == TextOf(op)
         && r.sequence == |OnChannel(e.sealed, r.channel)| && SentOff(e, r, n)
  }

  lemma SealDoneAt(a: Aead, s: Secrets, e: Endpoint, op: Op, library: Library) returns (n: Endpoint, outcome: Outcome)
    requires Inv(a, s, e) && IsSeal(op)
    ensures (n, outcome) == Apply(a, e, op, library) && SealDone(a, s, e, op, library, n, outcome)
  {
    SealAnswer(a, s, e, op, library);
    SealedRecIs(e, op);
    outcome := Apply(a, e, op, library).1;
    if SealAnswered(a, s, e, op, library).Sealed? {
      n := SealEffect(a, s, e, op, library);
    } else {
      n := RefusedSealEffect(a, s, e, op, library);
    }
  }

  /**
   * On every run a sealing call answers with the bytes of the next record of its context exactly if the state is right,
   * the text short enough and the library works; otherwise it says why, and ends a live session.
   */
  lemma SealDoes(a: Aead, role: Role, s: Secrets, calls: seq<Call>, op: Op, library: Library)
    requires |s.traffic| == MATERIAL_COUNT && IsSeal(op)
    ensures var e := Exec(a, Fresh(role, s), calls);
            var (n, outcome) := Apply(a, e, op, library);
            SealDone(a, s, e, op, library, n, outcome)
  {
    RunInv(a, role, s, calls);
    var n, outcome := SealDoneAt(a, s, Exec(a, Fresh(role, s), calls), op, library);
  }

  /** What an open answers, and the session after it. */
  ghost predicate OpenDone(a: Aead, s: Secrets, e: Endpoint, input: seq<byte>, library: Library, n: Endpoint,
                           outcome: Outcome)
    requires |s.traffic| == MATERIAL_COUNT
  {
    && outcome == Answered(a, s, e, input, library)
    && if outcome.Refused? then Stopped(e, n)
       else
         && Complete(input) && Asked(a, e.role, s, input).Some? && n.received != []
         && var r := n.received[|n.received| - 1];
         TakenAs(e, input, Asked(a, e.role, s, input).value, r) && Heard(e.(attempts := n.attempts), r, n)
  }

  lemma OpenedDone(a: Aead, s: Secrets, e: Endpoint, input: seq<byte>, library: Library, n: Endpoint, r: Rec)
    requires |s.traffic| == MATERIAL_COUNT && Answered(a, s, e, input, library).Opened?
    requires Complete(input) && Asked(a, e.role, s, input).Some?
    requires TakenAs(e, input, Asked(a, e.role, s, input).value, r) && Heard(e.(attempts := n.attempts), r, n)
    ensures OpenDone(a, s, e, input, library, n, Answered(a, s, e, input, library))
  {
  }

  lemma OpenDoneAt(a: Aead, s: Secrets, e: Endpoint, input: seq<byte>, library: Library)
    returns (n: Endpoint, outcome: Outcome)
    requires Inv(a, s, e)
    ensures (n, outcome) == Apply(a, e, CallOpen(input), library)
    ensures OpenDone(a, s, e, input, library, n, outcome)
  {
    OpenAnswer(a, s, e, input, library);
    outcome := Apply(a, e, CallOpen(input), library).1;
    if Answered(a, s, e, input, library).Opened? {
      var r;
      n, r := OpenEffect(a, s, e, input, library);
      OpenedDone(a, s, e, input, library, n, r);
    } else {
      n := RefusedEffect(a, s, e, input, library);
    }
  }

  /**
   * On every run an open answers as the bytes of its input, the state and the AEAD say; it takes an authentic record,
   * and anything else ends a live session.
   */
  lemma OpenDoes(a: Aead, role: Role, s: Secrets, calls: seq<Call>, input: seq<byte>, library: Library)
    requires |s.traffic| == MATERIAL_COUNT
    ensures var e := Exec(a, Fresh(role, s), calls);
            var (n, outcome) := Apply(a, e, CallOpen(input), library);
            OpenDone(a, s, e, input, library, n, outcome)
  {
    RunInv(a, role, s, calls);
    var n, outcome := OpenDoneAt(a, s, Exec(a, Fresh(role, s), calls), input, library);
  }

  /** On every run the answer of an open names the type of its input: four type bytes, four answers. */
  lemma AnswerNamesTheRecord(a: Aead, role: Role, s: Secrets, calls: seq<Call>, input: seq<byte>, library: Library)
    requires |s.traffic| == MATERIAL_COUNT
    requires Apply(a, Exec(a, Fresh(role, s), calls), CallOpen(input), library).1.Opened?
    ensures var x := Apply(a, Exec(a, Fresh(role, s), calls), CallOpen(input), library).1.record;
            && |input| >= 32
            && (x == OpenedCommit <==> input[1] == 0x80)
            && (x == OpenedRefreshRequired <==> input[1] == 0x81)
            && (x == OpenedClose <==> input[1] == 0x82)
            && (x.OpenedData? <==> input[1] == 0x00)
            && (x.OpenedData? ==> Named(input[2], input[3]) == Some(x.channel) && |x.plaintext| == |input| - 32)
  {
    OpenDoes(a, role, s, calls, input, library);
  }
}
