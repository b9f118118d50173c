/** One endpoint of an inner-thread session as a value, and every operation as a function on it. */
module EndpointModel {
  import opened Wrappers
  import opened Bytes
  import opened Gcm
  import opened Profile
  import opened Record

  const SOFT_RECORD_LIMIT := 0x20_0000
  const HARD_RECORD_LIMIT := 0x40_0000
  const SOFT_BYTE_LIMIT := 0x8_0000_0000
  const HARD_BYTE_LIMIT := 0x10_0000_0000

  type u64 = x: nat | x < U64

  /** What one traffic context has been used for so far. */
  datatype Usage = Usage(nextSequence: u64, records: u64, plaintextBytes: u64) {

    predicate Permits(plaintextLen: nat) {
      && plaintextLen < U64
      && records < HARD_RECORD_LIMIT
      && nextSequence < HARD_RECORD_LIMIT
      && plaintextBytes + plaintextLen < U64
      && plaintextBytes + plaintextLen <= HARD_BYTE_LIMIT
    }

    /** The usage after one more record, and whether that reached a hard limit. */
    function Consume(plaintextLen: nat): Result<(Usage, bool)> {
      if plaintextLen >= U64 || nextSequence + 1 >= U64 || records + 1 >= U64
         || plaintextBytes + plaintextLen >= U64 then
        Err(LimitReached)
      else
        var used := Usage(nextSequence + 1, records + 1, plaintextBytes + plaintextLen);
        Ok((used, used.HardLimitReached()))
    }

    predicate RefreshDue() {
      records >= SOFT_RECORD_LIMIT || plaintextBytes >= SOFT_BYTE_LIMIT
    }

    predicate HardLimitReached() {
      || nextSequence >= HARD_RECORD_LIMIT
      || records >= HARD_RECORD_LIMIT
      || plaintextBytes >= HARD_BYTE_LIMIT
    }
  }

  const UNUSED := Usage(0, 0, 0)

  datatype State = New | Committing | Active | Draining | Closed | Failed {
    predicate Terminal() {
      Closed? || Failed?
    }
  }

  type DataChannel = c: Channel | c != Guard witness Menora

  datatype OpenedRecord =
    | OpenedData(channel: DataChannel, plaintext: seq<byte>)
    | OpenedCommit
    | OpenedRefreshRequired
    | OpenedClose

  /** The content of one record, as the two histories below keep it. */
  datatype Rec = Rec(kind: RecordType, channel: Channel, sequence: nat, plaintext: seq<byte>)

  /** One use of a traffic key by the AEAD, whether it succeeds or not. */
  datatype Attempt = Sealing(channel: Channel, key: Key, nonce: Iv) | Opening(query: Query)

  /**
   * The fields of a session, followed by its history: the records it sealed with the AEAD
   * tuple of each, the records it opened, and every attempt to seal or open with a key.
   * Erasing a session leaves the history alone.
   */
  datatype Endpoint = Endpoint(
    role: Role,
    state: State,
    manifestHash: Hash,
    contextHash: Hash,
    traffic: seq<TrafficKey>,
    usage: seq<Usage>,
    localCommit: bool,
    peerCommit: bool,
    localClose: bool,
    peerClose: bool,
    sealed: seq<Rec>,
    queries: seq<Query>,
    received: seq<Rec>,
    attempts: seq<Attempt>)
  {
    ghost predicate Shaped() {
      |traffic| == MATERIAL_COUNT && |usage| == MATERIAL_COUNT && |sealed| == |queries|
    }

    function Sending(c: Channel): nat {
      MaterialIndex(c, SendDirection(role))
    }

    function Receiving(c: Channel): nat {
      MaterialIndex(c, ReceiveDirection(role))
    }

    predicate RefreshDue() {
      exists i :: 0 <= i < |usage| && usage[i].RefreshDue()
    }
  }

  /** A context without a key, an IV or a count: all bytes and all numbers are zero. */
  ghost predicate Blank(t: TrafficKey, u: Usage) {
    && (forall k :: 0 <= k < 32 ==> t.key[k] == 0) && (forall k :: 0 <= k < 12 ==> t.iv[k] == 0)
    && u.nextSequence == 0 && u.records == 0 && u.plaintextBytes == 0
  }

  function AllZeroed(): seq<TrafficKey> {
    seq(MATERIAL_COUNT, _ => ZEROED)
  }

  function AllUnused(): seq<Usage> {
    seq(MATERIAL_COUNT, _ => UNUSED)
  }

  function Fresh(role: Role, secrets: Secrets): Endpoint {
    Endpoint(role, Committing, secrets.manifestHash, secrets.contextHash, secrets.traffic, AllUnused(),
             false, false, false, false, [], [], [], [])
  }

  // ---------- shared steps

  function Erase(e: Endpoint): Endpoint {
    e.(traffic := AllZeroed(), usage := AllUnused())
  }

  /** Any error is terminal unless the session already is. */
  function Fail(e: Endpoint): Endpoint {
    if e.state.Terminal() then e else Erase(e).(state := Failed)
  }

  function TerminateIf(e: Endpoint, reached: bool): (r: Endpoint)
    ensures e.Shaped() ==> r.Shaped()
  {
    if reached then Fail(e) else e
  }

  function FinishClose(e: Endpoint): Endpoint {
    if e.localClose && e.peerClose then Erase(e).(state := Closed) else e
  }

  /** What follows the AEAD call of a seal: history, counting, and the hard limit. */
  function FinishSeal(e: Endpoint, rec: Rec, output: Result<Protected>): (r: (Endpoint, Result<seq<byte>>))
    requires e.Shaped()
    ensures r.0.Shaped()
  {
    match output
    case Err(error) => (Fail(e), Err(error))
    case Ok(protected) =>
      var index := e.Sending(rec.channel);
      var logged := e.(sealed := e.sealed + [rec], queries := e.queries + [protected.query]);
      match e.usage[index].Consume(|rec.plaintext|)
      case Err(_) => (Fail(logged), Err(LimitReached))
      case Ok((more, reached)) => (TerminateIf(logged.(usage := e.usage[index := more]), reached), Ok(protected.wire))
  }

  /** The AEAD call that sealing the next record of a channel makes. */
  function NextSealing(e: Endpoint, c: Channel): Attempt
    requires e.Shaped()
  {
    var t := e.traffic[e.Sending(c)];
    Sealing(c, t.key, Nonce(t.iv, e.usage[e.Sending(c)].nextSequence))
  }

  /** Notes a seal that gets as far as the AEAD. */
  function TrySeal(e: Endpoint, c: Channel, plaintextLen: nat): (r: Endpoint)
    requires e.Shaped()
    ensures r.Shaped()
  {
    if plaintextLen > MAX_PLAINTEXT then e else e.(attempts := e.attempts + [NextSealing(e, c)])
  }

  function SealRaw(a: Aead, e: Endpoint, kind: RecordType, c: Channel, plaintext: seq<byte>, library: Library)
    : (r: (Endpoint, Result<seq<byte>>))
    requires e.Shaped()
    ensures r.0.Shaped()
  {
    var used := e.usage[e.Sending(c)];
    if !used.Permits(|plaintext|) then (Fail(e), Err(LimitReached))
    else
      FinishSeal(TrySeal(e, c, |plaintext|), Rec(kind, c, used.nextSequence, plaintext),
                 SealRecord(a, e.traffic[e.Sending(c)], e.manifestHash, e.contextHash, SendDirection(e.role),
                            kind, c, used.nextSequence, plaintext, library))
  }

  // ---------- operations

  function EnterCommitted(e: Endpoint): Endpoint {
    e.(localCommit := true, state := if e.peerCommit then Active else e.state)
  }

  function EnterClosing(e: Endpoint): Endpoint {
    FinishClose(e.(localClose := true, state := Draining))
  }

  function Abort(e: Endpoint): Endpoint {
    Fail(e)
  }

  function SealCommit(a: Aead, e: Endpoint, library: Library): (r: (Endpoint, Result<seq<byte>>))
    requires e.Shaped()
    ensures r.0.Shaped()
  {
    if e.state != Committing || e.localCommit then (Fail(e), Err(InvalidState))
    else
      var (sent, output) := SealRaw(a, e, Commit, Guard, [], library);
      if output.Err? || sent.state == Failed then (sent, output)
      else
        (EnterCommitted(sent), output)
  }

  function SealData(a: Aead, e: Endpoint, c: DataChannel, plaintext: seq<byte>, library: Library)
    : (r: (Endpoint, Result<seq<byte>>))
    requires e.Shaped()
    ensures r.0.Shaped()
  {
    if e.state != Active then (Fail(e), Err(InvalidState))
    else if |plaintext| > MAX_PLAINTEXT then (Fail(e), Err(PlaintextTooLarge))
    else SealRaw(a, e, Data, c, plaintext, library)
  }

  function SealRefreshRequired(a: Aead, e: Endpoint, library: Library): (r: (Endpoint, Result<seq<byte>>))
    requires e.Shaped()
    ensures r.0.Shaped()
  {
    if e.state != Active then (Fail(e), Err(InvalidState))
    else SealRaw(a, e, RefreshRequired, Guard, [], library)
  }

  function SealClose(a: Aead, e: Endpoint, library: Library): (r: (Endpoint, Result<seq<byte>>))
    requires e.Shaped()
    ensures r.0.Shaped()
  {
    var allowed := e.state == Active || (e.state == Draining && e.peerClose);
    if !allowed || e.localClose then (Fail(e), Err(InvalidState))
    else
      var (sent, output) := SealRaw(a, e, Close, Guard, [], library);
      if output.Err? || sent.state == Failed then (sent, output)
      else (EnterClosing(sent), output)
  }

  predicate SemanticallyValid(h: Header) {
    match h.recordType
    case Data => h.channel != Guard
    case Commit | RefreshRequired | Close => h.channel == Guard && h.plaintextLen == 0
  }

  predicate StateValid(e: Endpoint, kind: RecordType) {
    match kind
    case Data | RefreshRequired => e.state == Active
    case Commit => e.state == Committing && !e.peerCommit
    case Close => (e.state == Active || e.state == Draining) && !e.peerClose
  }

  function ValidateIncoming(e: Endpoint, h: Header): Option<Error> {
    if !SemanticallyValid(h) then Some(InvalidRecord)
    else if !StateValid(e, h.recordType) then Some(InvalidState)
    else None
  }

  /** Everything `OpenRecord` checks before it uses a key. */
  function Precheck(e: Endpoint, input: seq<byte>): Result<Parsed>
    requires e.Shaped()
  {
    match Parse(input)
    case Err(error) => Err(error)
    case Ok(p) =>
      var used := e.usage[e.Receiving(p.header.channel)];
      match ValidateIncoming(e, p.header)
      case Some(error) => Err(error)
      case None =>
        if p.header.sequence != used.nextSequence then Err(InvalidRecord)
        else if !used.Permits(p.header.plaintextLen) then Err(LimitReached)
        else Ok(p)
  }

  /** The AEAD call that opening an accepted record makes. */
  function QueryFor(e: Endpoint, p: Parsed): Query
    requires e.Shaped()
  {
    OpenQuery(e.traffic[e.Receiving(p.header.channel)], e.manifestHash, e.contextHash, ReceiveDirection(e.role), p)
  }

  /** Notes an open that gets as far as the AEAD. */
  function TryOpen(e: Endpoint, p: Parsed): (r: Endpoint)
    requires e.Shaped()
    ensures r.Shaped()
  {
    e.(attempts := e.attempts + [Opening(QueryFor(e, p))])
  }

  /** The state change an authenticated record of each kind makes. */
  function Receive(e: Endpoint, kind: RecordType): (r: Endpoint)
    ensures e.Shaped() ==> r.Shaped()
  {
    match kind
    case Data | RefreshRequired => e
    case Commit => e.(peerCommit := true, state := if e.localCommit then Active else e.state)
    case Close => FinishClose(e.(peerClose := true, state := Draining))
  }

  function Delivered(r: Rec): OpenedRecord
    requires r.kind == Data ==> r.channel != Guard
  {
    match r.kind
    case Data => OpenedData(r.channel, r.plaintext)
    case Commit => OpenedCommit
    case RefreshRequired => OpenedRefreshRequired
    case Close => OpenedClose
  }

  /** What follows a successful AEAD open: counting, history, the state change, and the hard limit. */
  function FinishOpen(e: Endpoint, h: Header, plaintext: seq<byte>): (r: (Endpoint, Result<OpenedRecord>))
    requires e.Shaped()
    ensures r.0.Shaped()
  {
    var index := e.Receiving(h.channel);
    match e.usage[index].Consume(h.plaintextLen)
    case Err(_) => (Fail(e), Err(LimitReached))
    case Ok((more, reached)) =>
      var counted := e.(usage := e.usage[index := more]);
      if h.recordType == Data && h.channel == Guard then (Fail(counted), Err(InvalidRecord))
      else
        var rec := Rec(h.recordType, h.channel, h.sequence, plaintext);
        (TerminateIf(Receive(counted.(received := e.received + [rec]), rec.kind), reached), Ok(Delivered(rec)))
  }

  function OpenRecord(a: Aead, e: Endpoint, input: seq<byte>, library: Library): (r: (Endpoint, Result<OpenedRecord>))
    requires e.Shaped()
    ensures r.0.Shaped()
  {
    if e.state.Terminal() then (e, Err(InvalidState))
    else
      match Precheck(e, input)
      case Err(error) => (Fail(e), Err(error))
      case Ok(p) =>
        var index := e.Receiving(p.header.channel);
        var tried := TryOpen(e, p);
        match Authenticate(a, e.traffic[index], e.manifestHash, e.contextHash, ReceiveDirection(e.role), p, library)
        case Err(error) => (Fail(tried), Err(error))
        case Ok(plaintext) => FinishOpen(tried, p.header, plaintext)
  }

  // ---------- one call by the application

  datatype Op =
    | CallSealCommit
    | CallSealData(channel: DataChannel, plaintext: seq<byte>)
    | CallSealRefreshRequired
    | CallSealClose
    | CallAbort
    | CallOpen(input: seq<byte>)

  datatype Outcome = Sealed(wire: seq<byte>) | Opened(record: OpenedRecord) | Refused(error: Error) | Done

  function SealOutcome(r: Result<seq<byte>>): Outcome {
    match r
    case Ok(wire) => Sealed(wire)
    case Err(error) => Refused(error)
  }

  function OpenOutcome(r: Result<OpenedRecord>): Outcome {
    match r
    case Ok(record) => Opened(record)
    case Err(error) => Refused(error)
  }

  function Apply(a: Aead, e: Endpoint, op: Op, library: Library): (r: (Endpoint, Outcome))
    requires e.Shaped()
    ensures r.0.Shaped()
  {
    match op
    case CallSealCommit =>
      var (n, output) := SealCommit(a, e, library);
      (n, SealOutcome(output))
    case CallSealData(c, plaintext) =>
      var (n, output) := SealData(a, e, c, plaintext, library);
      (n, SealOutcome(output))
    case CallSealRefreshRequired =>
      var (n, output) := SealRefreshRequired(a, e, library);
      (n, SealOutcome(output))
    case CallSealClose =>
      var (n, output) := SealClose(a, e, library);
      (n, SealOutcome(output))
    case CallAbort => (Abort(e), Done)
    case CallOpen(input) =>
      var (n, output) := OpenRecord(a, e, input, library);
      (n, OpenOutcome(output))
  }
}
