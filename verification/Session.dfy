/** The session object: ten traffic contexts, a state and four flags, changed in place. */
module Session {
  import opened Wrappers
  import opened Bytes
  import opened Profile
  import opened Record
  import M = EndpointModel

  class Session {
    const role: Role
    const aead: Aead
    const manifestHash: Hash
    const contextHash: Hash
    const traffic: array<TrafficKey>
    const usage: array<M.Usage>
    var state: M.State
    var localCommit: bool
    var peerCommit: bool
    var localClose: bool
    var peerClose: bool

    // What this session sealed and opened, and every use of a key; `Erase` does not touch it.
    ghost var sealed: seq<M.Rec>
    ghost var queries: seq<Query>
    ghost var received: seq<M.Rec>
    ghost var attempts: seq<M.Attempt>

    ghost predicate Valid()
      reads this
    {
      traffic.Length == MATERIAL_COUNT && usage.Length == MATERIAL_COUNT && |sealed| == |queries|
    }

    /** The session as a value. */
    ghost function View(): (e: M.Endpoint)
      requires Valid()
      reads this, traffic, usage
      ensures e.Shaped()
    {
      M.Endpoint(role, state, manifestHash, contextHash, traffic[..], usage[..],
                 localCommit, peerCommit, localClose, peerClose,
                 sealed, queries, received, attempts)
    }

    constructor (role: Role, secrets: Secrets, aead: Aead)
      requires |secrets.traffic| == MATERIAL_COUNT
      ensures Valid() && fresh(traffic) && fresh(usage)
      ensures this.aead == aead && View() == M.Fresh(role, secrets)
    {
      this.role := role;
      this.aead := aead;
      manifestHash := secrets.manifestHash;
      contextHash := secrets.contextHash;
      traffic := new TrafficKey[MATERIAL_COUNT](i requires 0 <= i < MATERIAL_COUNT => secrets.traffic[i]);
      usage := new M.Usage[MATERIAL_COUNT](_ => M.UNUSED);
      state := M.Committing;
      localCommit, peerCommit, localClose, peerClose := false, false, false, false;
      sealed, queries, received, attempts := [], [], [], [];
      new;
      assert traffic[..] == secrets.traffic;
      assert usage[..] == M.AllUnused();
    }

    /** Derives all ten contexts from one exporter value and starts in `Committing`. */
    static method FromExporterEpoch(role: Role, exporter: seq<byte>, context: seq<byte>, kdf: Kdf, aead: Aead,
                                    fails: LibraryStep -> bool)
      returns (r: Result<Session>)
      ensures r.Ok? <==> 0 < |context| <= 255 && forall x: LibraryStep :: !fails(x)
      ensures r.Err? ==> r.error == if 0 < |context| <= 255 then Crypto else InvalidContext
      ensures r.Ok? ==>
                && r.value.Valid() && fresh(r.value) && r.value.aead == aead
                && var e := r.value.View();
                && var secrets := Secrets(e.manifestHash, e.contextHash, e.traffic);
                && e == M.Fresh(role, secrets) && DerivedFrom(kdf, Source(exporter, context), secrets)
      ensures r.Ok? ==>
                && r.value.manifestHash == kdf.sha384(MANIFEST)
                && r.value.contextHash == kdf.sha384([0, 24] + SUITE + r.value.manifestHash + [0, |context|] + context)
      ensures r.Ok? ==>
                var m, h := r.value.manifestHash, r.value.contextHash;
                var prk := kdf.extract(exporter, kdf.sha384([0, 24] + SUITE + m + h));
                forall c, d ::
                  var place := m + h + PlaceBytes(c, d);
                  var secret := kdf.expandSecret(
                    prk, [0, 24] + SUITE + [7] + [116, 114, 97, 102, 102, 105, 99] + place);
                  r.value.View().traffic[MaterialIndex(c, d)]
                  == TrafficKey(kdf.expandKey(secret, [0, 24] + SUITE + [3] + [107, 101, 121] + place),
                                kdf.expandIv(secret, [0, 24] + SUITE + [2] + [105, 118] + place))
    {
      if |context| == 0 || |context| > 255 {
        return Err(InvalidContext);
      }
      if fails(HashManifest) {
        return Err(Crypto);
      }
      var manifest := BuildManifest();
      var manifestHash := kdf.sha384(manifest.value);
      if fails(HashContext) {
        return Err(Crypto);
      }
      var contextHash := kdf.sha384(ContextInput(manifestHash, context).value);
      var derived := DeriveSecrets(kdf, exporter, manifestHash, contextHash, fails);
      if derived.Err? {
        SomeStepFails(fails);
        return Err(derived.error);
      }
      if fails(FetchCipher) {
        return Err(Crypto);
      }
      AllStepsWork(fails);
      DerivedBytes(kdf, Source(exporter, context), derived.value);
      var session := new Session(role, derived.value, aead);
      r := Ok(session);
    }

    /** Whether any of the ten contexts reached a soft limit. */
    method RefreshDue() returns (due: bool)
      requires Valid()
      ensures due == View().RefreshDue()
    {
      due := false;
      for i := 0 to usage.Length
        invariant due <==> exists k :: 0 <= k < i && usage[k].RefreshDue()
      {
        if usage[i].RefreshDue() {
          due := true;
        }
      }
    }

    method Erase()
      requires Valid()
      modifies traffic, usage
      ensures Valid() && View() == M.Erase(old(View()))
      ensures forall i :: 0 <= i < 10 ==> M.Blank(traffic[i], usage[i])
    {
      for i := 0 to traffic.Length
        invariant forall k :: 0 <= k < i ==> traffic[k] == ZEROED
      {
        traffic[i] := ZEROED;
      }
      for i := 0 to usage.Length
        invariant forall k :: 0 <= k < traffic.Length ==> traffic[k] == ZEROED
        invariant forall k :: 0 <= k < i ==> usage[k] == M.UNUSED
      {
        usage[i] := M.UNUSED;
      }
      assert traffic[..] == M.AllZeroed() && usage[..] == M.AllUnused();
    }

    method Fail()
      requires Valid()
      modifies this`state, traffic, usage
      ensures Valid() && View() == M.Fail(old(View()))
      ensures old(state) != M.Closed && old(state) != M.Failed ==>
                state == M.Failed && forall i :: 0 <= i < 10 ==> M.Blank(traffic[i], usage[i])
      ensures old(state) == M.Closed || old(state) == M.Failed ==>
                state == old(state) && traffic[..] == old(traffic[..]) && usage[..] == old(usage[..])
    {
      if !state.Terminal() {
        Erase();
        state := M.Failed;
      }
    }

    method Abort()
      requires Valid()
      modifies this`state, traffic, usage
      ensures Valid() && View() == M.Abort(old(View()))
      ensures old(state) != M.Closed && old(state) != M.Failed ==>
                state == M.Failed && forall i :: 0 <= i < 10 ==> M.Blank(traffic[i], usage[i])
      ensures old(state) == M.Closed || old(state) == M.Failed ==>
                state == old(state) && traffic[..] == old(traffic[..]) && usage[..] == old(usage[..])
    {
      Fail();
    }

    method TerminateIfHardLimitReached(reached: bool)
      requires Valid()
      modifies this`state, traffic, usage
      ensures Valid() && View() == M.TerminateIf(old(View()), reached)
      ensures reached && old(state) != M.Closed && old(state) != M.Failed ==>
                state == M.Failed && forall i :: 0 <= i < 10 ==> M.Blank(traffic[i], usage[i])
      ensures !(reached && old(state) != M.Closed && old(state) != M.Failed) ==>
                state == old(state) && traffic[..] == old(traffic[..]) && usage[..] == old(usage[..])
    {
      if reached && !state.Terminal() {
        Erase();
        state := M.Failed;
      }
    }

    method FinishCloseIfComplete()
      requires Valid()
      modifies this`state, traffic, usage
      ensures Valid() && View() == M.FinishClose(old(View()))
      ensures localClose && peerClose ==>
                state == M.Closed && forall i :: 0 <= i < 10 ==> M.Blank(traffic[i], usage[i])
      ensures !(localClose && peerClose) ==>
                state == old(state) && traffic[..] == old(traffic[..]) && usage[..] == old(usage[..])
    {
      if localClose && peerClose {
        Erase();
        state := M.Closed;
      }
    }

    /** Counts one record on a context. After a permitted record the overflow error cannot occur. */
    method Consume(index: nat, plaintextLen: nat) returns (r: Result<bool>)
      requires Valid() && index < MATERIAL_COUNT
      modifies usage
      ensures match old(usage[index]).Consume(plaintextLen)
              case Err(error) => r == Err(error) && usage[..] == old(usage[..])
              case Ok((more, reached)) => r == Ok(reached) && usage[..] == old(usage[..])[index := more]
    {
      var consumed := usage[index].Consume(plaintextLen);
      if consumed.Err? {
        return Err(consumed.error);
      }
      usage[index] := consumed.value.0;
      r := Ok(consumed.value.1);
    }

    /** Applies the outcome of one AEAD seal: logs and counts a protected record, or fails the session. */
    method FinishSeal(rec: M.Rec, output: Result<Protected>) returns (r: Result<seq<byte>>)
      requires Valid()
      modifies this`state, this`sealed, this`queries, traffic, usage
      ensures Valid() && (View(), r) == M.FinishSeal(old(View()), rec, output)
    {
      if output.Err? {
        Fail();
        return Err(output.error);
      }
      sealed := sealed + [rec];
      queries := queries + [output.value.query];
      var reached := Consume(MaterialIndex(rec.channel, SendDirection(role)), |rec.plaintext|);
      if reached.Err? {
        Fail();
        return Err(LimitReached);
      }
      TerminateIfHardLimitReached(reached.value);
      r := Ok(output.value.wire);
    }

    /** Notes the seal about to be made; longer plaintexts are refused before a key is used. */
    ghost method NoteSealing(channel: Channel, plaintextLen: nat)
      requires Valid()
      modifies this`attempts
      ensures Valid() && View() == M.TrySeal(old(View()), channel, plaintextLen)
    {
      var index := MaterialIndex(channel, SendDirection(role));
      if plaintextLen <= MAX_PLAINTEXT {
        attempts := attempts
          + [M.Sealing(channel, traffic[index].key, Nonce(traffic[index].iv, usage[index].nextSequence))];
      }
    }

    method SealRaw(kind: RecordType, channel: Channel, plaintext: seq<byte>, library: Library)
      returns (r: Result<seq<byte>>)
      requires Valid()
      modifies this`state, this`sealed, this`queries, this`attempts, traffic, usage
      ensures Valid() && (View(), r) == M.SealRaw(aead, old(View()), kind, channel, plaintext, library)
    {
      var direction := SendDirection(role);
      var index := MaterialIndex(channel, direction);
      var used := usage[index];
      if !used.Permits(|plaintext|) {
        Fail();
        return Err(LimitReached);
      }
      NoteSealing(channel, |plaintext|);
      var output := Seal(aead, traffic[index], manifestHash, contextHash, direction,
                         kind, channel, used.nextSequence, plaintext, library);
      r := FinishSeal(M.Rec(kind, channel, used.nextSequence, plaintext), output);
    }

    method SealCommit(library: Library) returns (r: Result<seq<byte>>)
      requires Valid()
      modifies this, traffic, usage
      ensures Valid() && (View(), r) == M.SealCommit(aead, old(View()), library)
    {
      if state != M.Committing || localCommit {
        Fail();
        return Err(InvalidState);
      }
      r := SealRaw(Commit, Guard, [], library);
      if r.Err? {
        return;
      }
      if state != M.Failed {
        localCommit := true;
        if peerCommit {
          state := M.Active;
        }
      }
    }

    method SealData(channel: M.DataChannel, plaintext: seq<byte>, library: Library) returns (r: Result<seq<byte>>)
      requires Valid()
      modifies this, traffic, usage
      ensures Valid() && (View(), r) == M.SealData(aead, old(View()), channel, plaintext, library)
    {
      if state != M.Active {
        Fail();
        return Err(InvalidState);
      }
      if |plaintext| > MAX_PLAINTEXT {
        Fail();
        return Err(PlaintextTooLarge);
      }
      r := SealRaw(Data, channel, plaintext, library);
    }

    method SealRefreshRequired(library: Library) returns (r: Result<seq<byte>>)
      requires Valid()
      modifies this, traffic, usage
      ensures Valid() && (View(), r) == M.SealRefreshRequired(aead, old(View()), library)
    {
      if state != M.Active {
        Fail();
        return Err(InvalidState);
      }
      r := SealRaw(RefreshRequired, Guard, [], library);
    }

    /** The state change a sealed Close makes. */
    method EnterClosing()
      requires Valid()
      modifies this`localClose, this`state, traffic, usage
      ensures Valid() && View() == M.EnterClosing(old(View()))
    {
      localClose := true;
      state := M.Draining;
      FinishCloseIfComplete();
    }

    method SealClose(library: Library) returns (r: Result<seq<byte>>)
      requires Valid()
      modifies this, traffic, usage
      ensures Valid() && (View(), r) == M.SealClose(aead, old(View()), library)
    {
      var allowed := state == M.Active || (state == M.Draining && peerClose);
      if !allowed || localClose {
        Fail();
        return Err(InvalidState);
      }
      r := SealRaw(Close, Guard, [], library);
      if r.Err? {
        return;
      }
      if state != M.Failed {
        EnterClosing();
      }
    }

    method ValidateIncoming(header: Header) returns (problem: Option<Error>)
      requires Valid()
      ensures problem == M.ValidateIncoming(View(), header)
    {
      var semanticallyValid := match header.recordType
        case Data => header.channel != Guard
        case Commit | RefreshRequired | Close => header.channel == Guard && header.plaintextLen == 0;
      if !semanticallyValid {
        return Some(InvalidRecord);
      }
      var stateValid := match header.recordType
        case Data | RefreshRequired => state == M.Active
        case Commit => state == M.Committing && !peerCommit
        case Close => (state == M.Active || state == M.Draining) && !peerClose;
      problem := if stateValid then None else Some(InvalidState);
    }

    /** The checks an incoming record must pass before a key is used on it. */
    method Precheck(input: seq<byte>) returns (r: Result<Parsed>)
      requires Valid()
      ensures r == M.Precheck(View(), input)
    {
      r := Parse(input);
      if r.Err? {
        return;
      }
      var header := r.value.header;
      var problem := ValidateIncoming(header);
      if problem.Some? {
        return Err(problem.value);
      }
      var used := usage[MaterialIndex(header.channel, ReceiveDirection(role))];
      if header.sequence != used.nextSequence {
        return Err(InvalidRecord);
      }
      if !used.Permits(header.plaintextLen) {
        return Err(LimitReached);
      }
    }

    /** Applies an authenticated record to the state. */
    method Receive(kind: RecordType)
      requires Valid()
      modifies this, traffic, usage
      ensures Valid() && View() == M.Receive(old(View()), kind)
    {
      match kind {
        case Data | RefreshRequired =>
        case Commit =>
          peerCommit := true;
          if localCommit {
            state := M.Active;
          }
        case Close =>
          peerClose := true;
          state := M.Draining;
          FinishCloseIfComplete();
      }
    }

    /** The answer for each type byte; data also names its channel. */
    predicate Answers(code: byte, channel: Channel, answer: M.OpenedRecord) {
      && (answer == M.OpenedCommit <==> code == 0x80)
      && (answer == M.OpenedRefreshRequired <==> code == 0x81)
      && (answer == M.OpenedClose <==> code == 0x82)
      && (answer.OpenedData? <==> code == 0x00)
      && (answer.OpenedData? ==> answer.channel == channel)
    }

    /** Counts and applies an authenticated record. */
    method FinishOpen(header: Header, plaintext: seq<byte>) returns (r: Result<M.OpenedRecord>)
      requires Valid()
      modifies this, traffic, usage
      ensures Valid() && (View(), r) == M.FinishOpen(old(View()), header, plaintext)
      ensures r.Ok? ==> Answers(TypeCode(header.recordType), header.channel, r.value)
    {
      var reached := Consume(MaterialIndex(header.channel, ReceiveDirection(role)), header.plaintextLen);
      if reached.Err? {
        Fail();
        return Err(LimitReached);
      }
      if header.recordType == Data && header.channel == Guard {
        Fail();
        return Err(InvalidRecord);
      }
      var rec := M.Rec(header.recordType, header.channel, header.sequence, plaintext);
      received := received + [rec];
      Receive(rec.kind);
      TerminateIfHardLimitReached(reached.value);
      r := Ok(match header.recordType
              case Data => M.OpenedData(header.channel, plaintext)
              case Commit => M.OpenedCommit
              case RefreshRequired => M.OpenedRefreshRequired
              case Close => M.OpenedClose);
    }

    method OpenRecord(input: seq<byte>, library: Library) returns (r: Result<M.OpenedRecord>)
      requires Valid()
      modifies this, traffic, usage
      ensures Valid() && (View(), r) == M.OpenRecord(aead, old(View()), input, library)
      ensures r.Ok? ==>
                && |input| >= 32
                && (r.value == M.OpenedCommit <==> input[1] == 0x80)
                && (r.value == M.OpenedRefreshRequired <==> input[1] == 0x81)
                && (r.value == M.OpenedClose <==> input[1] == 0x82)
                && (r.value.OpenedData? <==> input[1] == 0x00)
                && (r.value.OpenedData? ==> ChannelFromId(Value(input[2..4])) == Some(r.value.channel))
    {
      if state.Terminal() {
        return Err(InvalidState);
      }
      var parsed := Precheck(input);
      if parsed.Err? {
        Fail();
        return Err(parsed.error);
      }
      ParsedFields(input);
      var header := parsed.value.header;
      var direction := ReceiveDirection(role);
      var index := MaterialIndex(header.channel, direction);
      attempts := attempts + [M.Opening(OpenQuery(traffic[index], manifestHash, contextHash, direction, parsed.value))];
      var plaintext := OpenParsed(aead, traffic[index], manifestHash, contextHash, direction, parsed.value, library);
      if plaintext.Err? {
        Fail();
        return Err(plaintext.error);
      }
      r := FinishOpen(header, plaintext.value);
    }
  }
}
