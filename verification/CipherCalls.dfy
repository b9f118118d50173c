/**
 * What every provider call answers and does, in terms of its arguments, the fields of the context and the answers of
 * the external calls: a reference for the outer cipher that names none of its steps.
 */
module CipherCalls {
  import opened Wrappers
  import opened Bytes
  import opened Gcm
  import opened CipherModel
  import opened CipherInvariant

  /** The manifest as documented: a name, a version, four data entries, and one control entry. */
  lemma ManifestIsDocumented()
    ensures |MANIFEST| == 32
    ensures MANIFEST == [71, 51, 48, 49, 45, 84, 76, 83, 49, 51, 45, 65, 69, 65, 68] + [1] + [4]
                        + ([1] + BigEndian(301, 2)) + ([1] + BigEndian(99, 2)) + ([1] + BigEndian(372, 2))
                        + ([1] + BigEndian(175, 2)) + ([2] + BigEndian(947, 2))
  {
    TwoBytes(301);
    TwoBytes(99);
    TwoBytes(372);
    TwoBytes(175);
    TwoBytes(947);
  }

  // ---------- init

  /**
   * An init that reaches the inner cipher: the right lengths, no forbidden or repeated name, the fixed length fields,
   * an IV only with a key or a valid one in place, and a tag only for decrypting, well formed, beside such an IV.
   */
  predicate Sound(c: Ctx, args: InitArgs, encrypt: bool) {
    && args.keyLen == (if args.key.Some? then 32 else 0)
    && args.ivLen == (if args.iv.Some? then 12 else 0)
    && !args.params.forbidden && !args.params.duplicate && args.params.lengthsOk
    && (args.iv.Some? ==> args.key.Some? || c.keyValid)
    && (args.params.tag.Some? ==> args.params.tag.value.wellFormed && !encrypt && args.iv.Some?)
  }

  /** An init turned away only because its IV finds no key. */
  predicate LacksKey(c: Ctx, args: InitArgs, encrypt: bool) {
    && args.iv.Some? && args.key.None? && !c.keyValid && args.params.tag.None?
    && args.keyLen == 0 && args.ivLen == 12
    && !args.params.forbidden && !args.params.duplicate && args.params.lengthsOk
  }

  predicate Turns(c: Ctx, encrypt: bool) {
    c.directionSet && c.encrypt != encrypt
  }

  /** A turned-away init makes no external call; a tag or a new direction forgets the tag, both or a key the record. */
  ghost predicate TurnedAwayDone(c: Ctx, args: InitArgs, encrypt: bool, n: Ctx, answer: Answer) {
    var tag, turns := args.params.tag.Some?, Turns(c, encrypt);
    var drops := tag && (args.key.Some? || turns);
    && answer == Answer(false, [], None)
    && n == c.(log := Then(c.log, Returned(Init(args, encrypt), answer)),
               phase := if drops then NoRecord else c.phase,
               payloadStarted := c.payloadStarted && !drops,
               decryptTagCurrent := c.decryptTagCurrent && !tag && (!turns || LacksKey(c, args, encrypt)))
  }

  /** The key whose use an init is about differs from the one last recorded. */
  predicate NewKey(w: WriteKey, key: Option<Key>) {
    key.Some? && (!w.currentKeyValid || w.currentKey != key.value)
  }

  /** Whether an init must take the lock to install its key for encryption. */
  predicate MustLock(c: Ctx, args: InitArgs, encrypt: bool) {
    encrypt && args.iv.Some? && (!c.write.usageKeyValid || c.write.currentKeyChanged || NewKey(c.write, args.key))
  }

  /** The write key after an init: recorded if the key got that far, installed if the record was opened. */
  function WriteAfter(w: WriteKey, key: Option<Key>, recorded: bool, installs: bool, locks: bool): WriteKey {
    var current := if recorded && key.Some? then key.value else w.currentKey;
    var begins := installs && locks && !(w.usageKeyValid && w.usageKey == current);
    WriteKey(current,
             w.currentKeyValid || (recorded && key.Some?),
             (w.currentKeyChanged || (recorded && NewKey(w, key))) && !installs,
             if begins then current else w.usageKey,
             w.usageKeyValid || begins,
             if begins then 0 else w.encryptedRecords,
             w.usageExhausted && !begins,
             w.recordReserved && !installs)
  }

  /** A sound init: which external calls it makes, when it succeeds, and every field after it. */
  ghost predicate SoundDone(s: Script, c: Ctx, args: InitArgs, encrypt: bool, n: Ctx, answer: Answer) {
    var k := External(c.log);
    var lock := k + 1 + (if args.key.Some? then 1 else 0);
    var accepted := s(k).ok;
    var recorded := accepted && (args.key.Some? ==> s(k + 1).ok);
    var locks := recorded && MustLock(c, args, encrypt);
    var done := recorded && (locks ==> s(lock).ok);
    var tag := if args.params.tag.Some? then Some(args.params.tag.value.value) else None;
    var log0 := Then(c.log, InnerInit(args.key, args.iv, encrypt, args.params.ivLen, tag, accepted));
    var log1 := if accepted && args.key.Some? then Then(log0, WriteLock(s(k + 1).ok)) else log0;
    var log2 := if locks then Then(log1, WriteLock(s(lock).ok)) else log1;
    && answer == Answer(done, [], None)
    && n.log == Then(log2, Returned(Init(args, encrypt), answer))
    && n.encrypt == (if recorded then encrypt else c.encrypt)
    && n.directionSet == (c.directionSet || recorded)
    && n.keyValid == (if args.key.Some? then recorded else c.keyValid)
    && n.phase == (if done && args.iv.Some? then ManifestPending else NoRecord)
    && n.needsReinit == (if done then c.needsReinit && args.iv.None? else true)
    && n.decryptTagCurrent == (done && args.iv.Some? && !encrypt && args.params.tag.Some?)
    && !n.payloadStarted && n.recordLimit == c.recordLimit
    && n.write == WriteAfter(c.write, args.key, recorded, done && encrypt && args.iv.Some?, locks)
  }

  lemma MalformedIs(c: Ctx, args: InitArgs, encrypt: bool)
    ensures Sound(c, args, encrypt) <==>
              !Malformed(c, args, encrypt) && !(args.iv.Some? && args.key.None? && !c.keyValid)
    ensures LacksKey(c, args, encrypt) <==>
              !Malformed(c, args, encrypt) && args.iv.Some? && args.key.None? && !c.keyValid
  {
  }

  lemma TurnedAwayIs(s: Script, c: Ctx, args: InitArgs, encrypt: bool)
    requires !Sound(c, args, encrypt)
    ensures var (n, answer) := Apply(s, c, Init(args, encrypt));
            TurnedAwayDone(c, args, encrypt, n, answer)
  {
    MalformedIs(c, args, encrypt);
  }

  /** What the inner cipher has accepted, before the key is recorded. */
  ghost predicate Called(c: Ctx, args: InitArgs, n: Ctx) {
    && n.write == c.write && n.encrypt == c.encrypt && n.directionSet == c.directionSet
    && n.recordLimit == c.recordLimit && n.needsReinit == c.needsReinit
    && n.keyValid == (args.key.None? && c.keyValid)
  }

  lemma PreparedIsCalled(c: Ctx, args: InitArgs, encrypt: bool, event: Event)
    ensures var n := Note(Prepared(ForgetTag(c, args.params), args, encrypt), event);
            Called(c, args, n) && n.log == Then(c.log, event)
  {
  }

  lemma RecordIs(s: Script, c: Ctx, key: Key)
    ensures var (n, ok) := RecordCurrentKey(s, c, key);
            && ok == Next(s, c).ok
            && n == c.(log := Then(c.log, WriteLock(ok)), write := WriteAfter(c.write, Some(key), ok, false, false))
  {
  }

  lemma InstallIs(s: Script, c: Ctx)
    requires c.write.currentKeyValid
    ensures var locks := !c.write.usageKeyValid || c.write.currentKeyChanged;
            var (n, ok) := InstallWriteKey(s, c);
            && ok == (locks ==> Next(s, c).ok)
            && n == c.(log := if locks then Then(c.log, WriteLock(ok)) else c.log,
                       write := if ok then WriteAfter(c.write, None, true, true, locks) else c.write)
  {
  }

  /** The end of an init: a record with an IV, none without, and no record where the install failed. */
  lemma OpenIs(s: Script, c: Ctx, args: InitArgs)
    requires args.iv.Some? && c.encrypt ==> c.write.currentKeyValid
    ensures var installs := args.iv.Some? && c.encrypt;
            var locks := installs && (!c.write.usageKeyValid || c.write.currentKeyChanged);
            var (n, ok) := OpenRecord(s, c, args);
            && ok == (locks ==> Next(s, c).ok)
            && n == c.(log := if locks then Then(c.log, WriteLock(ok)) else c.log,
                       write := if ok && installs then WriteAfter(c.write, None, true, true, locks) else c.write,
                       phase := if ok && args.iv.Some? then ManifestPending else NoRecord,
                       payloadStarted := false,
                       needsReinit := if ok then c.needsReinit && args.iv.None? else true,
                       decryptTagCurrent := ok && args.iv.Some? && !c.encrypt && args.params.tag.Some?)
  {
    if args.iv.Some? && c.encrypt {
      InstallIs(s, c);
    }
  }

  lemma WriteComposes(w: WriteKey, key: Option<Key>, locks: bool)
    ensures WriteAfter(WriteAfter(w, key, true, false, false), None, true, true, locks)
            == WriteAfter(w, key, true, true, locks)
    ensures WriteAfter(w, key, false, false, locks) == w
    ensures WriteAfter(w, None, true, false, locks) == w
    ensures WriteAfter(w, key, true, false, locks) == WriteAfter(w, key, true, false, false)
  {
  }

  lemma RefusedInnerIs(s: Script, c: Ctx, args: InitArgs, encrypt: bool)
    requires Sound(c, args, encrypt) && !Next(s, c).ok
    ensures var (n, answer) := Apply(s, c, Init(args, encrypt));
            SoundDone(s, c, args, encrypt, n, answer)
  {
    MalformedIs(c, args, encrypt);
    PreparedIsCalled(c, args, encrypt, InnerInitOf(args, encrypt, false));
    WriteComposes(c.write, args.key, false);
  }

  lemma AcceptedWithoutKey(s: Script, c: Ctx, p: Ctx, args: InitArgs, encrypt: bool) returns (n: Ctx, ok: bool)
    requires Sound(c, args, encrypt) && Next(s, c).ok && args.key.None? && (c.keyValid ==> c.write.currentKeyValid)
    requires Called(c, args, p) && p.log == Then(c.log, InnerInitOf(args, encrypt, true))
    ensures (n, ok) == Accept(s, p, args, encrypt)
    ensures SoundDone(s, c, args, encrypt, Note(n, Returned(Init(args, encrypt), Answer(ok, [], None))),
                      Answer(ok, [], None))
  {
    n, ok := Accept(s, p, args, encrypt).0, Accept(s, p, args, encrypt).1;
    OpenIs(s, Adopt(p, args, encrypt), args);
    WriteComposes(c.write, None, false);
  }

  lemma NotRecorded(s: Script, c: Ctx, p: Ctx, args: InitArgs, encrypt: bool) returns (n: Ctx)
    requires Sound(c, args, encrypt) && Next(s, c).ok && args.key.Some? && !Next(s, p).ok
    requires Called(c, args, p) && p.log == Then(c.log, InnerInitOf(args, encrypt, true))
    ensures (n, false) == Accept(s, p, args, encrypt)
    ensures SoundDone(s, c, args, encrypt, Note(n, Returned(Init(args, encrypt), Answer(false, [], None))),
                      Answer(false, [], None))
  {
    n := Accept(s, p, args, encrypt).0;
    RecordIs(s, p, args.key.value);
    WriteComposes(c.write, args.key, false);
  }

  lemma RecordedOpens(s: Script, c: Ctx, p: Ctx, args: InitArgs, encrypt: bool) returns (n: Ctx, ok: bool)
    requires Sound(c, args, encrypt) && Next(s, c).ok && args.key.Some? && Next(s, p).ok
    requires Called(c, args, p) && p.log == Then(c.log, InnerInitOf(args, encrypt, true))
    ensures (n, ok) == Accept(s, p, args, encrypt)
    ensures SoundDone(s, c, args, encrypt, Note(n, Returned(Init(args, encrypt), Answer(ok, [], None))),
                      Answer(ok, [], None))
  {
    RecordIs(s, p, args.key.value);
    WriteComposes(c.write, args.key, MustLock(c, args, encrypt));
    WriteComposes(c.write, args.key, false);
    var keyed := RecordCurrentKey(s, p, args.key.value).0;
    OpenIs(s, Adopt(keyed, args, encrypt), args);
    n, ok := Accept(s, p, args, encrypt).0, Accept(s, p, args, encrypt).1;
  }

  lemma SoundIs(s: Script, c: Ctx, args: InitArgs, encrypt: bool)
    requires Sound(c, args, encrypt) && (c.keyValid ==> c.write.currentKeyValid)
    ensures var (n, answer) := Apply(s, c, Init(args, encrypt));
            SoundDone(s, c, args, encrypt, n, answer)
  {
    if !Next(s, c).ok {
      RefusedInnerIs(s, c, args, encrypt);
    } else {
      var p := Note(Prepared(ForgetTag(c, args.params), args, encrypt), InnerInitOf(args, encrypt, true));
      MalformedIs(c, args, encrypt);
      PreparedIsCalled(c, args, encrypt, InnerInitOf(args, encrypt, true));
      if args.key.None? {
        var n, ok := AcceptedWithoutKey(s, c, p, args, encrypt);
      } else if Next(s, p).ok {
        var n, ok := RecordedOpens(s, c, p, args, encrypt);
      } else {
        var n := NotRecorded(s, c, p, args, encrypt);
      }
    }
  }

  /**
   * On every run an init does exactly what its arguments and the external answers say: it is turned away without an
   * external call unless it is sound, and a sound one succeeds exactly if the inner cipher and both locks do.
   */
  lemma InitDoes(s: Script, recordLimit: int, calls: seq<Call>, args: InitArgs, encrypt: bool)
    requires 0 < recordLimit < INT_MAX
    ensures var c := Run(s, NewCtx(recordLimit), calls);
            var (n, answer) := Apply(s, c, Init(args, encrypt));
            if Sound(c, args, encrypt) then SoundDone(s, c, args, encrypt, n, answer)
            else TurnedAwayDone(c, args, encrypt, n, answer)
  {
    var c := Run(s, NewCtx(recordLimit), calls);
    RunInv(s, recordLimit, calls);
    if Sound(c, args, encrypt) {
      SoundIs(s, c, args, encrypt);
    } else {
      TurnedAwayIs(s, c, args, encrypt);
    }
  }

  /** How many inits the inner cipher was asked for. */
  function InnerInits(log: Log): nat {
    match log
    case Empty => 0
    case Then(past, event) => InnerInits(past) + if event.InnerInit? then 1 else 0
  }

  lemma InstallInits(s: Script, c: Ctx)
    ensures InnerInits(InstallWriteKey(s, c).0.log) == InnerInits(c.log)
  {
    if c.write.currentKeyValid {
      InstallIs(s, c);
    }
  }

  lemma AcceptInits(s: Script, c: Ctx, args: InitArgs, encrypt: bool)
    ensures InnerInits(Accept(s, c, args, encrypt).0.log) == InnerInits(c.log)
  {
    var keyed := c;
    if args.key.Some? {
      RecordIs(s, c, args.key.value);
      keyed := RecordCurrentKey(s, c, args.key.value).0;
    }
    InstallInits(s, Adopt(keyed, args, encrypt));
  }

  lemma SoundInits(s: Script, c: Ctx, args: InitArgs, encrypt: bool)
    requires Sound(c, args, encrypt)
    ensures InnerInits(Apply(s, c, Init(args, encrypt)).0.log) == InnerInits(c.log) + 1
  {
    MalformedIs(c, args, encrypt);
    PreparedIsCalled(c, args, encrypt, InnerInitOf(args, encrypt, Next(s, c).ok));
    if Next(s, c).ok {
      AcceptInits(s, Note(Prepared(ForgetTag(c, args.params), args, encrypt), InnerInitOf(args, encrypt, true)), args,
                  encrypt);
    }
  }

  /**
   * In every context, reachable or not, an init reaches the inner cipher exactly if its lengths are right, its
   * parameters legal, its IV not without a key, and its tag for decrypting and beside an IV.
   */
  lemma InitReachesExactly(s: Script, c: Ctx, args: InitArgs, encrypt: bool)
    ensures InnerInits(Apply(s, c, Init(args, encrypt)).0.log) == InnerInits(c.log) +
              if && (args.key.Some? ==> args.keyLen == 32) && (args.key.None? ==> args.keyLen == 0)
                 && (args.iv.Some? ==> args.ivLen == 12) && (args.iv.None? ==> args.ivLen == 0)
                 && !args.params.forbidden && !args.params.duplicate && args.params.lengthsOk
                 && (args.iv.Some? ==> args.key.Some? || c.keyValid)
                 && (args.params.tag.Some? ==>
                       args.params.tag.value.wellFormed && !encrypt && args.iv.Some? && (args.key.Some? || c.keyValid))
              then 1 else 0
  {
    if Sound(c, args, encrypt) {
      SoundInits(s, c, args, encrypt);
    } else {
      TurnedAwayIs(s, c, args, encrypt);
    }
  }

  // ---------- the manifest and the reservation

  /** A record is open: begun, not finished, and not poisoned. */
  predicate IsOpen(c: Ctx) {
    !c.needsReinit && (c.phase == ManifestPending || c.phase == Active)
  }

  /**
   * The start of a record at its first data or final: an encryption record reserves one of its key's records, unless it
   * has done so before; then the manifest is sent as additional data, and all of it must be taken.
   */
  ghost predicate StartDone(s: Script, c: Ctx, x: Ctx, ok: bool) {
    var k, w := External(c.log), c.write;
    var reserves := c.encrypt && !w.recordReserved;
    var counts := reserves && w.usageKeyValid && !w.usageExhausted;
    var counted := counts && s(k).ok;
    var within := w.encryptedRecords < c.recordLimit;
    var reserved := !reserves || (counted && within);
    var r := s(if counts then k + 1 else k);
    var log0 := if counts then Then(c.log, AtomicAdd(s(k).ok)) else c.log;
    && ok == (reserved && r.ok && r.len == 32)
    && x == c.(log := if reserved then Then(log0, InnerUpdate(false, MANIFEST, r.ok, r.len, r.output)) else log0,
               phase := if ok then Active else if reserved then ManifestPending else NoRecord,
               needsReinit := c.needsReinit || !ok,
               decryptTagCurrent := c.decryptTagCurrent && ok,
               payloadStarted := c.payloadStarted && reserved,
               write := w.(encryptedRecords := w.encryptedRecords + (if counted then 1 else 0),
                           usageExhausted := w.usageExhausted || (counted && !within),
                           recordReserved := w.recordReserved || (counted && within)))
  }

  /** What an open record is after its start: nothing happens if it has started before. */
  ghost predicate Sent(s: Script, c: Ctx, x: Ctx, ok: bool) {
    if c.phase == ManifestPending then StartDone(s, c, x, ok) else x == c && ok
  }

  /** What an open encryption record that has not reserved its place is after the reservation. */
  ghost predicate Reserved(s: Script, c: Ctx, x: Ctx, ok: bool) {
    var w := c.write;
    var counts := w.usageKeyValid && !w.usageExhausted;
    var counted, within := counts && s(External(c.log)).ok, w.encryptedRecords < c.recordLimit;
    && ok == (counted && within)
    && x == c.(log := if counts then Then(c.log, AtomicAdd(s(External(c.log)).ok)) else c.log,
               phase := if ok then c.phase else NoRecord,
               needsReinit := c.needsReinit || !ok,
               decryptTagCurrent := c.decryptTagCurrent && ok,
               payloadStarted := c.payloadStarted && ok,
               write := w.(encryptedRecords := w.encryptedRecords + (if counted then 1 else 0),
                           usageExhausted := w.usageExhausted || (counted && !within),
                           recordReserved := ok))
  }

  lemma ReserveBarred(s: Script, c: Ctx)
    requires !c.write.recordReserved && (!c.write.usageKeyValid || c.write.usageExhausted)
    ensures Reserved(s, c, Reserve(s, c).0, Reserve(s, c).1)
  {
  }

  lemma ReserveCounts(s: Script, c: Ctx)
    requires !c.write.recordReserved && c.write.usageKeyValid && !c.write.usageExhausted
    ensures Reserved(s, c, Reserve(s, c).0, Reserve(s, c).1)
  {
  }

  lemma ReserveIs(s: Script, c: Ctx) returns (x: Ctx, ok: bool)
    requires !c.write.recordReserved
    ensures (x, ok) == Reserve(s, c) && Reserved(s, c, x, ok)
  {
    x, ok := Reserve(s, c).0, Reserve(s, c).1;
    if c.write.usageKeyValid && !c.write.usageExhausted {
      ReserveCounts(s, c);
    } else {
      ReserveBarred(s, c);
    }
  }

  /** The manifest goes out from `m`, where nothing more is to be reserved. */
  ghost predicate ManifestDone(s: Script, m: Ctx, x: Ctx, ok: bool) {
    var r := s(External(m.log));
    && ok == (r.ok && r.len == 32)
    && x == m.(log := Then(m.log, InnerUpdate(false, MANIFEST, r.ok, r.len, r.output)),
               phase := if ok then Active else m.phase,
               needsReinit := m.needsReinit || !ok,
               decryptTagCurrent := m.decryptTagCurrent && ok)
  }

  lemma InjectFrom(s: Script, c: Ctx, m: Ctx, reserved: bool) returns (x: Ctx, ok: bool)
    requires c.phase == ManifestPending && (m, reserved) == if c.encrypt then Reserve(s, c) else (c, true)
    ensures (x, ok) == InjectManifest(s, c)
    ensures if reserved then ManifestDone(s, m, x, ok) else x == m && !ok
  {
    x, ok := InjectManifest(s, c).0, InjectManifest(s, c).1;
  }

  lemma StartComposes(s: Script, c: Ctx, m: Ctx, reserved: bool, x: Ctx, ok: bool)
    requires IsOpen(c) && c.phase == ManifestPending
    requires if c.encrypt && !c.write.recordReserved then Reserved(s, c, m, reserved) else m == c && reserved
    requires if reserved then ManifestDone(s, m, x, ok) else x == m && !ok
    ensures StartDone(s, c, x, ok)
  {
  }

  lemma InjectIs(s: Script, c: Ctx) returns (x: Ctx, ok: bool)
    requires IsOpen(c)
    ensures (x, ok) == InjectManifest(s, c) && Sent(s, c, x, ok)
  {
    if c.phase == ManifestPending {
      var m, reserved := c, true;
      if c.encrypt && !c.write.recordReserved {
        m, reserved := ReserveIs(s, c);
      }
      x, ok := InjectFrom(s, c, m, reserved);
      StartComposes(s, c, m, reserved, x, ok);
    } else {
      x, ok := c, true;
    }
  }

  // ---------- update

  function Size(input: Input): nat {
    if input.Null? then input.claimed else |input.data|
  }

  /** A call that looks at its data at all: a place for the length, an open record, and readable data. */
  predicate Readable(c: Ctx, u: UpdateArgs) {
    !u.outlNull && IsOpen(c) && (u.input.Null? ==> u.input.claimed == 0) && Size(u.input) <= 2147483647
  }

  /** Payload needs an output buffer of its size; additional data must come before payload. */
  predicate Fitting(c: Ctx, u: UpdateArgs) {
    if u.out.Some? then Size(u.input) <= u.out.value else !c.payloadStarted
  }

  /** An update: refused without a trace, empty, or started and then handed on to the inner cipher as it is. */
  ghost predicate UpdateDone(s: Script, c: Ctx, u: UpdateArgs, x: Ctx, ok: bool, n: Ctx, answer: Answer) {
    if !Readable(c, u) || (Size(u.input) > 0 && !Fitting(c, u)) then
      answer == Answer(false, [], None) && n == c.(log := Then(c.log, Returned(Update(u), answer)))
    else if Size(u.input) == 0 then
      answer == Answer(true, [], None) && n == c.(log := Then(c.log, Returned(Update(u), answer)))
    else
      var r := s(External(x.log));
      var taken := ok && r.ok && r.len == |u.input.data|;
      && Sent(s, c, x, ok)
      && answer == Answer(taken, if taken && u.out.Some? then r.output else [], None)
      && n == x.(log := Then(if ok then Then(x.log, InnerUpdate(u.out.Some?, u.input.data, r.ok, r.len, r.output))
                             else x.log, Returned(Update(u), answer)),
                 payloadStarted := x.payloadStarted || (taken && u.out.Some?),
                 needsReinit := x.needsReinit || !taken,
                 decryptTagCurrent := x.decryptTagCurrent && taken)
  }

  lemma UpdateIdle(s: Script, c: Ctx, u: UpdateArgs, x: Ctx, ok: bool)
    requires !Readable(c, u) || Size(u.input) == 0 || !Fitting(c, u)
    ensures var (n, answer) := Apply(s, c, Update(u));
            UpdateDone(s, c, u, x, ok, n, answer)
  {
  }

  lemma UpdateFrom(s: Script, c: Ctx, u: UpdateArgs, x: Ctx, ok: bool)
    requires Readable(c, u) && Size(u.input) > 0 && Fitting(c, u)
    requires (x, ok) == InjectManifest(s, c) && Sent(s, c, x, ok)
    ensures var (n, answer) := Apply(s, c, Update(u));
            UpdateDone(s, c, u, x, ok, n, answer)
  {
  }

  /** What an update does in any context; `x` is the context after the start of the record. */
  lemma UpdateDoes(s: Script, c: Ctx, u: UpdateArgs) returns (x: Ctx, ok: bool)
    ensures var (n, answer) := Apply(s, c, Update(u));
            UpdateDone(s, c, u, x, ok, n, answer)
  {
    if Readable(c, u) && Size(u.input) > 0 && Fitting(c, u) {
      x, ok := InjectIs(s, c);
      UpdateFrom(s, c, u, x, ok);
    } else {
      x, ok := c, true;
      UpdateIdle(s, c, u, x, ok);
    }
  }

  // ---------- final

  /** A final: refused without a trace where no record is open, and otherwise the end of the record or of its use. */
  ghost predicate FinalDone(s: Script, c: Ctx, outlNull: bool, x: Ctx, ok: bool, n: Ctx, answer: Answer) {
    if !IsOpen(c) then
      answer == Answer(false, [], None) && n == c.(log := Then(c.log, Returned(Final(outlNull), answer)))
    else if outlNull || (!c.encrypt && !c.decryptTagCurrent) then
      && answer == Answer(false, [], None)
      && n == c.(log := Then(c.log, Returned(Final(outlNull), answer)), needsReinit := true, decryptTagCurrent := false)
    else
      var r := s(External(x.log));
      var done := ok && r.ok && r.len == 0;
      && Sent(s, c, x, ok)
      && answer == Answer(done, [], None)
      && n == x.(log := Then(if ok then Then(x.log, InnerFinal(r.ok, r.len)) else x.log,
                             Returned(Final(outlNull), answer)),
                 phase := if done then Finalized else x.phase,
                 needsReinit := x.needsReinit || !done,
                 decryptTagCurrent := false)
  }

  lemma FinalIdle(s: Script, c: Ctx, outlNull: bool, x: Ctx, ok: bool)
    requires !IsOpen(c) || outlNull || (!c.encrypt && !c.decryptTagCurrent)
    ensures var (n, answer) := Apply(s, c, Final(outlNull));
            FinalDone(s, c, outlNull, x, ok, n, answer)
  {
  }

  lemma FinalFrom(s: Script, c: Ctx, x: Ctx, ok: bool)
    requires IsOpen(c) && (c.encrypt || c.decryptTagCurrent)
    requires (x, ok) == InjectManifest(s, c) && Sent(s, c, x, ok)
    ensures var (n, answer) := Apply(s, c, Final(false));
            FinalDone(s, c, false, x, ok, n, answer)
  {
  }

  /** What a final does in any context; `x` is the context after the start of the record. */
  lemma FinalDoes(s: Script, c: Ctx, outlNull: bool) returns (x: Ctx, ok: bool)
    ensures var (n, answer) := Apply(s, c, Final(outlNull));
            FinalDone(s, c, outlNull, x, ok, n, answer)
  {
    if IsOpen(c) && !outlNull && (c.encrypt || c.decryptTagCurrent) {
      x, ok := InjectIs(s, c);
      FinalFrom(s, c, x, ok);
    } else {
      x, ok := c, true;
      FinalIdle(s, c, outlNull, x, ok);
    }
  }

  // ---------- parameters

  /**
   * Setting parameters in any context: a legal list without a tag changes nothing; one with a tag replaces the tag of
   * an open decryption, exactly if the inner cipher takes it; every other list with a tag only forgets the old one.
   */
  lemma SetParamsDoes(s: Script, c: Ctx, params: Params)
    ensures var (n, answer) := Apply(s, c, SetParams(params));
            var legal := !params.forbidden && !params.duplicate && params.lengthsOk;
            var sets := legal && params.tag.Some? && params.tag.value.wellFormed && IsOpen(c) && !c.encrypt;
            var ok := s(External(c.log)).ok;
            && answer == Answer(legal && (params.tag.Some? ==> sets && ok), [], None)
            && n == c.(log := Then(if sets then Then(c.log, InnerSetTag(params.tag.value.value, params.ivLen, ok))
                                   else c.log, Returned(SetParams(params), answer)),
                       decryptTagCurrent := if params.tag.Some? then sets && ok else c.decryptTagCurrent,
                       needsReinit := c.needsReinit || (sets && !ok))
  {
  }

  /**
   * Getting parameters in any context: a tag is fetched exactly for a legal request with a buffer of its size after the
   * end of an encryption record, and given out exactly if the inner cipher reports all of it; a request without a
   * buffer is only told the size.
   */
  lemma GetParamsDoes(s: Script, c: Ctx, get: GetArgs)
    ensures var (n, answer) := Apply(s, c, GetParams(get));
            var legal := !get.forbidden && !get.duplicate && get.lengthsSettable;
            var asks := legal && get.tag.Some? && c.encrypt && c.phase == Finalized && !c.needsReinit
                        && get.tag.value.octets;
            var fetches := asks && get.tag.value.hasBuffer && get.tag.value.size == 16;
            var r := s(External(c.log));
            var given := fetches && r.ok && r.len == 16;
            && answer == Answer(given || (legal && get.tag.None?) || (asks && !get.tag.value.hasBuffer), [],
                                if given then Some(r.tag) else None)
            && n == c.(log := Then(if fetches then Then(c.log, InnerGetTag(r.ok, r.len, r.tag)) else c.log,
                                   Returned(GetParams(get), answer)),
                       needsReinit := c.needsReinit || (fetches && !given),
                       decryptTagCurrent := c.decryptTagCurrent && (fetches ==> given))
  {
  }
}
