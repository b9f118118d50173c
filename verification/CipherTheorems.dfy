/**
 * Theorems about every run of the outer cipher context: any calls, any answers of the inner cipher and the
 * platform.
 */
module CipherTheorems {
  import opened Wrappers
  import opened Bytes
  import opened Gcm
  import CipherCalls
  import opened CipherModel
  import opened CipherInvariant
  import opened CipherDiscipline
  import opened CipherKeys

  // ---------- one inner record behind every final

  /**
   * The inner cipher was given exactly one record: the manifest, the caller's accepted additional data and
   * payload in order, one final, under the key in force and the caller's IV and direction; and the caller got
   * its output.
   */
  ghost predicate OneRecord(log: Log) {
    var r := Read(log);
    && Clean(r.inner)
    && r.inner.calls == [Aad(MANIFEST)] + r.caller.chunks + [End]
    && Staged(r.caller.chunks)
    && r.inner.key == KeyInForce(log) && r.inner.iv == r.caller.iv && r.inner.encrypt == r.caller.encrypt
    && r.inner.output == r.caller.output
    && (r.inner.encrypt ==> r.budget.key == r.inner.key)
  }

  lemma FinalizedIsOneRecord(c: Ctx)
    requires Inv(c) && HoldsKey(c) && c.phase == Finalized && !c.needsReinit
    ensures OneRecord(c.log) && Read(c.log).inner.encrypt == c.encrypt
  {
  }

  lemma FinalFinalizes(s: Script, c: Ctx, outlNull: bool)
    requires DoFinal(s, c, outlNull).1
    ensures var n := DoFinal(s, c, outlNull).0;
            && n.phase == Finalized && !n.needsReinit && n.encrypt == c.encrypt
            && (!c.encrypt ==> c.decryptTagCurrent)
            && n.log.Then? && n.log.event == InnerFinal(true, 0)
  {
    if c.phase == ManifestPending && c.encrypt {
      assert Reserve(s, c).1;
    }
  }

  /** Whenever `Final` succeeds, the inner cipher has seen exactly one record, whatever came before. */
  lemma FinalIsOneRecord(s: Script, recordLimit: int, calls: seq<Call>, outlNull: bool)
    requires 0 < recordLimit < INT_MAX
    ensures var (n, answer) := Apply(s, Run(s, NewCtx(recordLimit), calls), Final(outlNull));
            answer.ok ==> OneRecord(n.log)
  {
    var c := Run(s, NewCtx(recordLimit), calls);
    RunInv(s, recordLimit, calls);
    RunTie(s, recordLimit, calls);
    ApplyInv(s, c, Final(outlNull));
    ApplyTie(s, c, Final(outlNull));
    if Apply(s, c, Final(outlNull)).1.ok {
      FinalFinalizes(s, c, outlNull);
      FinalizedIsOneRecord(Apply(s, c, Final(outlNull)).0);
    }
  }

  /**
   * Over all runs, a successful `Final` ran under the key of the last successful key-bearing init exactly if no
   * key-bearing init since was refused after its inner call and key record had succeeded, or the last such one
   * had given that same key again.
   */
  lemma FinalRunsUnderCallersKey(s: Script, recordLimit: int, calls: seq<Call>, outlNull: bool)
    requires 0 < recordLimit < INT_MAX
    ensures var (n, answer) := Apply(s, Run(s, NewCtx(recordLimit), calls), Final(outlNull));
            var r := Read(n.log);
            answer.ok ==>
              (r.inner.key == r.caller.key <==> StrayKey(n.log).None? || StrayKey(n.log) == r.caller.key)
  {
    FinalIsOneRecord(s, recordLimit, calls, outlNull);
  }

  /**
   * In terms a caller can check: if no key-bearing init failed since the last successful one, a successful `Final`
   * ran under that one's key.
   */
  lemma FinalRunsUnderLastKey(s: Script, recordLimit: int, calls: seq<Call>, outlNull: bool)
    requires 0 < recordLimit < INT_MAX
    ensures var (n, answer) := Apply(s, Run(s, NewCtx(recordLimit), calls), Final(outlNull));
            var r := Read(n.log);
            answer.ok && NoFailedKeySince(n.log) ==> r.inner.key == r.caller.key
  {
    FinalRunsUnderCallersKey(s, recordLimit, calls, outlNull);
    var log := Apply(s, Run(s, NewCtx(recordLimit), calls), Final(outlNull)).0.log;
    if NoFailedKeySince(log) {
      NoFailureNoStray(log);
    }
  }

  // ---------- the same statement in terms of AES-256-GCM

  /** AES-256-GCM by its two parts: counter-mode encryption of a text, and the tag of additional data and ciphertext. */
  datatype AesGcm = AesGcm(gctr: (Key, Iv, seq<byte>) -> seq<byte>, mac: (Key, Iv, seq<byte>, seq<byte>) -> Tag)

  /** Counter-mode encryption is its own inverse. */
  ghost predicate Involutive(g: AesGcm) {
    forall k, iv, x :: g.gctr(k, iv, g.gctr(k, iv, x)) == x
  }

  function AadOf(calls: seq<Data>): seq<byte> {
    if calls == [] then []
    else
      var last := calls[|calls| - 1];
      AadOf(calls[..|calls| - 1]) + if last.Aad? then last.bytes else []
  }

  function PayloadOf(calls: seq<Data>): seq<byte> {
    if calls == [] then []
    else
      var last := calls[|calls| - 1];
      PayloadOf(calls[..|calls| - 1]) + if last.Payload? then last.bytes else []
  }

  /** Additional data first, then payload, then one final. */
  ghost predicate WholeRecord(calls: seq<Data>) {
    Ended(calls) && Staged(calls[..|calls| - 1])
  }

  /** What one successful call of a genuine inner AES-256-GCM promises, and only when used in order. */
  ghost predicate Promise(g: AesGcm, i: Inner, event: Event) {
    match event
    case InnerFinal(ok, _) =>
      ok && Clean(i) && Staged(i.calls) ==>
        && i.output == g.gctr(i.key.value, i.iv.value, PayloadOf(i.calls))
        && (!i.encrypt ==> i.tag == Some(g.mac(i.key.value, i.iv.value, AadOf(i.calls), PayloadOf(i.calls))))
    case InnerGetTag(ok, len, tag) =>
      ok && len == TAG_LEN && Clean(i) && i.encrypt && WholeRecord(i.calls) ==>
        tag == g.mac(i.key.value, i.iv.value, AadOf(i.calls), g.gctr(i.key.value, i.iv.value, PayloadOf(i.calls)))
    case _ => true
  }

  /** The inner cipher behind a history is AES-256-GCM wherever it reports success. */
  ghost predicate Genuine(g: AesGcm, log: Log) {
    match log
    case Empty => true
    case Then(past, event) => Genuine(g, past) && Promise(g, Read(past).inner, event)
  }

  /** Without an `End`, or with one, the manifest comes first in the additional data and adds no payload. */
  lemma ManifestFirst(chunks: seq<Data>)
    ensures AadOf([Aad(MANIFEST)] + chunks) == MANIFEST + AadOf(chunks)
    ensures PayloadOf([Aad(MANIFEST)] + chunks) == PayloadOf(chunks)
  {
    var whole := [Aad(MANIFEST)] + chunks;
    if chunks == [] {
      assert whole[..0] == [];
      assert AadOf(whole) == [] + MANIFEST;
    } else {
      assert whole[..|whole| - 1] == [Aad(MANIFEST)] + chunks[..|chunks| - 1];
      ManifestFirst(chunks[..|chunks| - 1]);
    }
  }

  lemma EndAddsNothing(calls: seq<Data>)
    ensures AadOf(calls + [End]) == AadOf(calls) && PayloadOf(calls + [End]) == PayloadOf(calls)
  {
    assert (calls + [End])[..|calls|] == calls;
  }

  lemma OutputAtFinal(g: AesGcm, i: Inner, after: Inner, ok: bool, len: int)
    requires Promise(g, i, InnerFinal(ok, len))
    requires after == i.(calls := i.calls + [End], dirty := i.dirty || !ok || len != 0)
    ensures Clean(after) && WholeRecord(after.calls) ==>
              after.output == g.gctr(after.key.value, after.iv.value, PayloadOf(after.calls))
  {
    EndAddsNothing(i.calls);
    assert (i.calls + [End])[..|i.calls|] == i.calls;
  }

  /** After its final, a clean record's output is still what the final promised. */
  lemma {:induction false} OutputOfWholeRecord(g: AesGcm, log: Log)
    requires Genuine(g, log)
    ensures var i := Read(log).inner;
            Clean(i) && WholeRecord(i.calls) ==> i.output == g.gctr(i.key.value, i.iv.value, PayloadOf(i.calls))
  {
    if log.Then? {
      OutputOfWholeRecord(g, log.past);
      if log.event.InnerFinal? {
        OutputAtFinal(g, Read(log.past).inner, Read(log).inner, log.event.ok, log.event.len);
      }
    }
  }

  lemma WholeRecordParts(chunks: seq<Data>)
    requires Staged(chunks)
    ensures var calls := [Aad(MANIFEST)] + chunks + [End];
            WholeRecord(calls) && AadOf(calls) == MANIFEST + AadOf(chunks) && PayloadOf(calls) == PayloadOf(chunks)
  {
    StagedRecord(chunks);
    var body := [Aad(MANIFEST)] + chunks;
    assert (body + [End])[..|body|] == body;
    EndAddsNothing(body);
    ManifestFirst(chunks);
  }

  /** The caller's record, with the key it ran under. */
  function RecordOf(log: Log): Caller {
    Read(log).caller.(key := KeyInForce(log))
  }

  /** The record as one GCM call: the chunks hold the payload the caller passed in, `output` what it got. */
  ghost predicate IsGcm(g: AesGcm, r: Caller) {
    && r.key.Some? && r.iv.Some?
    && r.output == g.gctr(r.key.value, r.iv.value, PayloadOf(r.chunks))
  }

  /** Where a successful decrypting `Final` stands when it makes the closing call. */
  lemma DecryptionEnds(s: Script, c: Ctx, outlNull: bool)
    requires Inv(c) && HoldsKey(c) && !c.encrypt && DoFinal(s, c, outlNull).1
    ensures var x := InjectManifest(s, c).0;
            var r := Read(x.log);
            && DoFinal(s, c, outlNull).0.log == Then(x.log, InnerFinal(true, 0))
            && r.caller == Read(c.log).caller && r.caller.tag.Accepted? && !r.inner.encrypt
            && r.inner.tag == Some(r.caller.tag.tag)
            && Clean(r.inner) && r.inner.calls == [Aad(MANIFEST)] + r.caller.chunks && Staged(r.caller.chunks)
            && r.inner.iv == r.caller.iv && r.inner.key == KeyInForce(c.log)
  {
    InjectPlain(s, c);
    PlainKeepsKeys(InjectManifest(s, c).0.log, c.log);
    InjectStep(s, c);
    ActiveIsOrderly(InjectManifest(s, c).0);
  }

  /**
   * When decryption succeeds, the last tag-bearing call of the record was accepted, and the inner cipher held just
   * that tag.
   */
  lemma FreshTag(s: Script, recordLimit: int, calls: seq<Call>, outlNull: bool)
    requires 0 < recordLimit < INT_MAX
    ensures var c := Run(s, NewCtx(recordLimit), calls);
            var (n, answer) := Apply(s, c, Final(outlNull));
            answer.ok && !c.encrypt ==>
              && Read(c.log).caller.tag.Accepted?
              && n.log.Then? && n.log.past.Then? && n.log.past.event == InnerFinal(true, 0)
              && Read(n.log.past.past).inner.tag == Some(Read(c.log).caller.tag.tag)
  {
    var c := Run(s, NewCtx(recordLimit), calls);
    RunInv(s, recordLimit, calls);
    RunTie(s, recordLimit, calls);
    if DoFinal(s, c, outlNull).1 && !c.encrypt {
      DecryptionEnds(s, c, outlNull);
    }
  }

  lemma DecryptionVerifies(s: Script, c: Ctx, outlNull: bool, g: AesGcm)
    requires Inv(c) && HoldsKey(c) && !c.encrypt && DoFinal(s, c, outlNull).1
    requires Genuine(g, DoFinal(s, c, outlNull).0.log)
    ensures var r := RecordOf(c.log);
            && r.key.Some? && r.iv.Some?
            && r.tag == Accepted(g.mac(r.key.value, r.iv.value, MANIFEST + AadOf(r.chunks), PayloadOf(r.chunks)))
  {
    DecryptionEnds(s, c, outlNull);
    var r := RecordOf(c.log);
    var i := Read(InjectManifest(s, c).0.log).inner;
    StagedRecord(r.chunks);
    ManifestFirst(r.chunks);
    assert Promise(g, i, InnerFinal(true, 0));
  }

  lemma FinalizedIsGcm(g: AesGcm, c: Ctx)
    requires Inv(c) && HoldsKey(c) && c.phase == Finalized && !c.needsReinit && Genuine(g, c.log)
    ensures IsGcm(g, RecordOf(c.log)) && RecordOf(c.log).encrypt == c.encrypt
  {
    FinalizedIsOneRecord(c);
    OutputOfWholeRecord(g, c.log);
    WholeRecordParts(Read(c.log).caller.chunks);
  }

  lemma FinalKeepsRecord(s: Script, c: Ctx, outlNull: bool)
    requires Inv(c) && HoldsKey(c) && DoFinal(s, c, outlNull).1
    ensures var n := DoFinal(s, c, outlNull).0;
            HoldsKey(n) && RecordOf(n.log) == RecordOf(c.log)
  {
    FinalPlain(s, c, outlNull);
    PlainKeepsKeys(DoFinal(s, c, outlNull).0.log, c.log);
    InjectStep(s, c);
  }

  lemma FinalStepIsGcm(s: Script, c: Ctx, outlNull: bool, g: AesGcm)
    requires Inv(c) && HoldsKey(c) && DoFinal(s, c, outlNull).1 && Genuine(g, DoFinal(s, c, outlNull).0.log)
    ensures var r := RecordOf(DoFinal(s, c, outlNull).0.log);
            && IsGcm(g, r) && r.encrypt == c.encrypt
            && (!c.encrypt ==>
                  r.tag == Accepted(g.mac(r.key.value, r.iv.value, MANIFEST + AadOf(r.chunks), PayloadOf(r.chunks))))
  {
    FinalInv(s, c, outlNull);
    FinalFinalizes(s, c, outlNull);
    FinalKeepsRecord(s, c, outlNull);
    FinalizedIsGcm(g, DoFinal(s, c, outlNull).0);
    if !c.encrypt {
      DecryptionVerifies(s, c, outlNull, g);
    }
  }

  /**
   * Every successful `Final` over a genuine inner cipher gave the GCM output over `M || A`; decryption also
   * verified it.
   */
  lemma FinalIsGcm(s: Script, recordLimit: int, calls: seq<Call>, outlNull: bool, g: AesGcm)
    requires 0 < recordLimit < INT_MAX
    requires Genuine(g, Apply(s, Run(s, NewCtx(recordLimit), calls), Final(outlNull)).0.log)
    ensures var (n, answer) := Apply(s, Run(s, NewCtx(recordLimit), calls), Final(outlNull));
            var r := RecordOf(n.log);
            answer.ok ==>
              && IsGcm(g, r)
              && (!r.encrypt ==>
                    r.tag == Accepted(g.mac(r.key.value, r.iv.value, MANIFEST + AadOf(r.chunks), PayloadOf(r.chunks))))
  {
    var c := Run(s, NewCtx(recordLimit), calls);
    RunInv(s, recordLimit, calls);
    RunTie(s, recordLimit, calls);
    if DoFinal(s, c, outlNull).1 {
      FinalStepIsGcm(s, c, outlNull, g);
    }
  }

  // ---------- tags released by encryption

  /** A released tag is fetched by this very call from a finished, undisturbed encryption record. */
  lemma TagIsOfThisRecord(s: Script, recordLimit: int, calls: seq<Call>, get: GetArgs)
    requires 0 < recordLimit < INT_MAX
    ensures var c := Run(s, NewCtx(recordLimit), calls);
            var (n, answer) := Apply(s, c, GetParams(get));
            answer.tag.Some? ==>
              && answer.ok && OneRecord(c.log) && Read(c.log).inner.encrypt
              && n.log == Then(Then(c.log, InnerGetTag(true, TAG_LEN, answer.tag.value)),
                               Returned(GetParams(get), answer))
  {
    var c := Run(s, NewCtx(recordLimit), calls);
    RunInv(s, recordLimit, calls);
    RunTie(s, recordLimit, calls);
    if Apply(s, c, GetParams(get)).1.tag.Some? {
      FinalizedIsOneRecord(c);
    }
  }

  /** Over a genuine inner cipher, a released tag belongs to the ciphertext the caller got and to `M || A`. */
  lemma TagIsGcm(s: Script, recordLimit: int, calls: seq<Call>, get: GetArgs, g: AesGcm)
    requires 0 < recordLimit < INT_MAX
    requires Genuine(g, Apply(s, Run(s, NewCtx(recordLimit), calls), GetParams(get)).0.log)
    ensures var c := Run(s, NewCtx(recordLimit), calls);
            var r := RecordOf(c.log);
            var answer := Apply(s, c, GetParams(get)).1;
            answer.tag.Some? ==>
              && IsGcm(g, r)
              && answer.tag.value == g.mac(r.key.value, r.iv.value, MANIFEST + AadOf(r.chunks), r.output)
  {
    var c := Run(s, NewCtx(recordLimit), calls);
    var answer := Apply(s, c, GetParams(get)).1;
    TagIsOfThisRecord(s, recordLimit, calls, get);
    if answer.tag.Some? {
      assert Genuine(g, c.log) && Promise(g, Read(c.log).inner, InnerGetTag(true, TAG_LEN, answer.tag.value));
      RunInv(s, recordLimit, calls);
      RunTie(s, recordLimit, calls);
      FinalizedIsGcm(g, c);
      WholeRecordParts(Read(c.log).caller.chunks);
    }
  }

  /** One finished encryption: a run, the tag request that ended it, and the record it released. */
  datatype Encryption = Encryption(s: Script, recordLimit: int, calls: seq<Call>, get: GetArgs) {
    function State(): Ctx {
      Run(s, NewCtx(recordLimit), calls)
    }

    function End(): (Ctx, Answer) {
      Apply(s, State(), GetParams(get))
    }

    function Record(): Caller {
      RecordOf(State().log)
    }

    ghost predicate Released(g: AesGcm) {
      0 < recordLimit < INT_MAX && Genuine(g, End().0.log) && End().1.tag.Some?
    }
  }

  /** One finished decryption. */
  datatype Decryption = Decryption(s: Script, recordLimit: int, calls: seq<Call>) {
    function End(): (Ctx, Answer) {
      Apply(s, Run(s, NewCtx(recordLimit), calls), Final(false))
    }

    function Record(): Caller {
      RecordOf(End().0.log)
    }

    ghost predicate Verified(g: AesGcm) {
      0 < recordLimit < INT_MAX && Genuine(g, End().0.log) && End().1.ok && !Record().encrypt
    }
  }

  /**
   * Two encryptions of the same text agree in ciphertext and tag, however each was cut into calls and whatever
   * failed before.
   */
  lemma ChunkingDoesNotMatter(g: AesGcm, a: Encryption, b: Encryption)
    requires a.Released(g) && b.Released(g)
    requires a.Record().key == b.Record().key && a.Record().iv == b.Record().iv
    requires AadOf(a.Record().chunks) == AadOf(b.Record().chunks)
    requires PayloadOf(a.Record().chunks) == PayloadOf(b.Record().chunks)
    ensures a.Record().output == b.Record().output && a.End().1.tag == b.End().1.tag
  {
    TagIsGcm(a.s, a.recordLimit, a.calls, a.get, g);
    TagIsGcm(b.s, b.recordLimit, b.calls, b.get, g);
  }

  /**
   * A context that verifies what another released under the same key, IV and additional data has accepted
   * that one's tag and recovered its text, whatever the chunking on either side.
   */
  lemma DecryptionUndoesEncryption(g: AesGcm, e: Encryption, d: Decryption)
    requires Involutive(g) && e.Released(g) && d.Verified(g)
    requires e.Record().key == d.Record().key && e.Record().iv == d.Record().iv
    requires AadOf(e.Record().chunks) == AadOf(d.Record().chunks)
    requires PayloadOf(d.Record().chunks) == e.Record().output
    ensures d.Record().output == PayloadOf(e.Record().chunks)
    ensures d.Record().tag == Accepted(e.End().1.tag.value)
  {
    TagIsGcm(e.s, e.recordLimit, e.calls, e.get, g);
    FinalIsGcm(d.s, d.recordLimit, d.calls, false, g);
  }

  /**
   * One-sided manifests are detected: a tag the peer computed over some string `x` verifies only if `x` is the
   * manifest followed by the same additional data, unless the two strings collide under the tag function. So it does
   * not verify when the peer left the manifest out, put it in twice, or used another one.
   */
  lemma OneSidedManifestFails(g: AesGcm, d: Decryption, x: seq<byte>, other: seq<byte>)
    requires d.Verified(g)
    requires var r := d.Record();
             && r.key.Some? && r.iv.Some?
             && r.tag == Accepted(g.mac(r.key.value, r.iv.value, x, PayloadOf(r.chunks)))
             && (g.mac(r.key.value, r.iv.value, x, PayloadOf(r.chunks))
                   == g.mac(r.key.value, r.iv.value, MANIFEST + AadOf(r.chunks), PayloadOf(r.chunks))
                 ==> x == MANIFEST + AadOf(r.chunks))
    ensures var own := AadOf(d.Record().chunks);
            && x == MANIFEST + own
            && x != own && x != MANIFEST + (MANIFEST + own)
            && (|other| == |MANIFEST| && other != MANIFEST ==> x != other + own)
  {
    FinalIsGcm(d.s, d.recordLimit, d.calls, false, g);
    var own := AadOf(d.Record().chunks);
    if |other| == |MANIFEST| && x == other + own {
      EqualParts(MANIFEST, own, other, own);
    }
  }

  // ---------- faults

  predicate Faulty(event: Event) {
    match event
    case InnerInit(_, _, _, _, _, ok) => !ok
    case InnerUpdate(_, data, ok, len, _) => !ok || len != |data|
    case InnerFinal(ok, len) => !ok || len != 0
    case InnerGetTag(ok, len, _) => !ok || len != TAG_LEN
    case InnerSetTag(_, _, ok) => !ok
    case _ => false
  }

  predicate FreshStart(event: Event) {
    event.InnerInit? && event.ok && event.iv.Some?
  }

  predicate UsesRecord(event: Event) {
    event.InnerUpdate? || event.InnerFinal? || event.InnerGetTag? || event.InnerSetTag?
  }

  /** The history without its newest `n` events. */
  function Before(log: Log, n: nat): Log {
    if n == 0 || log.Empty? then log else Before(log.past, n - 1)
  }

  predicate NoFreshStart(log: Log, n: nat) {
    n == 0 || log.Empty? || (!FreshStart(log.event) && NoFreshStart(log.past, n - 1))
  }

  predicate Untouched(log: Log, n: nat) {
    n == 0 || log.Empty? || (!UsesRecord(log.event) && Untouched(log.past, n - 1))
  }

  lemma {:induction false} FaultPersists(limit: int, log: Log, n: nat)
    requires Disciplined(limit, log) && NoFreshStart(log, n)
    requires Before(log, n).Then? && Faulty(Before(log, n).event)
    ensures Read(log).inner.dirty && Untouched(log, n)
  {
    if n > 0 {
      FaultPersists(limit, log.past, n - 1);
    }
  }

  /** On every run, after a fault the inner cipher's record is left alone until an IV-bearing init has been accepted. */
  lemma PoisonContainment(s: Script, recordLimit: int, calls: seq<Call>, n: nat)
    requires 0 < recordLimit < INT_MAX
    requires var log := Run(s, NewCtx(recordLimit), calls).log;
             Before(log, n).Then? && Faulty(Before(log, n).event) && NoFreshStart(log, n)
    ensures Untouched(Run(s, NewCtx(recordLimit), calls).log, n)
  {
    RunDisciplined(s, recordLimit, calls);
    FaultPersists(recordLimit, Run(s, NewCtx(recordLimit), calls).log, n);
  }

  /** A failed `Final` poisons the record exactly when there was an open one; otherwise it changes nothing. */
  lemma FailedFinal(s: Script, c: Ctx, outlNull: bool)
    requires !DoFinal(s, c, outlNull).1
    ensures var n := DoFinal(s, c, outlNull).0;
            if Open(c) then n.needsReinit && !n.decryptTagCurrent else n == c
  {
  }

  lemma ClosedStaysClosed(s: Script, c: Ctx, call: Call)
    requires !Open(c) && !call.Init?
    ensures !Open(Apply(s, c, call).0)
  {
  }

  lemma FailedAcceptCloses(s: Script, c: Ctx, args: InitArgs, encrypt: bool)
    ensures var (n, ok) := Accept(s, c, args, encrypt);
            Open(n) ==> ok && args.iv.Some?
  {
  }

  lemma BeginOpens(s: Script, c: Ctx, args: InitArgs, encrypt: bool)
    ensures var (n, ok) := Begin(s, c, args, encrypt);
            Open(n) ==> ok && args.iv.Some?
  {
    FailedAcceptCloses(s, Note(Prepared(c, args, encrypt), InnerInitOf(args, encrypt, true)), args, encrypt);
  }

  lemma InitOpens(s: Script, c: Ctx, args: InitArgs, encrypt: bool)
    requires !Open(c) && Open(DoInit(s, c, args, encrypt).0)
    ensures args.iv.Some? && DoInit(s, c, args, encrypt).1
  {
    BeginOpens(s, ForgetTag(c, args.params), args, encrypt);
  }

  /** Only a successful IV-bearing init opens a record. */
  lemma OnlyInitOpens(s: Script, c: Ctx, call: Call)
    requires !Open(c) && Open(Apply(s, c, call).0)
    ensures call.Init? && call.args.iv.Some? && Apply(s, c, call).1.ok
  {
    if call.Init? {
      InitOpens(s, c, call.args, call.encrypt);
    } else {
      ClosedStaysClosed(s, c, call);
    }
  }

  /**
   * A failed init leaves a record open exactly when one was open, the init was turned away before the inner
   * call, and it was not a malformed one that carried a tag beside a key or a change of direction.
   */
  lemma RecordSurvivesFailedInit(s: Script, c: Ctx, args: InitArgs, encrypt: bool)
    requires !DoInit(s, c, args, encrypt).1
    ensures var n := DoInit(s, c, args, encrypt).0;
            && (args.params.tag.Some? ==> !n.decryptTagCurrent)
            && (Open(n) <==>
                  && Open(c) && !CipherCalls.Sound(c, args, encrypt)
                  && !(args.params.tag.Some? && (args.key.Some? || (c.directionSet && c.encrypt != encrypt))))
  {
    CipherCalls.MalformedIs(c, args, encrypt);
    if TurnedAway(c, args, encrypt) {
      TurnedAwayKeeps(s, c, args, encrypt);
    } else {
      BeginOpens(s, ForgetTag(c, args.params), args, encrypt);
    }
  }

  // ---------- the record budget

  /**
   * On every run the counter and the records charged to the installed key stay within the limit and within an
   * `int`.
   */
  lemma BudgetHolds(s: Script, recordLimit: int, calls: seq<Call>)
    requires 0 < recordLimit < INT_MAX
    ensures var c := Run(s, NewCtx(recordLimit), calls);
            && Disciplined(recordLimit, c.log)
            && Read(c.log).budget.records <= recordLimit
            && 0 <= c.write.encryptedRecords <= recordLimit + 1 <= INT_MAX
            && (c.write.usageExhausted ==> Read(c.log).budget.records == recordLimit)
  {
    RunInv(s, recordLimit, calls);
    RunDisciplined(s, recordLimit, calls);
  }

  /** The same for the production constant. */
  lemma ProductionBudget(s: Script, calls: seq<Call>)
    ensures var c := Run(s, NewCtx(23680450), calls);
            && Disciplined(23680450, c.log) && RECORD_LIMIT == 23680450
            && Read(c.log).budget.records <= 23680450 && c.write.encryptedRecords < INT_MAX
  {
    BudgetHolds(s, RECORD_LIMIT, calls);
  }

  lemma ReserveExactly(s: Script, c: Ctx)
    requires Inv(c) && Open(c) && c.phase == ManifestPending && c.encrypt
    ensures Reserve(s, c).1 <==> Next(s, c).ok && Read(c.log).budget.records < c.recordLimit
  {
  }

  /** A new encryption record is granted exactly when the limit has not been reached and the counter could be raised. */
  lemma RefusedExactlyAtTheLimit(s: Script, recordLimit: int, calls: seq<Call>)
    requires 0 < recordLimit < INT_MAX
    ensures var c := Run(s, NewCtx(recordLimit), calls);
            Open(c) && c.phase == ManifestPending && c.encrypt ==>
              (Reserve(s, c).1 <==> Next(s, c).ok && Read(c.log).budget.records < recordLimit)
  {
    RunInv(s, recordLimit, calls);
    RunDisciplined(s, recordLimit, calls);
    var c := Run(s, NewCtx(recordLimit), calls);
    if Open(c) && c.phase == ManifestPending && c.encrypt {
      ReserveExactly(s, c);
    }
  }

  // ---------- keys

  /**
   * On every run: the valid key is the one the inner cipher last accepted, and an open encryption record runs
   * under the usage key.
   */
  lemma WriteKeyBookkeeping(s: Script, recordLimit: int, calls: seq<Call>)
    requires 0 < recordLimit < INT_MAX
    ensures var c := Run(s, NewCtx(recordLimit), calls);
            && (c.keyValid ==> c.write.currentKeyValid && Read(c.log).inner.key == Some(c.write.currentKey))
            && (c.write.usageKeyValid && !c.write.currentKeyChanged ==>
                  c.write.usageKey == c.write.currentKey && c.write.(recordReserved := false) == Compare(c.write))
            && (Open(c) && c.encrypt ==> c.write.usageKeyValid && Read(c.log).inner.key == Some(c.write.usageKey))
  {
    var c := Run(s, NewCtx(recordLimit), calls);
    RunInv(s, recordLimit, calls);
    if c.write.usageKeyValid && !c.write.currentKeyChanged {
      FastPathIsComparingPath(c);
    }
  }

  lemma InstallKeepsKey(s: Script, c: Ctx)
    ensures InstallWriteKey(s, c).0.keyValid == c.keyValid
  {
    if c.write.currentKeyValid && !(c.write.usageKeyValid && !c.write.currentKeyChanged) {
      assert Note(c, WriteLock(Next(s, c).ok)).keyValid == c.keyValid;
    }
  }

  lemma OpenRecordKeepsKey(s: Script, c: Ctx, args: InitArgs)
    ensures OpenRecord(s, c, args).0.keyValid == c.keyValid
  {
    InstallKeepsKey(s, c);
  }

  lemma AcceptKeepsKey(s: Script, c: Ctx, args: InitArgs, encrypt: bool)
    requires args.key.Some? && !c.keyValid && !Accept(s, c, args, encrypt).1
    ensures Accept(s, c, args, encrypt).0.keyValid <==> s(External(c.log)).ok
  {
    var (keyed, recorded) := RecordCurrentKey(s, c, args.key.value);
    if recorded {
      OpenRecordKeepsKey(s, Adopt(keyed, args, encrypt), args);
    }
  }

  /**
   * A failed init with a key leaves a key in force in two cases: it was turned away before the inner call, and
   * the old key stays; or the inner call and the key record succeeded and only the install failed, and the new
   * key stays.
   */
  lemma FailedInitKeepsKey(s: Script, c: Ctx, args: InitArgs, encrypt: bool)
    requires args.key.Some? && !DoInit(s, c, args, encrypt).1
    ensures var n := DoInit(s, c, args, encrypt).0;
            n.keyValid <==>
              if CipherCalls.Sound(c, args, encrypt) then s(External(c.log)).ok && s(External(c.log) + 1).ok
              else c.keyValid
  {
    CipherCalls.MalformedIs(c, args, encrypt);
    if !Malformed(c, args, encrypt) && Next(s, c).ok {
      var called := Note(Prepared(ForgetTag(c, args.params), args, encrypt), InnerInitOf(args, encrypt, true));
      AcceptKeepsKey(s, called, args, encrypt);
    }
  }
}
