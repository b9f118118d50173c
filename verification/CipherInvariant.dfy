/**
 * What every run of the outer cipher context keeps. The statements are about the history of
 * external calls and returns; the context's own fields only serve to prove them.
 */
module CipherInvariant {
  import opened Wrappers
  import opened Bytes
  import opened Gcm
  import opened CipherModel

  // ---------- reading a history

  /** One data call of a record. */
  datatype Data = Aad(bytes: seq<byte>) | Payload(bytes: seq<byte>) | End

  /**
   * The inner cipher as its calls have left it: the key and IV it last accepted, the direction,
   * the data calls and output since the last accepted IV-bearing init, the tag it holds, whether
   * another init has reached it since, and whether a call has failed or returned a wrong length.
   */
  datatype Inner = Inner(
    key: Option<Key>, iv: Option<Iv>, encrypt: bool, calls: seq<Data>, output: seq<byte>,
    tag: Option<Tag>, disturbed: bool, dirty: bool)

  /** The fate of the last call that carried a tag since the record began. */
  datatype TagFate = NoTag | Rejected | Accepted(tag: Tag)

  /**
   * The record as its caller sees it: the key of the last successful key-bearing init, the last
   * successful IV-bearing init, and the successful calls since.
   */
  datatype Caller = Caller(
    key: Option<Key>, iv: Option<Iv>, encrypt: bool, chunks: seq<Data>, output: seq<byte>, tag: TagFate)

  /** The installed write key and the encryption records that reached the inner cipher under it. */
  datatype Budget = Budget(key: Option<Key>, records: nat, counted: bool)

  datatype Reading = Reading(inner: Inner, caller: Caller, budget: Budget)

  const BLANK := Reading(
    Inner(None, None, false, [], [], None, false, false),
    Caller(None, None, false, [], [], NoTag),
    Budget(None, 0, false))

  /** The key an init leaves in place. */
  function KeyAfter(given: Option<Key>, held: Option<Key>): Option<Key> {
    if given.Some? then given else held
  }

  function AfterInnerInit(i: Inner, key: Option<Key>, iv: Option<Iv>, encrypt: bool, newTag: Option<Tag>, ok: bool)
    : Inner
  {
    if !ok then i.(key := if key.Some? then None else i.key, tag := None, disturbed := true, dirty := true)
    else
      var keyed := i.(key := KeyAfter(key, i.key), tag := if newTag.Some? then newTag else i.tag);
      if iv.Some? then
        keyed.(iv := iv, encrypt := encrypt, calls := [], output := [], disturbed := false, dirty := false)
      else keyed.(disturbed := true)
  }

  /** A data call of an encryption record counts that record once. */
  function Count(b: Budget, encrypt: bool): Budget {
    if encrypt && !b.counted then b.(records := b.records + 1, counted := true) else b
  }

  function DataOf(payload: bool, bytes: seq<byte>): Data {
    if payload then Payload(bytes) else Aad(bytes)
  }

  function AfterReturn(r: Reading, call: Call, answer: Answer): Reading {
    match call
    case Init(args, encrypt) =>
      if answer.ok && args.iv.Some? then
        var fate := if args.params.tag.Some? then Accepted(args.params.tag.value.value) else NoTag;
        var begun := r.(caller := Caller(KeyAfter(args.key, r.caller.key), args.iv, encrypt, [], [], fate));
        if encrypt && r.budget.key != r.inner.key then begun.(budget := Budget(r.inner.key, 0, false)) else begun
      else if answer.ok then r.(caller := r.caller.(key := KeyAfter(args.key, r.caller.key)))
      else if args.params.tag.Some? then r.(caller := r.caller.(tag := Rejected))
      else r
    case Update(u) =>
      if answer.ok && u.input.Buffer? && u.input.data != [] then
        r.(caller := r.caller.(chunks := r.caller.chunks + [DataOf(u.out.Some?, u.input.data)],
                               output := r.caller.output + answer.output))
      else r
    case SetParams(params) =>
      if params.tag.Some? then
        r.(caller := r.caller.(tag := if answer.ok then Accepted(params.tag.value.value) else Rejected))
      else r
    case Final(_) => r
    case GetParams(_) => r
  }

  function Observe(r: Reading, event: Event): Reading {
    match event
    case InnerInit(key, iv, encrypt, _, newTag, ok) =>
      var accepted := ok && iv.Some?;
      r.(inner := AfterInnerInit(r.inner, key, iv, encrypt, newTag, ok),
         budget := if accepted then r.budget.(counted := false) else r.budget)
    case InnerUpdate(payload, data, ok, len, output) =>
      r.(inner := r.inner.(calls := r.inner.calls + [DataOf(payload, data)],
                           output := if payload then r.inner.output + output else r.inner.output,
                           dirty := r.inner.dirty || !ok || len != |data|),
         budget := Count(r.budget, r.inner.encrypt))
    case InnerFinal(ok, len) =>
      r.(inner := r.inner.(calls := r.inner.calls + [End], dirty := r.inner.dirty || !ok || len != 0),
         budget := Count(r.budget, r.inner.encrypt))
    case InnerGetTag(ok, len, _) => r.(inner := r.inner.(dirty := r.inner.dirty || !ok || len != TAG_LEN))
    case InnerSetTag(tag, _, ok) =>
      r.(inner := r.inner.(tag := if ok then Some(tag) else None, dirty := r.inner.dirty || !ok))
    case WriteLock(_) => r
    case AtomicAdd(_) => r
    case Returned(call, answer) => AfterReturn(r, call, answer)
  }

  function Read(log: Log): Reading {
    match log
    case Empty => BLANK
    case Then(past, event) => Observe(Read(past), event)
  }

  // ---------- the invariant

  /** Additional data first, then payload, every chunk non-empty. */
  ghost predicate Staged(chunks: seq<Data>) {
    chunks == [] ||
    (var front, last := chunks[..|chunks| - 1], chunks[|chunks| - 1];
     Staged(front) && !last.End? && last.bytes != [] && (Started(front) ==> last.Payload?))
  }

  predicate Started(chunks: seq<Data>) {
    chunks != [] && chunks[|chunks| - 1].Payload?
  }

  predicate Open(c: Ctx) {
    !c.needsReinit && (c.phase == ManifestPending || c.phase == Active)
  }

  /** Bookkeeping of keys. */
  ghost predicate KeysInv(c: Ctx, r: Reading) {
    && (c.keyValid ==>
          c.write.currentKeyValid && r.inner.key == Some(c.write.currentKey))
    && (c.write.usageKeyValid && !c.write.currentKeyChanged ==>
          c.write.currentKeyValid && c.write.usageKey == c.write.currentKey)
  }

  /** The budget counts exactly the reservations that were granted. */
  ghost predicate BudgetInv(c: Ctx, r: Reading) {
    && 0 < c.recordLimit < INT_MAX
    && r.budget.key == (if c.write.usageKeyValid then Some(c.write.usageKey) else None)
    && (if c.write.usageExhausted
        then c.write.encryptedRecords == c.recordLimit + 1 && r.budget.records == c.recordLimit
        else c.write.encryptedRecords == r.budget.records <= c.recordLimit)
  }

  /** The inner cipher holds the caller's record, with the manifest in front of it. */
  ghost predicate RecordInv(c: Ctx, r: Reading) {
    && c.keyValid && !r.inner.disturbed
    && r.inner.encrypt == c.encrypt == r.caller.encrypt
    && r.inner.iv == r.caller.iv && r.inner.iv.Some?
    && Staged(r.caller.chunks)
    && c.payloadStarted == Started(r.caller.chunks)
    && r.inner.output == r.caller.output
    && (c.encrypt ==> c.write.usageKeyValid && !c.write.currentKeyChanged)
  }

  ghost predicate PhaseInv(c: Ctx, r: Reading) {
    match c.phase
    case NoRecord => true
    case ManifestPending =>
      && RecordInv(c, r) && r.inner.calls == [] && r.caller.chunks == []
      && (c.encrypt ==> !c.write.recordReserved && !r.budget.counted)
    case Active =>
      && RecordInv(c, r) && r.inner.calls == [Aad(MANIFEST)] + r.caller.chunks
      && (c.encrypt ==> c.write.recordReserved && r.budget.counted)
    case Finalized => RecordInv(c, r) && r.inner.calls == [Aad(MANIFEST)] + r.caller.chunks + [End]
  }

  ghost predicate TagInv(c: Ctx, r: Reading) {
    c.decryptTagCurrent ==>
      && Open(c) && !c.encrypt && r.caller.tag.Accepted? && r.inner.tag == Some(r.caller.tag.tag)
  }

  /** The invariant, relative to a reading of the history. */
  ghost predicate Holds(c: Ctx, r: Reading) {
    && (r.inner.dirty ==> c.needsReinit)
    && KeysInv(c, r)
    && BudgetInv(c, r)
    && (!c.needsReinit ==> PhaseInv(c, r))
    && TagInv(c, r)
  }

  ghost predicate Inv(c: Ctx) {
    Holds(c, Read(c.log))
  }

  lemma NewInv(recordLimit: int)
    requires 0 < recordLimit < INT_MAX
    ensures Inv(NewCtx(recordLimit))
  {
  }

  // ---------- manifest and reservation

  /** A granted reservation moves the counter by one within the limit; a refused one ends the record. */
  lemma ReserveStep(s: Script, c: Ctx)
    requires Inv(c) && Open(c) && c.phase == ManifestPending && c.encrypt
    ensures var (n, ok) := Reserve(s, c);
            && (!ok ==> Inv(n))
            && (ok ==>
                  && Read(n.log) == Read(c.log)
                  && n == c.(log := n.log,
                             write := c.write.(encryptedRecords := c.write.encryptedRecords + 1,
                                               recordReserved := true))
                  && !c.write.usageExhausted && c.write.encryptedRecords < c.recordLimit)
  {
  }

  /** Injecting the manifest keeps the invariant; on success the manifest is the first data call of the record. */
  lemma InjectStep(s: Script, c: Ctx)
    requires Inv(c) && Open(c)
    ensures var (n, ok) := InjectManifest(s, c);
            && Inv(n)
            && Read(n.log).caller == Read(c.log).caller
            && (ok ==> Open(n) && n.phase == Active && n.encrypt == c.encrypt
                       && n.decryptTagCurrent == c.decryptTagCurrent && n.payloadStarted == c.payloadStarted)
  {
    if c.phase == ManifestPending && c.encrypt {
      ReserveStep(s, c);
    }
  }

  // ---------- update and final

  /** A return that says nothing new about the record keeps the invariant. */
  lemma NeutralReturn(n: Ctx, call: Call, answer: Answer)
    requires Inv(n) && AfterReturn(Read(n.log), call, answer) == Read(n.log)
    ensures Inv(Note(n, Returned(call, answer)))
  {
  }

  lemma AppendStaged(chunks: seq<Data>, d: Data)
    requires Staged(chunks) && !d.End? && d.bytes != [] && (Started(chunks) ==> d.Payload?)
    ensures Staged(chunks + [d]) && Started(chunks + [d]) == d.Payload?
  {
    assert (chunks + [d])[..|chunks|] == chunks;
  }

  function DataCalled(s: Script, c: Ctx, payload: bool, data: seq<byte>): Ctx {
    var r := Next(s, c);
    Note(c, InnerUpdate(payload, data, r.ok, r.len, r.output))
  }

  /** A failed data call poisons the record and changes nothing else. */
  lemma DataFails(s: Script, c: Ctx, payload: bool, data: seq<byte>)
    requires Inv(c) && Open(c) && c.phase == Active
    ensures Inv(Poison(DataCalled(s, c, payload, data)))
  {
  }

  /** One more chunk on both sides. */
  function Extend(r: Reading, d: Data, output: seq<byte>): Reading {
    r.(inner := r.inner.(calls := r.inner.calls + [d], output := r.inner.output + output),
       caller := r.caller.(chunks := r.caller.chunks + [d], output := r.caller.output + output))
  }

  lemma ExtendHolds(c: Ctx, r: Reading, d: Data, output: seq<byte>)
    requires Holds(c, r) && Open(c) && c.phase == Active
    requires !d.End? && d.bytes != [] && (c.payloadStarted ==> d.Payload?)
    ensures Holds(c.(payloadStarted := d.Payload?), Extend(r, d, output))
  {
    AppendStaged(r.caller.chunks, d);
    assert [Aad(MANIFEST)] + r.caller.chunks + [d] == [Aad(MANIFEST)] + (r.caller.chunks + [d]);
  }

  function Released(s: Script, c: Ctx, u: UpdateArgs): seq<byte> {
    if u.out.Some? then Next(s, c).output else []
  }

  lemma DataExtends(s: Script, c: Ctx, u: UpdateArgs)
    requires Inv(c) && Open(c) && c.phase == Active
    requires u.input.Buffer? && u.input.data != []
    requires Next(s, c).ok && Next(s, c).len == |u.input.data|
    ensures var called := DataCalled(s, c, u.out.Some?, u.input.data);
            Read(Then(called.log, Returned(Update(u), Answer(true, Released(s, c, u), None))))
            == Extend(Read(c.log), DataOf(u.out.Some?, u.input.data), Released(s, c, u))
  {
    var r := Read(c.log);
    assert r.inner.output + [] == r.inner.output;
    assert Count(r.budget, r.inner.encrypt) == r.budget;
  }

  /** A successful data call extends the inner record and the caller's by the same chunk and the same output. */
  lemma DataStep(s: Script, c: Ctx, u: UpdateArgs)
    requires Inv(c) && Open(c) && c.phase == Active
    requires u.input.Buffer? && u.input.data != [] && (u.out.None? ==> !c.payloadStarted)
    requires Next(s, c).ok && Next(s, c).len == |u.input.data|
    ensures var called := DataCalled(s, c, u.out.Some?, u.input.data);
            Inv(Note(if u.out.Some? then called.(payloadStarted := true) else called,
                     Returned(Update(u), Answer(true, Released(s, c, u), None))))
  {
    DataExtends(s, c, u);
    ExtendHolds(c, Read(c.log), DataOf(u.out.Some?, u.input.data), Released(s, c, u));
  }

  /** An update that no check turns away. */
  predicate Admitted(c: Ctx, u: UpdateArgs) {
    && !u.outlNull && !Closed(c) && u.input.Buffer? && u.input.data != [] && |u.input.data| <= INT_MAX
    && (u.out.Some? ==> u.out.value >= |u.input.data|) && (u.out.None? ==> !c.payloadStarted)
  }

  lemma TurnedAwayUpdate(s: Script, c: Ctx, u: UpdateArgs)
    requires !Admitted(c, u)
    ensures var (n, answer) := DoUpdate(s, c, u);
            n == c && AfterReturn(Read(c.log), Update(u), answer) == Read(c.log)
  {
  }

  lemma AdmittedUpdate(s: Script, c: Ctx, u: UpdateArgs)
    requires Inv(c) && Admitted(c, u)
    ensures Inv(Apply(s, c, Update(u)).0)
  {
    var (n, answer) := DoUpdate(s, c, u);
    InjectStep(s, c);
    var (injected, ok) := InjectManifest(s, c);
    if ok && answer.ok {
      DataStep(s, injected, u);
    } else {
      if ok {
        DataFails(s, injected, u.out.Some?, u.input.data);
      }
      NeutralReturn(n, Update(u), answer);
    }
  }

  lemma UpdateInv(s: Script, c: Ctx, u: UpdateArgs)
    requires Inv(c)
    ensures Inv(Apply(s, c, Update(u)).0)
  {
    if Admitted(c, u) {
      AdmittedUpdate(s, c, u);
    } else {
      TurnedAwayUpdate(s, c, u);
      NeutralReturn(c, Update(u), DoUpdate(s, c, u).1);
    }
  }

  /** The closing call of a final, made on an active record. */
  lemma EndStep(s: Script, c: Ctx)
    requires Inv(c) && Open(c) && c.phase == Active
    ensures var r := Next(s, c);
            var called := Note(c.(decryptTagCurrent := false), InnerFinal(r.ok, r.len));
            && (!r.ok || r.len != 0 ==> Inv(Poison(called)))
            && (r.ok && r.len == 0 ==> Inv(called.(phase := Finalized)))
  {
  }

  lemma FinalEnds(s: Script, c: Ctx, outlNull: bool)
    requires Inv(c)
    ensures Inv(DoFinal(s, c, outlNull).0)
  {
    if !outlNull && !Closed(c) && (c.encrypt || c.decryptTagCurrent) {
      InjectStep(s, c);
      var (injected, ok) := InjectManifest(s, c);
      if ok {
        EndStep(s, injected);
      }
    }
  }

  lemma FinalInv(s: Script, c: Ctx, outlNull: bool)
    requires Inv(c)
    ensures Inv(DoFinal(s, c, outlNull).0) && Inv(Apply(s, c, Final(outlNull)).0)
  {
    FinalEnds(s, c, outlNull);
    NeutralReturn(DoFinal(s, c, outlNull).0, Final(outlNull), Answer(DoFinal(s, c, outlNull).1, [], None));
  }

  // ---------- parameters

  /** The caller's view of a call that carried a tag. */
  function WithFate(r: Reading, fate: TagFate): Reading {
    r.(caller := r.caller.(tag := fate))
  }

  /** Forgetting the tag makes room for any fate of it. */
  lemma ForgottenTag(c: Ctx, r: Reading, fate: TagFate)
    requires Holds(c, r) && !c.decryptTagCurrent
    ensures Holds(c, WithFate(r, fate))
  {
  }

  lemma ForgetTagHolds(c: Ctx, params: Params)
    requires Inv(c)
    ensures Inv(ForgetTag(c, params)) && (params.tag.Some? ==> !ForgetTag(c, params).decryptTagCurrent)
  {
  }

  /** Setting the tag of an open decryption record. */
  lemma SetTagStep(s: Script, c: Ctx, params: Params)
    requires Inv(c) && !c.decryptTagCurrent && params.tag.Some? && SetTagValid(c, params.tag.value)
    ensures var (n, ok) := SetTag(s, c, params.tag.value.value, params.ivLen);
            if ok then Inv(Note(n, Returned(SetParams(params), DONE))) else Inv(n) && !n.decryptTagCurrent
  {
  }

  lemma RefusedTagReturn(n: Ctx, params: Params)
    requires Inv(n) && !n.decryptTagCurrent && params.tag.Some?
    ensures Inv(Note(n, Returned(SetParams(params), REFUSED)))
  {
    ForgottenTag(n, Read(n.log), Rejected);
  }

  lemma SetTagReturn(s: Script, c: Ctx, params: Params)
    requires Inv(c) && !c.decryptTagCurrent && params.tag.Some? && SetTagValid(c, params.tag.value)
    ensures var (n, ok) := SetTag(s, c, params.tag.value.value, params.ivLen);
            Inv(Note(n, Returned(SetParams(params), Answer(ok, [], None))))
  {
    SetTagStep(s, c, params);
    if !Next(s, c).ok {
      RefusedTagReturn(SetTag(s, c, params.tag.value.value, params.ivLen).0, params);
    }
  }

  lemma SetTagInv(s: Script, c: Ctx, params: Params)
    requires Inv(c) && params.tag.Some?
    ensures var (n, ok) := DoSetParams(s, c, params);
            Inv(Note(n, Returned(SetParams(params), Answer(ok, [], None))))
  {
    ForgetTagHolds(c, params);
    if params.forbidden || params.duplicate || !params.lengthsOk
       || !SetTagValid(ForgetTag(c, params), params.tag.value) {
      RefusedTagReturn(ForgetTag(c, params), params);
    } else {
      SetTagReturn(s, ForgetTag(c, params), params);
    }
  }

  lemma SetParamsInv(s: Script, c: Ctx, params: Params)
    requires Inv(c)
    ensures Inv(Apply(s, c, SetParams(params)).0)
  {
    if params.tag.None? {
      NeutralReturn(DoSetParams(s, c, params).0, SetParams(params), Answer(DoSetParams(s, c, params).1, [], None));
    } else {
      SetTagInv(s, c, params);
    }
  }

  lemma GetParamsInv(s: Script, c: Ctx, get: GetArgs)
    requires Inv(c)
    ensures Inv(Apply(s, c, GetParams(get)).0)
  {
    var (n, answer) := DoGetParams(s, c, get);
    NeutralReturn(n, GetParams(get), answer);
  }

  // ---------- init

  lemma RejectedInitHolds(c: Ctx, args: InitArgs, encrypt: bool)
    requires Inv(c)
    ensures var n := RejectInit(c, args, encrypt);
            Holds(n, Read(n.log)) && (args.params.tag.Some? ==> !n.decryptTagCurrent)
  {
  }

  /** Abandoning the record makes every claim about it void; only the key and budget claims remain. */
  lemma AbandonInv(c: Ctx)
    requires KeysInv(c, Read(c.log)) && BudgetInv(c, Read(c.log))
    ensures Inv(Abandon(c))
  {
  }

  /** A failed init changes the caller's view at most in the fate of its tag. */
  lemma FailedReturn(n: Ctx, args: InitArgs, encrypt: bool)
    requires Inv(n) && (args.params.tag.Some? ==> !n.decryptTagCurrent)
    ensures Inv(Note(n, Returned(Init(args, encrypt), REFUSED)))
  {
    if args.params.tag.Some? {
      ForgottenTag(n, Read(n.log), Rejected);
    } else {
      NeutralReturn(n, Init(args, encrypt), REFUSED);
    }
  }

  /** Recording a key the inner cipher has just accepted. */
  lemma RecordKeyStep(s: Script, c: Ctx, key: Key)
    requires BudgetInv(c, Read(c.log)) && KeysInv(c, Read(c.log)) && !c.keyValid
    requires Read(c.log).inner.key == Some(key)
    ensures var (n, ok) := RecordCurrentKey(s, c, key);
            && Read(n.log) == Read(c.log)
            && BudgetInv(n, Read(n.log)) && KeysInv(n, Read(n.log)) && !n.keyValid
            && (ok ==> n.write.currentKeyValid && n.write.currentKey == key)
            && n == c.(log := n.log, write := n.write)
  {
  }

  /** After installing, encryption runs under the current key, and only a different key has started a new budget. */
  ghost predicate Installed(c: Ctx, w: WriteKey) {
    && w.usageKeyValid && w.currentKeyValid && !w.currentKeyChanged && !w.recordReserved
    && w.usageKey == w.currentKey == c.write.currentKey
    && (if Read(c.log).budget.key == Some(c.write.currentKey)
        then w.encryptedRecords == c.write.encryptedRecords && w.usageExhausted == c.write.usageExhausted
        else w.encryptedRecords == 0 && !w.usageExhausted)
  }

  lemma CompareInstalls(c: Ctx)
    requires BudgetInv(c, Read(c.log)) && c.write.currentKeyValid
    ensures Installed(c, Compare(c.write))
  {
  }

  /** The lock-free path of installing a write key gives the same write key as the comparing path. */
  lemma FastPathIsComparingPath(c: Ctx)
    requires KeysInv(c, Read(c.log)) && c.write.currentKeyValid && c.write.usageKeyValid && !c.write.currentKeyChanged
    ensures c.write.(recordReserved := false) == Compare(c.write)
  {
  }

  /** On either path, a successful install is the comparing one. */
  lemma InstallCompares(s: Script, c: Ctx)
    requires KeysInv(c, Read(c.log)) && c.write.currentKeyValid
    ensures var (n, ok) := InstallWriteKey(s, c);
            && Read(n.log) == Read(c.log)
            && n == c.(log := n.log, write := if ok then Compare(c.write) else c.write)
  {
    if c.write.usageKeyValid && !c.write.currentKeyChanged {
      FastPathIsComparingPath(c);
    }
  }

  lemma InstallStep(s: Script, c: Ctx)
    requires BudgetInv(c, Read(c.log)) && KeysInv(c, Read(c.log)) && c.write.currentKeyValid
    ensures var (n, ok) := InstallWriteKey(s, c);
            && Read(n.log) == Read(c.log)
            && n == c.(log := n.log, write := n.write)
            && (if ok then Installed(c, n.write) else n.write == c.write)
  {
    InstallCompares(s, c);
    CompareInstalls(c);
  }

  // ---------- init, continued

  /** Where a valid init stands once the inner cipher and the key record have accepted it. */
  ghost predicate Adopted(c: Ctx, args: InitArgs) {
    var r := Read(c.log);
    && BudgetInv(c, r) && KeysInv(c, r)
    && (r.inner.dirty ==> c.needsReinit)
    && (args.params.tag.Some? ==> args.iv.Some? && !c.encrypt && r.inner.tag == TagValue(args.params))
    && (args.iv.Some? ==>
          && c.keyValid && !r.inner.dirty && !r.inner.disturbed && !r.budget.counted
          && r.inner.key == KeyAfter(args.key, r.inner.key)
          && r.inner.iv == args.iv && r.inner.encrypt == c.encrypt && r.inner.calls == [] && r.inner.output == [])
  }

  lemma NoIvStep(c: Ctx, args: InitArgs)
    requires Adopted(c, args) && args.iv.None?
    ensures Inv(Note(Invalidate(c), Returned(Init(args, c.encrypt), DONE)))
  {
  }

  function Entered(c: Ctx, args: InitArgs): Ctx {
    c.(phase := ManifestPending, payloadStarted := false, needsReinit := false,
       decryptTagCurrent := !c.encrypt && args.params.tag.Some?)
  }

  lemma DecryptEnters(c: Ctx, args: InitArgs)
    requires Adopted(c, args) && args.iv.Some? && !c.encrypt
    ensures Inv(Note(Entered(c, args), Returned(Init(args, false), DONE)))
  {
  }

  lemma EncryptEnters(c: Ctx, installed: Ctx, args: InitArgs)
    requires Adopted(c, args) && args.iv.Some? && c.encrypt
    requires Read(installed.log) == Read(c.log) && installed == c.(log := installed.log, write := installed.write)
    requires Installed(c, installed.write)
    ensures Inv(Note(Entered(installed, args), Returned(Init(args, true), DONE)))
  {
  }

  lemma OpenRecordInv(s: Script, c: Ctx, args: InitArgs)
    requires Adopted(c, args)
    ensures var (n, ok) := OpenRecord(s, c, args);
            Inv(Note(n, Returned(Init(args, c.encrypt), Answer(ok, [], None))))
  {
    if args.iv.None? {
      NoIvStep(c, args);
    } else if !c.encrypt {
      DecryptEnters(c, args);
    } else {
      InstallStep(s, c);
      var (installed, ok) := InstallWriteKey(s, c);
      if ok {
        EncryptEnters(c, installed, args);
      } else {
        AbandonInv(installed);
        FailedReturn(Abandon(installed), args, true);
      }
    }
  }

  predicate Valid(c: Ctx, args: InitArgs, encrypt: bool) {
    && (args.iv.Some? ==> args.key.Some? || c.keyValid)
    && (args.params.tag.Some? ==> !encrypt && args.iv.Some?)
  }

  lemma PreparedHolds(c: Ctx, args: InitArgs, encrypt: bool)
    requires Inv(c)
    ensures var n := Prepared(c, args, encrypt);
            && n.log == c.log && n.write == c.write
            && KeysInv(n, Read(n.log)) && BudgetInv(n, Read(n.log)) && (Read(n.log).inner.dirty ==> n.needsReinit)
            && n.keyValid == (args.key.None? && c.keyValid)
  {
  }

  lemma InnerInitFails(n: Ctx, args: InitArgs, encrypt: bool)
    requires KeysInv(n, Read(n.log)) && BudgetInv(n, Read(n.log)) && (n.keyValid ==> args.key.None?)
    ensures Inv(Note(Abandon(Note(n, InnerInitOf(args, encrypt, false))), Returned(Init(args, encrypt), REFUSED)))
  {
    var called := Note(n, InnerInitOf(args, encrypt, false));
    AbandonInv(called);
    FailedReturn(Abandon(called), args, encrypt);
  }

  /** Where an accepted init stands before its key is recorded. */
  ghost predicate Offered(c: Ctx, args: InitArgs, encrypt: bool) {
    var r := Read(c.log);
    && KeysInv(c, r) && BudgetInv(c, r) && (r.inner.dirty ==> c.needsReinit)
    && (c.keyValid ==> args.key.None?) && (args.iv.Some? && args.key.None? ==> c.keyValid)
    && (args.params.tag.Some? ==> !encrypt && args.iv.Some? && r.inner.tag == TagValue(args.params))
    && (args.key.Some? ==> r.inner.key == args.key)
    && (args.iv.Some? ==>
          && !r.inner.dirty && !r.inner.disturbed && !r.budget.counted
          && r.inner.iv == args.iv && r.inner.encrypt == encrypt && r.inner.calls == [] && r.inner.output == [])
  }

  lemma InnerInitAccepted(n: Ctx, args: InitArgs, encrypt: bool)
    requires KeysInv(n, Read(n.log)) && BudgetInv(n, Read(n.log)) && (Read(n.log).inner.dirty ==> n.needsReinit)
    requires (n.keyValid ==> args.key.None?) && (args.iv.Some? && args.key.None? ==> n.keyValid)
    requires args.params.tag.Some? ==> !encrypt && args.iv.Some?
    ensures Offered(Note(n, InnerInitOf(args, encrypt, true)), args, encrypt)
  {
  }

  lemma OfferedWithoutKey(c: Ctx, args: InitArgs, encrypt: bool)
    requires Offered(c, args, encrypt) && args.key.None?
    ensures Adopted(Adopt(c, args, encrypt), args)
  {
  }

  lemma RecordedAdopts(c: Ctx, keyed: Ctx, args: InitArgs, encrypt: bool)
    requires Offered(c, args, encrypt) && args.key.Some?
    requires Read(keyed.log) == Read(c.log) && keyed == c.(log := keyed.log, write := keyed.write)
    requires BudgetInv(keyed, Read(keyed.log)) && KeysInv(keyed, Read(keyed.log))
    requires keyed.write.currentKeyValid && keyed.write.currentKey == args.key.value
    ensures Adopted(Adopt(keyed, args, encrypt), args)
  {
  }

  lemma OfferedWithKey(s: Script, c: Ctx, args: InitArgs, encrypt: bool)
    requires Offered(c, args, encrypt) && args.key.Some?
    ensures var (keyed, recorded) := RecordCurrentKey(s, c, args.key.value);
            && KeysInv(keyed, Read(keyed.log)) && BudgetInv(keyed, Read(keyed.log))
            && (recorded ==> Adopted(Adopt(keyed, args, encrypt), args))
  {
    RecordKeyStep(s, c, args.key.value);
    var (keyed, recorded) := RecordCurrentKey(s, c, args.key.value);
    if recorded {
      RecordedAdopts(c, keyed, args, encrypt);
    }
  }

  /** Everything after the inner cipher has accepted an init. */
  lemma AcceptInv(s: Script, c: Ctx, args: InitArgs, encrypt: bool)
    requires Offered(c, args, encrypt)
    ensures var (m, ok) := Accept(s, c, args, encrypt);
            Inv(Note(m, Returned(Init(args, encrypt), Answer(ok, [], None))))
  {
    if args.key.None? {
      OfferedWithoutKey(c, args, encrypt);
      OpenRecordInv(s, Adopt(c, args, encrypt), args);
    } else {
      OfferedWithKey(s, c, args, encrypt);
      var (keyed, recorded) := RecordCurrentKey(s, c, args.key.value);
      if recorded {
        OpenRecordInv(s, Adopt(keyed, args, encrypt), args);
      } else {
        AbandonInv(keyed);
        FailedReturn(Abandon(keyed), args, encrypt);
      }
    }
  }

  lemma BeginInv(s: Script, c: Ctx, args: InitArgs, encrypt: bool)
    requires Inv(c) && Valid(c, args, encrypt)
    ensures var (n, ok) := Begin(s, c, args, encrypt);
            Inv(Note(n, Returned(Init(args, encrypt), Answer(ok, [], None))))
  {
    PreparedHolds(c, args, encrypt);
    if Next(s, c).ok {
      InnerInitAccepted(Prepared(c, args, encrypt), args, encrypt);
      AcceptInv(s, Note(Prepared(c, args, encrypt), InnerInitOf(args, encrypt, true)), args, encrypt);
    } else {
      InnerInitFails(Prepared(c, args, encrypt), args, encrypt);
    }
  }

  lemma MalformedInitInv(s: Script, c: Ctx, args: InitArgs, encrypt: bool)
    requires Inv(c) && Malformed(c, args, encrypt)
    ensures var (n, ok) := DoInit(s, c, args, encrypt);
            Inv(Note(n, Returned(Init(args, encrypt), Answer(ok, [], None))))
  {
    RejectedInitHolds(c, args, encrypt);
    FailedReturn(RejectInit(c, args, encrypt), args, encrypt);
  }

  lemma InitInv(s: Script, c: Ctx, args: InitArgs, encrypt: bool)
    requires Inv(c)
    ensures var (n, ok) := DoInit(s, c, args, encrypt);
            Inv(Note(n, Returned(Init(args, encrypt), Answer(ok, [], None))))
  {
    if Malformed(c, args, encrypt) {
      MalformedInitInv(s, c, args, encrypt);
    } else {
      ForgetTagHolds(c, args.params);
      if args.iv.Some? && args.key.None? && !c.keyValid {
        FailedReturn(ForgetTag(c, args.params), args, encrypt);
      } else {
        BeginInv(s, ForgetTag(c, args.params), args, encrypt);
      }
    }
  }

  // ---------- runs

  lemma ApplyInv(s: Script, c: Ctx, call: Call)
    requires Inv(c)
    ensures Inv(Apply(s, c, call).0)
  {
    match call
    case Init(args, encrypt) => InitInv(s, c, args, encrypt);
    case Update(u) => UpdateInv(s, c, u);
    case Final(outlNull) => FinalInv(s, c, outlNull);
    case SetParams(params) => SetParamsInv(s, c, params);
    case GetParams(get) => GetParamsInv(s, c, get);
  }

  lemma {:induction false} RunInv(s: Script, recordLimit: int, calls: seq<Call>)
    requires 0 < recordLimit < INT_MAX
    ensures Inv(Run(s, NewCtx(recordLimit), calls))
  {
    if calls == [] {
      NewInv(recordLimit);
    } else {
      RunInv(s, recordLimit, calls[..|calls| - 1]);
      ApplyInv(s, Run(s, NewCtx(recordLimit), calls[..|calls| - 1]), calls[|calls| - 1]);
    }
  }
}
