/** The outer cipher context as a value, and every provider call as a function on it. */
module CipherModel {
  import opened Wrappers
  import opened Bytes
  import opened Gcm

  const INT_MAX := 0x7fff_ffff
  const RECORD_LIMIT := 23680450

  /** The fixed manifest put in front of the caller's additional data. */
  const MANIFEST: seq<byte> :=
    [0x47, 0x33, 0x30, 0x31, 0x2d, 0x54, 0x4c, 0x53, 0x31, 0x33, 0x2d, 0x41, 0x45, 0x41, 0x44, 0x01,
     0x04, 0x01, 0x01, 0x2d, 0x01, 0x00, 0x63, 0x01, 0x01, 0x74, 0x01, 0x00, 0xaf, 0x02, 0x03, 0xb3]

  // ---------- calls by the application

  datatype TagParam = TagParam(wellFormed: bool, value: Tag)

  /**
   * A parameter list as far as the cipher looks at it: its tag, whether it names the IV length,
   * whether all length fields have the fixed values, and whether a forbidden or repeated name occurs.
   */
  datatype Params = Params(tag: Option<TagParam>, ivLen: bool, lengthsOk: bool, forbidden: bool, duplicate: bool)

  /** Key and IV (`None` for NULL) with the lengths the caller claims for them. */
  datatype InitArgs = InitArgs(key: Option<Key>, keyLen: nat, iv: Option<Iv>, ivLen: nat, params: Params)

  datatype Input = Null(claimed: nat) | Buffer(data: seq<byte>) {
    function Len(): nat {
      if Null? then claimed else |data|
    }
  }

  /** `out` is the size of the output buffer, or `None` for additional data. */
  datatype UpdateArgs = UpdateArgs(outlNull: bool, out: Option<nat>, input: Input)

  /** A request for the tag: its declared type, whether it has a buffer, and that buffer's size. */
  datatype TagRequest = TagRequest(octets: bool, hasBuffer: bool, size: nat)

  datatype GetArgs = GetArgs(tag: Option<TagRequest>, lengthsSettable: bool, forbidden: bool, duplicate: bool)

  datatype Call =
    | Init(args: InitArgs, encrypt: bool)
    | Update(update: UpdateArgs)
    | Final(outlNull: bool)
    | SetParams(params: Params)
    | GetParams(get: GetArgs)

  /**
   * What a call gives back: success, the output bytes it reports, and the tag written to the caller's buffer, if
   * any.
   */
  datatype Answer = Answer(ok: bool, output: seq<byte>, tag: Option<Tag>)

  const REFUSED := Answer(false, [], None)
  const DONE := Answer(true, [], None)

  // ---------- calls to the inner cipher and the platform

  /**
   * How the platform answers one external call. `tag` is what a tag fetch leaves in the buffer it is given,
   * which need not be a tag when the fetch fails or reports a wrong length.
   */
  datatype Reply = Reply(ok: bool, len: int, output: seq<byte>, tag: Tag)

  /** The answers to all external calls of a run, in order; any of them may be a failure or a wrong length. */
  type Script = nat -> Reply

  datatype Event =
    | InnerInit(key: Option<Key>, iv: Option<Iv>, encrypt: bool, ivLen: bool, newTag: Option<Tag>, ok: bool)
    | InnerUpdate(payload: bool, data: seq<byte>, ok: bool, len: int, output: seq<byte>)
    | InnerFinal(ok: bool, len: int)
    | InnerGetTag(ok: bool, len: int, tag: Tag)
    | InnerSetTag(tag: Tag, ivLen: bool, ok: bool)
    | WriteLock(ok: bool)
    | AtomicAdd(ok: bool)
    | Returned(call: Call, answer: Answer)

  /** The history of a run, newest event last. */
  datatype Log = Empty | Then(past: Log, event: Event)

  /** How many external calls a history contains. */
  function External(log: Log): nat {
    match log
    case Empty => 0
    case Then(past, event) => External(past) + if event.Returned? then 0 else 1
  }

  // ---------- the context

  datatype Phase = NoRecord | ManifestPending | Active | Finalized

  /** Which key encryption runs under and how many records it has protected. */
  datatype WriteKey = WriteKey(
    currentKey: Key,
    currentKeyValid: bool,
    currentKeyChanged: bool,
    usageKey: Key,
    usageKeyValid: bool,
    encryptedRecords: int,
    usageExhausted: bool,
    recordReserved: bool)

  datatype Ctx = Ctx(
    phase: Phase,
    encrypt: bool,
    directionSet: bool,
    keyValid: bool,
    needsReinit: bool,
    decryptTagCurrent: bool,
    payloadStarted: bool,
    write: WriteKey,
    recordLimit: int,
    log: Log)

  function ZeroKey(): Key {
    seq(KEY_LEN, _ => 0)
  }

  function NewCtx(recordLimit: int): Ctx {
    Ctx(NoRecord, false, false, false, false, false, false,
        WriteKey(ZeroKey(), false, false, ZeroKey(), false, 0, false, false), recordLimit, Empty)
  }

  function Next(s: Script, c: Ctx): Reply {
    s(External(c.log))
  }

  function Note(c: Ctx, event: Event): Ctx {
    c.(log := Then(c.log, event))
  }

  function Invalidate(c: Ctx): Ctx {
    c.(phase := NoRecord, payloadStarted := false, decryptTagCurrent := false)
  }

  function Poison(c: Ctx): Ctx {
    c.(needsReinit := true, decryptTagCurrent := false)
  }

  function Abandon(c: Ctx): Ctx {
    Invalidate(Poison(c))
  }

  // ---------- write keys and their budget

  function RecordCurrentKey(s: Script, c: Ctx, key: Key): (Ctx, bool) {
    var locked := Note(c, WriteLock(Next(s, c).ok));
    if !Next(s, c).ok then (locked, false)
    else if !c.write.currentKeyValid || c.write.currentKey != key then
      (locked.(write := c.write.(currentKey := key, currentKeyValid := true, currentKeyChanged := true)), true)
    else (locked, true)
  }

  /** The comparing path of installing the current key for encryption. */
  function Compare(w: WriteKey): WriteKey {
    var sameKey := w.usageKeyValid && w.usageKey == w.currentKey;
    var installed :=
      if sameKey then w
      else w.(usageKey := w.currentKey, usageKeyValid := true, encryptedRecords := 0, usageExhausted := false);
    installed.(currentKeyChanged := false, recordReserved := false)
  }

  function InstallWriteKey(s: Script, c: Ctx): (Ctx, bool) {
    if !c.write.currentKeyValid then (c, false)
    else if c.write.usageKeyValid && !c.write.currentKeyChanged then
      (c.(write := c.write.(recordReserved := false)), true)
    else
      var locked := Note(c, WriteLock(Next(s, c).ok));
      if !Next(s, c).ok then (locked, false) else (locked.(write := Compare(c.write)), true)
  }

  function Reserve(s: Script, c: Ctx): (Ctx, bool) {
    if c.write.recordReserved then (c, true)
    else if !c.write.usageKeyValid || c.write.usageExhausted then (Abandon(c), false)
    else
      var added := Note(c, AtomicAdd(Next(s, c).ok));
      var records := c.write.encryptedRecords + 1;
      if !Next(s, c).ok then (Abandon(added), false)
      else if records <= c.recordLimit then
        (added.(write := c.write.(encryptedRecords := records, recordReserved := true)), true)
      else
        (Abandon(added.(write := c.write.(encryptedRecords := records, usageExhausted := true))), false)
  }

  // ---------- init

  predicate LengthsWrong(args: InitArgs) {
    || (args.key.Some? && args.keyLen != KEY_LEN) || (args.key.None? && args.keyLen != 0)
    || (args.iv.Some? && args.ivLen != IV_LEN) || (args.iv.None? && args.ivLen != 0)
  }

  predicate ParamsValid(params: Params, encrypt: bool, newRecord: bool) {
    && !params.forbidden && !params.duplicate && params.lengthsOk
    && (params.tag.Some? ==> !encrypt && newRecord && params.tag.value.wellFormed)
  }

  predicate DirectionChange(c: Ctx, encrypt: bool) {
    c.directionSet && c.encrypt != encrypt
  }

  /** A rejected init: a tag is forgotten, and a tag beside a key or a new direction ends the record. */
  function RejectInit(c: Ctx, args: InitArgs, encrypt: bool): Ctx {
    var change := DirectionChange(c, encrypt);
    var forgotten := if args.params.tag.Some? || change then c.(decryptTagCurrent := false) else c;
    if args.params.tag.Some? && (args.key.Some? || change) then Invalidate(forgotten) else forgotten
  }

  function TagValue(params: Params): Option<Tag> {
    if params.tag.Some? then Some(params.tag.value.value) else None
  }

  /**
   * What a valid init drops before its inner call: any record on a new key or direction, and the old key's
   * validity.
   */
  function Prepared(c: Ctx, args: InitArgs, encrypt: bool): Ctx {
    var dropped := if DirectionChange(c, encrypt) || args.key.Some? then Invalidate(c) else c;
    if args.key.Some? then dropped.(keyValid := false) else dropped
  }

  function InnerInitOf(args: InitArgs, encrypt: bool, ok: bool): Event {
    InnerInit(args.key, args.iv, encrypt, args.params.ivLen, TagValue(args.params), ok)
  }

  function Adopt(c: Ctx, args: InitArgs, encrypt: bool): Ctx {
    c.(encrypt := encrypt, directionSet := true, keyValid := c.keyValid || args.key.Some?)
  }

  /** What follows an init the inner cipher accepted. */
  function Accept(s: Script, c: Ctx, args: InitArgs, encrypt: bool): (Ctx, bool) {
    var (keyed, recorded) := if args.key.Some? then RecordCurrentKey(s, c, args.key.value) else (c, true);
    if !recorded then (Abandon(keyed), false) else OpenRecord(s, Adopt(keyed, args, encrypt), args)
  }

  /** The part of an init that a valid request reaches: the inner call and what depends on it. */
  function Begin(s: Script, c: Ctx, args: InitArgs, encrypt: bool): (Ctx, bool) {
    var called := Note(Prepared(c, args, encrypt), InnerInitOf(args, encrypt, Next(s, c).ok));
    if !Next(s, c).ok then (Abandon(called), false) else Accept(s, called, args, encrypt)
  }

  /** Enters `ManifestPending` if the init carried an IV, and ends any record if it did not. */
  function OpenRecord(s: Script, c: Ctx, args: InitArgs): (Ctx, bool) {
    if args.iv.None? then (Invalidate(c), true)
    else
      var (installed, ok) := if c.encrypt then InstallWriteKey(s, c) else (c, true);
      if !ok then (Abandon(installed), false)
      else
        (installed.(phase := ManifestPending, payloadStarted := false, needsReinit := false,
                    decryptTagCurrent := !c.encrypt && args.params.tag.Some?), true)
  }

  predicate Malformed(c: Ctx, args: InitArgs, encrypt: bool) {
    LengthsWrong(args) || !ParamsValid(args.params, encrypt, args.iv.Some? && (args.key.Some? || c.keyValid))
  }

  /** Any call that carries a tag first forgets the one set before. */
  function ForgetTag(c: Ctx, params: Params): Ctx {
    if params.tag.Some? then c.(decryptTagCurrent := false) else c
  }

  function DoInit(s: Script, c: Ctx, args: InitArgs, encrypt: bool): (Ctx, bool) {
    if Malformed(c, args, encrypt) then (RejectInit(c, args, encrypt), false)
    else if args.iv.Some? && args.key.None? && !c.keyValid then (ForgetTag(c, args.params), false)
    else Begin(s, ForgetTag(c, args.params), args, encrypt)
  }

  // ---------- update and final

  function InjectManifest(s: Script, c: Ctx): (Ctx, bool) {
    if c.phase != ManifestPending then (c, c.phase == Active)
    else
      var (reserved, ok) := if c.encrypt then Reserve(s, c) else (c, true);
      if !ok then (reserved, false)
      else
        var r := Next(s, reserved);
        var called := Note(reserved, InnerUpdate(false, MANIFEST, r.ok, r.len, r.output));
        if !r.ok || r.len != |MANIFEST| then (Poison(called), false) else (called.(phase := Active), true)
  }

  predicate Closed(c: Ctx) {
    c.needsReinit || c.phase == NoRecord || c.phase == Finalized
  }

  function DoUpdate(s: Script, c: Ctx, u: UpdateArgs): (Ctx, Answer) {
    if u.outlNull || Closed(c) then (c, REFUSED)
    else if (u.input.Null? && u.input.claimed != 0) || u.input.Len() > INT_MAX then (c, REFUSED)
    else if u.input.Len() == 0 then (c, DONE)
    else if u.out.Some? && u.out.value < u.input.Len() then (c, REFUSED)
    else if u.out.None? && c.payloadStarted then (c, REFUSED)
    else
      var (injected, ok) := InjectManifest(s, c);
      if !ok then (injected, REFUSED)
      else
        var r := Next(s, injected);
        var called := Note(injected, InnerUpdate(u.out.Some?, u.input.data, r.ok, r.len, r.output));
        if !r.ok || r.len != |u.input.data| then (Poison(called), REFUSED)
        else
          (if u.out.Some? then called.(payloadStarted := true) else called,
           Answer(true, if u.out.Some? then r.output else [], None))
  }

  function DoFinal(s: Script, c: Ctx, outlNull: bool): (Ctx, bool) {
    if outlNull then
      (if !c.needsReinit && (c.phase == ManifestPending || c.phase == Active) then Poison(c) else c, false)
    else if Closed(c) then (c, false)
    else if !c.encrypt && !c.decryptTagCurrent then (Poison(c), false)
    else
      var (injected, ok) := InjectManifest(s, c);
      if !ok then (injected, false)
      else
        var r := Next(s, injected);
        var called := Note(injected.(decryptTagCurrent := false), InnerFinal(r.ok, r.len));
        if !r.ok || r.len != 0 then (Poison(called), false) else (called.(phase := Finalized), true)
  }

  // ---------- parameters

  predicate SetTagValid(c: Ctx, tag: TagParam) {
    !c.encrypt && !c.needsReinit && (c.phase == ManifestPending || c.phase == Active) && tag.wellFormed
  }

  function SetTag(s: Script, c: Ctx, tag: Tag, ivLen: bool): (Ctx, bool) {
    var called := Note(c, InnerSetTag(tag, ivLen, Next(s, c).ok));
    if !Next(s, c).ok then (Poison(called), false) else (called.(decryptTagCurrent := true), true)
  }

  function DoSetParams(s: Script, c: Ctx, params: Params): (Ctx, bool) {
    var forgotten := ForgetTag(c, params);
    if params.forbidden || params.duplicate || !params.lengthsOk then (forgotten, false)
    else if params.tag.None? then (forgotten, true)
    else if !SetTagValid(forgotten, params.tag.value) then (forgotten, false)
    else SetTag(s, forgotten, params.tag.value.value, params.ivLen)
  }

  function GetEncryptionTag(s: Script, c: Ctx, request: TagRequest): (Ctx, Answer) {
    if !request.octets then (c, REFUSED)
    else if !request.hasBuffer then (c, DONE)
    else if request.size != TAG_LEN then (c, REFUSED)
    else
      var r := Next(s, c);
      var called := Note(c, InnerGetTag(r.ok, r.len, r.tag));
      if !r.ok || r.len != TAG_LEN then (Poison(called), REFUSED) else (called, Answer(true, [], Some(r.tag)))
  }

  function DoGetParams(s: Script, c: Ctx, get: GetArgs): (Ctx, Answer) {
    if get.forbidden || get.duplicate || !get.lengthsSettable then (c, REFUSED)
    else if get.tag.None? then (c, DONE)
    else if !c.encrypt || c.phase != Finalized || c.needsReinit then (c, REFUSED)
    else GetEncryptionTag(s, c, get.tag.value)
  }

  // ---------- one call, and runs of calls

  function Perform(s: Script, c: Ctx, call: Call): (Ctx, Answer) {
    match call
    case Init(args, encrypt) =>
      var (n, ok) := DoInit(s, c, args, encrypt);
      (n, Answer(ok, [], None))
    case Update(u) => DoUpdate(s, c, u)
    case Final(outlNull) =>
      var (n, ok) := DoFinal(s, c, outlNull);
      (n, Answer(ok, [], None))
    case SetParams(params) =>
      var (n, ok) := DoSetParams(s, c, params);
      (n, Answer(ok, [], None))
    case GetParams(get) => DoGetParams(s, c, get)
  }

  /** Performs a call and notes its return in the history. */
  function Apply(s: Script, c: Ctx, call: Call): (Ctx, Answer) {
    var (n, answer) := Perform(s, c, call);
    (Note(n, Returned(call, answer)), answer)
  }

  function Run(s: Script, c: Ctx, calls: seq<Call>): Ctx {
    if calls == [] then c
    else Apply(s, Run(s, c, calls[..|calls| - 1]), calls[|calls| - 1]).0
  }
}
