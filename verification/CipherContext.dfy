/**
 * The outer cipher context as the object it is: flags, counters and key buffers changed in place around an inner
 * cipher.
 */
module CipherContext {
  import opened Wrappers
  import opened Bytes
  import opened Gcm
  import M = CipherModel

  /**
   * The inner cipher and the platform behind the context. Every call may fail or report a wrong length,
   * as the given answers say; every call is noted in the history.
   */
  class Backend {
    const replies: M.Script
    var calls: nat
    ghost var log: M.Log

    ghost predicate Valid()
      reads this
    {
      calls == M.External(log)
    }

    constructor (replies: M.Script)
      ensures Valid() && this.replies == replies && log == M.Empty
    {
      this.replies := replies;
      calls := 0;
      log := M.Empty;
    }

    method Init(key: Option<Key>, iv: Option<Iv>, encrypt: bool, ivLen: bool, newTag: Option<Tag>) returns (ok: bool)
      requires Valid()
      modifies this
      ensures Valid() && ok == replies(M.External(old(log))).ok
      ensures log == M.Then(old(log), M.InnerInit(key, iv, encrypt, ivLen, newTag, ok))
    {
      ok := replies(calls).ok;
      calls := calls + 1;
      log := M.Then(log, M.InnerInit(key, iv, encrypt, ivLen, newTag, ok));
    }

    method Update(payload: bool, data: seq<byte>) returns (ok: bool, len: int, output: seq<byte>)
      requires Valid()
      modifies this
      ensures Valid()
      ensures var r := replies(M.External(old(log))); ok == r.ok && len == r.len && output == r.output
      ensures log == M.Then(old(log), M.InnerUpdate(payload, data, ok, len, output))
    {
      var r := replies(calls);
      ok, len, output := r.ok, r.len, r.output;
      calls := calls + 1;
      log := M.Then(log, M.InnerUpdate(payload, data, ok, len, output));
    }

    method Final() returns (ok: bool, len: int)
      requires Valid()
      modifies this
      ensures Valid()
      ensures var r := replies(M.External(old(log))); ok == r.ok && len == r.len
      ensures log == M.Then(old(log), M.InnerFinal(ok, len))
    {
      var r := replies(calls);
      ok, len := r.ok, r.len;
      calls := calls + 1;
      log := M.Then(log, M.InnerFinal(ok, len));
    }

    /** Writes whatever it likes into the buffer, whether it succeeds or not. */
    method GetTag(buffer: array<byte>) returns (ok: bool, len: int)
      requires Valid() && buffer.Length == TAG_LEN
      modifies this, buffer
      ensures Valid()
      ensures var r := replies(M.External(old(log))); ok == r.ok && len == r.len && buffer[..] == r.tag
      ensures log == M.Then(old(log), M.InnerGetTag(ok, len, buffer[..]))
    {
      var r := replies(calls);
      ok, len := r.ok, r.len;
      CopyBytes(buffer, r.tag);
      calls := calls + 1;
      log := M.Then(log, M.InnerGetTag(ok, len, buffer[..]));
    }

    method SetTag(tag: Tag, ivLen: bool) returns (ok: bool)
      requires Valid()
      modifies this
      ensures Valid() && ok == replies(M.External(old(log))).ok
      ensures log == M.Then(old(log), M.InnerSetTag(tag, ivLen, ok))
    {
      ok := replies(calls).ok;
      calls := calls + 1;
      log := M.Then(log, M.InnerSetTag(tag, ivLen, ok));
    }

    method WriteLock() returns (ok: bool)
      requires Valid()
      modifies this
      ensures Valid() && ok == replies(M.External(old(log))).ok
      ensures log == M.Then(old(log), M.WriteLock(ok))
    {
      ok := replies(calls).ok;
      calls := calls + 1;
      log := M.Then(log, M.WriteLock(ok));
    }

    /** Adds one to a counter, unless it fails. */
    method AtomicAdd(counter: int) returns (ok: bool, sum: int)
      requires Valid()
      modifies this
      ensures Valid() && ok == replies(M.External(old(log))).ok
      ensures sum == if ok then counter + 1 else counter
      ensures log == M.Then(old(log), M.AtomicAdd(ok))
    {
      ok := replies(calls).ok;
      sum := if ok then counter + 1 else counter;
      calls := calls + 1;
      log := M.Then(log, M.AtomicAdd(ok));
    }

    /** Notes what a provider call gave back to the application. */
    ghost method Return(call: M.Call, answer: M.Answer)
      requires Valid()
      modifies this`log
      ensures Valid() && log == M.Then(old(log), M.Returned(call, answer))
    {
      log := M.Then(log, M.Returned(call, answer));
    }
  }

  /** Copies a string into a buffer of its size. */
  method CopyBytes(buffer: array<byte>, bytes: seq<byte>)
    requires buffer.Length == |bytes|
    modifies buffer
    ensures buffer[..] == bytes
  {
    forall i | 0 <= i < buffer.Length {
      buffer[i] := bytes[i];
    }
  }

  method Cleanse(buffer: array<byte>)
    modifies buffer
    ensures forall i :: 0 <= i < buffer.Length ==> buffer[i] == 0
  {
    forall i | 0 <= i < buffer.Length {
      buffer[i] := 0;
    }
  }

  class CipherCtx {
    const inner: Backend
    const recordLimit: int
    const currentKey: array<byte>
    const usageKey: array<byte>
    var phase: M.Phase
    var encrypt: bool
    var directionSet: bool
    var keyValid: bool
    var needsReinit: bool
    var decryptTagCurrent: bool
    var payloadStarted: bool
    var currentKeyValid: bool
    var currentKeyChanged: bool
    var usageKeyValid: bool
    var encryptedRecords: int
    var usageExhausted: bool
    var recordReserved: bool

    ghost predicate Valid()
      reads this, inner
    {
      && inner.Valid()
      && currentKey.Length == KEY_LEN && usageKey.Length == KEY_LEN && currentKey != usageKey
    }

    /** The write-key fields as a value. */
    ghost function Write(): M.WriteKey
      requires currentKey.Length == KEY_LEN && usageKey.Length == KEY_LEN
      reads this, currentKey, usageKey
    {
      M.WriteKey(currentKey[..], currentKeyValid, currentKeyChanged, usageKey[..], usageKeyValid,
                 encryptedRecords, usageExhausted, recordReserved)
    }

    /** The whole context as a value, with the history of its external calls. */
    ghost function View(): M.Ctx
      requires Valid()
      reads this, inner, currentKey, usageKey
    {
      M.Ctx(phase, encrypt, directionSet, keyValid, needsReinit, decryptTagCurrent, payloadStarted,
            Write(), recordLimit, inner.log)
    }

    constructor (inner: Backend, recordLimit: int)
      requires inner.Valid() && inner.log == M.Empty
      ensures Valid() && fresh(currentKey) && fresh(usageKey) && this.inner == inner
      ensures View() == M.NewCtx(recordLimit)
    {
      this.inner := inner;
      this.recordLimit := recordLimit;
      currentKey := new byte[KEY_LEN](_ => 0);
      usageKey := new byte[KEY_LEN](_ => 0);
      phase := M.NoRecord;
      encrypt, directionSet, keyValid, needsReinit, decryptTagCurrent, payloadStarted :=
        false, false, false, false, false, false;
      currentKeyValid, currentKeyChanged, usageKeyValid, usageExhausted, recordReserved :=
        false, false, false, false, false;
      encryptedRecords := 0;
      new;
      assert currentKey[..] == M.ZeroKey() && usageKey[..] == M.ZeroKey();
    }

    method InvalidateRecord()
      requires Valid()
      modifies this`phase, this`payloadStarted, this`decryptTagCurrent
      ensures Valid() && View() == M.Invalidate(old(View()))
    {
      phase := M.NoRecord;
      payloadStarted := false;
      decryptTagCurrent := false;
    }

    method Poison()
      requires Valid()
      modifies this`needsReinit, this`decryptTagCurrent
      ensures Valid() && View() == M.Poison(old(View()))
    {
      needsReinit := true;
      decryptTagCurrent := false;
    }

    /** Poisons and invalidates, as every failure to begin or reserve a record does. */
    method Abandon()
      requires Valid()
      modifies this`needsReinit, this`phase, this`payloadStarted, this`decryptTagCurrent
      ensures Valid() && View() == M.Abandon(old(View()))
    {
      Poison();
      InvalidateRecord();
    }

    method RecordCurrentKey(key: Key) returns (ok: bool)
      requires Valid()
      modifies this`currentKeyValid, this`currentKeyChanged, currentKey, inner
      ensures Valid() && (View(), ok) == M.RecordCurrentKey(inner.replies, old(View()), key)
    {
      ok := inner.WriteLock();
      if !ok {
        return;
      }
      var changed := !currentKeyValid || currentKey[..] != key;
      if changed {
        CopyBytes(currentKey, key);
        currentKeyValid := true;
        currentKeyChanged := true;
      }
    }

    /** What installing does under the lock: only another key than the installed one starts a new count. */
    method CompareAndInstall()
      requires Valid()
      modifies this`usageKeyValid, this`encryptedRecords, this`usageExhausted, this`currentKeyChanged,
               this`recordReserved, usageKey
      ensures Valid() && Write() == M.Compare(old(Write()))
    {
      var sameKey := usageKeyValid && usageKey[..] == currentKey[..];
      if !sameKey {
        CopyBytes(usageKey, currentKey[..]);
        usageKeyValid := true;
        encryptedRecords := 0;
        usageExhausted := false;
      }
      currentKeyChanged := false;
      recordReserved := false;
    }

    method InstallWriteKey() returns (ok: bool)
      requires Valid()
      modifies this`usageKeyValid, this`encryptedRecords, this`usageExhausted, this`currentKeyChanged,
               this`recordReserved, usageKey, inner
      ensures Valid() && (View(), ok) == M.InstallWriteKey(inner.replies, old(View()))
    {
      if !currentKeyValid {
        return false;
      }
      if usageKeyValid && !currentKeyChanged {
        recordReserved := false;
        return true;
      }
      ok := inner.WriteLock();
      if !ok {
        return;
      }
      // The second look at `currentKeyValid` under the lock finds it unchanged: a context has one caller at a time.
      CompareAndInstall();
    }

    method ReserveEncryptionRecord() returns (ok: bool)
      requires Valid()
      modifies this, inner
      ensures Valid() && (View(), ok) == M.Reserve(inner.replies, old(View()))
    {
      if recordReserved {
        return true;
      }
      if !usageKeyValid || usageExhausted {
        Abandon();
        return false;
      }
      var added, records := inner.AtomicAdd(encryptedRecords);
      encryptedRecords := records;
      if !added {
        Abandon();
        return false;
      }
      if records <= recordLimit {
        recordReserved := true;
        return true;
      }
      usageExhausted := true;
      Abandon();
      ok := false;
    }

    method InjectManifest() returns (ok: bool)
      requires Valid()
      modifies this, inner
      ensures Valid() && (View(), ok) == M.InjectManifest(inner.replies, old(View()))
    {
      if phase != M.ManifestPending {
        return phase == M.Active;
      }
      if encrypt {
        ok := ReserveEncryptionRecord();
        if !ok {
          return;
        }
      }
      var updated, len, _ := inner.Update(false, M.MANIFEST);
      if !updated {
        Poison();
        return false;
      }
      if len != |M.MANIFEST| {
        Poison();
        return false;
      }
      phase := M.Active;
      ok := true;
    }

    method Update(u: M.UpdateArgs) returns (answer: M.Answer)
      requires Valid()
      modifies this, inner
      ensures Valid() && (View(), answer) == M.DoUpdate(inner.replies, old(View()), u)
    {
      if u.outlNull {
        return M.REFUSED;
      }
      if needsReinit || phase == M.NoRecord || phase == M.Finalized {
        return M.REFUSED;
      }
      if (u.input.Null? && u.input.claimed != 0) || u.input.Len() > M.INT_MAX {
        return M.REFUSED;
      }
      if u.input.Len() == 0 {
        return M.DONE;
      }
      if u.out.Some? && u.out.value < u.input.Len() {
        return M.REFUSED;
      }
      if u.out.None? && payloadStarted {
        return M.REFUSED;
      }
      var injected := InjectManifest();
      if !injected {
        return M.REFUSED;
      }
      var ok, len, output := inner.Update(u.out.Some?, u.input.data);
      if !ok {
        Poison();
        return M.REFUSED;
      }
      if len < 0 || len != |u.input.data| || (u.out.Some? && len > u.out.value) {
        Poison();
        return M.REFUSED;
      }
      if u.out.Some? {
        payloadStarted := true;
      }
      answer := M.Answer(true, if u.out.Some? then output else [], None);
    }

    method Final(outlNull: bool) returns (ok: bool)
      requires Valid()
      modifies this, inner
      ensures Valid() && (View(), ok) == M.DoFinal(inner.replies, old(View()), outlNull)
    {
      if outlNull {
        if !needsReinit && (phase == M.ManifestPending || phase == M.Active) {
          Poison();
        }
        return false;
      }
      if needsReinit || phase == M.NoRecord || phase == M.Finalized {
        return false;
      }
      if !encrypt && !decryptTagCurrent {
        Poison();
        return false;
      }
      var injected := InjectManifest();
      if !injected {
        return false;
      }
      decryptTagCurrent := false;
      var finished, len := inner.Final();
      if !finished {
        Poison();
        return false;
      }
      if len != 0 {
        Poison();
        return false;
      }
      phase := M.Finalized;
      ok := true;
    }

    /** `data` is the caller's buffer that a tag request describes, and none of the context's own. */
    predicate Describes(request: M.TagRequest, data: array?<byte>) {
      && request.hasBuffer == (data != null)
      && (data != null ==> data.Length == request.size && data != currentKey && data != usageKey)
    }

    /**
     * Fetches the tag into a private buffer, and copies it to the caller's only after a full fetch: whatever the inner
     * cipher wrote, a failing call leaves the caller's buffer as it was.
     */
    method GetEncryptionTag(request: M.TagRequest, data: array?<byte>) returns (answer: M.Answer)
      requires Valid() && Describes(request, data)
      modifies this`needsReinit, this`decryptTagCurrent, inner, data
      ensures Valid() && (View(), answer) == M.GetEncryptionTag(inner.replies, old(View()), request)
      ensures data != null ==> data[..] == if answer.tag.Some? then answer.tag.value else old(data[..])
      ensures answer.tag.Some? ==> data != null && answer.ok
    {
      if !request.octets {
        return M.REFUSED;
      }
      if data == null {
        return M.DONE;
      }
      if request.size != TAG_LEN {
        return M.REFUSED;
      }
      var privateTag := new byte[TAG_LEN](_ => 0);
      var ok, len := inner.GetTag(privateTag);
      if !ok {
        Poison();
        Cleanse(privateTag);
        return M.REFUSED;
      }
      if len != TAG_LEN {
        Poison();
        Cleanse(privateTag);
        return M.REFUSED;
      }
      CopyBytes(data, privateTag[..]);
      answer := M.Answer(true, [], Some(privateTag[..]));
      Cleanse(privateTag);
    }

    method GetCtxParams(get: M.GetArgs, data: array?<byte>) returns (answer: M.Answer)
      requires Valid() && (get.tag.Some? ==> Describes(get.tag.value, data))
      modifies this`needsReinit, this`decryptTagCurrent, inner, data
      ensures Valid() && (View(), answer) == M.DoGetParams(inner.replies, old(View()), get)
      ensures data != null ==> data[..] == if answer.tag.Some? then answer.tag.value else old(data[..])
    {
      if get.forbidden || get.duplicate {
        return M.REFUSED;
      }
      if !get.lengthsSettable {
        return M.REFUSED;
      }
      if get.tag.Some? {
        if !encrypt || phase != M.Finalized || needsReinit {
          return M.REFUSED;
        }
        answer := GetEncryptionTag(get.tag.value, data);
        return;
      }
      answer := M.DONE;
    }

    method SetCtxParams(params: M.Params) returns (ok: bool)
      requires Valid()
      modifies this`needsReinit, this`decryptTagCurrent, inner
      ensures Valid() && (View(), ok) == M.DoSetParams(inner.replies, old(View()), params)
    {
      if params.tag.Some? {
        decryptTagCurrent := false;
      }
      if params.forbidden {
        return false;
      }
      if params.duplicate || !params.lengthsOk {
        return false;
      }
      if params.tag.None? {
        return true;
      }
      if encrypt || needsReinit || (phase != M.ManifestPending && phase != M.Active) || !params.tag.value.wellFormed {
        return false;
      }
      ok := inner.SetTag(params.tag.value.value, params.ivLen);
      if !ok {
        Poison();
        return;
      }
      decryptTagCurrent := true;
    }

    /** The end of an accepted init: with an IV a record begins, without one any record ends. */
    method OpenRecord(args: M.InitArgs) returns (ok: bool)
      requires Valid()
      modifies this, usageKey, inner
      ensures Valid() && (View(), ok) == M.OpenRecord(inner.replies, old(View()), args)
    {
      if args.iv.None? {
        InvalidateRecord();
        return true;
      }
      if encrypt {
        ok := InstallWriteKey();
        if !ok {
          Abandon();
          return;
        }
      }
      phase := M.ManifestPending;
      payloadStarted := false;
      decryptTagCurrent := !encrypt && args.params.tag.Some?;
      needsReinit := false;
      ok := true;
    }

    /** What follows an init that the inner cipher has accepted. */
    method Accept(args: M.InitArgs, newEncrypt: bool) returns (ok: bool)
      requires Valid()
      modifies this, currentKey, usageKey, inner
      ensures Valid() && (View(), ok) == M.Accept(inner.replies, old(View()), args, newEncrypt)
    {
      if args.key.Some? {
        ok := RecordCurrentKey(args.key.value);
        if !ok {
          Abandon();
          return;
        }
      }
      encrypt := newEncrypt;
      directionSet := true;
      if args.key.Some? {
        keyValid := true;
      }
      ok := OpenRecord(args);
    }

    /** A new key or direction ends any record before the inner call, and a new key the validity of the old one. */
    method Prepare(args: M.InitArgs, newEncrypt: bool)
      requires Valid()
      modifies this`phase, this`payloadStarted, this`decryptTagCurrent, this`keyValid
      ensures Valid() && View() == M.Prepared(old(View()), args, newEncrypt)
    {
      if (directionSet && encrypt != newEncrypt) || args.key.Some? {
        InvalidateRecord();
      }
      if args.key.Some? {
        keyValid := false;
      }
    }

    /** The part of an init that a valid request reaches. */
    method Begin(args: M.InitArgs, newEncrypt: bool) returns (ok: bool)
      requires Valid()
      modifies this, currentKey, usageKey, inner
      ensures Valid() && (View(), ok) == M.Begin(inner.replies, old(View()), args, newEncrypt)
    {
      Prepare(args, newEncrypt);
      ok := inner.Init(args.key, args.iv, newEncrypt, args.params.ivLen, M.TagValue(args.params));
      if !ok {
        Abandon();
        return;
      }
      ok := Accept(args, newEncrypt);
    }

    /**
     * A malformed init: a tag beside a key or a new direction ends the record, and either alone drops the tag set
     * before.
     */
    method Reject(args: M.InitArgs, newEncrypt: bool)
      requires Valid()
      modifies this`phase, this`payloadStarted, this`decryptTagCurrent
      ensures Valid() && View() == M.RejectInit(old(View()), args, newEncrypt)
    {
      var directionChange := directionSet && encrypt != newEncrypt;
      if args.params.tag.Some? && (args.key.Some? || directionChange) {
        InvalidateRecord();
      }
      if directionChange || args.params.tag.Some? {
        decryptTagCurrent := false;
      }
    }

    /** Refuses forbidden, repeated or wrong parameters, and a tag where no record to decrypt begins. */
    method ValidateInitParams(params: M.Params, newEncrypt: bool, newRecord: bool) returns (ok: bool)
      ensures ok <==>
                && !params.forbidden && !params.duplicate && params.lengthsOk
                && (params.tag.Some? ==> params.tag.value.wellFormed && newRecord && !newEncrypt)
    {
      if params.forbidden || params.duplicate {
        return false;
      }
      if !params.lengthsOk {
        return false;
      }
      if params.tag.Some? {
        if newEncrypt || !newRecord || !params.tag.value.wellFormed {
          return false;
        }
      }
      ok := true;
    }

    /** The lengths first, then the parameters. */
    method CheckInit(args: M.InitArgs, newEncrypt: bool) returns (valid: bool)
      requires Valid()
      ensures valid <==> !M.Malformed(View(), args, newEncrypt)
    {
      var hasKey, hasIv := args.key.Some?, args.iv.Some?;
      if (hasKey && args.keyLen != KEY_LEN) || (!hasKey && args.keyLen != 0)
         || (hasIv && args.ivLen != IV_LEN) || (!hasIv && args.ivLen != 0) {
        return false;
      }
      valid := ValidateInitParams(args.params, newEncrypt, hasIv && (hasKey || keyValid));
    }

    /** What encrypt_init and decrypt_init share. */
    method Init(args: M.InitArgs, newEncrypt: bool) returns (ok: bool)
      requires Valid()
      modifies this, currentKey, usageKey, inner
      ensures Valid() && (View(), ok) == M.DoInit(inner.replies, old(View()), args, newEncrypt)
    {
      var hasKey, hasIv, hasTag := args.key.Some?, args.iv.Some?, args.params.tag.Some?;
      if hasTag {
        decryptTagCurrent := false;
      }
      var valid := CheckInit(args, newEncrypt);
      if !valid {
        Reject(args, newEncrypt);
        return false;
      }
      if hasTag && (!hasIv || (!hasKey && !keyValid)) {
        // Validation has refused a tag without a new record.
        assert false;
      }
      if hasIv && !hasKey && !keyValid {
        return false;
      }
      ok := Begin(args, newEncrypt);
    }

    /** The dispatch of provider calls; the history notes what each gave back. `data` is the buffer of a tag request. */
    method Perform(call: M.Call, data: array?<byte>) returns (answer: M.Answer)
      requires Valid() && (call.GetParams? && call.get.tag.Some? ==> Describes(call.get.tag.value, data))
      requires data == null || (data != currentKey && data != usageKey)
      modifies this, currentKey, usageKey, inner, data
      ensures Valid() && (View(), answer) == M.Apply(inner.replies, old(View()), call)
      ensures data != null ==> data[..] == if answer.tag.Some? then answer.tag.value else old(data[..])
    {
      match call {
        case Init(args, newEncrypt) =>
          var ok := Init(args, newEncrypt);
          answer := M.Answer(ok, [], None);
        case Update(u) =>
          answer := Update(u);
        case Final(outlNull) =>
          var ok := Final(outlNull);
          answer := M.Answer(ok, [], None);
        case SetParams(params) =>
          var ok := SetCtxParams(params);
          answer := M.Answer(ok, [], None);
        case GetParams(get) =>
          answer := GetCtxParams(get, data);
      }
      inner.Return(call, answer);
    }
  }
}
