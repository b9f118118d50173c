/** Concrete runs of the outer cipher context that show behaviour at the edge of its documentation. */
module CipherWitnesses {
  import opened Wrappers
  import opened Gcm
  import opened CipherModel
  import opened CipherInvariant
  import opened CipherKeys

  function SomeIv(): Iv {
    seq(IV_LEN, _ => 0)
  }

  function SomeTag(): Tag {
    seq(TAG_LEN, _ => 7)
  }

  const NO_PARAMS := Params(None, false, true, false, false)

  /** An encrypting init with an IV, and with or without a key. */
  function Start(key: Option<Key>): Call {
    Init(InitArgs(key, if key.Some? then KEY_LEN else 0, Some(SomeIv()), IV_LEN, NO_PARAMS), true)
  }

  function FetchTag(): Call {
    GetParams(GetArgs(Some(TagRequest(true, true, TAG_LEN)), true, false, false))
  }

  function StartArgs(key: Option<Key>): InitArgs {
    Start(key).args
  }

  // ---------- single calls on any context

  /** What a start leaves behind: the context, its answer, and the keys its history shows. */
  ghost predicate AfterStart(c: Ctx, n: Ctx, ok: bool, calls: nat, inner: Option<Key>, caller: Option<Key>,
                             stray: Option<Key>) {
    && n.encrypt && n.keyValid && n.recordLimit == c.recordLimit
    && External(n.log) == External(c.log) + calls
    && Read(n.log).inner.key == inner && Read(n.log).caller.key == caller && StrayKey(n.log) == stray
    && (ok ==> n.phase == ManifestPending && !n.needsReinit)
  }

  /** The current key has yet to be installed, so that installing takes the lock. */
  predicate ToInstall(w: WriteKey) {
    w.currentKeyValid && (!w.usageKeyValid || w.currentKeyChanged)
  }

  lemma OpenWithLock(s: Script, c: Ctx, args: InitArgs)
    requires c.encrypt && args.iv.Some? && ToInstall(c.write)
    ensures var (n, ok) := OpenRecord(s, c, args);
            && ok == s(External(c.log)).ok
            && n.log == Then(c.log, WriteLock(ok))
            && n.keyValid == c.keyValid && n.encrypt && n.recordLimit == c.recordLimit
            && n.write == (if ok then Compare(c.write) else c.write)
            && (ok ==> n.phase == ManifestPending && !n.needsReinit)
  {
  }

  lemma RecordNewKey(s: Script, c: Ctx, key: Key)
    requires s(External(c.log)).ok && (!c.write.currentKeyValid || c.write.currentKey != key)
    ensures RecordCurrentKey(s, c, key)
            == (c.(log := Then(c.log, WriteLock(true)),
                   write := c.write.(currentKey := key, currentKeyValid := true, currentKeyChanged := true)), true)
  {
  }

  /** The history after a keyed start. */
  function KeyedLog(log: Log, key: Key, ok: bool): Log {
    Then(Then(Then(Then(log, InnerInitOf(StartArgs(Some(key)), true, true)), WriteLock(true)), WriteLock(ok)),
         Returned(Start(Some(key)), Answer(ok, [], None)))
  }

  lemma ReadKeyed(log: Log, key: Key, ok: bool)
    ensures var after := KeyedLog(log, key, ok);
            && External(after) == External(log) + 3
            && Read(after).inner.key == Some(key)
            && Read(after).caller.key == (if ok then Some(key) else Read(log).caller.key)
            && StrayKey(after) == if ok then None else Some(key)
  {
    var called := Then(log, InnerInitOf(StartArgs(Some(key)), true, true));
    assert Read(called).inner.key == Some(key) && Read(called).caller.key == Read(log).caller.key;
    var recorded := Then(called, WriteLock(true));
    assert Read(recorded) == Read(called) && External(recorded) == External(log) + 2;
  }

  lemma KeyedShape(s: Script, c: Ctx, key: Key) returns (n: Ctx, ok: bool)
    requires !DirectionChange(c, true) && (!c.write.currentKeyValid || c.write.currentKey != key)
    requires s(External(c.log)).ok && s(External(c.log) + 1).ok
    ensures Apply(s, c, Start(Some(key))) == (n, Answer(ok, [], None))
    ensures ok == s(External(c.log) + 2).ok && n.log == KeyedLog(c.log, key, ok)
    ensures n.encrypt && n.keyValid && n.recordLimit == c.recordLimit
    ensures ok ==> n.phase == ManifestPending && !n.needsReinit
    ensures var w := c.write.(currentKey := key, currentKeyValid := true, currentKeyChanged := true);
            n.write == if ok then Compare(w) else w
  {
    var args := StartArgs(Some(key));
    var called := Note(Prepared(c, args, true), InnerInitOf(args, true, true));
    RecordNewKey(s, called, key);
    var adopted := Adopt(RecordCurrentKey(s, called, key).0, args, true);
    OpenWithLock(s, adopted, args);
    var outcome := OpenRecord(s, adopted, args);
    assert Accept(s, called, args, true) == outcome;
    assert Begin(s, c, args, true) == outcome;
    ok := outcome.1;
    n := Note(outcome.0, Returned(Start(Some(key)), Answer(ok, [], None)));
  }

  /** A start with a new key: whether installing it succeeds decides the answer, not which key is in force. */
  lemma StartWithKey(s: Script, c: Ctx, key: Key) returns (n: Ctx, ok: bool)
    requires !DirectionChange(c, true) && (!c.write.currentKeyValid || c.write.currentKey != key)
    requires s(External(c.log)).ok && s(External(c.log) + 1).ok
    ensures Apply(s, c, Start(Some(key))) == (n, Answer(ok, [], None))
    ensures ok == s(External(c.log) + 2).ok
    ensures AfterStart(c, n, ok, 3, Some(key), if ok then Some(key) else Read(c.log).caller.key,
                       if ok then None else Some(key))
    ensures var w := c.write.(currentKey := key, currentKeyValid := true, currentKeyChanged := true);
            n.write == if ok then Compare(w) else w
  {
    n, ok := KeyedShape(s, c, key);
    ReadKeyed(c.log, key, ok);
  }

  /** A start with an IV only changes no key that the history shows. */
  lemma StartWithIv(s: Script, c: Ctx) returns (n: Ctx)
    requires !DirectionChange(c, true) && c.keyValid && ToInstall(c.write)
    requires s(External(c.log)).ok && s(External(c.log) + 1).ok
    ensures Apply(s, c, Start(None)) == (n, DONE)
    ensures AfterStart(c, n, true, 2, Read(c.log).inner.key, Read(c.log).caller.key, StrayKey(c.log))
    ensures n.write == Compare(c.write)
  {
    var args := StartArgs(None);
    var called := Note(Prepared(c, args, true), InnerInitOf(args, true, true));
    var adopted := Adopt(called, args, true);
    OpenWithLock(s, adopted, args);
    assert Accept(s, called, args, true) == OpenRecord(s, adopted, args);
    n := Note(OpenRecord(s, adopted, args).0, Returned(Start(None), DONE));
  }

  lemma FinalKeepsKeys(s: Script, c: Ctx)
    ensures var log := Apply(s, c, Final(false)).0.log;
            && Read(log).inner.key == Read(c.log).inner.key && Read(log).caller.key == Read(c.log).caller.key
            && StrayKey(log) == StrayKey(c.log)
  {
    ApplyPlain(s, c, Final(false));
    PlainKeepsKeys(Apply(s, c, Final(false)).0.log, c.log);
  }

  lemma FinalCloses(s: Script, c: Ctx) returns (n: Ctx)
    requires c.phase == ManifestPending && !c.needsReinit && c.encrypt
    requires c.write.usageKeyValid && !c.write.usageExhausted && !c.write.recordReserved
    requires c.write.encryptedRecords < c.recordLimit
    requires var k := External(c.log);
             && s(k).ok && s(k + 1).ok && s(k + 1).len == |MANIFEST| && s(k + 2).ok && s(k + 2).len == 0
    ensures Apply(s, c, Final(false)) == (n, DONE)
    ensures n.phase == Finalized && !n.needsReinit && n.encrypt && External(n.log) == External(c.log) + 3
  {
    n := Apply(s, c, Final(false)).0;
  }

  /** A final on an encryption record that has had no data. */
  lemma FinalOnEmptyRecord(s: Script, c: Ctx) returns (n: Ctx)
    requires c.phase == ManifestPending && !c.needsReinit && c.encrypt
    requires c.write.usageKeyValid && !c.write.usageExhausted && !c.write.recordReserved
    requires c.write.encryptedRecords < c.recordLimit
    requires var k := External(c.log);
             && s(k).ok && s(k + 1).ok && s(k + 1).len == |MANIFEST| && s(k + 2).ok && s(k + 2).len == 0
    ensures Apply(s, c, Final(false)) == (n, DONE)
    ensures n.phase == Finalized && !n.needsReinit && n.encrypt && External(n.log) == External(c.log) + 3
    ensures Read(n.log).inner.key == Read(c.log).inner.key && Read(n.log).caller.key == Read(c.log).caller.key
    ensures StrayKey(n.log) == StrayKey(c.log)
  {
    n := FinalCloses(s, c);
    FinalKeepsKeys(s, c);
  }

  lemma FetchFromFinalized(s: Script, c: Ctx)
    requires c.phase == Finalized && !c.needsReinit && c.encrypt
    requires s(External(c.log)).ok && s(External(c.log)).len == TAG_LEN
    ensures Apply(s, c, FetchTag()).1 == Answer(true, [], Some(s(External(c.log)).tag))
  {
  }

  lemma FinalRefused(s: Script, c: Ctx) returns (n: Ctx)
    requires c.phase == Finalized
    ensures Apply(s, c, Final(false)) == (n, REFUSED)
    ensures n == c.(log := n.log) && External(n.log) == External(c.log)
  {
    n := Apply(s, c, Final(false)).0;
  }

  // ---------- a second final

  /** The external calls of that run, by their number: all succeed. */
  predicate AllSucceed(s: Script) {
    && s(0).ok && s(1).ok && s(2).ok && s(3).ok && s(4).ok && s(5).ok && s(6).ok
    && s(4).len == |MANIFEST| && s(5).len == 0 && s(6).len == TAG_LEN
  }

  /**
   * Init, Final, Final, GetParams, on a script whose external calls all succeed: the second final is refused, poisons
   * nothing, and the tag of the record can still be fetched. `n` are the contexts after each call.
   */
  lemma SecondFinalPoisonsNothing(s: Script, key: Key) returns (n1: Ctx, n2: Ctx, n3: Ctx)
    requires AllSucceed(s)
    ensures Apply(s, NewCtx(RECORD_LIMIT), Start(Some(key))) == (n1, DONE)
    ensures Apply(s, n1, Final(false)) == (n2, DONE)
    ensures Apply(s, n2, Final(false)) == (n3, REFUSED) && !n3.needsReinit
    ensures Apply(s, n3, FetchTag()).1 == Answer(true, [], Some(s(6).tag))
  {
    var ok;
    n1, ok := StartWithKey(s, NewCtx(RECORD_LIMIT), key);
    n2 := FinalOnEmptyRecord(s, n1);
    n3 := FinalRefused(s, n2);
    FetchFromFinalized(s, n3);
  }

  /** Such a script exists. */
  lemma SuchAScript()
    ensures exists s: Script :: AllSucceed(s)
  {
    var s: Script := k => Reply(true, if k == 4 then |MANIFEST| else if k == 6 then TAG_LEN else 0, [], SomeTag());
    assert AllSucceed(s);
  }

  // ---------- the key of a refused init

  /** Two keyed starts, the second refused for its lock: the history shows both keys. */
  lemma TwoStarts(s: Script, first: Key, second: Key) returns (n1: Ctx, n2: Ctx)
    requires first != second
    requires s(0).ok && s(1).ok && s(2).ok && s(3).ok && s(4).ok && !s(5).ok
    ensures Apply(s, NewCtx(RECORD_LIMIT), Start(Some(first))) == (n1, DONE)
    ensures Apply(s, n1, Start(Some(second))) == (n2, REFUSED)
    ensures AfterStart(NewCtx(RECORD_LIMIT), n2, false, 6, Some(second), Some(first), Some(second))
    ensures n2.write.usageKeyValid && n2.write.usageKey == first && ToInstall(n2.write) && n2.write.currentKey == second
  {
    var ok;
    n1, ok := StartWithKey(s, NewCtx(RECORD_LIMIT), first);
    n2, ok := StartWithKey(s, n1, second);
  }

  /** Then a start with an IV only and a final, which run under the second key. */
  lemma StartAndFinal(s: Script, c: Ctx, first: Key, second: Key) returns (n3: Ctx, n4: Ctx)
    requires AfterStart(NewCtx(RECORD_LIMIT), c, false, 6, Some(second), Some(first), Some(second))
    requires ToInstall(c.write) && c.write.currentKey == second && c.write.usageKey == first && first != second
    requires s(6).ok && s(7).ok && s(8).ok && s(9).ok && s(10).ok && s(9).len == |MANIFEST| && s(10).len == 0
    ensures Apply(s, c, Start(None)) == (n3, DONE)
    ensures Apply(s, n3, Final(false)) == (n4, DONE)
    ensures Read(n4.log).caller.key == Some(first)
    ensures Read(n4.log).inner.key == StrayKey(n4.log) == Some(second)
  {
    n3 := StartWithIv(s, c);
    n4 := FinalOnEmptyRecord(s, n3);
  }

  /** The external calls of that run, by their number: all succeed but the lock for installing the second key. */
  predicate OneLockFails(s: Script) {
    && s(0).ok && s(1).ok && s(2).ok && s(3).ok && s(4).ok && !s(5).ok
    && s(6).ok && s(7).ok && s(8).ok && s(9).ok && s(10).ok && s(9).len == |MANIFEST| && s(10).len == 0
  }

  /**
   * On a script whose external calls succeed except the lock for installing the second key: an init with one key
   * succeeds, one with another key is refused, an IV-only init succeeds, and Final succeeds under the key of the
   * refused init. `n` are the contexts after each call.
   */
  lemma RefusedKeyIsUsed(s: Script, first: Key, second: Key) returns (n1: Ctx, n2: Ctx, n3: Ctx, n4: Ctx)
    requires first != second && OneLockFails(s)
    ensures Apply(s, NewCtx(RECORD_LIMIT), Start(Some(first))) == (n1, DONE)
    ensures Apply(s, n1, Start(Some(second))) == (n2, REFUSED)
    ensures Apply(s, n2, Start(None)) == (n3, DONE)
    ensures Apply(s, n3, Final(false)) == (n4, DONE)
    ensures Read(n4.log).caller.key == Some(first)
    ensures Read(n4.log).inner.key == StrayKey(n4.log) == Some(second)
  {
    n1, n2 := TwoStarts(s, first, second);
    n3, n4 := StartAndFinal(s, n2, first, second);
  }

  /** Such a script exists. */
  lemma SuchALockScript()
    ensures exists s: Script :: OneLockFails(s)
  {
    var s: Script := k => Reply(k != 5, if k == 9 then |MANIFEST| else 0, [], SomeTag());
    assert OneLockFails(s);
  }
}
