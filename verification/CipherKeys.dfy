/** Under which key a record runs, and what a run does to the count of the installed key. */
module CipherKeys {
  import opened Wrappers
  import opened Gcm
  import opened CipherModel
  import opened CipherInvariant
  import opened CipherDiscipline

  // ---------- the key in force, read off a history

  /**
   * The history ends in an init with this key that the inner cipher accepted and the key record took,
   * followed by a failed lock: the write key could not be installed.
   */
  predicate HalfDone(log: Log, key: Key) {
    && log.Then? && log.event == WriteLock(false)
    && log.past.Then? && log.past.event == WriteLock(true)
    && log.past.past.Then? && log.past.past.event.InnerInit?
    && log.past.past.event.ok && log.past.past.event.key == Some(key)
  }

  /**
   * The key of the last init since the last successful key-bearing one that was refused although the inner
   * cipher had accepted its key and the key record had taken it.
   */
  function StrayKey(log: Log): Option<Key> {
    match log
    case Empty => None
    case Then(past, event) =>
      if event.Returned? && event.call.Init? && event.call.args.key.Some? then
        if event.answer.ok then None
        else if HalfDone(past, event.call.args.key.value) then event.call.args.key
        else StrayKey(past)
      else StrayKey(past)
  }

  function KeyInForce(log: Log): Option<Key> {
    if StrayKey(log).Some? then StrayKey(log) else Read(log).caller.key
  }

  /** No key-bearing init has failed since the last successful one, as far as the caller was told. */
  predicate NoFailedKeySince(log: Log) {
    match log
    case Empty => true
    case Then(past, event) =>
      if event.Returned? && event.call.Init? && event.call.args.key.Some? then event.answer.ok
      else NoFailedKeySince(past)
  }

  lemma {:induction false} NoFailureNoStray(log: Log)
    requires NoFailedKeySince(log)
    ensures StrayKey(log).None?
  {
    match log
    case Empty =>
    case Then(past, event) =>
      if !(event.Returned? && event.call.Init? && event.call.args.key.Some?) {
        NoFailureNoStray(past);
      }
  }

  /** Between two provider calls the history is empty or ends in what the last one gave back. */
  predicate AtRest(log: Log) {
    log.Then? ==> log.event.Returned?
  }

  /** A valid key is the key in force, and the inner cipher holds it. */
  ghost predicate HoldsKey(c: Ctx) {
    c.keyValid ==> Read(c.log).inner.key == KeyInForce(c.log)
  }

  ghost predicate KeyTie(c: Ctx) {
    AtRest(c.log) && HoldsKey(c)
  }

  // ---------- calls other than init

  /** `log` is `past` with events that are neither an inner init nor the return of an init. */
  predicate Plain(log: Log, past: Log) {
    log == past
    || (log.Then? && !log.event.InnerInit? && !(log.event.Returned? && log.event.call.Init?) && Plain(log.past, past))
  }

  lemma {:induction false} PlainKeepsKeys(log: Log, past: Log)
    requires Plain(log, past)
    ensures Read(log).inner.key == Read(past).inner.key && Read(log).caller.key == Read(past).caller.key
    ensures Read(log).caller.iv == Read(past).caller.iv
    ensures StrayKey(log) == StrayKey(past)
  {
    if log != past {
      PlainKeepsKeys(log.past, past);
    }
  }

  /** An installed key stays installed, its count does not fall, and once exhausted it stays exhausted. */
  predicate NeverLess(w: WriteKey, v: WriteKey) {
    w.usageKeyValid ==>
      && v.usageKeyValid && v.usageKey == w.usageKey
      && v.encryptedRecords >= w.encryptedRecords
      && (w.usageExhausted ==> v.usageExhausted)
  }

  /** What every call but an init does to keys and counts. */
  ghost predicate PlainStep(c: Ctx, n: Ctx) {
    Plain(n.log, c.log) && n.keyValid == c.keyValid && NeverLess(c.write, n.write)
  }

  /** The write key after one more record was counted, granted or not. */
  function Counted(w: WriteKey, granted: bool): WriteKey {
    if granted then w.(encryptedRecords := w.encryptedRecords + 1, recordReserved := true)
    else w.(encryptedRecords := w.encryptedRecords + 1, usageExhausted := true)
  }

  lemma ReserveCounts(s: Script, c: Ctx)
    ensures var (n, ok) := Reserve(s, c);
            n.write == c.write || n.write == Counted(c.write, ok)
  {
  }

  lemma ReserveKeepsValidity(s: Script, c: Ctx)
    ensures Reserve(s, c).0.keyValid == c.keyValid
  {
  }

  lemma ReservePlain(s: Script, c: Ctx)
    ensures PlainStep(c, Reserve(s, c).0)
  {
    ReserveCalls(s, c);
    ReserveCounts(s, c);
    ReserveKeepsValidity(s, c);
  }

  lemma InjectPlain(s: Script, c: Ctx)
    ensures PlainStep(c, InjectManifest(s, c).0)
  {
    if c.phase == ManifestPending && c.encrypt {
      ReservePlain(s, c);
    }
  }

  /** An update ends where it began, after the manifest, or after one more inner update. */
  lemma UpdateShape(s: Script, c: Ctx, u: UpdateArgs)
    ensures var x, n := InjectManifest(s, c).0, DoUpdate(s, c, u).0;
            || n == c
            || (&& n.write == x.write && n.keyValid == x.keyValid
                && (n.log == x.log || (n.log.Then? && n.log.event.InnerUpdate? && n.log.past == x.log)))
  {
  }

  lemma UpdatePlain(s: Script, c: Ctx, u: UpdateArgs)
    ensures PlainStep(c, DoUpdate(s, c, u).0)
  {
    InjectPlain(s, c);
    UpdateShape(s, c, u);
  }

  /** A final makes no external call, or ends after the manifest, or after the inner final. */
  lemma FinalShape(s: Script, c: Ctx, outlNull: bool)
    ensures var x, n := InjectManifest(s, c).0, DoFinal(s, c, outlNull).0;
            || (n.log == c.log && n.write == c.write && n.keyValid == c.keyValid)
            || (&& n.write == x.write && n.keyValid == x.keyValid
                && (n.log == x.log || (n.log.Then? && n.log.event.InnerFinal? && n.log.past == x.log)))
  {
  }

  lemma FinalPlain(s: Script, c: Ctx, outlNull: bool)
    ensures PlainStep(c, DoFinal(s, c, outlNull).0)
  {
    InjectPlain(s, c);
    FinalShape(s, c, outlNull);
  }

  lemma SetParamsPlain(s: Script, c: Ctx, params: Params)
    ensures PlainStep(c, DoSetParams(s, c, params).0)
  {
  }

  lemma GetParamsPlain(s: Script, c: Ctx, get: GetArgs)
    ensures PlainStep(c, DoGetParams(s, c, get).0)
  {
  }

  lemma ApplyPlain(s: Script, c: Ctx, call: Call)
    requires !call.Init?
    ensures PlainStep(c, Apply(s, c, call).0)
  {
    match call
    case Update(u) => UpdatePlain(s, c, u);
    case Final(outlNull) => FinalPlain(s, c, outlNull);
    case SetParams(params) => SetParamsPlain(s, c, params);
    case GetParams(get) => GetParamsPlain(s, c, get);
  }

  // ---------- init

  /** Turned away before the inner cipher was called. */
  predicate TurnedAway(c: Ctx, args: InitArgs, encrypt: bool) {
    Malformed(c, args, encrypt) || (args.iv.Some? && args.key.None? && !c.keyValid)
  }

  lemma TurnedAwayKeeps(s: Script, c: Ctx, args: InitArgs, encrypt: bool)
    requires TurnedAway(c, args, encrypt)
    ensures var (n, ok) := DoInit(s, c, args, encrypt);
            && !ok && n.log == c.log && n.write == c.write && n.keyValid == c.keyValid && n.needsReinit == c.needsReinit
            && (args.params.tag.Some? ==> !n.decryptTagCurrent)
            && n.phase == if args.params.tag.Some? && (args.key.Some? || DirectionChange(c, encrypt)) then NoRecord
                          else c.phase
  {
  }

  /** The key an init has just put in place, as far as the history shows. */
  ghost predicate JustAccepted(log: Log, key: Key) {
    && log.Then? && log.event == WriteLock(true)
    && log.past.Then? && log.past.event.InnerInit? && log.past.event.ok && log.past.event.key == Some(key)
    && Read(log).inner.key == Some(key)
  }

  lemma RefusedTie(m: Ctx, args: InitArgs, encrypt: bool)
    requires m.keyValid ==> Read(m.log).inner.key == KeyInForce(m.log)
    requires args.key.Some? ==> !HalfDone(m.log, args.key.value)
    ensures KeyTie(Note(m, Returned(Init(args, encrypt), REFUSED)))
  {
  }

  lemma HalfDoneTie(m: Ctx, args: InitArgs, encrypt: bool)
    requires args.key.Some? && HalfDone(m.log, args.key.value) && Read(m.log).inner.key == args.key
    ensures KeyTie(Note(m, Returned(Init(args, encrypt), REFUSED)))
  {
  }

  lemma AcceptedTie(m: Ctx, args: InitArgs, encrypt: bool)
    requires m.keyValid ==>
               Read(m.log).inner.key == if args.key.Some? then args.key else KeyInForce(m.log)
    ensures KeyTie(Note(m, Returned(Init(args, encrypt), DONE)))
  {
  }

  /** What an init has established by the time it opens or ends a record. */
  ghost predicate Keyed(c: Ctx, args: InitArgs) {
    && (c.keyValid ==> c.write.currentKeyValid)
    && (args.key.Some? ==> c.write.currentKeyValid && JustAccepted(c.log, args.key.value))
    && (args.key.None? ==> c.keyValid ==> Read(c.log).inner.key == KeyInForce(c.log))
  }

  lemma InstallFails(s: Script, c: Ctx)
    requires c.write.currentKeyValid && !InstallWriteKey(s, c).1
    ensures InstallWriteKey(s, c).0.log == Then(c.log, WriteLock(false))
  {
  }

  lemma OpenRecordTie(s: Script, c: Ctx, args: InitArgs, encrypt: bool)
    requires Keyed(c, args) && (args.iv.Some? ==> c.keyValid)
    ensures var (n, ok) := OpenRecord(s, c, args);
            KeyTie(Note(n, Returned(Init(args, encrypt), Answer(ok, [], None))))
  {
    var (n, ok) := OpenRecord(s, c, args);
    if args.iv.None? || !c.encrypt {
      AcceptedTie(n, args, encrypt);
    } else {
      InstallCalls(s, c);
      if ok {
        AcceptedTie(n, args, encrypt);
      } else {
        InstallFails(s, c);
        if args.key.Some? {
          HalfDoneTie(n, args, encrypt);
        } else {
          RefusedTie(n, args, encrypt);
        }
      }
    }
  }

  lemma AcceptTie(s: Script, c: Ctx, args: InitArgs, encrypt: bool)
    requires c.log.Then? && c.log.event.InnerInit? && c.log.event.ok && c.log.event.key == args.key
    requires c.keyValid ==> c.write.currentKeyValid && args.key.None? && Read(c.log).inner.key == KeyInForce(c.log)
    requires args.iv.Some? ==> args.key.Some? || c.keyValid
    ensures var (n, ok) := Accept(s, c, args, encrypt);
            KeyTie(Note(n, Returned(Init(args, encrypt), Answer(ok, [], None))))
  {
    if args.key.None? {
      OpenRecordTie(s, Adopt(c, args, encrypt), args, encrypt);
    } else {
      var (keyed, recorded) := RecordCurrentKey(s, c, args.key.value);
      if recorded {
        OpenRecordTie(s, Adopt(keyed, args, encrypt), args, encrypt);
      } else {
        RefusedTie(Abandon(keyed), args, encrypt);
      }
    }
  }

  lemma BeginTie(s: Script, c: Ctx, args: InitArgs, encrypt: bool)
    requires KeysInv(c, Read(c.log)) && KeyTie(c) && Valid(c, args, encrypt)
    ensures var (n, ok) := Begin(s, c, args, encrypt);
            KeyTie(Note(n, Returned(Init(args, encrypt), Answer(ok, [], None))))
  {
    var called := Note(Prepared(c, args, encrypt), InnerInitOf(args, encrypt, Next(s, c).ok));
    if Next(s, c).ok {
      AcceptTie(s, called, args, encrypt);
    } else {
      RefusedTie(Abandon(called), args, encrypt);
    }
  }

  lemma InitTie(s: Script, c: Ctx, args: InitArgs, encrypt: bool)
    requires Inv(c) && KeyTie(c)
    ensures var (n, ok) := DoInit(s, c, args, encrypt);
            KeyTie(Note(n, Returned(Init(args, encrypt), Answer(ok, [], None))))
  {
    if TurnedAway(c, args, encrypt) {
      TurnedAwayKeeps(s, c, args, encrypt);
      RefusedTie(DoInit(s, c, args, encrypt).0, args, encrypt);
    } else {
      BeginTie(s, ForgetTag(c, args.params), args, encrypt);
    }
  }

  lemma ApplyTie(s: Script, c: Ctx, call: Call)
    requires Inv(c) && KeyTie(c)
    ensures KeyTie(Apply(s, c, call).0)
  {
    if call.Init? {
      InitTie(s, c, call.args, call.encrypt);
    } else {
      ApplyPlain(s, c, call);
      PlainKeepsKeys(Apply(s, c, call).0.log, c.log);
    }
  }

  lemma {:induction false} RunTie(s: Script, recordLimit: int, calls: seq<Call>)
    requires 0 < recordLimit < INT_MAX
    ensures KeyTie(Run(s, NewCtx(recordLimit), calls))
  {
    if calls != [] {
      var front := calls[..|calls| - 1];
      RunTie(s, recordLimit, front);
      RunInv(s, recordLimit, front);
      ApplyTie(s, Run(s, NewCtx(recordLimit), front), calls[|calls| - 1]);
    }
  }

  // ---------- the count of the installed key

  /** An encrypting init that succeeded under a key other than the installed one. */
  predicate SwitchesKey(r: Reading, event: Event) {
    && event.Returned? && event.call.Init? && event.call.encrypt && event.call.args.iv.Some? && event.answer.ok
    && r.budget.key != r.inner.key
  }

  lemma OpenRecordCounts(s: Script, c: Ctx, args: InitArgs, encrypt: bool)
    requires KeysInv(c, Read(c.log)) && BudgetInv(c, Read(c.log))
    requires (args.iv.Some? ==> c.keyValid) && c.encrypt == encrypt
    ensures var (n, ok) := OpenRecord(s, c, args);
            NeverLess(c.write, n.write) || SwitchesKey(Read(n.log), Returned(Init(args, encrypt), Answer(ok, [], None)))
  {
    if args.iv.Some? && c.encrypt {
      InstallCompares(s, c);
    }
  }

  lemma RecordKeyCounts(s: Script, c: Ctx, key: Key)
    ensures NeverLess(c.write, RecordCurrentKey(s, c, key).0.write)
  {
  }

  lemma AcceptCounts(s: Script, c: Ctx, args: InitArgs, encrypt: bool)
    requires KeysInv(c, Read(c.log)) && BudgetInv(c, Read(c.log))
    requires c.keyValid ==> args.key.None?
    requires args.key.Some? ==> Read(c.log).inner.key == args.key
    requires args.iv.Some? ==> args.key.Some? || c.keyValid
    ensures var (n, ok) := Accept(s, c, args, encrypt);
            NeverLess(c.write, n.write) || SwitchesKey(Read(n.log), Returned(Init(args, encrypt), Answer(ok, [], None)))
  {
    if args.key.None? {
      OpenRecordCounts(s, Adopt(c, args, encrypt), args, encrypt);
    } else {
      RecordKeyCounts(s, c, args.key.value);
      RecordKeyStep(s, c, args.key.value);
      var (keyed, recorded) := RecordCurrentKey(s, c, args.key.value);
      if recorded {
        OpenRecordCounts(s, Adopt(keyed, args, encrypt), args, encrypt);
      }
    }
  }

  lemma BeginCounts(s: Script, c: Ctx, args: InitArgs, encrypt: bool)
    requires Inv(c) && Valid(c, args, encrypt)
    ensures var (n, ok) := Begin(s, c, args, encrypt);
            NeverLess(c.write, n.write) || SwitchesKey(Read(n.log), Returned(Init(args, encrypt), Answer(ok, [], None)))
  {
    PreparedHolds(c, args, encrypt);
    if Next(s, c).ok {
      var prepared := Prepared(c, args, encrypt);
      InnerInitAccepted(prepared, args, encrypt);
      AcceptCounts(s, Note(prepared, InnerInitOf(args, encrypt, true)), args, encrypt);
    }
  }

  lemma InitCounts(s: Script, c: Ctx, args: InitArgs, encrypt: bool)
    requires Inv(c)
    ensures var (n, ok) := DoInit(s, c, args, encrypt);
            NeverLess(c.write, n.write) || SwitchesKey(Read(n.log), Returned(Init(args, encrypt), Answer(ok, [], None)))
  {
    if TurnedAway(c, args, encrypt) {
      TurnedAwayKeeps(s, c, args, encrypt);
    } else {
      ForgetTagHolds(c, args.params);
      BeginCounts(s, ForgetTag(c, args.params), args, encrypt);
    }
  }

  /** The call is an encrypting init that succeeds under a key other than the installed one. */
  predicate Switches(s: Script, c: Ctx, call: Call) {
    var (n, answer) := Perform(s, c, call);
    SwitchesKey(Read(n.log), Returned(call, answer))
  }

  lemma ApplyCounts(s: Script, c: Ctx, call: Call)
    requires Inv(c)
    ensures var n := Apply(s, c, call).0;
            if Switches(s, c, call)
            then n.write.usageKeyValid && Some(n.write.usageKey) == Read(n.log).inner.key
                 && n.write.encryptedRecords == 0 && !n.write.usageExhausted
            else NeverLess(c.write, n.write)
  {
    if call.Init? {
      InitCounts(s, c, call.args, call.encrypt);
    } else {
      ApplyPlain(s, c, call);
    }
    ApplyInv(s, c, call);
  }

  /** None of the calls switches the installed key. */
  predicate NoSwitchIn(s: Script, c: Ctx, more: seq<Call>) {
    more == []
    || (var front, last := more[..|more| - 1], more[|more| - 1];
        NoSwitchIn(s, c, front) && !Switches(s, Run(s, c, front), last))
  }

  lemma {:induction false} RunAppend(s: Script, c: Ctx, calls: seq<Call>, more: seq<Call>)
    ensures Run(s, c, calls + more) == Run(s, Run(s, c, calls), more)
  {
    if more == [] {
      assert calls + more == calls;
    } else {
      var front := more[..|more| - 1];
      RunAppend(s, c, calls, front);
      assert (calls + more)[..|calls + more| - 1] == calls + front;
    }
  }

  /**
   * On every run: as long as no encrypting init succeeds under another key, the installed key stays, its counter
   * never falls, and an exhausted key stays exhausted. So a new IV, the same key again, a failed init, a key-only
   * init that was replaced before use, and records decrypted under other keys reset nothing.
   */
  lemma {:induction false} CountNeverFalls(s: Script, recordLimit: int, calls: seq<Call>, more: seq<Call>)
    requires 0 < recordLimit < INT_MAX
    requires NoSwitchIn(s, Run(s, NewCtx(recordLimit), calls), more)
    ensures NeverLess(Run(s, NewCtx(recordLimit), calls).write, Run(s, NewCtx(recordLimit), calls + more).write)
  {
    RunAppend(s, NewCtx(recordLimit), calls, more);
    if more != [] {
      var front := more[..|more| - 1];
      CountNeverFalls(s, recordLimit, calls, front);
      RunAppend(s, NewCtx(recordLimit), calls, front);
      RunInv(s, recordLimit, calls + front);
      ApplyCounts(s, Run(s, NewCtx(recordLimit), calls + front), more[|more| - 1]);
    }
  }

  /** And a call that does switch the key starts its count at zero. */
  lemma SwitchStartsAtZero(s: Script, recordLimit: int, calls: seq<Call>, call: Call)
    requires 0 < recordLimit < INT_MAX
    requires Switches(s, Run(s, NewCtx(recordLimit), calls), call)
    ensures var n := Apply(s, Run(s, NewCtx(recordLimit), calls), call).0;
            && n.write.usageKeyValid && Some(n.write.usageKey) == Read(n.log).inner.key
            && n.write.encryptedRecords == 0 && !n.write.usageExhausted
  {
    RunInv(s, recordLimit, calls);
    ApplyCounts(s, Run(s, NewCtx(recordLimit), calls), call);
  }
}
