/**
 * What the inner cipher may be asked, and when: on every run each data, tag or parameter call
 * finds a clean inner record, and each encryption call is charged to the budget of its key.
 */
module CipherDiscipline {
  import opened Wrappers
  import opened Gcm
  import opened CipherModel
  import opened CipherInvariant

  /** A record is set up and nothing has gone wrong since. */
  predicate Clean(i: Inner) {
    !i.dirty && !i.disturbed && i.key.Some? && i.iv.Some?
  }

  predicate Ended(calls: seq<Data>) {
    calls != [] && calls[|calls| - 1].End?
  }

  /** An encryption call runs under the installed key, within the limit once its record is counted. */
  predicate Charged(limit: int, r: Reading) {
    r.inner.encrypt ==> r.budget.key == r.inner.key && Count(r.budget, true).records <= limit
  }

  /** When an external call is in order, given the history before it. */
  predicate InOrder(limit: int, r: Reading, event: Event) {
    match event
    case InnerUpdate(payload, data, _, _, _) =>
      && Clean(r.inner) && Charged(limit, r) && !Ended(r.inner.calls)
      && (r.inner.calls == [] ==> !payload && data == MANIFEST)
      && (!payload ==> !Started(r.inner.calls))
    case InnerFinal(_, _) =>
      && Clean(r.inner) && Charged(limit, r) && !Ended(r.inner.calls) && r.inner.calls != []
      && (!r.inner.encrypt ==> r.caller.tag.Accepted? && r.inner.tag == Some(r.caller.tag.tag))
    case InnerGetTag(_, _, _) => Clean(r.inner) && r.inner.encrypt && Ended(r.inner.calls)
    case InnerSetTag(_, _, _) => Clean(r.inner) && !r.inner.encrypt && !Ended(r.inner.calls)
    case _ => true
  }

  /** Every call of a history was in order when it was made. */
  predicate Disciplined(limit: int, log: Log) {
    match log
    case Empty => true
    case Then(past, event) => Disciplined(limit, past) && InOrder(limit, Read(past), event)
  }

  lemma StagedRecord(chunks: seq<Data>)
    requires Staged(chunks)
    ensures Staged([Aad(MANIFEST)] + chunks) && Started([Aad(MANIFEST)] + chunks) == Started(chunks)
    ensures !Ended([Aad(MANIFEST)] + chunks)
  {
    var whole := [Aad(MANIFEST)] + chunks;
    if chunks == [] {
      assert whole[..0] == [];
    } else {
      var front := chunks[..|chunks| - 1];
      StagedRecord(front);
      assert whole[..|whole| - 1] == [Aad(MANIFEST)] + front;
    }
  }

  /** An active record can take any data call of the right stage, and its final. */
  lemma ActiveIsOrderly(c: Ctx)
    requires Inv(c) && Open(c) && c.phase == Active
    ensures var r := Read(c.log);
            && Clean(r.inner) && Charged(c.recordLimit, r) && r.inner.calls != [] && !Ended(r.inner.calls)
            && Started(r.inner.calls) == c.payloadStarted && r.inner.encrypt == c.encrypt
  {
    StagedRecord(Read(c.log).caller.chunks);
  }

  lemma PendingIsOrderly(c: Ctx)
    requires Inv(c) && Open(c) && c.phase == ManifestPending
    requires c.encrypt ==> !c.write.usageExhausted && c.write.encryptedRecords < c.recordLimit
    ensures var r := Read(c.log);
            Clean(r.inner) && Charged(c.recordLimit, r) && r.inner.calls == [] && r.caller.chunks == []
  {
  }

  /** Reserving makes at most one external call, and it is not one to the inner cipher. */
  lemma ReserveCalls(s: Script, c: Ctx)
    ensures var n := Reserve(s, c).0;
            (n.log == c.log || n.log == Then(c.log, AtomicAdd(Next(s, c).ok))) && n.recordLimit == c.recordLimit
  {
    if !c.write.recordReserved && c.write.usageKeyValid && !c.write.usageExhausted {
      var added := Note(c, AtomicAdd(Next(s, c).ok));
      assert added.log == Then(c.log, AtomicAdd(Next(s, c).ok)) && added.recordLimit == c.recordLimit;
    }
  }

  lemma ReserveOrderly(s: Script, c: Ctx)
    requires Disciplined(c.recordLimit, c.log)
    ensures Disciplined(c.recordLimit, Reserve(s, c).0.log) && Reserve(s, c).0.recordLimit == c.recordLimit
  {
    ReserveCalls(s, c);
  }

  lemma InjectOrderly(s: Script, c: Ctx)
    requires Inv(c) && Open(c) && Disciplined(c.recordLimit, c.log)
    ensures var n := InjectManifest(s, c).0;
            Disciplined(c.recordLimit, n.log) && n.recordLimit == c.recordLimit
  {
    if c.phase == ManifestPending {
      if c.encrypt {
        ReserveOrderly(s, c);
        ReserveStep(s, c);
      }
      var (reserved, ok) := if c.encrypt then Reserve(s, c) else (c, true);
      if ok {
        PendingIsOrderly(c);
      }
    }
  }

  lemma UpdateOrderly(s: Script, c: Ctx, u: UpdateArgs)
    requires Inv(c) && Disciplined(c.recordLimit, c.log)
    ensures Disciplined(c.recordLimit, DoUpdate(s, c, u).0.log) && DoUpdate(s, c, u).0.recordLimit == c.recordLimit
  {
    if !u.outlNull && !Closed(c) {
      InjectOrderly(s, c);
      InjectStep(s, c);
      var (injected, ok) := InjectManifest(s, c);
      if ok {
        ActiveIsOrderly(injected);
      }
    }
  }

  lemma FinalOrderly(s: Script, c: Ctx, outlNull: bool)
    requires Inv(c) && Disciplined(c.recordLimit, c.log)
    ensures var n := DoFinal(s, c, outlNull).0;
            Disciplined(c.recordLimit, n.log) && n.recordLimit == c.recordLimit
  {
    if !outlNull && !Closed(c) && (c.encrypt || c.decryptTagCurrent) {
      InjectOrderly(s, c);
      InjectStep(s, c);
      var (injected, ok) := InjectManifest(s, c);
      if ok {
        ActiveIsOrderly(injected);
      }
    }
  }

  lemma SetParamsOrderly(s: Script, c: Ctx, params: Params)
    requires Inv(c) && Disciplined(c.recordLimit, c.log)
    ensures var n := DoSetParams(s, c, params).0;
            Disciplined(c.recordLimit, n.log) && n.recordLimit == c.recordLimit
  {
    if Open(c) && c.phase == Active {
      ActiveIsOrderly(c);
    }
  }

  lemma GetParamsOrderly(s: Script, c: Ctx, get: GetArgs)
    requires Inv(c) && Disciplined(c.recordLimit, c.log)
    ensures var n := DoGetParams(s, c, get).0;
            Disciplined(c.recordLimit, n.log) && n.recordLimit == c.recordLimit
  {
  }

  lemma InstallCalls(s: Script, c: Ctx)
    ensures var n := InstallWriteKey(s, c).0;
            (n.log == c.log || n.log == Then(c.log, WriteLock(Next(s, c).ok))) && n.recordLimit == c.recordLimit
  {
  }

  lemma InstallOrderly(s: Script, c: Ctx)
    requires Disciplined(c.recordLimit, c.log)
    ensures var n := InstallWriteKey(s, c).0;
            Disciplined(c.recordLimit, n.log) && n.recordLimit == c.recordLimit
  {
    InstallCalls(s, c);
  }

  lemma OpenRecordOrderly(s: Script, c: Ctx, args: InitArgs)
    requires Disciplined(c.recordLimit, c.log)
    ensures var n := OpenRecord(s, c, args).0;
            Disciplined(c.recordLimit, n.log) && n.recordLimit == c.recordLimit
  {
    InstallOrderly(s, c);
  }

  lemma RecordKeyOrderly(s: Script, c: Ctx, key: Key)
    requires Disciplined(c.recordLimit, c.log)
    ensures var n := RecordCurrentKey(s, c, key).0;
            Disciplined(c.recordLimit, n.log) && n.recordLimit == c.recordLimit
  {
  }

  lemma AcceptOrderly(s: Script, c: Ctx, args: InitArgs, encrypt: bool)
    requires Disciplined(c.recordLimit, c.log)
    ensures var n := Accept(s, c, args, encrypt).0;
            Disciplined(c.recordLimit, n.log) && n.recordLimit == c.recordLimit
  {
    if args.key.Some? {
      RecordKeyOrderly(s, c, args.key.value);
    }
    var (keyed, _) := if args.key.Some? then RecordCurrentKey(s, c, args.key.value) else (c, true);
    OpenRecordOrderly(s, Adopt(keyed, args, encrypt), args);
  }

  lemma BeginOrderly(s: Script, c: Ctx, args: InitArgs, encrypt: bool)
    requires Disciplined(c.recordLimit, c.log)
    ensures var n := Begin(s, c, args, encrypt).0;
            Disciplined(c.recordLimit, n.log) && n.recordLimit == c.recordLimit
  {
    var prepared := Prepared(c, args, encrypt);
    assert prepared.log == c.log && prepared.recordLimit == c.recordLimit;
    AcceptOrderly(s, Note(prepared, InnerInitOf(args, encrypt, Next(s, c).ok)), args, encrypt);
  }

  lemma InitOrderly(s: Script, c: Ctx, args: InitArgs, encrypt: bool)
    requires Disciplined(c.recordLimit, c.log)
    ensures var n := DoInit(s, c, args, encrypt).0;
            Disciplined(c.recordLimit, n.log) && n.recordLimit == c.recordLimit
  {
    if !Malformed(c, args, encrypt) && !(args.iv.Some? && args.key.None? && !c.keyValid) {
      BeginOrderly(s, ForgetTag(c, args.params), args, encrypt);
    }
  }

  lemma ApplyOrderly(s: Script, c: Ctx, call: Call)
    requires Inv(c) && Disciplined(c.recordLimit, c.log)
    ensures var n := Apply(s, c, call).0;
            Disciplined(c.recordLimit, n.log) && n.recordLimit == c.recordLimit
  {
    match call
    case Init(args, encrypt) => InitOrderly(s, c, args, encrypt);
    case Update(u) => UpdateOrderly(s, c, u);
    case Final(outlNull) => FinalOrderly(s, c, outlNull);
    case SetParams(params) => SetParamsOrderly(s, c, params);
    case GetParams(get) => GetParamsOrderly(s, c, get);
  }

  /**
   * On every run, whatever fails: no data, final, get-tag or set-tag call reaches the inner cipher
   * after a fault until an IV-bearing init was accepted; and each encryption call runs under
   * the installed key with at most `recordLimit` records charged to it.
   */
  lemma {:induction false} RunDisciplined(s: Script, recordLimit: int, calls: seq<Call>)
    requires 0 < recordLimit < INT_MAX
    ensures var c := Run(s, NewCtx(recordLimit), calls);
            Disciplined(recordLimit, c.log) && c.recordLimit == recordLimit
  {
    if calls != [] {
      var front := calls[..|calls| - 1];
      RunDisciplined(s, recordLimit, front);
      RunInv(s, recordLimit, front);
      ApplyOrderly(s, Run(s, NewCtx(recordLimit), front), calls[|calls| - 1]);
    }
  }
}
