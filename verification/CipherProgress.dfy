/**
 * Legal records go through: without a fault, the outer cipher refuses no record that stays in order and within the
 * budget.
 */
module CipherProgress {
  import opened Wrappers
  import opened Gcm
  import CipherCalls
  import opened CipherModel
  import opened CipherInvariant
  import opened CipherDiscipline
  import opened CipherKeys
  import opened CipherTheorems

  /** A failure of the inner cipher or of the platform. */
  predicate Failing(event: Event) {
    Faulty(event) || (event.WriteLock? && !event.ok) || (event.AtomicAdd? && !event.ok)
  }

  /** No external call from number `k` on failed. */
  predicate SmoothFrom(k: nat, log: Log) {
    log.Empty? || (SmoothFrom(k, log.past) && (External(log.past) >= k ==> !Failing(log.event)))
  }

  predicate Feedable(d: Data) {
    !d.End? && 0 < |d.bytes| <= INT_MAX
  }

  /** Feeding one chunk, with an output buffer of its size for payload. */
  function Feed(d: Data): Call
    requires Feedable(d)
  {
    Update(UpdateArgs(false, if d.Payload? then Some(|d.bytes|) else None, Buffer(d.bytes)))
  }

  predicate AllFeedable(chunks: seq<Data>) {
    forall k :: 0 <= k < |chunks| ==> Feedable(chunks[k])
  }

  function FeedAll(chunks: seq<Data>): (calls: seq<Call>)
    requires AllFeedable(chunks)
    ensures |calls| == |chunks|
  {
    if chunks == [] then [] else FeedAll(chunks[..|chunks| - 1]) + [Feed(chunks[|chunks| - 1])]
  }

  /** An open record that the budget lets start. */
  ghost predicate Ready(c: Ctx) {
    && Inv(c) && Open(c)
    && (c.phase == ManifestPending && c.encrypt ==> Read(c.log).budget.records < c.recordLimit)
  }

  lemma InjectGoesThrough(s: Script, c: Ctx, k: nat)
    requires Ready(c) && k <= External(c.log)
    requires SmoothFrom(k, InjectManifest(s, c).0.log)
    ensures var (n, ok) := InjectManifest(s, c);
            ok && SmoothFrom(k, c.log) && External(c.log) <= External(n.log)
  {
    if c.phase == ManifestPending && c.encrypt {
      ReserveExactly(s, c);
      ReserveCalls(s, c);
    }
  }

  lemma UpdateSteps(s: Script, c: Ctx, u: UpdateArgs)
    requires Ready(c) && !u.outlNull && u.input.Buffer? && 0 < |u.input.data| <= INT_MAX
    requires (u.out.Some? ==> u.out.value >= |u.input.data|) && (u.out.None? ==> !c.payloadStarted)
    ensures var (x, ok) := InjectManifest(s, c);
            var (n, answer) := Apply(s, c, Update(u));
            && (!ok ==> n.log.past == x.log)
            && (ok ==> n.log.past == DataCalled(s, x, u.out.Some?, u.input.data).log)
            && n.log == Then(n.log.past, Returned(Update(u), answer))
            && (answer.ok <==> ok && Next(s, x).ok && Next(s, x).len == |u.input.data|)
            && (answer.ok ==> answer.output == Released(s, x, u)
                              && n == x.(log := n.log, payloadStarted := u.out.Some? || x.payloadStarted))
  {
  }

  lemma UpdateGoesThrough(s: Script, c: Ctx, k: nat, d: Data)
    requires Ready(c) && Feedable(d) && (c.payloadStarted ==> d.Payload?) && k <= External(c.log)
    requires SmoothFrom(k, Apply(s, c, Feed(d)).0.log)
    ensures var (n, answer) := Apply(s, c, Feed(d));
            && answer.ok && Ready(n) && n.phase == Active
            && n.encrypt == c.encrypt && n.decryptTagCurrent == c.decryptTagCurrent && n.payloadStarted == d.Payload?
            && Read(n.log).caller.chunks == Read(c.log).caller.chunks + [d]
            && Read(n.log).caller.tag == Read(c.log).caller.tag
            && SmoothFrom(k, c.log) && k <= External(n.log)
  {
    var u := Feed(d).update;
    UpdateSteps(s, c, u);
    InjectGoesThrough(s, c, k);
    InjectStep(s, c);
    DataExtends(s, InjectManifest(s, c).0, u);
    UpdateInv(s, c, u);
  }

  // ---------- at the limit

  /** What a new encryption record finds at the limit: the call is refused before the inner cipher is called. */
  ghost predicate TurnedDown(c: Ctx, n: Ctx) {
    && n.needsReinit && !Open(n)
    && n.log.Then? && (n.log.past == c.log || n.log.past == Then(c.log, AtomicAdd(true))
                       || n.log.past == Then(c.log, AtomicAdd(false)))
  }

  lemma InjectAtTheLimit(s: Script, c: Ctx)
    requires Inv(c) && Open(c) && c.phase == ManifestPending && c.encrypt && Read(c.log).budget.records >= c.recordLimit
    ensures var (x, ok) := InjectManifest(s, c);
            !ok && x.needsReinit && !Open(x) && (x.log == c.log || x.log == Then(c.log, AtomicAdd(Next(s, c).ok)))
  {
    ReserveExactly(s, c);
    ReserveCalls(s, c);
  }

  lemma UpdateAtTheLimit(s: Script, c: Ctx, u: UpdateArgs)
    requires Inv(c) && Open(c) && c.phase == ManifestPending && c.encrypt && Admitted(c, u)
    ensures var (n, answer) := Apply(s, c, Update(u));
            && (Read(c.log).budget.records >= c.recordLimit ==> !answer.ok && TurnedDown(c, n))
            && (SmoothFrom(External(c.log), n.log) ==>
                  (answer.ok <==> Read(c.log).budget.records < c.recordLimit))
  {
    if Read(c.log).budget.records >= c.recordLimit {
      InjectAtTheLimit(s, c);
    } else {
      UpdateSteps(s, c, u);
      var x := InjectManifest(s, c).0;
      var past := Apply(s, c, Update(u)).0.log.past;
      if SmoothFrom(External(c.log), past) {
        assert SmoothFrom(External(c.log), x.log);
        InjectGoesThrough(s, c, External(c.log));
      }
    }
  }

  lemma FinalAtTheLimit(s: Script, c: Ctx)
    requires Inv(c) && Open(c) && c.phase == ManifestPending && c.encrypt
    ensures var (n, answer) := Apply(s, c, Final(false));
            && (Read(c.log).budget.records >= c.recordLimit ==> !answer.ok && TurnedDown(c, n))
            && (SmoothFrom(External(c.log), n.log) ==>
                  (answer.ok <==> Read(c.log).budget.records < c.recordLimit))
  {
    if Read(c.log).budget.records >= c.recordLimit {
      InjectAtTheLimit(s, c);
    } else if SmoothFrom(External(c.log), Apply(s, c, Final(false)).0.log) {
      FinalGoesThrough(s, c, External(c.log));
    }
  }

  /**
   * On every run, the first update or the final of a new encryption record meets the budget exactly: at the limit it
   * is refused, the record is over, and the inner cipher is not called; below it, it succeeds unless an external call
   * fails.
   */
  lemma BudgetDecides(s: Script, recordLimit: int, calls: seq<Call>, call: Call)
    requires 0 < recordLimit < INT_MAX
    requires var c := Run(s, NewCtx(recordLimit), calls);
             && Open(c) && c.phase == ManifestPending && c.encrypt
             && (call == Final(false) || (call.Update? && Admitted(c, call.update)))
    ensures var c := Run(s, NewCtx(recordLimit), calls);
            var (n, answer) := Apply(s, c, call);
            && (Read(c.log).budget.records == recordLimit ==> !answer.ok && TurnedDown(c, n))
            && (SmoothFrom(External(c.log), n.log) ==> (answer.ok <==> Read(c.log).budget.records < recordLimit))
  {
    var c := Run(s, NewCtx(recordLimit), calls);
    RunInv(s, recordLimit, calls);
    RunDisciplined(s, recordLimit, calls);
    if call.Update? {
      UpdateAtTheLimit(s, c, call.update);
    } else {
      FinalAtTheLimit(s, c);
    }
  }

  lemma ReserveSmooth(s: Script, c: Ctx, k: nat)
    requires SmoothFrom(k, Reserve(s, c).0.log)
    ensures SmoothFrom(k, c.log)
  {
    ReserveCalls(s, c);
  }

  lemma InjectSmooth(s: Script, c: Ctx, k: nat)
    requires SmoothFrom(k, InjectManifest(s, c).0.log)
    ensures SmoothFrom(k, c.log)
  {
    if c.phase == ManifestPending && c.encrypt {
      if SmoothFrom(k, Reserve(s, c).0.log) {
        ReserveSmooth(s, c, k);
      }
    }
  }

  lemma UpdateSmooth(s: Script, c: Ctx, u: UpdateArgs, k: nat)
    requires SmoothFrom(k, Apply(s, c, Update(u)).0.log)
    ensures SmoothFrom(k, c.log)
  {
    UpdateShape(s, c, u);
    var x := InjectManifest(s, c).0;
    if SmoothFrom(k, x.log) {
      InjectSmooth(s, c, k);
    }
  }

  lemma FinalSmooth(s: Script, c: Ctx, k: nat)
    requires SmoothFrom(k, Apply(s, c, Final(false)).0.log)
    ensures SmoothFrom(k, c.log)
  {
    FinalShape(s, c, false);
    var x := InjectManifest(s, c).0;
    if SmoothFrom(k, x.log) {
      InjectSmooth(s, c, k);
    }
  }

  lemma FedLast(s: Script, c: Ctx, chunks: seq<Data>)
    requires AllFeedable(chunks) && chunks != []
    ensures Run(s, c, FeedAll(chunks))
            == Apply(s, Run(s, c, FeedAll(chunks[..|chunks| - 1])), Feed(chunks[|chunks| - 1])).0
  {
    assert FeedAll(chunks)[..|chunks| - 1] == FeedAll(chunks[..|chunks| - 1]);
  }

  /** How far a record has come: its direction, the tag set for it, and the chunks accepted. */
  ghost predicate Fed(n: Ctx, encrypt: bool, tag: Option<Tag>, chunks: seq<Data>) {
    && Ready(n) && KeyTie(n) && n.encrypt == encrypt
    && n.decryptTagCurrent == tag.Some?
    && (tag.Some? ==> Read(n.log).caller.tag == Accepted(tag.value))
    && n.payloadStarted == Started(chunks) && Read(n.log).caller.chunks == chunks
  }

  lemma FeedOne(s: Script, before: Ctx, k: nat, encrypt: bool, tag: Option<Tag>, chunks: seq<Data>, d: Data)
    requires Fed(before, encrypt, tag, chunks) && k <= External(before.log)
    requires Feedable(d) && (Started(chunks) ==> d.Payload?)
    requires SmoothFrom(k, Apply(s, before, Feed(d)).0.log)
    ensures var n := Apply(s, before, Feed(d)).0;
            Fed(n, encrypt, tag, chunks + [d]) && k <= External(n.log)
  {
    UpdateGoesThrough(s, before, k, d);
    ApplyTie(s, before, Feed(d));
  }

  lemma StagedFront(base: seq<Data>, chunks: seq<Data>)
    requires Staged(base + chunks) && chunks != []
    ensures var front, last := chunks[..|chunks| - 1], chunks[|chunks| - 1];
            Staged(base + front) && (Started(base + front) ==> last.Payload?) && base + front + [last] == base + chunks
  {
    var whole := base + chunks;
    assert whole[..|whole| - 1] == base + chunks[..|chunks| - 1];
    assert whole == base + chunks[..|chunks| - 1] + [chunks[|chunks| - 1]];
  }

  /** The rest of a legal text goes through, chunk by chunk, on top of what was accepted before. */
  lemma {:induction false} FeedingGoesThrough(s: Script, c: Ctx, k: nat, encrypt: bool, tag: Option<Tag>,
                                              base: seq<Data>, chunks: seq<Data>)
    requires Fed(c, encrypt, tag, base) && k <= External(c.log)
    requires AllFeedable(chunks) && Staged(base + chunks)
    requires SmoothFrom(k, Run(s, c, FeedAll(chunks)).log)
    ensures Fed(Run(s, c, FeedAll(chunks)), encrypt, tag, base + chunks)
    ensures k <= External(Run(s, c, FeedAll(chunks)).log)
  {
    if chunks == [] {
      assert base + chunks == base;
    } else {
      var front, last := chunks[..|chunks| - 1], chunks[|chunks| - 1];
      StagedFront(base, chunks);
      FedLast(s, c, chunks);
      var before := Run(s, c, FeedAll(front));
      UpdateSmooth(s, before, Feed(last).update, k);
      FeedingGoesThrough(s, c, k, encrypt, tag, base, front);
      FeedOne(s, before, k, encrypt, tag, base + front, last);
    }
  }

  // ---------- setting the tag on the way

  /** A parameter list that sets a tag and nothing forbidden. */
  predicate SetsTag(params: Params) {
    && !params.forbidden && !params.duplicate && params.lengthsOk
    && params.tag.Some? && params.tag.value.wellFormed
  }

  lemma SetParamsSmooth(s: Script, c: Ctx, params: Params, k: nat)
    requires SmoothFrom(k, Apply(s, c, SetParams(params)).0.log)
    ensures SmoothFrom(k, c.log)
  {
  }

  lemma SetParamsLog(s: Script, c: Ctx, params: Params)
    requires Open(c) && !c.encrypt && SetsTag(params)
    ensures var (n, answer) := Apply(s, c, SetParams(params));
            var ok := Next(s, c).ok;
            && answer.ok == ok
            && n.log == Then(Then(c.log, InnerSetTag(params.tag.value.value, params.ivLen, ok)),
                             Returned(SetParams(params), answer))
            && (ok ==> n == c.(log := n.log, decryptTagCurrent := true))
  {
  }

  lemma SettingGoesThrough(s: Script, c: Ctx, k: nat, tag: Option<Tag>, chunks: seq<Data>, params: Params)
    requires Fed(c, false, tag, chunks) && SetsTag(params) && k <= External(c.log)
    requires SmoothFrom(k, Apply(s, c, SetParams(params)).0.log)
    ensures var n := Apply(s, c, SetParams(params)).0;
            Fed(n, false, Some(params.tag.value.value), chunks) && k <= External(n.log)
  {
    SetParamsLog(s, c, params);
    SetParamsInv(s, c, params);
    ApplyTie(s, c, SetParams(params));
  }

  lemma FinalGoesThrough(s: Script, c: Ctx, k: nat)
    requires Ready(c) && (c.encrypt || c.decryptTagCurrent) && k <= External(c.log)
    requires SmoothFrom(k, Apply(s, c, Final(false)).0.log)
    ensures Apply(s, c, Final(false)).1.ok
  {
    var (x, ok) := InjectManifest(s, c);
    if SmoothFrom(k, x.log) {
      InjectGoesThrough(s, c, k);
    }
  }

  // ---------- opening a record

  lemma InstallGoesThrough(s: Script, c: Ctx, k: nat)
    requires c.write.currentKeyValid && k <= External(c.log)
    requires SmoothFrom(k, InstallWriteKey(s, c).0.log)
    ensures InstallWriteKey(s, c).1 && External(c.log) <= External(InstallWriteKey(s, c).0.log)
  {
  }

  lemma OpenRecordGoesThrough(s: Script, c: Ctx, k: nat, args: InitArgs)
    requires c.write.currentKeyValid && k <= External(c.log) && args.iv.Some?
    requires SmoothFrom(k, OpenRecord(s, c, args).0.log)
    ensures var (n, ok) := OpenRecord(s, c, args);
            && ok && Open(n) && n.phase == ManifestPending && n.encrypt == c.encrypt
            && n.decryptTagCurrent == (!c.encrypt && args.params.tag.Some?) && External(c.log) <= External(n.log)
  {
    if c.encrypt {
      InstallGoesThrough(s, c, k);
    }
  }

  lemma RecordKeyGoesThrough(s: Script, c: Ctx, k: nat, key: Key)
    requires k <= External(c.log)
    requires SmoothFrom(k, RecordCurrentKey(s, c, key).0.log)
    ensures var (n, ok) := RecordCurrentKey(s, c, key);
            ok && n.write.currentKeyValid && External(c.log) <= External(n.log)
  {
  }

  lemma InstallSmooth(s: Script, c: Ctx, k: nat)
    requires SmoothFrom(k, InstallWriteKey(s, c).0.log)
    ensures SmoothFrom(k, c.log)
  {
    InstallCalls(s, c);
  }

  lemma OpenRecordSmooth(s: Script, c: Ctx, args: InitArgs, k: nat)
    requires SmoothFrom(k, OpenRecord(s, c, args).0.log)
    ensures SmoothFrom(k, c.log)
  {
    if args.iv.Some? && c.encrypt {
      InstallSmooth(s, c, k);
    }
  }

  lemma AcceptGoesThrough(s: Script, c: Ctx, k: nat, args: InitArgs, encrypt: bool)
    requires k <= External(c.log) && args.iv.Some? && (args.key.None? ==> c.write.currentKeyValid)
    requires SmoothFrom(k, Accept(s, c, args, encrypt).0.log)
    ensures var (n, ok) := Accept(s, c, args, encrypt);
            && ok && Open(n) && n.phase == ManifestPending && n.encrypt == encrypt
            && n.decryptTagCurrent == (!encrypt && args.params.tag.Some?) && External(c.log) <= External(n.log)
            && SmoothFrom(k, c.log)
  {
    var keyed := c;
    if args.key.Some? {
      keyed := RecordCurrentKey(s, c, args.key.value).0;
      if RecordCurrentKey(s, c, args.key.value).1 {
        OpenRecordSmooth(s, Adopt(keyed, args, encrypt), args, k);
      }
      RecordKeyGoesThrough(s, c, k, args.key.value);
    }
    OpenRecordSmooth(s, Adopt(keyed, args, encrypt), args, k);
    OpenRecordGoesThrough(s, Adopt(keyed, args, encrypt), k, args);
  }

  /**
   * An init that opens a record: an IV, a key or a valid one in place, the right lengths, legal parameters, and a tag
   * at most for decrypting and then a well-formed one.
   */
  predicate Opening(c: Ctx, args: InitArgs, encrypt: bool) {
    && args.iv.Some? && args.ivLen == 12 && args.keyLen == (if args.key.Some? then 32 else 0)
    && (args.key.Some? || c.keyValid)
    && !args.params.forbidden && !args.params.duplicate && args.params.lengthsOk
    && (args.params.tag.Some? ==> args.params.tag.value.wellFormed && !encrypt)
  }

  lemma BeginGoesThrough(s: Script, c: Ctx, k: nat, args: InitArgs, encrypt: bool)
    requires Inv(c) && k <= External(c.log) && args.iv.Some? && (args.key.Some? || c.keyValid)
    requires SmoothFrom(k, Begin(s, c, args, encrypt).0.log)
    ensures var (n, ok) := Begin(s, c, args, encrypt);
            && ok && Open(n) && n.phase == ManifestPending && n.encrypt == encrypt
            && n.decryptTagCurrent == (!encrypt && args.params.tag.Some?) && External(c.log) <= External(n.log)
  {
    var prepared := Prepared(c, args, encrypt);
    assert prepared.log == c.log && prepared.write == c.write;
    var called := Note(prepared, InnerInitOf(args, encrypt, Next(s, c).ok));
    if Next(s, c).ok {
      AcceptGoesThrough(s, called, k, args, encrypt);
    }
  }

  lemma InitGoesThrough(s: Script, c: Ctx, k: nat, args: InitArgs, encrypt: bool)
    requires Inv(c) && k <= External(c.log) && Opening(c, args, encrypt)
    requires SmoothFrom(k, Apply(s, c, Init(args, encrypt)).0.log)
    ensures var (n, answer) := Apply(s, c, Init(args, encrypt));
            && answer.ok && Inv(n) && Open(n) && n.phase == ManifestPending && n.encrypt == encrypt
            && n.decryptTagCurrent == (!encrypt && args.params.tag.Some?) && k <= External(n.log)
            && n.log.Then? && n.log.event == Returned(Init(args, encrypt), DONE)
  {
    CipherCalls.MalformedIs(c, args, encrypt);
    ForgetTagHolds(c, args.params);
    BeginGoesThrough(s, ForgetTag(c, args.params), k, args, encrypt);
    InitInv(s, c, args, encrypt);
  }

  // ---------- whole records

  lemma {:induction false} FeedingSmooth(s: Script, c: Ctx, k: nat, chunks: seq<Data>)
    requires AllFeedable(chunks) && SmoothFrom(k, Run(s, c, FeedAll(chunks)).log)
    ensures SmoothFrom(k, c.log)
  {
    if chunks != [] {
      var front := chunks[..|chunks| - 1];
      FedLast(s, c, chunks);
      UpdateSmooth(s, Run(s, c, FeedAll(front)), Feed(chunks[|chunks| - 1]).update, k);
      FeedingSmooth(s, c, k, front);
    }
  }

  lemma EndingGoesThrough(s: Script, fed: Ctx, k: nat, encrypt: bool, tag: Option<Tag>, chunks: seq<Data>)
    requires Fed(fed, encrypt, tag, chunks) && (encrypt || tag.Some?) && k <= External(fed.log)
    requires SmoothFrom(k, Apply(s, fed, Final(false)).0.log)
    ensures var (n, answer) := Apply(s, fed, Final(false));
            && answer.ok && OneRecord(n.log) && Read(n.log).inner.encrypt == encrypt
            && Read(n.log).caller.chunks == chunks
            && (tag.Some? ==> Read(n.log).caller.tag == Accepted(tag.value))
  {
    FinalGoesThrough(s, fed, k);
    FinalFinalizes(s, fed, false);
    InjectStep(s, fed);
    FinalInv(s, fed, false);
    ApplyTie(s, fed, Final(false));
    FinalizedIsOneRecord(Apply(s, fed, Final(false)).0);
  }

  /** What the history says right after a successful IV-bearing init. */
  lemma BegunCaller(log: Log, args: InitArgs, encrypt: bool)
    requires log.Then? && log.event == Returned(Init(args, encrypt), DONE) && args.iv.Some?
    ensures Read(log).caller.chunks == []
    ensures args.params.tag.Some? ==> Read(log).caller.tag == Accepted(args.params.tag.value.value)
  {
  }

  lemma OpeningGoesThrough(s: Script, c: Ctx, k: nat, args: InitArgs, encrypt: bool)
    requires Inv(c) && KeyTie(c) && Disciplined(c.recordLimit, c.log)
    requires k <= External(c.log) && Opening(c, args, encrypt)
    requires var begun := Apply(s, c, Init(args, encrypt)).0;
             SmoothFrom(k, begun.log) && (encrypt ==> Read(begun.log).budget.records < c.recordLimit)
    ensures var begun := Apply(s, c, Init(args, encrypt)).0;
            Fed(begun, encrypt, TagValue(args.params), []) && k <= External(begun.log)
  {
    InitGoesThrough(s, c, k, args, encrypt);
    ApplyOrderly(s, c, Init(args, encrypt));
    ApplyTie(s, c, Init(args, encrypt));
    BegunCaller(Apply(s, c, Init(args, encrypt)).0.log, args, encrypt);
  }

  /** A record as its caller feeds it: one part, perhaps the tag, and another part. */
  datatype Plan = Plan(args: InitArgs, encrypt: bool, first: seq<Data>, late: Option<Params>, second: seq<Data>) {
    /** Legal whatever the context, apart from what the init needs of it. */
    ghost predicate Legal() {
      && AllFeedable(first) && AllFeedable(second) && Staged(first) && Staged(first + second)
      && (late.Some? ==> !encrypt && SetsTag(late.value))
      && (!encrypt ==> args.params.tag.Some? || late.Some?)
    }

    /** The tag set last. */
    function Tag(): Option<Tag> {
      if late.Some? then TagValue(late.value) else TagValue(args.params)
    }

    function Begun(s: Script, c: Ctx): Ctx {
      Apply(s, c, Init(args, encrypt)).0
    }

    function Half(s: Script, c: Ctx): Ctx
      requires AllFeedable(first)
    {
      Run(s, Begun(s, c), FeedAll(first))
    }

    function Tagged(s: Script, c: Ctx): Ctx
      requires AllFeedable(first)
    {
      if late.Some? then Apply(s, Half(s, c), SetParams(late.value)).0 else Half(s, c)
    }

    function Whole(s: Script, c: Ctx): Ctx
      requires AllFeedable(first) && AllFeedable(second)
    {
      Run(s, Tagged(s, c), FeedAll(second))
    }

    /** The final and its answer. */
    function End(s: Script, c: Ctx): (Ctx, Answer)
      requires AllFeedable(first) && AllFeedable(second)
    {
      Apply(s, Whole(s, c), Final(false))
    }
  }

  lemma PlanIsSmooth(s: Script, c: Ctx, k: nat, p: Plan)
    requires p.Legal() && SmoothFrom(k, p.Whole(s, c).log)
    ensures SmoothFrom(k, p.Tagged(s, c).log) && SmoothFrom(k, p.Half(s, c).log) && SmoothFrom(k, p.Begun(s, c).log)
  {
    FeedingSmooth(s, p.Tagged(s, c), k, p.second);
    if p.late.Some? {
      SetParamsSmooth(s, p.Half(s, c), p.late.value, k);
    }
    FeedingSmooth(s, p.Begun(s, c), k, p.first);
  }

  lemma PlanGoesThrough(s: Script, c: Ctx, k: nat, p: Plan)
    requires p.Legal() && Fed(p.Begun(s, c), p.encrypt, TagValue(p.args.params), []) && k <= External(p.Begun(s, c).log)
    requires SmoothFrom(k, p.Whole(s, c).log)
    ensures Fed(p.Whole(s, c), p.encrypt, p.Tag(), p.first + p.second) && k <= External(p.Whole(s, c).log)
  {
    PlanIsSmooth(s, c, k, p);
    assert [] + p.first == p.first;
    FeedingGoesThrough(s, p.Begun(s, c), k, p.encrypt, TagValue(p.args.params), [], p.first);
    if p.late.Some? {
      SettingGoesThrough(s, p.Half(s, c), k, TagValue(p.args.params), p.first, p.late.value);
    }
    FeedingGoesThrough(s, p.Tagged(s, c), k, p.encrypt, p.Tag(), p.first, p.second);
  }

  /** What a plan has reached just before its final. */
  lemma WholeIsFed(s: Script, recordLimit: int, calls: seq<Call>, p: Plan)
    requires 0 < recordLimit < INT_MAX && p.Legal()
    requires var c := Run(s, NewCtx(recordLimit), calls);
             && Opening(c, p.args, p.encrypt)
             && (p.encrypt ==> Read(p.Begun(s, c).log).budget.records < recordLimit)
             && SmoothFrom(External(c.log), p.Whole(s, c).log)
    ensures var c := Run(s, NewCtx(recordLimit), calls);
            && Fed(p.Whole(s, c), p.encrypt, p.Tag(), p.first + p.second)
            && External(c.log) <= External(p.Whole(s, c).log)
  {
    var c := Run(s, NewCtx(recordLimit), calls);
    var k := External(c.log);
    RunInv(s, recordLimit, calls);
    RunTie(s, recordLimit, calls);
    RunDisciplined(s, recordLimit, calls);
    PlanIsSmooth(s, c, k, p);
    OpeningGoesThrough(s, c, k, p.args, p.encrypt);
    PlanGoesThrough(s, c, k, p);
  }

  /**
   * After any run, a legal record whose external calls all succeed goes through and reaches the inner cipher
   * as one record of exactly these chunks; a decryption may give its tag in the init, between any two chunks,
   * or before the final. Only the budget can stand in the way of an encryption.
   */
  lemma RecordGoesThrough(s: Script, recordLimit: int, calls: seq<Call>, p: Plan)
    requires 0 < recordLimit < INT_MAX && p.Legal()
    requires var c := Run(s, NewCtx(recordLimit), calls);
             && Opening(c, p.args, p.encrypt)
             && (p.encrypt ==> Read(p.Begun(s, c).log).budget.records < recordLimit)
             && SmoothFrom(External(c.log), p.End(s, c).0.log)
    ensures var (n, answer) := p.End(s, Run(s, NewCtx(recordLimit), calls));
            && answer.ok && OneRecord(n.log) && Read(n.log).inner.encrypt == p.encrypt
            && Read(n.log).caller.chunks == p.first + p.second
            && (!p.encrypt ==> Read(n.log).caller.tag == Accepted(p.Tag().value))
  {
    var c := Run(s, NewCtx(recordLimit), calls);
    var k := External(c.log);
    FinalSmooth(s, p.Whole(s, c), k);
    WholeIsFed(s, recordLimit, calls, p);
    EndingGoesThrough(s, p.Whole(s, c), k, p.encrypt, p.Tag(), p.first + p.second);
  }

  // ---------- the verdict on a decryption

  /** The inner cipher's answer to the closing call of a decryption is the verdict AES-256-GCM prescribes. */
  ghost predicate Judges(g: AesGcm, i: Inner, r: Reply) {
    && r.len == 0
    && (Clean(i) && Staged(i.calls) ==>
          (r.ok <==> i.tag == Some(g.mac(i.key.value, i.iv.value, AadOf(i.calls), PayloadOf(i.calls)))))
  }

  lemma VerdictAtFinal(s: Script, fed: Ctx, k: nat, tag: Tag, chunks: seq<Data>, g: AesGcm)
    requires Fed(fed, false, Some(tag), chunks) && k <= External(fed.log)
    requires var x := InjectManifest(s, fed).0;
             SmoothFrom(k, x.log) && Judges(g, Read(x.log).inner, Next(s, x))
    ensures var key, iv := KeyInForce(fed.log), Read(fed.log).caller.iv;
            && key.Some? && iv.Some?
            && (Apply(s, fed, Final(false)).1.ok <==>
                  tag == g.mac(key.value, iv.value, MANIFEST + AadOf(chunks), PayloadOf(chunks)))
  {
    var x := InjectManifest(s, fed).0;
    InjectGoesThrough(s, fed, k);
    InjectStep(s, fed);
    InjectPlain(s, fed);
    PlainKeepsKeys(x.log, fed.log);
    ActiveIsOrderly(x);
    StagedRecord(chunks);
    ManifestFirst(chunks);
  }

  /** Calls other than init leave the key in force and the IV alone. */
  lemma {:induction false} FeedingKeepsKeys(s: Script, c: Ctx, chunks: seq<Data>)
    requires AllFeedable(chunks)
    ensures var n := Run(s, c, FeedAll(chunks));
            KeyInForce(n.log) == KeyInForce(c.log) && Read(n.log).caller.iv == Read(c.log).caller.iv
  {
    if chunks != [] {
      var front, last := chunks[..|chunks| - 1], chunks[|chunks| - 1];
      FeedingKeepsKeys(s, c, front);
      FedLast(s, c, chunks);
      ApplyPlain(s, Run(s, c, FeedAll(front)), Feed(last));
      PlainKeepsKeys(Run(s, c, FeedAll(chunks)).log, Run(s, c, FeedAll(front)).log);
    }
  }

  lemma PlanKeepsKeys(s: Script, c: Ctx, p: Plan)
    requires p.Legal()
    ensures var n := p.Whole(s, c);
            && KeyInForce(n.log) == KeyInForce(p.Begun(s, c).log)
            && Read(n.log).caller.iv == Read(p.Begun(s, c).log).caller.iv
  {
    FeedingKeepsKeys(s, p.Begun(s, c), p.first);
    if p.late.Some? {
      ApplyPlain(s, p.Half(s, c), SetParams(p.late.value));
      PlainKeepsKeys(p.Tagged(s, c).log, p.Half(s, c).log);
    }
    FeedingKeepsKeys(s, p.Tagged(s, c), p.second);
  }

  /** The record as begun: its IV and the key in force. */
  function BegunRecord(s: Script, c: Ctx, p: Plan): Caller {
    RecordOf(p.Begun(s, c).log)
  }

  /**
   * After any run, a legal decryption whose external calls succeed up to the closing one, over an inner cipher that
   * then judges as AES-256-GCM prescribes, succeeds in Final exactly if its tag is the right one for the manifest, the
   * additional data and the ciphertext.
   */
  lemma DecryptionSucceedsExactly(s: Script, recordLimit: int, calls: seq<Call>, p: Plan, g: AesGcm)
    requires 0 < recordLimit < INT_MAX && p.Legal() && !p.encrypt
    requires var c := Run(s, NewCtx(recordLimit), calls);
             var x := InjectManifest(s, p.Whole(s, c)).0;
             && Opening(c, p.args, false) && SmoothFrom(External(c.log), x.log)
             && Judges(g, Read(x.log).inner, Next(s, x))
    ensures var c := Run(s, NewCtx(recordLimit), calls);
            var r := BegunRecord(s, c, p);
            && r.key.Some? && r.iv.Some?
            && (p.End(s, c).1.ok <==>
                  p.Tag() == Some(g.mac(r.key.value, r.iv.value, MANIFEST + AadOf(p.first + p.second),
                                        PayloadOf(p.first + p.second))))
  {
    var c := Run(s, NewCtx(recordLimit), calls);
    InjectSmooth(s, p.Whole(s, c), External(c.log));
    WholeIsFed(s, recordLimit, calls, p);
    PlanKeepsKeys(s, c, p);
    VerdictAtFinal(s, p.Whole(s, c), External(c.log), p.Tag().value, p.first + p.second, g);
  }

  /**
   * So a context that is fed the ciphertext and the tag another one released, under the same key, IV and additional
   * data, verifies.
   */
  lemma ReleasedRecordVerifies(g: AesGcm, e: Encryption, s: Script, recordLimit: int, calls: seq<Call>, p: Plan)
    requires e.Released(g) && 0 < recordLimit < INT_MAX && p.Legal() && !p.encrypt
    requires var c := Run(s, NewCtx(recordLimit), calls);
             var x := InjectManifest(s, p.Whole(s, c)).0;
             && Opening(c, p.args, false) && SmoothFrom(External(c.log), x.log)
             && Judges(g, Read(x.log).inner, Next(s, x))
             && BegunRecord(s, c, p).key == e.Record().key && BegunRecord(s, c, p).iv == e.Record().iv
    requires AadOf(p.first + p.second) == AadOf(e.Record().chunks)
    requires PayloadOf(p.first + p.second) == e.Record().output && p.Tag() == e.End().1.tag
    ensures p.End(s, Run(s, NewCtx(recordLimit), calls)).1.ok
  {
    DecryptionSucceedsExactly(s, recordLimit, calls, p, g);
    TagIsGcm(e.s, e.recordLimit, e.calls, e.get, g);
  }
}
