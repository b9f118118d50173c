/** What every run of one endpoint keeps, whatever its caller and the network do. */
module EndpointInvariant {
  import opened Wrappers
  import opened Bytes
  import opened Profile
  import opened Record
  import opened EndpointModel

  // ---------- histories

  /** The records of one channel, in order. */
  function OnChannel(recs: seq<Rec>, c: Channel): seq<Rec> {
    if recs == [] then []
    else
      var front := OnChannel(recs[..|recs| - 1], c);
      if recs[|recs| - 1].channel == c then front + [recs[|recs| - 1]] else front
  }

  function TotalBytes(recs: seq<Rec>): nat {
    if recs == [] then 0 else TotalBytes(recs[..|recs| - 1]) + |recs[|recs| - 1].plaintext|
  }

  /** `u` is the usage of a context that carried exactly `recs`. */
  ghost predicate Counts(u: Usage, recs: seq<Rec>) {
    u.nextSequence == |recs| && u.records == |recs| && u.plaintextBytes == TotalBytes(recs)
  }

  ghost predicate WellFormed(r: Rec) {
    && |r.plaintext| <= MAX_PLAINTEXT
    && (r.kind == Data ==> r.channel != Guard)
    && (r.kind != Data ==> r.channel == Guard && r.plaintext == [])
  }

  ghost predicate EndsInClose(recs: seq<Rec>) {
    recs != [] && recs[|recs| - 1].kind == Close
  }

  /** No channel has carried as many records as the hard limit allows. */
  ghost predicate Roomy(recs: seq<Rec>) {
    forall c :: |OnChannel(recs, c)| < HARD_RECORD_LIMIT
  }

  /**
   * `r` may come after `recs`: Commit first and only first, nothing after Close or after a channel
   * was filled, the next number of its channel.
   */
  ghost predicate Follows(recs: seq<Rec>, r: Rec) {
    && WellFormed(r)
    && (r.kind == Commit <==> recs == [])
    && !EndsInClose(recs)
    && Roomy(recs)
    && r.sequence == |OnChannel(recs, r.channel)|
  }

  /** Every record of the history follows what came before it. */
  ghost predicate Lawful(recs: seq<Rec>) {
    recs == [] || (Lawful(recs[..|recs| - 1]) && Follows(recs[..|recs| - 1], recs[|recs| - 1]))
  }

  lemma AppendOnChannel(recs: seq<Rec>, r: Rec, c: Channel)
    ensures OnChannel(recs + [r], c) == if r.channel == c then OnChannel(recs, c) + [r] else OnChannel(recs, c)
  {
    assert (recs + [r])[..|recs|] == recs;
  }

  lemma AppendLawful(recs: seq<Rec>, r: Rec)
    requires Lawful(recs) && Follows(recs, r)
    ensures Lawful(recs + [r])
  {
    assert (recs + [r])[..|recs|] == recs;
  }

  /** Position by position: one Commit, first; at most one Close, last. */
  lemma {:induction false} LawfulOrder(recs: seq<Rec>, i: nat)
    requires Lawful(recs) && i < |recs|
    ensures WellFormed(recs[i])
    ensures recs[i].kind == Commit <==> i == 0
    ensures recs[i].kind == Close ==> i == |recs| - 1
  {
    if i < |recs| - 1 {
      LawfulOrder(recs[..|recs| - 1], i);
    }
  }

  /** Channel by channel: the k-th record carries sequence number k, and the hard limit is never passed. */
  lemma {:induction false} LawfulNumbers(recs: seq<Rec>, c: Channel)
    requires Lawful(recs)
    ensures |OnChannel(recs, c)| <= HARD_RECORD_LIMIT
    ensures forall k :: 0 <= k < |OnChannel(recs, c)| ==>
              && OnChannel(recs, c)[k].sequence == k && OnChannel(recs, c)[k].channel == c
              && WellFormed(OnChannel(recs, c)[k])
  {
    if recs != [] {
      LawfulNumbers(recs[..|recs| - 1], c);
    }
  }

  /** A history contains at most one record with a given channel and sequence number. */
  lemma {:induction false} LawfulPlace(recs: seq<Rec>, i: nat)
    requires Lawful(recs) && i < |recs|
    ensures recs[i].sequence < |OnChannel(recs, recs[i].channel)|
    ensures OnChannel(recs, recs[i].channel)[recs[i].sequence] == recs[i]
  {
    if i < |recs| - 1 {
      LawfulPlace(recs[..|recs| - 1], i);
    }
  }

  lemma AppendCounts(u: Usage, recs: seq<Rec>, r: Rec)
    requires Counts(u, recs) && u.Consume(|r.plaintext|).Ok?
    ensures Counts(u.Consume(|r.plaintext|).value.0, recs + [r])
  {
    assert (recs + [r])[..|recs|] == recs;
  }

  /** No record is longer than 2^14 bytes, so a channel's total stays below 2^14 per record. */
  lemma {:induction false} BytesBounded(recs: seq<Rec>)
    requires forall i :: 0 <= i < |recs| ==> |recs[i].plaintext| <= MAX_PLAINTEXT
    ensures TotalBytes(recs) <= |recs| * MAX_PLAINTEXT
  {
    if recs != [] {
      BytesBounded(recs[..|recs| - 1]);
    }
  }

  // ---------- the invariant

  /** The relation between the state and the four flags. */
  ghost predicate FlagTable(e: Endpoint) {
    match e.state
    case New => false
    case Committing => !(e.localCommit && e.peerCommit) && !e.localClose && !e.peerClose
    case Active => e.localCommit && e.peerCommit && !e.localClose && !e.peerClose
    case Draining => e.localCommit && e.peerCommit && e.localClose != e.peerClose
    case Closed => e.localCommit && e.peerCommit && e.localClose && e.peerClose
    case Failed => true
  }

  ghost predicate Erased(e: Endpoint) {
    e.traffic == AllZeroed() && e.usage == AllUnused()
  }

  /** Until a session fails, each flag says what its history says. */
  ghost predicate FlagsTellHistory(e: Endpoint) {
    && e.localCommit == (e.sealed != [])
    && e.peerCommit == (e.received != [])
    && e.localClose == EndsInClose(e.sealed)
    && e.peerClose == EndsInClose(e.received)
  }

  /** All ten counters agree with the history and stay under the hard limit. */
  ghost predicate Counters(e: Endpoint)
    requires e.Shaped()
  {
    forall c ::
      && Counts(e.usage[e.Sending(c)], OnChannel(e.sealed, c)) && |OnChannel(e.sealed, c)| < HARD_RECORD_LIMIT
      && Counts(e.usage[e.Receiving(c)], OnChannel(e.received, c)) && |OnChannel(e.received, c)| < HARD_RECORD_LIMIT
  }

  /** The AEAD tuple with which an endpoint holding `s` protects record `r`. */
  function TupleFor(a: Aead, role: Role, s: Secrets, r: Rec): Protected
    requires |s.traffic| == MATERIAL_COUNT && |r.plaintext| <= MAX_PLAINTEXT
  {
    var d := SendDirection(role);
    Protect(a, s.traffic[MaterialIndex(r.channel, d)], s.manifestHash, s.contextHash, d,
            HeaderFor(r.kind, r.channel, r.sequence, |r.plaintext|).value, r.plaintext)
  }

  /** Each sealed record was protected under the endpoint's own material. */
  ghost predicate Protects(a: Aead, role: Role, s: Secrets, recs: seq<Rec>, queries: seq<Query>)
    requires |s.traffic| == MATERIAL_COUNT
  {
    && |recs| == |queries|
    && (recs != [] ==>
          && |recs[|recs| - 1].plaintext| <= MAX_PLAINTEXT
          && queries[|recs| - 1] == TupleFor(a, role, s, recs[|recs| - 1]).query
          && Protects(a, role, s, recs[..|recs| - 1], queries[..|recs| - 1]))
  }

  lemma AppendProtects(a: Aead, role: Role, s: Secrets, recs: seq<Rec>, queries: seq<Query>, r: Rec)
    requires |s.traffic| == MATERIAL_COUNT && |r.plaintext| <= MAX_PLAINTEXT
    requires Protects(a, role, s, recs, queries)
    ensures Protects(a, role, s, recs + [r], queries + [TupleFor(a, role, s, r).query])
  {
    assert (recs + [r])[..|recs|] == recs;
    assert (queries + [TupleFor(a, role, s, r).query])[..|recs|] == queries;
  }

  lemma {:induction false} ProtectsEach(a: Aead, role: Role, s: Secrets, recs: seq<Rec>, queries: seq<Query>, i: nat)
    requires |s.traffic| == MATERIAL_COUNT
    requires Protects(a, role, s, recs, queries) && i < |recs|
    ensures |recs[i].plaintext| <= MAX_PLAINTEXT && queries[i] == TupleFor(a, role, s, recs[i]).query
  {
    if i < |recs| - 1 {
      ProtectsEach(a, role, s, recs[..|recs| - 1], queries[..|recs| - 1], i);
    }
  }

  /** The part of the invariant that erasing does not touch. */
  ghost predicate History(a: Aead, s: Secrets, e: Endpoint) {
    && |s.traffic| == MATERIAL_COUNT
    && e.Shaped()
    && e.manifestHash == s.manifestHash && e.contextHash == s.contextHash
    && Lawful(e.sealed)
    && Lawful(e.received)
    && (|e.sealed| > 1 ==> e.received != [])
    && (|e.received| > 1 ==> e.sealed != [])
    && Protects(a, e.role, s, e.sealed, e.queries)
  }

  ghost predicate Inv(a: Aead, s: Secrets, e: Endpoint) {
    && History(a, s, e)
    && FlagTable(e)
    && (e.state != Failed ==> FlagsTellHistory(e))
    && (e.state.Terminal() ==> Erased(e))
    && (!e.state.Terminal() ==> e.traffic == s.traffic && Counters(e))
  }

  lemma FreshInv(a: Aead, role: Role, s: Secrets)
    requires |s.traffic| == MATERIAL_COUNT
    ensures Inv(a, s, Fresh(role, s))
  {
  }

  lemma FailInv(a: Aead, s: Secrets, e: Endpoint)
    requires Inv(a, s, e)
    ensures Inv(a, s, Fail(e)) && Fail(e).state.Terminal()
  {
  }

  /** `n` is `e` failed, with whatever AEAD attempt came before the failure. */
  ghost predicate FailedFrom(e: Endpoint, n: Endpoint) {
    n == Fail(e.(attempts := n.attempts))
  }

  lemma FailKeepsHistory(e: Endpoint, n: Endpoint)
    ensures FailedFrom(e, n) ==>
            && n.sealed == e.sealed && n.queries == e.queries && n.received == e.received
            && n.role == e.role && n.manifestHash == e.manifestHash && n.contextHash == e.contextHash
            && n.state.Terminal()
  {
  }

  // ---------- limits

  /** Below the record limit no byte limit can bite: a legal length is permitted and counted. */
  ghost predicate Fits(u: Usage, recs: seq<Rec>, len: nat) {
    && u.plaintextBytes <= u.records * MAX_PLAINTEXT
    && u.Permits(len)
    && u.Consume(len).Ok?
    && (u.Consume(len).value.1 <==> |recs| + 1 == HARD_RECORD_LIMIT)
    && (u.RefreshDue() <==> u.records >= SOFT_RECORD_LIMIT)
  }

  /** The limits in numbers, and counting on any usage, reachable or not. */
  lemma LimitsAreExact(u: Usage, len: nat)
    ensures u.Permits(len) <==>
              u.records < 4194304 && u.nextSequence < 4194304 && u.plaintextBytes + len <= 68719476736
    ensures u.RefreshDue() <==> u.records >= 2097152 || u.plaintextBytes >= 34359738368
    ensures u.Consume(len).Ok? <==>
              && u.nextSequence < 0xffff_ffff_ffff_ffff && u.records < 0xffff_ffff_ffff_ffff
              && u.plaintextBytes + len <= 0xffff_ffff_ffff_ffff
    ensures u.Consume(len).Ok? ==>
              var (n, reached) := u.Consume(len).value;
              && n.nextSequence == u.nextSequence + 1 && n.records == u.records + 1
              && n.plaintextBytes == u.plaintextBytes + len
              && (reached <==> n.nextSequence >= 4194304 || n.records >= 4194304 || n.plaintextBytes >= 68719476736)
    ensures u.Consume(len).Err? ==> u.Consume(len).error == LimitReached
  {
  }

  lemma LimitsFit(u: Usage, recs: seq<Rec>, len: nat)
    requires Counts(u, recs) && |recs| < HARD_RECORD_LIMIT && len <= MAX_PLAINTEXT
    requires forall i :: 0 <= i < |recs| ==> |recs[i].plaintext| <= MAX_PLAINTEXT
    ensures Fits(u, recs, len)
  {
    BytesBounded(recs);
  }

  lemma ChannelFits(u: Usage, recs: seq<Rec>, c: Channel, len: nat)
    requires Lawful(recs) && Counts(u, OnChannel(recs, c)) && |OnChannel(recs, c)| < HARD_RECORD_LIMIT
    requires len <= MAX_PLAINTEXT
    ensures Fits(u, OnChannel(recs, c), len)
  {
    LawfulNumbers(recs, c);
    LimitsFit(u, OnChannel(recs, c), len);
  }

  /** In every live state of every run, all ten contexts have room for any legal record. */
  lemma ContextFits(a: Aead, s: Secrets, e: Endpoint, c: Channel, len: nat)
    requires Inv(a, s, e) && !e.state.Terminal() && len <= MAX_PLAINTEXT
    ensures Fits(e.usage[e.Sending(c)], OnChannel(e.sealed, c), len)
    ensures Fits(e.usage[e.Receiving(c)], OnChannel(e.received, c), len)
  {
    ChannelFits(e.usage[e.Sending(c)], e.sealed, c, len);
    ChannelFits(e.usage[e.Receiving(c)], e.received, c, len);
  }

  // ---------- sealing

  /** `n` is `e` with `r` added to the sealed history. */
  ghost predicate Logged(a: Aead, s: Secrets, e: Endpoint, r: Rec, n: Endpoint)
    requires |s.traffic| == MATERIAL_COUNT
  {
    && |r.plaintext| <= MAX_PLAINTEXT
    && n.sealed == e.sealed + [r]
    && n.queries == e.queries + [TupleFor(a, e.role, s, r).query]
    && n.received == e.received
    && n.role == e.role && n.manifestHash == e.manifestHash && n.contextHash == e.contextHash
  }

  ghost predicate SameFlags(e: Endpoint, n: Endpoint) {
    && n.localCommit == e.localCommit && n.peerCommit == e.peerCommit
    && n.localClose == e.localClose && n.peerClose == e.peerClose
  }

  lemma LoggedHistory(a: Aead, s: Secrets, e: Endpoint, r: Rec, n: Endpoint)
    requires History(a, s, e) && n.Shaped()
    requires Follows(e.sealed, r)
    requires e.sealed != [] ==> e.received != []
    requires Logged(a, s, e, r, n)
    ensures History(a, s, n)
  {
    AppendLawful(e.sealed, r);
    AppendProtects(a, e.role, s, e.sealed, e.queries, r);
  }

  lemma SentCounters(e: Endpoint, r: Rec, n: Endpoint)
    requires e.Shaped() && Counters(e) && n.Shaped()
    requires e.usage[e.Sending(r.channel)].Consume(|r.plaintext|).Ok?
    requires n.usage == e.usage[e.Sending(r.channel) := e.usage[e.Sending(r.channel)].Consume(|r.plaintext|).value.0]
    requires n.sealed == e.sealed + [r] && n.received == e.received && n.role == e.role
    requires |OnChannel(e.sealed, r.channel)| + 1 < HARD_RECORD_LIMIT
    ensures Counters(n)
  {
    MaterialIndexIsBijective();
    DirectionsMirror(e.role, if e.role == Client then Server else Client);
    forall c
      ensures Counts(n.usage[n.Sending(c)], OnChannel(n.sealed, c)) && |OnChannel(n.sealed, c)| < HARD_RECORD_LIMIT
      ensures n.usage[n.Receiving(c)] == e.usage[e.Receiving(c)]
    {
      AppendOnChannel(e.sealed, r, c);
      if c == r.channel {
        AppendCounts(e.usage[e.Sending(c)], OnChannel(e.sealed, c), r);
      }
    }
  }

  /** The record that sealing `kind` on `c` would produce next. */
  function NextRec(e: Endpoint, kind: RecordType, c: Channel, plaintext: seq<byte>): Rec {
    Rec(kind, c, |OnChannel(e.sealed, c)|, plaintext)
  }

  /** `e` with `r` sealed and counted. */
  function Sent(a: Aead, s: Secrets, e: Endpoint, r: Rec): Endpoint
    requires e.Shaped() && |s.traffic| == MATERIAL_COUNT && |r.plaintext| <= MAX_PLAINTEXT
    requires e.usage[e.Sending(r.channel)].Consume(|r.plaintext|).Ok?
  {
    e.(sealed := e.sealed + [r],
       queries := e.queries + [TupleFor(a, e.role, s, r).query],
       attempts := e.attempts + [NextSealing(e, r.channel)],
       usage := e.usage[e.Sending(r.channel) := e.usage[e.Sending(r.channel)].Consume(|r.plaintext|).value.0])
  }

  /** How a raw seal of `r` ends when the context permits it. */
  ghost predicate SealResult(a: Aead, s: Secrets, e: Endpoint, r: Rec, n: Endpoint, output: Result<seq<byte>>)
    requires e.Shaped() && |s.traffic| == MATERIAL_COUNT && |r.plaintext| <= MAX_PLAINTEXT
    requires e.usage[e.Sending(r.channel)].Consume(|r.plaintext|).Ok?
  {
    && (output.Err? ==> n == Fail(TrySeal(e, r.channel, |r.plaintext|)) && output.error == Crypto)
    && (output.Ok? ==>
          && output.value == TupleFor(a, e.role, s, r).wire
          && n == TerminateIf(Sent(a, s, e, r), e.usage[e.Sending(r.channel)].Consume(|r.plaintext|).value.1))
  }

  lemma SealRawUnfolded(a: Aead, s: Secrets, e: Endpoint, kind: RecordType, c: Channel, plaintext: seq<byte>,
                        library: Library)
    requires e.Shaped() && |s.traffic| == MATERIAL_COUNT && |plaintext| <= MAX_PLAINTEXT
    requires e.traffic == s.traffic && e.manifestHash == s.manifestHash && e.contextHash == s.contextHash
    requires e.usage[e.Sending(c)].Permits(|plaintext|) && e.usage[e.Sending(c)].Consume(|plaintext|).Ok?
    requires e.usage[e.Sending(c)].nextSequence == |OnChannel(e.sealed, c)|
    ensures var (n, output) := SealRaw(a, e, kind, c, plaintext, library);
            SealResult(a, s, e, NextRec(e, kind, c, plaintext), n, output)
  {
    var r := NextRec(e, kind, c, plaintext);
    var t := TupleFor(a, e.role, s, r);
    assert t.query.ciphertext == a.seal(t.query.key, t.query.nonce, t.query.aad, plaintext).0;
    assert SealRecord(a, e.traffic[e.Sending(c)], e.manifestHash, e.contextHash, SendDirection(e.role), kind, c,
                      r.sequence, plaintext, library)
        == if library.Fails? || |t.query.ciphertext| != |plaintext| then Err(Crypto) else Ok(t);
  }

  /** A live endpoint right after a raw seal, before the operation updates its own flag. */
  ghost predicate JustSealed(a: Aead, s: Secrets, n: Endpoint, kind: RecordType) {
    && History(a, s, n) && Counters(n) && n.traffic == s.traffic
    && FlagTable(n) && !n.state.Terminal()
    && n.sealed != [] && EndsInClose(n.sealed) == (kind == Close)
    && n.peerCommit == (n.received != []) && n.peerClose == EndsInClose(n.received)
  }

  /**
   * A raw seal from a live state either fails the session, or logs exactly the next record,
   * returns its wire form, and fails the session only on the last record the limit allows.
   */
  ghost predicate SealEffect(a: Aead, s: Secrets, e: Endpoint, r: Rec, n: Endpoint, output: Result<seq<byte>>)
    requires |s.traffic| == MATERIAL_COUNT && |r.plaintext| <= MAX_PLAINTEXT && e.Shaped() && n.Shaped()
  {
    && n.attempts == e.attempts + [NextSealing(e, r.channel)]
    && (output.Err? ==> FailedFrom(e, n) && Inv(a, s, n) && output.error == Crypto)
    && (output.Ok? ==>
          && output.value == TupleFor(a, e.role, s, r).wire
          && Logged(a, s, e, r, n) && SameFlags(e, n)
          && if |OnChannel(e.sealed, r.channel)| + 1 == HARD_RECORD_LIMIT then n.state == Failed && Inv(a, s, n)
             else n.state == e.state && JustSealed(a, s, n, r.kind))
  }

  /** Sealing the last record the limit allows ends the session. */
  lemma LastSealed(a: Aead, s: Secrets, sent: Endpoint)
    requires History(a, s, sent) && !sent.state.Terminal()
    ensures Inv(a, s, Fail(sent)) && Fail(sent).state == Failed
  {
    SameHistory(a, s, sent, Fail(sent));
  }

  lemma StillLive(a: Aead, s: Secrets, e: Endpoint, r: Rec)
    requires Inv(a, s, e) && !e.state.Terminal() && Follows(e.sealed, r)
    requires e.usage[e.Sending(r.channel)].Consume(|r.plaintext|).Ok?
    requires e.sealed != [] ==> e.received != []
    requires |OnChannel(e.sealed, r.channel)| + 1 < HARD_RECORD_LIMIT
    ensures JustSealed(a, s, Sent(a, s, e, r), r.kind)
  {
    var sent := Sent(a, s, e, r);
    LoggedHistory(a, s, e, r, sent);
    SentCounters(e, r, sent);
  }

  lemma SendingFits(a: Aead, s: Secrets, e: Endpoint, c: Channel, len: nat)
    requires Inv(a, s, e) && !e.state.Terminal() && len <= MAX_PLAINTEXT
    ensures var u := e.usage[e.Sending(c)];
            && u.nextSequence == |OnChannel(e.sealed, c)| && u.Permits(len) && u.Consume(len).Ok?
            && (u.Consume(len).value.1 <==> |OnChannel(e.sealed, c)| + 1 == HARD_RECORD_LIMIT)
  {
    ContextFits(a, s, e, c, len);
  }

  lemma SentEffect(a: Aead, s: Secrets, e: Endpoint, r: Rec)
    requires Inv(a, s, e) && !e.state.Terminal() && Follows(e.sealed, r)
    requires e.sealed != [] ==> e.received != []
    requires e.usage[e.Sending(r.channel)].Consume(|r.plaintext|).Ok?
    ensures var n := TerminateIf(Sent(a, s, e, r), |OnChannel(e.sealed, r.channel)| + 1 == HARD_RECORD_LIMIT);
            n.Shaped() && SealEffect(a, s, e, r, n, Ok(TupleFor(a, e.role, s, r).wire))
  {
    if |OnChannel(e.sealed, r.channel)| + 1 < HARD_RECORD_LIMIT {
      StillLive(a, s, e, r);
    } else {
      LoggedHistory(a, s, e, r, Sent(a, s, e, r));
      LastSealed(a, s, Sent(a, s, e, r));
    }
  }

  lemma SealRawEffect(a: Aead, s: Secrets, e: Endpoint, kind: RecordType, c: Channel, plaintext: seq<byte>,
                      library: Library)
    requires Inv(a, s, e) && !e.state.Terminal()
    requires Follows(e.sealed, NextRec(e, kind, c, plaintext))
    requires e.sealed != [] ==> e.received != []
    ensures var (n, output) := SealRaw(a, e, kind, c, plaintext, library);
            SealEffect(a, s, e, NextRec(e, kind, c, plaintext), n, output)
  {
    SendingFits(a, s, e, c, |plaintext|);
    SealRawUnfolded(a, s, e, kind, c, plaintext, library);
    var (n, output) := SealRaw(a, e, kind, c, plaintext, library);
    ResultEffect(a, s, e, NextRec(e, kind, c, plaintext), n, output);
  }

  lemma FailedEffect(a: Aead, s: Secrets, e: Endpoint, r: Rec)
    requires Inv(a, s, e) && |r.plaintext| <= MAX_PLAINTEXT
    ensures SealEffect(a, s, e, r, Fail(TrySeal(e, r.channel, |r.plaintext|)), Err(Crypto))
  {
    FailInv(a, s, TrySeal(e, r.channel, |r.plaintext|));
  }

  lemma ResultEffect(a: Aead, s: Secrets, e: Endpoint, r: Rec, n: Endpoint, output: Result<seq<byte>>)
    requires Inv(a, s, e) && !e.state.Terminal() && Follows(e.sealed, r)
    requires e.sealed != [] ==> e.received != []
    requires var used := e.usage[e.Sending(r.channel)].Consume(|r.plaintext|);
             used.Ok? && (used.value.1 <==> |OnChannel(e.sealed, r.channel)| + 1 == HARD_RECORD_LIMIT)
    requires n.Shaped() && SealResult(a, s, e, r, n, output)
    ensures SealEffect(a, s, e, r, n, output)
  {
    if output.Err? {
      FailedEffect(a, s, e, r);
    } else {
      SentEffect(a, s, e, r);
    }
  }

  lemma SameHistory(a: Aead, s: Secrets, n: Endpoint, m: Endpoint)
    requires History(a, s, n) && m.Shaped()
    requires m.sealed == n.sealed && m.queries == n.queries && m.received == n.received
    requires m.role == n.role && m.manifestHash == n.manifestHash && m.contextHash == n.contextHash
    ensures History(a, s, m)
  {
  }

  lemma SameCounters(n: Endpoint, m: Endpoint)
    requires n.Shaped() && Counters(n) && m.Shaped()
    requires m.sealed == n.sealed && m.received == n.received && m.usage == n.usage && m.role == n.role
    ensures Counters(m)
  {
  }

  /** The record a sealing call is about, and whether the state machine allows that call. */
  predicate IsSeal(op: Op) {
    op.CallSealCommit? || op.CallSealData? || op.CallSealRefreshRequired? || op.CallSealClose?
  }

  function SealedRec(e: Endpoint, op: Op): Rec
    requires IsSeal(op)
  {
    match op
    case CallSealCommit => NextRec(e, Commit, Guard, [])
    case CallSealData(c, plaintext) => NextRec(e, Data, c, plaintext)
    case CallSealRefreshRequired => NextRec(e, RefreshRequired, Guard, [])
    case CallSealClose => NextRec(e, Close, Guard, [])
  }

  predicate SealAllowed(e: Endpoint, op: Op)
    requires IsSeal(op)
  {
    match op
    case CallSealCommit => e.state == Committing && !e.localCommit
    case CallSealData(_, plaintext) => e.state == Active && |plaintext| <= MAX_PLAINTEXT
    case CallSealRefreshRequired => e.state == Active
    case CallSealClose => (e.state == Active || (e.state == Draining && e.peerClose)) && !e.localClose
  }

  /** A sealing call either refuses and fails the session, or appends exactly its record to the sealed history. */
  ghost predicate SealStepEffect(a: Aead, s: Secrets, e: Endpoint, op: Op, n: Endpoint, outcome: Outcome)
    requires IsSeal(op) && |s.traffic| == MATERIAL_COUNT
  {
    && Inv(a, s, n)
    && e.Shaped()
    && n.attempts == e.attempts + (if SealAllowed(e, op) then [NextSealing(e, SealedRec(e, op).channel)] else [])
    && (outcome.Refused? ==> FailedFrom(e, n) && outcome.error != LimitReached)
    && (outcome.Sealed? ==>
          && SealAllowed(e, op)
          && Logged(a, s, e, SealedRec(e, op), n)
          && outcome.wire == TupleFor(a, e.role, s, SealedRec(e, op)).wire
          && (n.state.Terminal() <==>
                |OnChannel(e.sealed, SealedRec(e, op).channel)| + 1 == HARD_RECORD_LIMIT
                || (op.CallSealClose? && e.peerClose))
          && (n.state == Closed <==>
                op.CallSealClose? && e.peerClose && |OnChannel(e.sealed, Guard)| + 1 < HARD_RECORD_LIMIT))
    && (outcome.Sealed? || outcome.Refused?)
  }

  /** A call the state machine does not allow fails the session. */
  lemma ForbiddenStep(a: Aead, s: Secrets, e: Endpoint, op: Op, library: Library)
    requires Inv(a, s, e) && IsSeal(op) && !SealAllowed(e, op)
    ensures var (n, outcome) := Apply(a, e, op, library);
            n == Fail(e) && outcome.Refused? && outcome.error in {InvalidState, PlaintextTooLarge}
  {
  }

  lemma CommitEntered(a: Aead, s: Secrets, n: Endpoint)
    requires JustSealed(a, s, n, Commit) && n.state == Committing
    ensures Inv(a, s, EnterCommitted(n))
  {
    SameHistory(a, s, n, EnterCommitted(n));
    SameCounters(n, EnterCommitted(n));
  }

  lemma CloseEntered(a: Aead, s: Secrets, n: Endpoint)
    requires JustSealed(a, s, n, Close) && n.localCommit && n.peerCommit && !n.localClose
    ensures Inv(a, s, EnterClosing(n))
    ensures EnterClosing(n).state.Terminal() <==> n.peerClose
    ensures EnterClosing(n).sealed == n.sealed && EnterClosing(n).queries == n.queries
    ensures EnterClosing(n).received == n.received && EnterClosing(n).role == n.role
  {
    SameHistory(a, s, n, EnterClosing(n));
    if !n.peerClose {
      SameCounters(n, EnterClosing(n));
    }
  }

  /** A seal that failed, or that filled its context, needs no further state change. */
  lemma EndedOutcome(a: Aead, s: Secrets, e: Endpoint, op: Op, n: Endpoint, output: Result<seq<byte>>)
    requires Inv(a, s, e) && !e.state.Terminal() && IsSeal(op) && SealAllowed(e, op)
    requires |SealedRec(e, op).plaintext| <= MAX_PLAINTEXT
    requires n.Shaped() && SealEffect(a, s, e, SealedRec(e, op), n, output)
    requires output.Err? || n.state == Failed
    ensures SealStepEffect(a, s, e, op, n, SealOutcome(output))
  {
  }

  lemma TrafficOutcome(a: Aead, s: Secrets, e: Endpoint, op: Op, n: Endpoint, output: Result<seq<byte>>)
    requires Inv(a, s, e) && (op.CallSealData? || op.CallSealRefreshRequired?) && SealAllowed(e, op)
    requires n.Shaped() && SealEffect(a, s, e, SealedRec(e, op), n, output) && output.Ok? && n.state != Failed
    ensures SealStepEffect(a, s, e, op, n, SealOutcome(output))
  {
  }

  lemma CommitOutcome(a: Aead, s: Secrets, e: Endpoint, n: Endpoint, output: Result<seq<byte>>)
    requires Inv(a, s, e) && SealAllowed(e, CallSealCommit)
    requires n.Shaped() && SealEffect(a, s, e, SealedRec(e, CallSealCommit), n, output)
    requires output.Ok? && n.state != Failed
    ensures SealStepEffect(a, s, e, CallSealCommit, EnterCommitted(n), SealOutcome(output))
  {
    CommitEntered(a, s, n);
  }

  lemma CloseOutcome(a: Aead, s: Secrets, e: Endpoint, n: Endpoint, output: Result<seq<byte>>)
    requires Inv(a, s, e) && SealAllowed(e, CallSealClose)
    requires n.Shaped() && SealEffect(a, s, e, SealedRec(e, CallSealClose), n, output)
    requires output.Ok? && n.state != Failed
    ensures SealStepEffect(a, s, e, CallSealClose, EnterClosing(n), SealOutcome(output))
  {
    CloseEntered(a, s, n);
    KeptHashes(a, s, e, EnterClosing(n));
  }

  lemma KeptHashes(a: Aead, s: Secrets, e: Endpoint, n: Endpoint)
    requires Inv(a, s, e) && Inv(a, s, n)
    ensures e.manifestHash == n.manifestHash && e.contextHash == n.contextHash
  {
  }

  /** The state change each sealing call makes after a raw seal that leaves the session live. */
  function Enter(op: Op, n: Endpoint): Endpoint
    requires IsSeal(op)
  {
    match op
    case CallSealCommit => EnterCommitted(n)
    case CallSealClose => EnterClosing(n)
    case CallSealData(_, _) | CallSealRefreshRequired => n
  }

  lemma AllowedUnfolded(a: Aead, e: Endpoint, op: Op, library: Library)
    requires e.Shaped() && IsSeal(op) && SealAllowed(e, op)
    ensures var r := SealedRec(e, op);
            var (n, output) := SealRaw(a, e, r.kind, r.channel, r.plaintext, library);
            Apply(a, e, op, library) ==
              (if output.Err? || n.state == Failed then n else Enter(op, n), SealOutcome(output))
  {
  }

  lemma AllowedOutcome(a: Aead, s: Secrets, e: Endpoint, op: Op, n: Endpoint, output: Result<seq<byte>>)
    requires Inv(a, s, e) && !e.state.Terminal() && IsSeal(op) && SealAllowed(e, op)
    requires |SealedRec(e, op).plaintext| <= MAX_PLAINTEXT
    requires n.Shaped() && SealEffect(a, s, e, SealedRec(e, op), n, output)
    ensures SealStepEffect(a, s, e, op, if output.Err? || n.state == Failed then n else Enter(op, n),
                           SealOutcome(output))
  {
    if output.Err? || n.state == Failed {
      EndedOutcome(a, s, e, op, n, output);
    } else {
      match op
      case CallSealCommit => CommitOutcome(a, s, e, n, output);
      case CallSealClose => CloseOutcome(a, s, e, n, output);
      case _ => TrafficOutcome(a, s, e, op, n, output);
    }
  }

  lemma AllowedRaw(a: Aead, s: Secrets, e: Endpoint, op: Op, library: Library)
    returns (n: Endpoint, output: Result<seq<byte>>)
    requires Inv(a, s, e) && IsSeal(op) && SealAllowed(e, op)
    ensures |SealedRec(e, op).plaintext| <= MAX_PLAINTEXT && n.Shaped()
    ensures SealEffect(a, s, e, SealedRec(e, op), n, output)
    ensures Apply(a, e, op, library) ==
              (if output.Err? || n.state == Failed then n else Enter(op, n), SealOutcome(output))
  {
    var r := SealedRec(e, op);
    SealRawEffect(a, s, e, r.kind, r.channel, r.plaintext, library);
    AllowedUnfolded(a, e, op, library);
    n := SealRaw(a, e, r.kind, r.channel, r.plaintext, library).0;
    output := SealRaw(a, e, r.kind, r.channel, r.plaintext, library).1;
  }

  lemma AllowedStep(a: Aead, s: Secrets, e: Endpoint, op: Op, library: Library)
    requires Inv(a, s, e) && IsSeal(op) && SealAllowed(e, op)
    ensures var (n, outcome) := Apply(a, e, op, library);
            SealStepEffect(a, s, e, op, n, outcome)
  {
    var n, output := AllowedRaw(a, s, e, op, library);
    AllowedOutcome(a, s, e, op, n, output);
  }

  lemma SealStep(a: Aead, s: Secrets, e: Endpoint, op: Op, library: Library)
    requires Inv(a, s, e) && IsSeal(op)
    ensures var (n, outcome) := Apply(a, e, op, library);
            SealStepEffect(a, s, e, op, n, outcome)
  {
    if !SealAllowed(e, op) {
      ForbiddenStep(a, s, e, op, library);
      FailInv(a, s, e);
    } else {
      AllowedStep(a, s, e, op, library);
    }
  }

  // ---------- opening

  /** The record an accepted input carries once its plaintext is known. */
  function OpenedRec(p: Parsed, plaintext: seq<byte>): Rec {
    Rec(p.header.recordType, p.header.channel, p.header.sequence, plaintext)
  }

  /** `e` with `r` opened and counted, before its kind changes the state. */
  function Got(e: Endpoint, r: Rec): Endpoint
    requires e.Shaped() && e.usage[e.Receiving(r.channel)].Consume(|r.plaintext|).Ok?
  {
    e.(usage := e.usage[e.Receiving(r.channel) := e.usage[e.Receiving(r.channel)].Consume(|r.plaintext|).value.0],
       received := e.received + [r])
  }

  ghost predicate JustReceived(a: Aead, s: Secrets, n: Endpoint, kind: RecordType) {
    && History(a, s, n) && n.traffic == s.traffic
    && FlagTable(n) && !n.state.Terminal() && StateValid(n, kind)
    && n.received != [] && EndsInClose(n.received) == (kind == Close)
    && n.localCommit == (n.sealed != []) && n.localClose == EndsInClose(n.sealed)
  }

  lemma ReceiveKeeps(n: Endpoint, kind: RecordType)
    requires n.Shaped()
    ensures var m := Receive(n, kind);
            && m.Shaped() && m.sealed == n.sealed && m.queries == n.queries && m.received == n.received
            && m.attempts == n.attempts && m.localClose == n.localClose
            && m.role == n.role && m.manifestHash == n.manifestHash && m.contextHash == n.contextHash
            && (m.state.Terminal() || (m.usage == n.usage && m.traffic == n.traffic) || n.state.Terminal())
  {
  }

  lemma ReceiveLive(a: Aead, s: Secrets, n: Endpoint, kind: RecordType)
    requires JustReceived(a, s, n, kind) && Counters(n)
    ensures Inv(a, s, Receive(n, kind))
  {
    var m := Receive(n, kind);
    ReceiveKeeps(n, kind);
    SameHistory(a, s, n, m);
    if !m.state.Terminal() {
      SameCounters(n, m);
    }
  }

  lemma ReceiveLast(a: Aead, s: Secrets, n: Endpoint, kind: RecordType)
    requires JustReceived(a, s, n, kind)
    ensures Inv(a, s, Fail(Receive(n, kind)))
  {
    ReceiveKeeps(n, kind);
    SameHistory(a, s, n, Fail(Receive(n, kind)));
  }

  lemma GotCounters(e: Endpoint, r: Rec)
    requires e.Shaped() && Counters(e)
    requires e.usage[e.Receiving(r.channel)].Consume(|r.plaintext|).Ok?
    requires |OnChannel(e.received, r.channel)| + 1 < HARD_RECORD_LIMIT
    ensures Counters(Got(e, r))
  {
    var n := Got(e, r);
    MaterialIndexIsBijective();
    DirectionsMirror(e.role, if e.role == Client then Server else Client);
    forall c
      ensures Counts(n.usage[n.Receiving(c)], OnChannel(n.received, c))
                && |OnChannel(n.received, c)| < HARD_RECORD_LIMIT
      ensures n.usage[n.Sending(c)] == e.usage[e.Sending(c)]
    {
      AppendOnChannel(e.received, r, c);
      if c == r.channel {
        AppendCounts(e.usage[e.Receiving(c)], OnChannel(e.received, c), r);
      }
    }
  }

  /** What an accepted header says about the record behind it. */
  lemma AcceptedFollows(a: Aead, s: Secrets, e: Endpoint, input: seq<byte>, plaintext: seq<byte>)
    requires Inv(a, s, e) && !e.state.Terminal()
    requires Precheck(e, input).Ok? && |plaintext| == Precheck(e, input).value.header.plaintextLen
    ensures var r := OpenedRec(Precheck(e, input).value, plaintext);
            Follows(e.received, r) && StateValid(e, r.kind) && (e.received != [] ==> e.sealed != [])
  {
    ParsedIsCanonical(input);
  }

  lemma GotReceived(a: Aead, s: Secrets, e: Endpoint, r: Rec)
    requires Inv(a, s, e) && !e.state.Terminal() && Follows(e.received, r) && StateValid(e, r.kind)
    requires e.received != [] ==> e.sealed != []
    requires e.usage[e.Receiving(r.channel)].Consume(|r.plaintext|).Ok?
    ensures JustReceived(a, s, Got(e, r), r.kind)
  {
    AppendLawful(e.received, r);
  }

  /** The attempt an open makes: none unless the session lives and the input passes the checks. */
  function TriedOpening(e: Endpoint, input: seq<byte>): seq<Attempt>
    requires e.Shaped()
  {
    if e.state.Terminal() || Precheck(e, input).Err? then [] else [Opening(QueryFor(e, Precheck(e, input).value))]
  }

  /** `n` is `e` after it opened `r`, which is the next record of its channel and fits the state. */
  ghost predicate Taken(e: Endpoint, r: Rec, n: Endpoint) {
    && Follows(e.received, r) && StateValid(e, r.kind)
    && n.received == e.received + [r]
    && n.sealed == e.sealed && n.queries == e.queries && n.role == e.role && n.localClose == e.localClose
    && (n.state.Terminal() <==>
          |OnChannel(e.received, r.channel)| + 1 == HARD_RECORD_LIMIT || (r.kind == Close && e.localClose))
    && (n.state == Closed <==> r.kind == Close && e.localClose)
  }

  /**
   * Opening either refuses and fails the session, or authenticates exactly one AEAD query and
   * appends its record to the received history. The hard limit is never the reason to refuse.
   */
  ghost predicate OpenStepEffect(a: Aead, s: Secrets, e: Endpoint, input: seq<byte>, n: Endpoint, outcome: Outcome)
    requires e.Shaped()
  {
    && Inv(a, s, n)
    && n.attempts == e.attempts + TriedOpening(e, input)
    && (outcome.Refused? ==> FailedFrom(e, n) && outcome.error != LimitReached)
    && (outcome.Opened? ==>
          && !e.state.Terminal() && Precheck(e, input).Ok?
          && var p := Precheck(e, input).value;
          && Open(a, QueryFor(e, p)).Some?
          && var r := OpenedRec(p, Open(a, QueryFor(e, p)).value);
          && Taken(e, r, n) && outcome.record == Delivered(r))
    && (outcome.Opened? || outcome.Refused?)
  }

  /** The record a successful open added. */
  lemma OpenedLast(a: Aead, s: Secrets, e: Endpoint, input: seq<byte>, n: Endpoint, outcome: Outcome) returns (r: Rec)
    requires e.Shaped() && OpenStepEffect(a, s, e, input, n, outcome) && outcome.Opened?
    ensures Follows(e.received, r) && StateValid(e, r.kind) && !e.state.Terminal()
    ensures outcome.record == Delivered(r)
    ensures n.received == e.received + [r] && n.sealed == e.sealed && n.queries == e.queries && n.role == e.role
    ensures n.state.Terminal() <==> r.sequence + 1 == HARD_RECORD_LIMIT || (r.kind == Close && e.localClose)
    ensures n.state == Closed <==> r.kind == Close && e.localClose
  {
    var p := Precheck(e, input).value;
    r := OpenedRec(p, Open(a, QueryFor(e, p)).value);
  }

  /** How `OpenRecord` ends on an input that passed the checks: it fails the session, or `p` opened and was applied. */
  ghost predicate OpenResult(a: Aead, e: Endpoint, p: Parsed, n: Endpoint, output: Result<OpenedRecord>)
    requires e.Shaped()
  {
    && (output.Err? ==> n == Fail(TryOpen(e, p)) && output.error in {Crypto, AuthenticationFailed})
    && (output.Ok? ==>
          && Open(a, QueryFor(e, p)).Some?
          && var r := OpenedRec(p, Open(a, QueryFor(e, p)).value);
          && |r.plaintext| == p.header.plaintextLen
          && (r.kind == Data ==> r.channel != Guard)
          && output.value == Delivered(r)
          && e.usage[e.Receiving(r.channel)].Consume(|r.plaintext|).Ok?
          && n == AfterOpen(TryOpen(e, p), r))
  }

  lemma OpenUnfolded(a: Aead, e: Endpoint, input: seq<byte>, library: Library)
    returns (n: Endpoint, output: Result<OpenedRecord>)
    requires e.Shaped() && !e.state.Terminal() && Precheck(e, input).Ok?
    requires var p := Precheck(e, input).value;
             e.usage[e.Receiving(p.header.channel)].Consume(p.header.plaintextLen).Ok?
    ensures Apply(a, e, CallOpen(input), library) == (n, OpenOutcome(output))
    ensures OpenResult(a, e, Precheck(e, input).value, n, output)
  {
    n, output := OpenRecord(a, e, input, library).0, OpenRecord(a, e, input, library).1;
  }

  /** The endpoint after opening `r`. */
  function AfterOpen(e: Endpoint, r: Rec): Endpoint
    requires e.Shaped() && e.usage[e.Receiving(r.channel)].Consume(|r.plaintext|).Ok?
  {
    TerminateIf(Receive(Got(e, r), r.kind), e.usage[e.Receiving(r.channel)].Consume(|r.plaintext|).value.1)
  }

  lemma AfterOpenKeeps(e: Endpoint, r: Rec)
    requires e.Shaped() && e.usage[e.Receiving(r.channel)].Consume(|r.plaintext|).Ok?
    ensures var n := AfterOpen(e, r);
            && n.received == e.received + [r]
            && n.sealed == e.sealed && n.queries == e.queries && n.attempts == e.attempts && n.role == e.role
            && n.localClose == e.localClose
            && n.manifestHash == e.manifestHash && n.contextHash == e.contextHash && n.Shaped()
  {
    ReceiveKeeps(Got(e, r), r.kind);
  }

  lemma AfterOpenInv(a: Aead, s: Secrets, e: Endpoint, r: Rec)
    requires Inv(a, s, e) && !e.state.Terminal()
    requires Follows(e.received, r) && StateValid(e, r.kind) && (e.received != [] ==> e.sealed != [])
    ensures e.usage[e.Receiving(r.channel)].Consume(|r.plaintext|).Ok?
    ensures Inv(a, s, AfterOpen(e, r))
  {
    ContextFits(a, s, e, r.channel, |r.plaintext|);
    GotReceived(a, s, e, r);
    if |OnChannel(e.received, r.channel)| + 1 < HARD_RECORD_LIMIT {
      GotCounters(e, r);
      ReceiveLive(a, s, Got(e, r), r.kind);
    } else {
      ReceiveLast(a, s, Got(e, r), r.kind);
    }
  }

  lemma ReceiveEnds(n: Endpoint, kind: RecordType)
    requires !n.state.Terminal()
    ensures Receive(n, kind).state.Terminal() <==> kind == Close && n.localClose
    ensures Receive(n, kind).state.Terminal() ==> Receive(n, kind).state == Closed
  {
  }

  lemma ReceivingFits(a: Aead, s: Secrets, e: Endpoint, c: Channel, len: nat)
    requires Inv(a, s, e) && !e.state.Terminal() && len <= MAX_PLAINTEXT
    ensures var used := e.usage[e.Receiving(c)].Consume(len);
            used.Ok? && (used.value.1 <==> |OnChannel(e.received, c)| + 1 == HARD_RECORD_LIMIT)
  {
    ContextFits(a, s, e, c, len);
  }

  /** Opening ends the session only at the hard limit or when it completes the close exchange. */
  lemma AfterOpenEnds(e: Endpoint, r: Rec)
    requires e.Shaped() && !e.state.Terminal()
    requires var used := e.usage[e.Receiving(r.channel)].Consume(|r.plaintext|);
             used.Ok? && (used.value.1 <==> |OnChannel(e.received, r.channel)| + 1 == HARD_RECORD_LIMIT)
    ensures AfterOpen(e, r).state.Terminal() <==>
              |OnChannel(e.received, r.channel)| + 1 == HARD_RECORD_LIMIT || (r.kind == Close && e.localClose)
    ensures AfterOpen(e, r).state == Closed <==> r.kind == Close && e.localClose
  {
    ReceiveEnds(Got(e, r), r.kind);
  }

  lemma OpenStep(a: Aead, s: Secrets, e: Endpoint, input: seq<byte>, library: Library)
    requires Inv(a, s, e)
    ensures var (n, outcome) := Apply(a, e, CallOpen(input), library);
            OpenStepEffect(a, s, e, input, n, outcome)
  {
    if e.state.Terminal() {
    } else if Precheck(e, input).Err? {
      PrecheckErrors(a, s, e, input);
      FailInv(a, s, e);
    } else {
      AcceptedStep(a, s, e, input, library);
    }
  }

  lemma TryOpenInv(a: Aead, s: Secrets, e: Endpoint, p: Parsed)
    requires Inv(a, s, e)
    ensures Inv(a, s, TryOpen(e, p))
  {
  }

  /** A record that was taken, whatever the function that took it. */
  lemma TakenEffect(a: Aead, s: Secrets, e: Endpoint, input: seq<byte>, r: Rec, n: Endpoint)
    requires e.Shaped() && !e.state.Terminal() && Precheck(e, input).Ok?
    requires var p := Precheck(e, input).value;
             Open(a, QueryFor(e, p)) == Some(r.plaintext) && r == OpenedRec(p, r.plaintext)
    requires Taken(e, r, n) && Inv(a, s, n)
    requires n.attempts == e.attempts + [Opening(QueryFor(e, Precheck(e, input).value))]
    ensures OpenStepEffect(a, s, e, input, n, Opened(Delivered(r)))
  {
  }

  lemma AuthenticStep(a: Aead, s: Secrets, e: Endpoint, input: seq<byte>, r: Rec, n: Endpoint)
    requires Inv(a, s, e) && !e.state.Terminal() && Precheck(e, input).Ok?
    requires var p := Precheck(e, input).value;
             && Open(a, QueryFor(e, p)) == Some(r.plaintext) && r == OpenedRec(p, r.plaintext)
             && |r.plaintext| == p.header.plaintextLen
             && e.usage[e.Receiving(r.channel)].Consume(|r.plaintext|).Ok? && n == AfterOpen(TryOpen(e, p), r)
    ensures OpenStepEffect(a, s, e, input, n, Opened(Delivered(r)))
  {
    var tried := TryOpen(e, Precheck(e, input).value);
    AcceptedFollows(a, s, e, input, r.plaintext);
    TryOpenInv(a, s, e, Precheck(e, input).value);
    TriedTakes(a, s, tried, r);
    TakenEffect(a, s, e, input, r, n);
  }

  lemma TriedTakes(a: Aead, s: Secrets, e: Endpoint, r: Rec)
    requires Inv(a, s, e) && !e.state.Terminal() && Follows(e.received, r) && StateValid(e, r.kind)
    requires e.received != [] ==> e.sealed != []
    ensures e.usage[e.Receiving(r.channel)].Consume(|r.plaintext|).Ok?
    ensures var n := AfterOpen(e, r);
            Inv(a, s, n) && Taken(e, r, n) && n.attempts == e.attempts
  {
    AfterOpenInv(a, s, e, r);
    ReceivingFits(a, s, e, r.channel, |r.plaintext|);
    AfterOpenEnds(e, r);
    AfterOpenKeeps(e, r);
  }

  /** An input that passed the checks but did not open fails the session. */
  lemma UnauthenticStep(a: Aead, s: Secrets, e: Endpoint, input: seq<byte>, error: Error)
    requires Inv(a, s, e) && !e.state.Terminal() && Precheck(e, input).Ok? && error in {Crypto, AuthenticationFailed}
    ensures OpenStepEffect(a, s, e, input, Fail(TryOpen(e, Precheck(e, input).value)), Refused(error))
  {
    FailInv(a, s, TryOpen(e, Precheck(e, input).value));
  }

  lemma AcceptedOutcome(a: Aead, s: Secrets, e: Endpoint, input: seq<byte>, n: Endpoint, output: Result<OpenedRecord>)
    requires Inv(a, s, e) && !e.state.Terminal() && Precheck(e, input).Ok?
    requires OpenResult(a, e, Precheck(e, input).value, n, output)
    ensures OpenStepEffect(a, s, e, input, n, OpenOutcome(output))
  {
    if output.Err? {
      UnauthenticStep(a, s, e, input, output.error);
    } else {
      var p := Precheck(e, input).value;
      AuthenticStep(a, s, e, input, OpenedRec(p, Open(a, QueryFor(e, p)).value), n);
    }
  }

  lemma AcceptedFits(a: Aead, s: Secrets, e: Endpoint, input: seq<byte>)
    requires Inv(a, s, e) && !e.state.Terminal() && Precheck(e, input).Ok?
    ensures var p := Precheck(e, input).value;
            e.usage[e.Receiving(p.header.channel)].Consume(p.header.plaintextLen).Ok?
  {
    var p := Precheck(e, input).value;
    ParsedIsCanonical(input);
    ReceivingFits(a, s, e, p.header.channel, p.header.plaintextLen);
  }

  lemma AcceptedStep(a: Aead, s: Secrets, e: Endpoint, input: seq<byte>, library: Library)
    requires Inv(a, s, e) && !e.state.Terminal() && Precheck(e, input).Ok?
    ensures var (n, outcome) := Apply(a, e, CallOpen(input), library);
            OpenStepEffect(a, s, e, input, n, outcome)
  {
    AcceptedFits(a, s, e, input);
    var n, output := OpenUnfolded(a, e, input, library);
    AcceptedOutcome(a, s, e, input, n, output);
  }

  /** The result of an open, under names of its own. */
  lemma OpenCall(a: Aead, s: Secrets, e: Endpoint, input: seq<byte>, library: Library)
    returns (n: Endpoint, outcome: Outcome)
    requires Inv(a, s, e)
    ensures Apply(a, e, CallOpen(input), library) == (n, outcome) && OpenStepEffect(a, s, e, input, n, outcome)
  {
    OpenStep(a, s, e, input, library);
    n, outcome := Apply(a, e, CallOpen(input), library).0, Apply(a, e, CallOpen(input), library).1;
  }

  /** Forged headers included, no input makes a live session report the limit. */
  lemma PrecheckErrors(a: Aead, s: Secrets, e: Endpoint, input: seq<byte>)
    requires Inv(a, s, e) && !e.state.Terminal() && Precheck(e, input).Err?
    ensures Precheck(e, input).error in {InvalidRecord, InvalidState}
  {
    if Parse(input).Ok? {
      ParsedIsCanonical(input);
      var h := Parse(input).value.header;
      ContextFits(a, s, e, h.channel, h.plaintextLen);
    }
  }
}