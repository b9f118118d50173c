/** Theorems about every run of one endpoint: any calls in any order, any input bytes, any library failures. */
module EndpointRuns {
  import opened Wrappers
  import opened Bytes
  import opened Profile
  import opened Record
  import opened EndpointModel
  import opened EndpointInvariant

  datatype Call = Call(op: Op, library: Library)

  /** The endpoint after a sequence of calls. */
  function Exec(a: Aead, e: Endpoint, calls: seq<Call>): (r: Endpoint)
    requires e.Shaped()
    ensures r.Shaped()
  {
    if calls == [] then e
    else
      var last := calls[|calls| - 1];
      Apply(a, Exec(a, e, calls[..|calls| - 1]), last.op, last.library).0
  }

  lemma StepInv(a: Aead, s: Secrets, e: Endpoint, call: Call)
    requires Inv(a, s, e)
    ensures var (n, outcome) := Apply(a, e, call.op, call.library);
            Inv(a, s, n) && n.role == e.role && outcome != Refused(LimitReached)
  {
    FailKeepsHistory(e, Apply(a, e, call.op, call.library).0);
    match call.op
    case CallAbort => FailInv(a, s, e);
    case CallOpen(input) => OpenStep(a, s, e, input, call.library);
    case _ => SealStep(a, s, e, call.op, call.library);
  }

  lemma {:induction false} RunInv(a: Aead, role: Role, s: Secrets, calls: seq<Call>)
    requires |s.traffic| == MATERIAL_COUNT
    ensures Inv(a, s, Exec(a, Fresh(role, s), calls)) && Exec(a, Fresh(role, s), calls).role == role
  {
    if calls == [] {
      FreshInv(a, role, s);
    } else {
      RunInv(a, role, s, calls[..|calls| - 1]);
      StepInv(a, s, Exec(a, Fresh(role, s), calls[..|calls| - 1]), calls[|calls| - 1]);
    }
  }

  /** The state and the flags agree on every run, and a terminal session holds no key, IV or counter. */
  lemma StateMatchesFlags(a: Aead, role: Role, s: Secrets, calls: seq<Call>)
    requires |s.traffic| == MATERIAL_COUNT
    ensures var e := Exec(a, Fresh(role, s), calls);
            FlagTable(e) && (e.state.Terminal() ==> Erased(e))
  {
    RunInv(a, role, s, calls);
  }

  /** A terminal endpoint ignores every call: nothing changes, no key is used, nothing succeeds. */
  lemma TerminalAbsorbs(a: Aead, e: Endpoint, call: Call)
    requires e.Shaped() && e.state.Terminal()
    ensures Apply(a, e, call.op, call.library) == (e, if call.op.CallAbort? then Done else Refused(InvalidState))
  {
  }

  lemma {:induction false} TerminalForever(a: Aead, e: Endpoint, calls: seq<Call>)
    requires e.Shaped() && e.state.Terminal()
    ensures Exec(a, e, calls) == e
  {
    if calls != [] {
      TerminalForever(a, e, calls[..|calls| - 1]);
      TerminalAbsorbs(a, e, calls[|calls| - 1]);
    }
  }

  /** `n` is `e` ended: nothing else than its state, keys, IVs and counters has changed. */
  ghost predicate Ended(e: Endpoint, n: Endpoint) {
    && n == e.(state := n.state, traffic := n.traffic, usage := n.usage)
    && n.Shaped() && forall i :: 0 <= i < 10 ==> Blank(n.traffic[i], n.usage[i])
  }

  lemma ErasedIsBlank(e: Endpoint)
    requires e.Shaped() && Erased(e)
    ensures forall i :: 0 <= i < 10 ==> Blank(e.traffic[i], e.usage[i])
  {
  }

  lemma AbortedIsEnded(a: Aead, e: Endpoint, library: Library)
    requires e.Shaped() && (e.state.Terminal() ==> Erased(e))
    ensures var (n, outcome) := Apply(a, e, CallAbort, library);
            && outcome == Done && Ended(e, n)
            && n.state == if e.state == Closed || e.state == Failed then e.state else Failed
  {
    ErasedIsBlank(Apply(a, e, CallAbort, library).0);
  }

  lemma {:induction false} ExecAppend(a: Aead, e: Endpoint, calls: seq<Call>, more: seq<Call>)
    requires e.Shaped()
    ensures Exec(a, e, calls + more) == Exec(a, Exec(a, e, calls), more)
    decreases |more|
  {
    if more == [] {
      assert calls + more == calls;
    } else {
      var front := more[..|more| - 1];
      ExecAppend(a, e, calls, front);
      assert (calls + more)[..|calls + more| - 1] == calls + front;
    }
  }

  /**
   * On every run an abort ends the session: it is Failed unless it was Closed or Failed before, all ten keys, IVs and
   * counters are zero, the flags, hashes and histories stay, and no later call seals, opens or uses a key.
   */
  lemma AbortEnds(a: Aead, role: Role, s: Secrets, calls: seq<Call>, library: Library, more: seq<Call>, next: Call)
    requires |s.traffic| == MATERIAL_COUNT
    ensures var e := Exec(a, Fresh(role, s), calls);
            var (n, outcome) := Apply(a, e, CallAbort, library);
            && outcome == Done && Ended(e, n)
            && n.state == (if e.state == Closed || e.state == Failed then e.state else Failed)
            && Exec(a, Fresh(role, s), calls + [Call(CallAbort, library)] + more) == n
            && !Apply(a, n, next.op, next.library).1.Sealed? && !Apply(a, n, next.op, next.library).1.Opened?
  {
    var e, call := Exec(a, Fresh(role, s), calls), Call(CallAbort, library);
    RunInv(a, role, s, calls);
    AbortedIsEnded(a, e, library);
    assert (calls + [call])[..|calls|] == calls;
    ExecAppend(a, Fresh(role, s), calls + [call], more);
    TerminalForever(a, Apply(a, e, CallAbort, library).0, more);
    TerminalAbsorbs(a, Apply(a, e, CallAbort, library).0, next);
  }

  /** No call of any run, forged headers included, reports `LimitReached`. */
  lemma NeverLimitReached(a: Aead, role: Role, s: Secrets, calls: seq<Call>, next: Call)
    requires |s.traffic| == MATERIAL_COUNT
    ensures Apply(a, Exec(a, Fresh(role, s), calls), next.op, next.library).1 != Refused(LimitReached)
  {
    RunInv(a, role, s, calls);
    StepInv(a, s, Exec(a, Fresh(role, s), calls), next);
  }

  /** A record of legal length is protected exactly when the library works. */
  lemma RecordSeals(a: Aead, t: TrafficKey, m: Hash, h: Hash, d: Direction, kind: RecordType, c: Channel, sequence: nat,
                    plaintext: seq<byte>, library: Library)
    requires Correct(a) && |plaintext| <= MAX_PLAINTEXT
    ensures SealRecord(a, t, m, h, d, kind, c, sequence, plaintext, library).Ok? <==> library.Works?
  {
    var header := HeaderFor(kind, c, sequence, |plaintext|).value;
    var q := Protect(a, t, m, h, d, header, plaintext).query;
    assert q.ciphertext == a.seal(q.key, q.nonce, q.aad, plaintext).0;
  }

  /** Where the context permits the next record, only the protection of that record can fail. */
  lemma PermittedSeals(a: Aead, e: Endpoint, kind: RecordType, c: Channel, plaintext: seq<byte>, library: Library)
    requires e.Shaped()
    requires e.usage[e.Sending(c)].Permits(|plaintext|) && e.usage[e.Sending(c)].Consume(|plaintext|).Ok?
    ensures SealRaw(a, e, kind, c, plaintext, library).1.Ok?
            <==> SealRecord(a, e.traffic[e.Sending(c)], e.manifestHash, e.contextHash, SendDirection(e.role), kind, c,
                            e.usage[e.Sending(c)].nextSequence, plaintext, library).Ok?
  {
  }

  /** A raw seal that the state machine allows produces its record exactly when the library works. */
  lemma RawSealSucceeds(a: Aead, s: Secrets, e: Endpoint, r: Rec, library: Library)
    requires Correct(a) && Inv(a, s, e) && !e.state.Terminal() && Follows(e.sealed, r)
    ensures SealRaw(a, e, r.kind, r.channel, r.plaintext, library).1.Ok? <==> library.Works?
  {
    SendingFits(a, s, e, r.channel, |r.plaintext|);
    PermittedSeals(a, e, r.kind, r.channel, r.plaintext, library);
    RecordSeals(a, e.traffic[e.Sending(r.channel)], e.manifestHash, e.contextHash, SendDirection(e.role), r.kind,
                r.channel, e.usage[e.Sending(r.channel)].nextSequence, r.plaintext, library);
  }

  lemma AllowedFollows(a: Aead, s: Secrets, e: Endpoint, op: Op)
    requires Inv(a, s, e) && IsSeal(op) && SealAllowed(e, op)
    ensures !e.state.Terminal() && Follows(e.sealed, SealedRec(e, op))
  {
  }

  lemma SealSucceeds(a: Aead, s: Secrets, e: Endpoint, op: Op, library: Library)
    requires Correct(a) && Inv(a, s, e) && IsSeal(op)
    ensures Apply(a, e, op, library).1.Sealed? <==> SealAllowed(e, op) && library.Works?
  {
    if SealAllowed(e, op) {
      AllowedFollows(a, s, e, op);
      RawSealSucceeds(a, s, e, SealedRec(e, op), library);
      AllowedUnfolded(a, e, op, library);
    } else {
      ForbiddenStep(a, s, e, op, library);
    }
  }

  /** On every run a seal succeeds exactly when the state machine allows it and the library works. */
  lemma SealSucceedsExactly(a: Aead, role: Role, s: Secrets, calls: seq<Call>, op: Op, library: Library)
    requires Correct(a) && |s.traffic| == MATERIAL_COUNT && IsSeal(op)
    ensures var e := Exec(a, Fresh(role, s), calls);
            Apply(a, e, op, library).1.Sealed? <==> SealAllowed(e, op) && library.Works?
  {
    RunInv(a, role, s, calls);
    SealSucceeds(a, s, Exec(a, Fresh(role, s), calls), op, library);
  }

  /** While a session lives, all ten counters are consistent, under the limit, and leave room for any legal record. */
  lemma LimitsFitTogether(a: Aead, role: Role, s: Secrets, calls: seq<Call>, c: Channel, d: Direction, len: nat)
    requires |s.traffic| == MATERIAL_COUNT && len <= 16384
    ensures var e := Exec(a, Fresh(role, s), calls);
            var u := e.usage[MaterialIndex(c, d)];
            !e.state.Terminal() ==>
              && u.records == u.nextSequence < 4194304
              && u.plaintextBytes <= u.records * 16384
              && u.Permits(len) && u.Consume(len).Ok?
              && (u.RefreshDue() <==> u.records >= 2097152)
  {
    RunInv(a, role, s, calls);
    var e := Exec(a, Fresh(role, s), calls);
    if !e.state.Terminal() {
      ContextFits(a, s, e, c, len);
      assert MaterialIndex(c, d) == if d == SendDirection(role) then e.Sending(c) else e.Receiving(c);
    }
  }

  /** The session asks for a refresh exactly when one of its contexts has carried 2^21 records. */
  lemma RefreshDueExactly(a: Aead, role: Role, s: Secrets, calls: seq<Call>)
    requires |s.traffic| == MATERIAL_COUNT
    ensures var e := Exec(a, Fresh(role, s), calls);
            e.RefreshDue() <==> exists i :: 0 <= i < |e.usage| && e.usage[i].records >= 2097152
  {
    RunInv(a, role, s, calls);
    var e := Exec(a, Fresh(role, s), calls);
    MaterialIndexIsBijective();
    forall i | 0 <= i < MATERIAL_COUNT
      ensures e.usage[i].RefreshDue() <==> e.usage[i].records >= 2097152
    {
      LimitsFitTogether(a, role, s, calls, CHANNELS[i / 2], DIRECTIONS[i % 2], 0);
    }
  }

  /**
   * On every traffic context the k-th record sealed carries sequence number k - 1, and its
   * nonce differs from that of every earlier one, across aborts, failures and erasure.
   */
  lemma NoncesNeverRepeat(a: Aead, role: Role, s: Secrets, calls: seq<Call>, i: nat, j: nat)
    requires |s.traffic| == MATERIAL_COUNT
    requires i < j < |Exec(a, Fresh(role, s), calls).sealed|
    requires var e := Exec(a, Fresh(role, s), calls); e.sealed[i].channel == e.sealed[j].channel
    ensures var e := Exec(a, Fresh(role, s), calls);
            && e.sealed[i].sequence < e.sealed[j].sequence
            && |e.queries| == |e.sealed|
            && e.queries[i].nonce != e.queries[j].nonce
  {
    RunInv(a, role, s, calls);
    var e := Exec(a, Fresh(role, s), calls);
    ProtectsEach(a, e.role, s, e.sealed, e.queries, i);
    ProtectsEach(a, e.role, s, e.sealed, e.queries, j);
    EarlierIsLower(e.sealed, i, j);
    LawfulPlace(e.sealed, i);
    LawfulPlace(e.sealed, j);
    LawfulNumbers(e.sealed, e.sealed[j].channel);
    var iv := s.traffic[MaterialIndex(e.sealed[i].channel, SendDirection(e.role))].iv;
    if e.queries[i].nonce == e.queries[j].nonce {
      NonceInjective(iv, e.sealed[i].sequence, e.sealed[j].sequence);
    }
  }

  lemma {:induction false} EarlierIsLower(recs: seq<Rec>, i: nat, j: nat)
    requires Lawful(recs) && i < j < |recs| && recs[i].channel == recs[j].channel
    ensures recs[i].sequence < recs[j].sequence
  {
    if j == |recs| - 1 {
      LawfulPlace(recs[..j], i);
    } else {
      EarlierIsLower(recs[..|recs| - 1], i, j);
    }
  }

  lemma NthSealUsesNthNumber(a: Aead, role: Role, s: Secrets, calls: seq<Call>, c: Channel, k: nat)
    requires |s.traffic| == MATERIAL_COUNT
    requires k < |OnChannel(Exec(a, Fresh(role, s), calls).sealed, c)|
    ensures OnChannel(Exec(a, Fresh(role, s), calls).sealed, c)[k].sequence == k < 4194304
  {
    RunInv(a, role, s, calls);
    LawfulNumbers(Exec(a, Fresh(role, s), calls).sealed, c);
  }

  /** The sealed history starts with its only Commit and ends with its only Close, if it has one. */
  lemma OneCommitOneClose(a: Aead, role: Role, s: Secrets, calls: seq<Call>, i: nat)
    requires |s.traffic| == MATERIAL_COUNT && i < |Exec(a, Fresh(role, s), calls).sealed|
    ensures var sealed := Exec(a, Fresh(role, s), calls).sealed;
            && (sealed[i].kind == Commit <==> i == 0)
            && (sealed[i].kind == Close ==> i == |sealed| - 1)
  {
    RunInv(a, role, s, calls);
    LawfulOrder(Exec(a, Fresh(role, s), calls).sealed, i);
  }
}
