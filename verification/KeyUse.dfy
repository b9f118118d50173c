/** When a traffic key is used at all: every attempt to seal or open, successful or not, on every run. */
module KeyUse {
  import opened Bytes
  import opened Profile
  import opened Record
  import opened EndpointModel
  import opened EndpointInvariant
  import opened EndpointRuns
  import opened Adversary
  import opened AdversaryTheorems

  /** The attempts one call may make: at most one, only in a live session, only after every check has passed. */
  function AttemptsOf(e: Endpoint, op: Op): seq<Attempt>
    requires e.Shaped()
  {
    match op
    case CallAbort => []
    case CallOpen(input) => TriedOpening(e, input)
    case _ => if SealAllowed(e, op) then [NextSealing(e, SealedRec(e, op).channel)] else []
  }

  lemma SealAttempts(a: Aead, s: Secrets, e: Endpoint, op: Op, library: Library)
    requires Inv(a, s, e) && IsSeal(op)
    ensures Apply(a, e, op, library).0.attempts == e.attempts + AttemptsOf(e, op)
  {
    SealStep(a, s, e, op, library);
  }

  lemma EffectAttempts(a: Aead, s: Secrets, e: Endpoint, input: seq<byte>, n: Endpoint, outcome: Outcome)
    requires e.Shaped() && OpenStepEffect(a, s, e, input, n, outcome)
    ensures n.attempts == e.attempts + AttemptsOf(e, CallOpen(input))
  {
  }

  lemma OpenAttempts(a: Aead, s: Secrets, e: Endpoint, input: seq<byte>, library: Library)
    requires Inv(a, s, e)
    ensures Apply(a, e, CallOpen(input), library).0.attempts == e.attempts + AttemptsOf(e, CallOpen(input))
  {
    var n, outcome := OpenCall(a, s, e, input, library);
    EffectAttempts(a, s, e, input, n, outcome);
  }

  lemma StepAttempts(a: Aead, s: Secrets, e: Endpoint, call: Call)
    requires Inv(a, s, e)
    ensures Apply(a, e, call.op, call.library).0.attempts == e.attempts + AttemptsOf(e, call.op)
  {
    match call.op
    case CallAbort =>
    case CallOpen(input) => OpenAttempts(a, s, e, input, call.library);
    case _ => SealAttempts(a, s, e, call.op, call.library);
  }

  /**
   * On every run a call uses a key exactly when it is a seal the state machine allows, under the next nonce of its
   * context, or an open whose input passed every check, on the tuple of that input. Library failures change nothing
   * in this, and in Closed and Failed no key is used.
   */
  lemma KeysAreUsedOnlyAfterChecks(a: Aead, role: Role, s: Secrets, calls: seq<Call>, call: Call)
    requires |s.traffic| == MATERIAL_COUNT
    ensures var e := Exec(a, Fresh(role, s), calls);
            && Exec(a, Fresh(role, s), calls + [call]).attempts == e.attempts + AttemptsOf(e, call.op)
            && (e.state.Terminal() ==> AttemptsOf(e, call.op) == [])
  {
    RunInv(a, role, s, calls);
    StepAttempts(a, s, Exec(a, Fresh(role, s), calls), call);
    assert (calls + [call])[..|calls|] == calls;
  }

  // ---------- nonces of seal attempts

  /** How many attempts to seal on a channel there were. */
  function SealingsOn(attempts: seq<Attempt>, c: Channel): nat {
    if attempts == [] then 0
    else
      var last := attempts[|attempts| - 1];
      SealingsOn(attempts[..|attempts| - 1], c) + if last.Sealing? && last.channel == c then 1 else 0
  }

  /** The attempt to seal record number `k` of a channel. */
  function SealingFor(role: Role, s: Secrets, c: Channel, k: nat): Attempt
    requires |s.traffic| == MATERIAL_COUNT
  {
    var t := s.traffic[MaterialIndex(c, SendDirection(role))];
    Sealing(c, t.key, Nonce(t.iv, k))
  }

  /** The k-th attempt to seal on a channel is made under its own key and the nonce of number k. */
  ghost predicate Numbered(role: Role, s: Secrets, attempts: seq<Attempt>)
    requires |s.traffic| == MATERIAL_COUNT
  {
    attempts == [] ||
    (var front, last := attempts[..|attempts| - 1], attempts[|attempts| - 1];
     && Numbered(role, s, front)
     && (last.Sealing? ==>
           && SealingsOn(front, last.channel) < HARD_RECORD_LIMIT
           && last == SealingFor(role, s, last.channel, SealingsOn(front, last.channel))))
  }

  ghost predicate AttemptInv(s: Secrets, e: Endpoint) {
    && |s.traffic| == MATERIAL_COUNT
    && Numbered(e.role, s, e.attempts)
    && (!e.state.Terminal() ==> forall c :: SealingsOn(e.attempts, c) == |OnChannel(e.sealed, c)|)
  }

  lemma AppendAttempt(role: Role, s: Secrets, attempts: seq<Attempt>, x: Attempt)
    requires |s.traffic| == MATERIAL_COUNT && Numbered(role, s, attempts)
    requires x.Sealing? ==>
               && SealingsOn(attempts, x.channel) < HARD_RECORD_LIMIT
               && x == SealingFor(role, s, x.channel, SealingsOn(attempts, x.channel))
    ensures Numbered(role, s, attempts + [x])
    ensures forall c :: SealingsOn(attempts + [x], c)
                        == SealingsOn(attempts, c) + if x.Sealing? && x.channel == c then 1 else 0
  {
    assert (attempts + [x])[..|attempts|] == attempts;
  }

  lemma LiveSealing(a: Aead, s: Secrets, e: Endpoint, c: Channel)
    requires Inv(a, s, e) && !e.state.Terminal()
    ensures |OnChannel(e.sealed, c)| < HARD_RECORD_LIMIT
    ensures NextSealing(e, c) == SealingFor(e.role, s, c, |OnChannel(e.sealed, c)|)
  {
  }

  /** A seal attempt that produced its record, or ended the session. */
  lemma SealingKeeps(s: Secrets, e: Endpoint, n: Endpoint, r: Rec)
    requires AttemptInv(s, e) && !e.state.Terminal() && n.role == e.role
    requires SealingsOn(e.attempts, r.channel) < HARD_RECORD_LIMIT
    requires n.attempts == e.attempts + [SealingFor(e.role, s, r.channel, SealingsOn(e.attempts, r.channel))]
    requires n.state.Terminal() || n.sealed == e.sealed + [r]
    ensures AttemptInv(s, n)
  {
    AppendAttempt(e.role, s, e.attempts, SealingFor(e.role, s, r.channel, SealingsOn(e.attempts, r.channel)));
    if !n.state.Terminal() {
      forall c
        ensures SealingsOn(n.attempts, c) == |OnChannel(n.sealed, c)|
      {
        AppendOnChannel(e.sealed, r, c);
      }
    }
  }

  /** No seal attempt, and either nothing sealed or the session ended. */
  lemma NoSealingKeeps(s: Secrets, e: Endpoint, n: Endpoint, extra: seq<Attempt>)
    requires AttemptInv(s, e) && n.role == e.role && n.attempts == e.attempts + extra
    requires extra == [] || (|extra| == 1 && extra[0].Opening?)
    requires n.state.Terminal() || (!e.state.Terminal() && n.sealed == e.sealed)
    ensures AttemptInv(s, n)
  {
    if extra == [] {
      assert n.attempts == e.attempts;
    } else {
      assert extra == [extra[0]];
      AppendAttempt(e.role, s, e.attempts, extra[0]);
    }
  }

  /** What a sealing call says about attempts and the sealed history. */
  lemma SealFacts(a: Aead, s: Secrets, e: Endpoint, op: Op, n: Endpoint, outcome: Outcome)
    requires Inv(a, s, e) && IsSeal(op) && SealStepEffect(a, s, e, op, n, outcome)
    ensures SealAllowed(e, op) ==>
              && !e.state.Terminal()
              && n.attempts == e.attempts + [NextSealing(e, SealedRec(e, op).channel)]
              && (n.state.Terminal() || n.sealed == e.sealed + [SealedRec(e, op)])
    ensures !SealAllowed(e, op) ==> n.attempts == e.attempts + [] && n.state.Terminal()
  {
    FailKeepsHistory(e, n);
  }

  /** What a sealing call did: it tried the next record and sealed it or ended the session, or it only ended it. */
  ghost predicate SealTried(s: Secrets, e: Endpoint, n: Endpoint, r: Rec)
    requires |s.traffic| == MATERIAL_COUNT
  {
    && n.role == e.role
    && if n.attempts == e.attempts then n.state.Terminal()
       else
         && !e.state.Terminal() && |OnChannel(e.sealed, r.channel)| < HARD_RECORD_LIMIT
         && n.attempts == e.attempts + [SealingFor(e.role, s, r.channel, |OnChannel(e.sealed, r.channel)|)]
         && (n.state.Terminal() || n.sealed == e.sealed + [r])
  }

  lemma SealTries(a: Aead, s: Secrets, e: Endpoint, op: Op, n: Endpoint, outcome: Outcome)
    requires Inv(a, s, e) && IsSeal(op) && SealStepEffect(a, s, e, op, n, outcome) && n.role == e.role
    ensures SealTried(s, e, n, SealedRec(e, op))
  {
    SealFacts(a, s, e, op, n, outcome);
    if SealAllowed(e, op) {
      LiveSealing(a, s, e, SealedRec(e, op).channel);
    }
  }

  lemma SealTriedKeeps(s: Secrets, e: Endpoint, n: Endpoint, r: Rec)
    requires AttemptInv(s, e) && SealTried(s, e, n, r)
    ensures AttemptInv(s, n)
  {
    if n.attempts != e.attempts {
      SealingKeeps(s, e, n, r);
    }
  }

  lemma SealCallTries(a: Aead, s: Secrets, e: Endpoint, op: Op, library: Library) returns (n: Endpoint)
    requires Inv(a, s, e) && IsSeal(op)
    ensures n == Apply(a, e, op, library).0 && SealTried(s, e, n, SealedRec(e, op))
  {
    n := Apply(a, e, op, library).0;
    var outcome := Apply(a, e, op, library).1;
    StepInv(a, s, e, Call(op, library));
    SealStep(a, s, e, op, library);
    SealTries(a, s, e, op, n, outcome);
  }

  lemma OpenKeepsNumbers(a: Aead, s: Secrets, e: Endpoint, input: seq<byte>, n: Endpoint, outcome: Outcome)
    requires Inv(a, s, e) && AttemptInv(s, e) && OpenStepEffect(a, s, e, input, n, outcome) && n.role == e.role
    ensures AttemptInv(s, n)
  {
    FailKeepsHistory(e, n);
    NoSealingKeeps(s, e, n, TriedOpening(e, input));
  }

  lemma StepKeepsNumbers(a: Aead, s: Secrets, e: Endpoint, call: Call)
    requires Inv(a, s, e) && AttemptInv(s, e)
    ensures AttemptInv(s, Apply(a, e, call.op, call.library).0)
  {
    var (n, outcome) := Apply(a, e, call.op, call.library);
    StepInv(a, s, e, call);
    match call.op
    case CallAbort =>
    case CallOpen(input) =>
      OpenStep(a, s, e, input, call.library);
      OpenKeepsNumbers(a, s, e, input, n, outcome);
    case _ =>
      var m := SealCallTries(a, s, e, call.op, call.library);
      SealTriedKeeps(s, e, m, SealedRec(e, call.op));
  }

  lemma {:induction false} AttemptsNumbered(a: Aead, role: Role, s: Secrets, calls: seq<Call>)
    requires |s.traffic| == MATERIAL_COUNT
    ensures AttemptInv(s, Exec(a, Fresh(role, s), calls))
  {
    if calls != [] {
      var front := calls[..|calls| - 1];
      AttemptsNumbered(a, role, s, front);
      RunInv(a, role, s, front);
      StepKeepsNumbers(a, s, Exec(a, Fresh(role, s), front), calls[|calls| - 1]);
    }
  }

  lemma {:induction false} NumberOf(role: Role, s: Secrets, attempts: seq<Attempt>, i: nat)
    requires |s.traffic| == MATERIAL_COUNT && Numbered(role, s, attempts) && i < |attempts| && attempts[i].Sealing?
    ensures var c := attempts[i].channel;
            && SealingsOn(attempts[..i], c) < HARD_RECORD_LIMIT
            && attempts[i] == SealingFor(role, s, c, SealingsOn(attempts[..i], c))
  {
    if i < |attempts| - 1 {
      NumberOf(role, s, attempts[..|attempts| - 1], i);
      assert attempts[..|attempts| - 1][..i] == attempts[..i];
    }
  }

  lemma {:induction false} LaterIsHigher(attempts: seq<Attempt>, i: nat, j: nat, c: Channel)
    requires i < j <= |attempts| && attempts[i].Sealing? && attempts[i].channel == c
    ensures SealingsOn(attempts[..i], c) < SealingsOn(attempts[..j], c)
    decreases j
  {
    assert attempts[..j][..j - 1] == attempts[..j - 1];
    if i < j - 1 {
      LaterIsHigher(attempts, i, j - 1, c);
    }
  }

  lemma NumberedDiffer(role: Role, s: Secrets, attempts: seq<Attempt>, i: nat, j: nat)
    requires |s.traffic| == MATERIAL_COUNT && Numbered(role, s, attempts) && i < j < |attempts|
    requires attempts[i].Sealing? && attempts[j].Sealing? && attempts[i].channel == attempts[j].channel
    ensures attempts[i].nonce != attempts[j].nonce
  {
    var c := attempts[i].channel;
    NumberOf(role, s, attempts, i);
    NumberOf(role, s, attempts, j);
    LaterIsHigher(attempts, i, j, c);
    var iv := s.traffic[MaterialIndex(c, SendDirection(role))].iv;
    if attempts[i].nonce == attempts[j].nonce {
      NonceInjective(iv, SealingsOn(attempts[..i], c), SealingsOn(attempts[..j], c));
    }
  }

  /** On every run no two attempts to seal on one context share a nonce, those included that the library failed. */
  lemma SealAttemptsNeverShareNonce(a: Aead, role: Role, s: Secrets, calls: seq<Call>, i: nat, j: nat)
    requires |s.traffic| == MATERIAL_COUNT
    requires var attempts := Exec(a, Fresh(role, s), calls).attempts;
             && i < j < |attempts| && attempts[i].Sealing? && attempts[j].Sealing?
             && attempts[i].channel == attempts[j].channel
    ensures var attempts := Exec(a, Fresh(role, s), calls).attempts;
            attempts[i].nonce != attempts[j].nonce
  {
    AttemptsNumbered(a, role, s, calls);
    RunInv(a, role, s, calls);
    NumberedDiffer(role, s, Exec(a, Fresh(role, s), calls).attempts, i, j);
  }

  // ---------- two sessions of one source

  lemma {:induction false} PartyAttempts(a: Aead, sc: Secrets, ss: Secrets, moves: seq<Move>, who: Role)
    requires |sc.traffic| == MATERIAL_COUNT && |ss.traffic| == MATERIAL_COUNT
    ensures AttemptInv(Own(sc, ss, who), Run(a, Start(sc, ss), moves).Party(who))
  {
    if moves != [] {
      var front, last := moves[..|moves| - 1], moves[|moves| - 1];
      PartyAttempts(a, sc, ss, front, who);
      RunOneMore(a, Start(sc, ss), moves, who);
      if last.who == who {
        PartyInv(a, sc, ss, front, who);
        StepKeepsNumbers(a, Own(sc, ss, who), Run(a, Start(sc, ss), front).Party(who), last.call);
      }
    }
  }

  /** Unless its expansions collide, a derivation gives ten different keys. */
  lemma DerivationSeparatesKeys(kdf: Kdf, x: Source, s: Secrets)
    requires DerivedFrom(kdf, x, s) && CollisionFree(kdf, RootOf(kdf, x), s.manifestHash, s.contextHash)
    ensures KeysDiffer(s)
  {
    forall c, d, c', d' | s.traffic[MaterialIndex(c, d)].key == s.traffic[MaterialIndex(c', d')].key
      ensures c == c' && d == d'
    {
      assert HoldsDerived(s.traffic, kdf, RootOf(kdf, x), s.manifestHash, s.contextHash, c, d);
      assert HoldsDerived(s.traffic, kdf, RootOf(kdf, x), s.manifestHash, s.contextHash, c', d');
      DerivedKeysDiffer(kdf, RootOf(kdf, x), s.manifestHash, s.contextHash, c, d, c', d');
    }
  }

  /** Both ends derive the same secrets from one source. */
  lemma OneSourceOneSecret(kdf: Kdf, x: Source, s: Secrets, t: Secrets)
    requires DerivedFrom(kdf, x, s) && DerivedFrom(kdf, x, t)
    ensures s == t
  {
    MaterialIndexIsBijective();
    forall i | 0 <= i < MATERIAL_COUNT
      ensures s.traffic[i] == t.traffic[i]
    {
      var c, d := CHANNELS[i / 2], DIRECTIONS[i % 2];
      assert HoldsDerived(s.traffic, kdf, RootOf(kdf, x), s.manifestHash, s.contextHash, c, d);
      assert HoldsDerived(t.traffic, kdf, RootOf(kdf, x), t.manifestHash, t.contextHash, c, d);
    }
  }

  lemma AttemptPairsDiffer(s: Secrets, u: Role, p: seq<Attempt>, i: nat, v: Role, q: seq<Attempt>, j: nat)
    requires |s.traffic| == MATERIAL_COUNT && KeysDiffer(s)
    requires Numbered(u, s, p) && Numbered(v, s, q) && i < |p| && j < |q| && p[i].Sealing? && q[j].Sealing?
    requires u == v ==> p == q && i != j
    ensures (p[i].key, p[i].nonce) != (q[j].key, q[j].nonce)
  {
    NumberOf(u, s, p, i);
    NumberOf(v, s, q, j);
    if p[i].key == q[j].key {
      assert p[i].channel == q[j].channel && SendDirection(u) == SendDirection(v);
      if i < j {
        NumberedDiffer(u, s, p, i, j);
      } else {
        NumberedDiffer(u, s, p, j, i);
      }
    }
  }

  /**
   * Two sessions derived from one source, one per role, on any network: unless the key expansions of that derivation
   * collide, no two attempts to seal ever use the same key with the same nonce, library failures included.
   */
  lemma OneSourceNeverRepeatsPair(a: Aead, kdf: Kdf, x: Source, sc: Secrets, ss: Secrets, moves: seq<Move>,
                                  u: Role, i: nat, v: Role, j: nat)
    requires DerivedFrom(kdf, x, sc) && DerivedFrom(kdf, x, ss)
    requires CollisionFree(kdf, RootOf(kdf, x), sc.manifestHash, sc.contextHash)
    requires var w := Run(a, Start(sc, ss), moves);
             var p, q := w.Party(u).attempts, w.Party(v).attempts;
             i < |p| && j < |q| && p[i].Sealing? && q[j].Sealing? && (u, i) != (v, j)
    ensures var w := Run(a, Start(sc, ss), moves);
            var p, q := w.Party(u).attempts[i], w.Party(v).attempts[j];
            (p.key, p.nonce) != (q.key, q.nonce)
  {
    OneSourceOneSecret(kdf, x, sc, ss);
    DerivationSeparatesKeys(kdf, x, sc);
    PartyAttempts(a, sc, ss, moves, u);
    PartyAttempts(a, sc, ss, moves, v);
    PartyInv(a, sc, ss, moves, u);
    PartyInv(a, sc, ss, moves, v);
    var w := Run(a, Start(sc, ss), moves);
    AttemptPairsDiffer(sc, u, w.Party(u).attempts, i, v, w.Party(v).attempts, j);
  }
}
