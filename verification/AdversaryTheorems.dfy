/** Safety of a session over every run of two endpoints and an arbitrary network. */
module AdversaryTheorems {
  import opened Bytes
  import opened Profile
  import opened Record
  import opened EndpointModel
  import opened EndpointInvariant
  import opened EndpointRuns
  import opened Adversary

  // ---------- prefix delivery

  /** The plaintexts `who` passed to successful `seal_data` calls on channel `c`, in order. */
  function Submitted(a: Aead, w: World, moves: seq<Move>, who: Role, c: DataChannel): seq<seq<byte>>
    requires w.Shaped()
  {
    if moves == [] then []
    else
      var front, last := moves[..|moves| - 1], moves[|moves| - 1];
      var before := Submitted(a, w, front, who, c);
      if last.who == who && last.call.op.CallSealData? && last.call.op.channel == c
         && ApplyMove(a, Run(a, w, front), last).1.Sealed?
      then before + [last.call.op.plaintext] else before
  }

  /** The plaintexts `open_record` returned to `who` on channel `c`, in order. */
  function Returned(a: Aead, w: World, moves: seq<Move>, who: Role, c: DataChannel): seq<seq<byte>>
    requires w.Shaped()
  {
    if moves == [] then []
    else
      var front, last := moves[..|moves| - 1], moves[|moves| - 1];
      var before := Returned(a, w, front, who, c);
      var outcome := ApplyMove(a, Run(a, w, front), last).1;
      if last.who == who && outcome.Opened? && outcome.record.OpenedData? && outcome.record.channel == c
      then before + [outcome.record.plaintext] else before
  }

  function Plaintexts(recs: seq<Rec>): (r: seq<seq<byte>>)
    ensures |r| == |recs|
  {
    if recs == [] then [] else Plaintexts(recs[..|recs| - 1]) + [recs[|recs| - 1].plaintext]
  }

  lemma AppendPlaintext(recs: seq<Rec>, r: Rec)
    ensures Plaintexts(recs + [r]) == Plaintexts(recs) + [r.plaintext]
  {
    assert (recs + [r])[..|recs|] == recs;
  }

  lemma {:induction false} PlaintextsOfPrefix(x: seq<Rec>, y: seq<Rec>)
    requires x <= y
    ensures Plaintexts(x) <= Plaintexts(y)
  {
    if |x| < |y| {
      PlaintextsOfPrefix(x, y[..|y| - 1]);
    } else {
      assert x == y;
    }
  }

  /** The two histories of channel `c` changed by exactly what the call reported. */
  ghost predicate Reported(e: Endpoint, op: Op, n: Endpoint, outcome: Outcome, c: DataChannel) {
    && Plaintexts(OnChannel(n.sealed, c)) ==
         Plaintexts(OnChannel(e.sealed, c))
         + (if op.CallSealData? && op.channel == c && outcome.Sealed? then [op.plaintext] else [])
    && Plaintexts(OnChannel(n.received, c)) ==
         Plaintexts(OnChannel(e.received, c))
         + (if outcome.Opened? && outcome.record.OpenedData? && outcome.record.channel == c
            then [outcome.record.plaintext] else [])
  }

  lemma NothingReported(e: Endpoint, op: Op, n: Endpoint, outcome: Outcome, c: DataChannel)
    requires outcome.Refused? || outcome.Done?
    requires n.sealed == e.sealed && n.received == e.received
    ensures Reported(e, op, n, outcome, c)
  {
  }

  lemma SealReported(e: Endpoint, op: Op, n: Endpoint, outcome: Outcome, c: DataChannel)
    requires IsSeal(op) && outcome.Sealed?
    requires n.sealed == e.sealed + [SealedRec(e, op)] && n.received == e.received
    ensures Reported(e, op, n, outcome, c)
  {
    var r := SealedRec(e, op);
    AppendOnChannel(e.sealed, r, c);
    AppendPlaintext(OnChannel(e.sealed, c), r);
  }

  lemma OpenReported(e: Endpoint, op: Op, n: Endpoint, outcome: Outcome, r: Rec, c: DataChannel)
    requires op.CallOpen? && outcome.Opened? && WellFormed(r) && outcome.record == Delivered(r)
    requires n.sealed == e.sealed && n.received == e.received + [r]
    ensures Reported(e, op, n, outcome, c)
  {
    AppendOnChannel(e.received, r, c);
    AppendPlaintext(OnChannel(e.received, c), r);
  }

  lemma CallReports(a: Aead, s: Secrets, e: Endpoint, call: Call, c: DataChannel)
    requires Inv(a, s, e)
    ensures var (n, outcome) := Apply(a, e, call.op, call.library);
            Reported(e, call.op, n, outcome, c)
  {
    var (n, outcome) := Apply(a, e, call.op, call.library);
    FailKeepsHistory(e, n);
    if IsSeal(call.op) {
      SealStep(a, s, e, call.op, call.library);
      if outcome.Sealed? {
        SealReported(e, call.op, n, outcome, c);
      } else {
        NothingReported(e, call.op, n, outcome, c);
      }
    } else if call.op.CallOpen? && outcome.Opened? {
      OpenStep(a, s, e, call.op.input, call.library);
      var r := OpenedLast(a, s, e, call.op.input, n, outcome);
      OpenReported(e, call.op, n, outcome, r, c);
    } else {
      if call.op.CallOpen? {
        OpenStep(a, s, e, call.op.input, call.library);
      }
      NothingReported(e, call.op, n, outcome, c);
    }
  }

  /** Each endpoint keeps its own invariant whatever the network does, forgeries included. */
  lemma {:induction false} PartiesInv(a: Aead, sc: Secrets, ss: Secrets, moves: seq<Move>)
    requires |sc.traffic| == MATERIAL_COUNT && |ss.traffic| == MATERIAL_COUNT
    ensures var w := Run(a, Start(sc, ss), moves);
            Inv(a, sc, w.client) && w.client.role == Client && Inv(a, ss, w.server) && w.server.role == Server
  {
    if moves == [] {
      FreshInv(a, Client, sc);
      FreshInv(a, Server, ss);
    } else {
      var front, last := moves[..|moves| - 1], moves[|moves| - 1];
      PartiesInv(a, sc, ss, front);
      StepInv(a, if last.who == Client then sc else ss, Run(a, Start(sc, ss), front).Party(last.who), last.call);
    }
  }

  function Own(sc: Secrets, ss: Secrets, who: Role): Secrets {
    if who == Client then sc else ss
  }

  lemma PartyInv(a: Aead, sc: Secrets, ss: Secrets, moves: seq<Move>, who: Role)
    requires |sc.traffic| == MATERIAL_COUNT && |ss.traffic| == MATERIAL_COUNT
    ensures var e := Run(a, Start(sc, ss), moves).Party(who);
            Inv(a, Own(sc, ss, who), e) && e.role == who
  {
    PartiesInv(a, sc, ss, moves);
  }

  lemma RunOneMore(a: Aead, w: World, moves: seq<Move>, who: Role)
    requires w.Shaped() && moves != []
    ensures var last := moves[|moves| - 1];
            var before := Run(a, w, moves[..|moves| - 1]);
            Run(a, w, moves).Party(who) ==
              if last.who == who then Apply(a, before.Party(who), last.call.op, last.call.library).0
              else before.Party(who)
  {
  }

  lemma ReportsOneMore(a: Aead, w: World, moves: seq<Move>, who: Role, c: DataChannel)
    requires w.Shaped() && moves != []
    requires var front, last := moves[..|moves| - 1], moves[|moves| - 1];
             var before := Run(a, w, front);
             && Submitted(a, w, front, who, c) == Plaintexts(OnChannel(before.Party(who).sealed, c))
             && Returned(a, w, front, who, c) == Plaintexts(OnChannel(before.Party(who).received, c))
             && var (n, outcome) := Apply(a, before.Party(last.who), last.call.op, last.call.library);
             && (last.who == who ==> Reported(before.Party(who), last.call.op, n, outcome, c))
    ensures var n := Run(a, w, moves).Party(who);
            && Submitted(a, w, moves, who, c) == Plaintexts(OnChannel(n.sealed, c))
            && Returned(a, w, moves, who, c) == Plaintexts(OnChannel(n.received, c))
  {
    RunOneMore(a, w, moves, who);
  }

  /** What the calls report is what the histories hold. */
  lemma {:induction false} ReportsAreHistories(a: Aead, sc: Secrets, ss: Secrets, moves: seq<Move>, who: Role,
                                               c: DataChannel)
    requires |sc.traffic| == MATERIAL_COUNT && |ss.traffic| == MATERIAL_COUNT
    ensures var e := Run(a, Start(sc, ss), moves).Party(who);
            && Submitted(a, Start(sc, ss), moves, who, c) == Plaintexts(OnChannel(e.sealed, c))
            && Returned(a, Start(sc, ss), moves, who, c) == Plaintexts(OnChannel(e.received, c))
  {
    if moves != [] {
      var front, last := moves[..|moves| - 1], moves[|moves| - 1];
      ReportsAreHistories(a, sc, ss, front, who, c);
      if last.who == who {
        PartyInv(a, sc, ss, front, who);
        CallReports(a, Own(sc, ss, who), Run(a, Start(sc, ss), front).Party(who), last.call, c);
      }
      ReportsOneMore(a, Start(sc, ss), moves, who, c);
    }
  }

  /**
   * Prefix delivery: over every run with an ideal AEAD, what `open_record` returns on a data
   * channel is a prefix of what the peer's successful `seal_data` calls were given there.
   */
  lemma PrefixDelivery(a: Aead, sc: Secrets, ss: Secrets, moves: seq<Move>, who: Role, c: DataChannel)
    requires Correct(a) && |sc.traffic| == MATERIAL_COUNT && |ss.traffic| == MATERIAL_COUNT
    requires Ideal(a, Start(sc, ss), moves)
    ensures Returned(a, Start(sc, ss), moves, who, c) <= Submitted(a, Start(sc, ss), moves, Peer(who), c)
  {
    var w := Run(a, Start(sc, ss), moves);
    WorldRunInv(a, sc, ss, moves);
    ReportsAreHistories(a, sc, ss, moves, who, c);
    ReportsAreHistories(a, sc, ss, moves, Peer(who), c);
    assert Tracks(w.Party(who), w.Party(Peer(who)));
    PlaintextsOfPrefix(OnChannel(w.Party(who).received, c), OnChannel(w.Party(Peer(who)).sealed, c));
  }

  // ---------- handshake agreement

  lemma {:induction false} ChannelMember(recs: seq<Rec>, c: Channel, k: nat) returns (i: nat)
    requires k < |OnChannel(recs, c)|
    ensures i < |recs| && recs[i] == OnChannel(recs, c)[k]
  {
    var front := recs[..|recs| - 1];
    if k < |OnChannel(front, c)| {
      i := ChannelMember(front, c, k);
    } else {
      i := |recs| - 1;
    }
  }

  /** Every record an endpoint received is one its peer sealed. */
  lemma ReceivedWasSealed(a: Aead, s: Secrets, e: Endpoint, peer: Endpoint, k: nat) returns (i: nat)
    requires Inv(a, s, e) && Tracks(e, peer) && k < |e.received|
    ensures i < |peer.sealed| && peer.sealed[i] == e.received[k]
  {
    var r := e.received[k];
    LawfulPlace(e.received, k);
    assert OnChannel(e.received, r.channel) <= OnChannel(peer.sealed, r.channel);
    i := ChannelMember(peer.sealed, r.channel, r.sequence);
  }

  lemma Agreement(a: Aead, se: Secrets, sp: Secrets, e: Endpoint, peer: Endpoint)
    requires Inv(a, se, e) && Inv(a, sp, peer) && Tracks(e, peer)
    requires e.state in {Active, Draining, Closed}
    ensures peer.sealed != [] && peer.sealed[0].kind == Commit
    ensures e.manifestHash == peer.manifestHash && e.contextHash == peer.contextHash
    ensures e.state == Closed ==> EndsInClose(peer.sealed) && peer.state in {Draining, Closed, Failed}
  {
    var i := ReceivedWasSealed(a, se, e, peer, 0);
    LawfulOrder(peer.sealed, 0);
    if e.state == Closed {
      var j := ReceivedWasSealed(a, se, e, peer, |e.received| - 1);
      LawfulOrder(peer.sealed, j);
    }
  }

  /**
   * Handshake agreement: over every run with an ideal AEAD, an endpoint past the commit exchange
   * has a peer that sealed a Commit under the same two hashes; a Closed endpoint has a peer that
   * sealed Close and is itself Draining, Closed or Failed.
   */
  lemma HandshakeAgreement(a: Aead, sc: Secrets, ss: Secrets, moves: seq<Move>, who: Role)
    requires Correct(a) && |sc.traffic| == MATERIAL_COUNT && |ss.traffic| == MATERIAL_COUNT
    requires Ideal(a, Start(sc, ss), moves)
    requires Run(a, Start(sc, ss), moves).Party(who).state in {Active, Draining, Closed}
    ensures var w := Run(a, Start(sc, ss), moves);
            var e, peer := w.Party(who), w.Party(Peer(who));
            && peer.sealed != [] && peer.sealed[0].kind == Commit
            && e.manifestHash == peer.manifestHash && e.contextHash == peer.contextHash
            && Own(sc, ss, who).manifestHash == Own(sc, ss, Peer(who)).manifestHash
            && Own(sc, ss, who).contextHash == Own(sc, ss, Peer(who)).contextHash
            && (e.state == Closed ==> EndsInClose(peer.sealed) && peer.state in {Draining, Closed, Failed})
  {
    var w := Run(a, Start(sc, ss), moves);
    WorldRunInv(a, sc, ss, moves);
    Agreement(a, Own(sc, ss, who), Own(sc, ss, Peer(who)), w.Party(who), w.Party(Peer(who)));
  }

  // ---------- counter mirroring

  /** `n` has everything `e` had, channel by channel. */
  ghost predicate Extends(e: Endpoint, n: Endpoint) {
    forall c :: OnChannel(e.sealed, c) <= OnChannel(n.sealed, c) && OnChannel(e.received, c) <= OnChannel(n.received, c)
  }

  lemma OneMoreExtends(e: Endpoint, n: Endpoint, r: Rec)
    requires (n.sealed == e.sealed && n.received == e.received + [r])
          || (n.sealed == e.sealed + [r] && n.received == e.received)
    ensures Extends(e, n)
  {
    forall c
      ensures OnChannel(e.sealed, c) <= OnChannel(n.sealed, c) && OnChannel(e.received, c) <= OnChannel(n.received, c)
    {
      AppendOnChannel(e.sealed, r, c);
      AppendOnChannel(e.received, r, c);
    }
  }

  lemma CallExtends(a: Aead, s: Secrets, e: Endpoint, call: Call)
    requires Inv(a, s, e)
    ensures Extends(e, Apply(a, e, call.op, call.library).0)
  {
    var (n, outcome) := Apply(a, e, call.op, call.library);
    FailKeepsHistory(e, n);
    if IsSeal(call.op) {
      SealStep(a, s, e, call.op, call.library);
      if outcome.Sealed? {
        OneMoreExtends(e, n, SealedRec(e, call.op));
      }
    } else if call.op.CallOpen? {
      OpenStep(a, s, e, call.op.input, call.library);
      if outcome.Opened? {
        var r := OpenedLast(a, s, e, call.op.input, n, outcome);
        OneMoreExtends(e, n, r);
      }
    }
  }

  lemma ExtendsTransitive(x: Endpoint, y: Endpoint, z: Endpoint)
    requires Extends(x, y) && Extends(y, z)
    ensures Extends(x, z)
  {
    forall c
      ensures OnChannel(x.sealed, c) <= OnChannel(z.sealed, c) && OnChannel(x.received, c) <= OnChannel(z.received, c)
    {
      assert OnChannel(y.sealed, c) <= OnChannel(z.sealed, c) && OnChannel(y.received, c) <= OnChannel(z.received, c);
    }
  }

  lemma {:induction false} RunExtends(a: Aead, sc: Secrets, ss: Secrets, moves: seq<Move>, i: nat, who: Role)
    requires |sc.traffic| == MATERIAL_COUNT && |ss.traffic| == MATERIAL_COUNT && i <= |moves|
    ensures Extends(Run(a, Start(sc, ss), moves[..i]).Party(who), Run(a, Start(sc, ss), moves).Party(who))
  {
    if i == |moves| {
      assert moves[..i] == moves;
    } else {
      var front, last := moves[..|moves| - 1], moves[|moves| - 1];
      assert front[..i] == moves[..i];
      RunExtends(a, sc, ss, front, i, who);
      RunOneMore(a, Start(sc, ss), moves, who);
      if last.who == who {
        var before := Run(a, Start(sc, ss), front).Party(who);
        PartiesInv(a, sc, ss, front);
        CallExtends(a, Own(sc, ss, who), before, last.call);
        ExtendsTransitive(Run(a, Start(sc, ss), moves[..i]).Party(who), before,
                          Run(a, Start(sc, ss), moves).Party(who));
      }
    }
  }

  lemma SameLengthPrefixes<T>(x: seq<T>, y: seq<T>, z: seq<T>)
    requires x <= z && y <= z && |x| == |y|
    ensures x == y
  {
  }

  lemma CountsDetermine(u: Usage, v: Usage, recs: seq<Rec>)
    requires Counts(u, recs) && Counts(v, recs)
    ensures u == v
  {
  }

  /**
   * Counter mirroring: compare any two moments of one run. If the sender had then sealed as many
   * records on a context as the receiver has now opened there, their usage counters are equal.
   */
  lemma CounterMirroring(a: Aead, sc: Secrets, ss: Secrets, moves: seq<Move>, i: nat, j: nat, who: Role, c: Channel)
    requires Correct(a) && |sc.traffic| == MATERIAL_COUNT && |ss.traffic| == MATERIAL_COUNT
    requires Ideal(a, Start(sc, ss), moves) && i <= |moves| && j <= |moves|
    requires var receiver := Run(a, Start(sc, ss), moves[..i]).Party(who);
             var sender := Run(a, Start(sc, ss), moves[..j]).Party(Peer(who));
             && !receiver.state.Terminal() && !sender.state.Terminal()
             && receiver.usage[receiver.Receiving(c)].records == sender.usage[sender.Sending(c)].records
    ensures var receiver := Run(a, Start(sc, ss), moves[..i]).Party(who);
            var sender := Run(a, Start(sc, ss), moves[..j]).Party(Peer(who));
            receiver.usage[receiver.Receiving(c)] == sender.usage[sender.Sending(c)]
  {
    var receiver := Run(a, Start(sc, ss), moves[..i]).Party(who);
    var sender := Run(a, Start(sc, ss), moves[..j]).Party(Peer(who));
    var w := Run(a, Start(sc, ss), moves);
    PartyInv(a, sc, ss, moves[..i], who);
    PartyInv(a, sc, ss, moves[..j], Peer(who));
    WorldRunInv(a, sc, ss, moves);
    RunExtends(a, sc, ss, moves, i, who);
    RunExtends(a, sc, ss, moves, j, Peer(who));
    Mirrored(a, Own(sc, ss, who), Own(sc, ss, Peer(who)), receiver, sender, w.Party(who), w.Party(Peer(who)), c);
  }

  /** The comparison itself: `receiver` and `sender` are earlier moments of `lastReceiver` and `lastSender`. */
  lemma Mirrored(a: Aead, sr: Secrets, sp: Secrets, receiver: Endpoint, sender: Endpoint,
                 lastReceiver: Endpoint, lastSender: Endpoint, c: Channel)
    requires Inv(a, sr, receiver) && Inv(a, sp, sender) && !receiver.state.Terminal() && !sender.state.Terminal()
    requires Extends(receiver, lastReceiver) && Extends(sender, lastSender) && Tracks(lastReceiver, lastSender)
    requires receiver.usage[receiver.Receiving(c)].records == sender.usage[sender.Sending(c)].records
    ensures receiver.usage[receiver.Receiving(c)] == sender.usage[sender.Sending(c)]
  {
    assert OnChannel(receiver.received, c) <= OnChannel(lastReceiver.received, c) <= OnChannel(lastSender.sealed, c);
    assert OnChannel(sender.sealed, c) <= OnChannel(lastSender.sealed, c);
    SameLengthPrefixes(OnChannel(receiver.received, c), OnChannel(sender.sealed, c), OnChannel(lastSender.sealed, c));
    CountsDetermine(receiver.usage[receiver.Receiving(c)], sender.usage[sender.Sending(c)],
                    OnChannel(sender.sealed, c));
  }

  /** The record that fills a context ends both sessions: once it is opened, neither end is live. */
  lemma LimitEndsBoth(a: Aead, sc: Secrets, ss: Secrets, moves: seq<Move>, who: Role, c: Channel)
    requires Correct(a) && |sc.traffic| == MATERIAL_COUNT && |ss.traffic| == MATERIAL_COUNT
    requires Ideal(a, Start(sc, ss), moves)
    requires |OnChannel(Run(a, Start(sc, ss), moves).Party(who).received, c)| >= 4194304
    ensures var w := Run(a, Start(sc, ss), moves);
            w.client.state.Terminal() && w.server.state.Terminal()
  {
    var w := Run(a, Start(sc, ss), moves);
    WorldRunInv(a, sc, ss, moves);
    assert Tracks(w.Party(who), w.Party(Peer(who)));
    assert OnChannel(w.Party(who).received, c) <= OnChannel(w.Party(Peer(who)).sealed, c);
  }

  /** `sealed` or `opened` record `r` is the reason for the state a successful call leaves behind. */
  ghost predicate EndedBy(r: Rec, closing: bool, n: Endpoint) {
    n.state.Terminal() <==> r.sequence + 1 == 4194304 || (r.kind == Close && closing)
  }

  ghost predicate EndsByCount(e: Endpoint, n: Endpoint, outcome: Outcome) {
    && (outcome.Sealed? ==> n.sealed != [] && EndedBy(n.sealed[|n.sealed| - 1], e.peerClose, n))
    && (outcome.Sealed? ==>
          var r := n.sealed[|n.sealed| - 1];
          n.state == Closed <==> r.kind == Close && e.peerClose && r.sequence + 1 < 4194304)
    && (outcome.Opened? ==> n.received != [] && EndedBy(n.received[|n.received| - 1], e.localClose, n))
    && (outcome.Opened? ==>
          (n.state == Closed <==> n.received[|n.received| - 1].kind == Close && e.localClose))
  }

  lemma CallEnds(a: Aead, s: Secrets, e: Endpoint, call: Call)
    requires Inv(a, s, e)
    ensures var (n, outcome) := Apply(a, e, call.op, call.library);
            EndsByCount(e, n, outcome)
  {
    var (n, outcome) := Apply(a, e, call.op, call.library);
    match call.op
    case CallAbort =>
    case CallOpen(input) =>
      OpenStep(a, s, e, input, call.library);
      OpenEnds(a, s, e, input, n, outcome);
    case _ =>
      SealStep(a, s, e, call.op, call.library);
      SealEnds(a, s, e, call.op, n, outcome);
  }

  lemma SealEnds(a: Aead, s: Secrets, e: Endpoint, op: Op, n: Endpoint, outcome: Outcome)
    requires Inv(a, s, e) && IsSeal(op) && SealStepEffect(a, s, e, op, n, outcome)
    ensures EndsByCount(e, n, outcome)
  {
    if outcome.Sealed? {
      assert n.sealed[|n.sealed| - 1] == SealedRec(e, op);
    }
  }

  lemma OpenEnds(a: Aead, s: Secrets, e: Endpoint, input: seq<byte>, n: Endpoint, outcome: Outcome)
    requires Inv(a, s, e) && OpenStepEffect(a, s, e, input, n, outcome)
    ensures EndsByCount(e, n, outcome)
  {
    if outcome.Opened? {
      var r := OpenedLast(a, s, e, input, n, outcome);
    }
  }

  /**
   * The same record number ends either side: a successful seal or open leaves the session terminal
   * exactly when it was record number 2^22 of its context or completed the close exchange. The
   * receiver then is Closed when the record was that completing Close, and Failed otherwise; the
   * sender is Closed only if the completing Close was not itself record number 2^22.
   */
  lemma SameRecordEndsBoth(a: Aead, sc: Secrets, ss: Secrets, moves: seq<Move>, m: Move)
    requires |sc.traffic| == MATERIAL_COUNT && |ss.traffic| == MATERIAL_COUNT
    ensures var e := Run(a, Start(sc, ss), moves).Party(m.who);
            var (n, outcome) := Apply(a, e, m.call.op, m.call.library);
            EndsByCount(e, n, outcome)
  {
    PartiesInv(a, sc, ss, moves);
    CallEnds(a, Own(sc, ss, m.who), Run(a, Start(sc, ss), moves).Party(m.who), m.call);
  }

  // ---------- key and nonce uniqueness across both endpoints

  ghost predicate KeysDiffer(s: Secrets)
    requires |s.traffic| == MATERIAL_COUNT
  {
    forall c, d, c', d' ::
      s.traffic[MaterialIndex(c, d)].key == s.traffic[MaterialIndex(c', d')].key ==> c == c' && d == d'
  }

  /**
   * Two endpoints with one derivation and ten different keys never use a (key, nonce) pair twice,
   * whatever the network does.
   */
  lemma KeyNoncePairsNeverRepeat(a: Aead, s: Secrets, moves: seq<Move>, x: Role, i: nat, y: Role, j: nat)
    requires |s.traffic| == MATERIAL_COUNT && KeysDiffer(s)
    requires var w := Run(a, Start(s, s), moves);
             i < |w.Party(x).queries| && j < |w.Party(y).queries| && (x, i) != (y, j)
    ensures var w := Run(a, Start(s, s), moves);
            var p, q := w.Party(x).queries[i], w.Party(y).queries[j];
            (p.key, p.nonce) != (q.key, q.nonce)
  {
    PartyInv(a, s, s, moves, x);
    PartyInv(a, s, s, moves, y);
    var w := Run(a, Start(s, s), moves);
    if x == y {
      OneEndpointPairs(a, s, w.Party(x), i, j);
    } else {
      TwoEndpointPairs(a, s, w.Party(x), i, w.Party(y), j);
    }
  }

  lemma OneEndpointPairs(a: Aead, s: Secrets, e: Endpoint, i: nat, j: nat)
    requires Inv(a, s, e) && KeysDiffer(s) && i < |e.queries| && j < |e.queries| && i != j
    ensures (e.queries[i].key, e.queries[i].nonce) != (e.queries[j].key, e.queries[j].nonce)
  {
    if e.queries[i].key == e.queries[j].key {
      SameKeySameContext(a, s, e, i, e, j);
      if i < j {
        SameContextNewNonce(a, s, e, i, j);
      } else {
        SameContextNewNonce(a, s, e, j, i);
      }
    }
  }

  lemma TwoEndpointPairs(a: Aead, s: Secrets, e: Endpoint, i: nat, f: Endpoint, j: nat)
    requires Inv(a, s, e) && Inv(a, s, f) && KeysDiffer(s) && e.role != f.role
    requires i < |e.queries| && j < |f.queries|
    ensures (e.queries[i].key, e.queries[i].nonce) != (f.queries[j].key, f.queries[j].nonce)
  {
    if e.queries[i].key == f.queries[j].key {
      SameKeySameContext(a, s, e, i, f, j);
    }
  }

  lemma SameKeySameContext(a: Aead, s: Secrets, e: Endpoint, i: nat, f: Endpoint, j: nat)
    requires Inv(a, s, e) && Inv(a, s, f) && KeysDiffer(s)
    requires i < |e.queries| && j < |f.queries| && e.queries[i].key == f.queries[j].key
    ensures e.role == f.role && e.sealed[i].channel == f.sealed[j].channel
  {
    ProtectsEach(a, e.role, s, e.sealed, e.queries, i);
    ProtectsEach(a, f.role, s, f.sealed, f.queries, j);
    assert SendDirection(e.role) == SendDirection(f.role);
  }

  lemma SameContextNewNonce(a: Aead, s: Secrets, e: Endpoint, i: nat, j: nat)
    requires Inv(a, s, e) && i < j < |e.queries| && e.sealed[i].channel == e.sealed[j].channel
    ensures e.queries[i].nonce != e.queries[j].nonce
  {
    ProtectsEach(a, e.role, s, e.sealed, e.queries, i);
    ProtectsEach(a, e.role, s, e.sealed, e.queries, j);
    EarlierIsLower(e.sealed, i, j);
    LawfulPlace(e.sealed, j);
    LawfulNumbers(e.sealed, e.sealed[j].channel);
    if e.queries[i].nonce == e.queries[j].nonce {
      NonceInjective(s.traffic[MaterialIndex(e.sealed[i].channel, SendDirection(e.role))].iv,
                     e.sealed[i].sequence, e.sealed[j].sequence);
    }
  }
}
