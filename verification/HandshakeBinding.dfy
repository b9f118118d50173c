/** The commit exchange binds both ends to one exporter value and one application context. */
module HandshakeBinding {
  import opened Wrappers
  import opened Bytes
  import opened Profile
  import opened Record
  import opened EndpointModel
  import opened EndpointInvariant
  import opened EndpointRuns
  import opened Adversary
  import opened AdversaryTheorems

  /** Only a successful open adds to what an endpoint received. */
  lemma ReceivedOnlyByOpen(a: Aead, s: Secrets, e: Endpoint, call: Call)
    requires Inv(a, s, e)
    ensures var (n, outcome) := Apply(a, e, call.op, call.library);
            n.received == e.received || (call.op.CallOpen? && outcome.Opened?)
  {
    FailKeepsHistory(e, Apply(a, e, call.op, call.library).0);
    if IsSeal(call.op) {
      SealStep(a, s, e, call.op, call.library);
    } else if call.op.CallOpen? {
      OpenStep(a, s, e, call.op.input, call.library);
    }
  }

  /** The context that carries the peer's Guard records to `who`. */
  function GuardIndex(who: Role): nat {
    MaterialIndex(Guard, ReceiveDirection(who))
  }

  /** The first record an endpoint opens is a Guard record. */
  lemma FirstIsGuard(a: Aead, s: Secrets, e: Endpoint, input: seq<byte>, n: Endpoint, outcome: Outcome)
    requires Inv(a, s, e) && e.received == [] && OpenStepEffect(a, s, e, input, n, outcome) && outcome.Opened?
    ensures !e.state.Terminal() && Precheck(e, input).Ok?
    ensures Precheck(e, input).value.header.channel == Guard && Open(a, QueryFor(e, Precheck(e, input).value)).Some?
  {
  }

  lemma AcceptedSharesKey(a: Aead, sr: Secrets, sp: Secrets, e: Endpoint, peer: Endpoint, p: Parsed)
    requires Correct(a) && Inv(a, sr, e) && History(a, sp, peer) && e.role != peer.role && !e.state.Terminal()
    requires Canonical(p.header) && p.header.channel == Guard
    requires QueryFor(e, p) in e.queries || QueryFor(e, p) in peer.queries
    ensures sr.traffic[GuardIndex(e.role)].key == sp.traffic[GuardIndex(e.role)].key
  {
    DirectionsMirror(e.role, peer.role);
    var i := AcceptedIsPeers(a, sr, sp, e, peer, p);
  }

  /** What an unforging network promises about an input that opens. */
  lemma OpensOnlySealed(a: Aead, e: Endpoint, peer: Endpoint, input: seq<byte>, p: Parsed)
    requires e.Shaped() && !e.state.Terminal() && Honest(a, e, peer, input)
    requires Precheck(e, input) == Ok(p) && Open(a, QueryFor(e, p)).Some?
    ensures QueryFor(e, p) in e.queries || QueryFor(e, p) in peer.queries
  {
  }

  /** An input that passes the checks is in the one form its header prints. */
  lemma PrecheckedIsCanonical(e: Endpoint, input: seq<byte>, p: Parsed)
    requires e.Shaped() && Precheck(e, input) == Ok(p)
    ensures Canonical(p.header)
  {
    ParsedIsCanonical(input);
  }

  /** Over an unforging network a Guard record opens only under the key with which the peer sealed it. */
  lemma FirstOpenSharesKey(a: Aead, sr: Secrets, sp: Secrets, e: Endpoint, peer: Endpoint, input: seq<byte>, p: Parsed)
    requires Inv(a, sr, e) && History(a, sp, peer) && e.role != peer.role && !e.state.Terminal()
    requires Correct(a) && Honest(a, e, peer, input)
    requires Precheck(e, input) == Ok(p) && p.header.channel == Guard && Open(a, QueryFor(e, p)).Some?
    ensures sr.traffic[GuardIndex(e.role)].key == sp.traffic[GuardIndex(e.role)].key
  {
    PrecheckedIsCanonical(e, input, p);
    OpensOnlySealed(a, e, peer, input, p);
    AcceptedSharesKey(a, sr, sp, e, peer, p);
  }

  /** The call with which an endpoint receives its first record opens it under the peer's key. */
  lemma FirstReceiveSharesKey(a: Aead, sr: Secrets, sp: Secrets, e: Endpoint, peer: Endpoint, call: Call)
    requires Inv(a, sr, e) && History(a, sp, peer) && e.role != peer.role && e.received == []
    requires Correct(a) && (call.op.CallOpen? ==> Honest(a, e, peer, call.op.input))
    requires Apply(a, e, call.op, call.library).0.received != []
    ensures sr.traffic[GuardIndex(e.role)].key == sp.traffic[GuardIndex(e.role)].key
  {
    var (n, outcome) := Apply(a, e, call.op, call.library);
    ReceivedOnlyByOpen(a, sr, e, call);
    OpenStep(a, sr, e, call.op.input, call.library);
    FirstIsGuard(a, sr, e, call.op.input, n, outcome);
    FirstOpenSharesKey(a, sr, sp, e, peer, call.op.input, Precheck(e, call.op.input).value);
  }

  /**
   * On every run with an ideal AEAD, an endpoint that received anything shares its Guard receiving key with its
   * peer.
   */
  lemma {:induction false} ReceiverSharesKey(a: Aead, sc: Secrets, ss: Secrets, moves: seq<Move>, who: Role)
    requires Correct(a) && |sc.traffic| == MATERIAL_COUNT && |ss.traffic| == MATERIAL_COUNT
    requires Ideal(a, Start(sc, ss), moves)
    requires Run(a, Start(sc, ss), moves).Party(who).received != []
    ensures Own(sc, ss, who).traffic[GuardIndex(who)].key == Own(sc, ss, Peer(who)).traffic[GuardIndex(who)].key
  {
    if moves != [] {
      var front, last := moves[..|moves| - 1], moves[|moves| - 1];
      var w := Run(a, Start(sc, ss), front);
      RunOneMore(a, Start(sc, ss), moves, who);
      if w.Party(who).received != [] {
        ReceiverSharesKey(a, sc, ss, front, who);
      } else {
        PartyInv(a, sc, ss, front, who);
        PartyInv(a, sc, ss, front, Peer(who));
        FirstReceiveSharesKey(a, Own(sc, ss, who), Own(sc, ss, Peer(who)), w.Party(who), w.Party(Peer(who)), last.call);
      }
    }
  }

  /**
   * Two sessions derived from any two sources, on a run with an ideal AEAD and no collision in the key
   * schedule: an endpoint past the commit exchange has a peer with the same exporter value and the same
   * application context.
   */
  lemma CommitBindsSource(a: Aead, kdf: Kdf, x: Source, y: Source, sc: Secrets, ss: Secrets, moves: seq<Move>,
                          who: Role)
    requires Correct(a) && DerivedFrom(kdf, x, sc) && DerivedFrom(kdf, y, ss)
    requires Separates(kdf, x, y, Guard, ReceiveDirection(who))
    requires Ideal(a, Start(sc, ss), moves)
    requires Run(a, Start(sc, ss), moves).Party(who).state in {Active, Draining, Closed}
    ensures x == y
  {
    PartyInv(a, sc, ss, moves, who);
    HandshakeAgreement(a, sc, ss, moves, who);
    ReceiverSharesKey(a, sc, ss, moves, who);
    SharedKeyMeansSharedSource(kdf, x, y, sc, ss, Guard, ReceiveDirection(who));
  }

  /** Nor does any data reach the application before that: whoever got a plaintext shares the source with its peer. */
  lemma DataBindsSource(a: Aead, kdf: Kdf, x: Source, y: Source, sc: Secrets, ss: Secrets, moves: seq<Move>, who: Role,
                        c: DataChannel)
    requires Correct(a) && DerivedFrom(kdf, x, sc) && DerivedFrom(kdf, y, ss)
    requires Separates(kdf, x, y, Guard, ReceiveDirection(who))
    requires Ideal(a, Start(sc, ss), moves)
    requires Returned(a, Start(sc, ss), moves, who, c) != []
    ensures x == y
  {
    var e := Run(a, Start(sc, ss), moves).Party(who);
    ReportsAreHistories(a, sc, ss, moves, who, c);
    WorldRunInv(a, sc, ss, moves);
    assert e.received != [];
    ReceiverSharesKey(a, sc, ss, moves, who);
    SharedKeyMeansSharedSource(kdf, x, y, sc, ss, Guard, ReceiveDirection(who));
  }
}
