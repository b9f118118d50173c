/**
 * Two endpoints joined by an arbitrary network. The network may replay, reorder, drop, inject
 * and reflect any bytes; all it cannot do is make the AEAD accept a tuple nobody sealed.
 */
module Adversary {
  import opened Wrappers
  import opened Bytes
  import opened Profile
  import opened Record
  import opened EndpointModel
  import opened EndpointInvariant
  import opened EndpointRuns

  datatype World = World(client: Endpoint, server: Endpoint) {
    function Party(who: Role): Endpoint {
      if who == Client then client else server
    }

    function With(who: Role, e: Endpoint): World {
      if who == Client then World(e, server) else World(client, e)
    }

    ghost predicate Shaped() {
      client.Shaped() && server.Shaped()
    }
  }

  /** One endpoint makes one call; `CallOpen` carries whatever bytes the network chose. */
  datatype Move = Move(who: Role, call: Call)

  function Peer(who: Role): Role {
    if who == Client then Server else Client
  }

  /** Each endpoint starts from secrets of its own; nothing says that the two agree. */
  function Start(clientSecrets: Secrets, serverSecrets: Secrets): World {
    World(Fresh(Client, clientSecrets), Fresh(Server, serverSecrets))
  }

  function ApplyMove(a: Aead, w: World, m: Move): (World, Outcome)
    requires w.Shaped()
    ensures ApplyMove(a, w, m).0.Shaped()
  {
    var (n, outcome) := Apply(a, w.Party(m.who), m.call.op, m.call.library);
    (w.With(m.who, n), outcome)
  }

  /** The world after a sequence of moves. */
  function Run(a: Aead, w: World, moves: seq<Move>): (r: World)
    requires w.Shaped()
    ensures r.Shaped()
  {
    if moves == [] then w
    else ApplyMove(a, Run(a, w, moves[..|moves| - 1]), moves[|moves| - 1]).0
  }

  /** The network's promise about one delivery to `e`. */
  ghost predicate Honest(a: Aead, e: Endpoint, peer: Endpoint, input: seq<byte>)
    requires e.Shaped()
  {
    !e.state.Terminal() && Precheck(e, input).Ok? ==>
      var q := QueryFor(e, Precheck(e, input).value);
      Open(a, q).Some? ==> q in e.queries || q in peer.queries
  }

  /** If this call makes the AEAD open a tuple, some endpoint sealed that tuple. */
  ghost predicate Unforged(a: Aead, w: World, m: Move)
    requires w.Shaped()
  {
    m.call.op.CallOpen? ==> Honest(a, w.Party(m.who), w.Party(Peer(m.who)), m.call.op.input)
  }

  /** The AEAD behaves ideally at every move of the run. */
  ghost predicate Ideal(a: Aead, w: World, moves: seq<Move>)
    requires w.Shaped()
  {
    moves == [] ||
    (Ideal(a, w, moves[..|moves| - 1]) && Unforged(a, Run(a, w, moves[..|moves| - 1]), moves[|moves| - 1]))
  }

  // ---------- the invariant

  /** What `r` opened on each channel is a prefix of what `p` sealed there, under the same hashes. */
  ghost predicate Tracks(r: Endpoint, p: Endpoint) {
    && (forall c :: OnChannel(r.received, c) <= OnChannel(p.sealed, c))
    && (r.received != [] ==> r.manifestHash == p.manifestHash && r.contextHash == p.contextHash)
  }

  ghost predicate WorldInv(a: Aead, sc: Secrets, ss: Secrets, w: World) {
    && Inv(a, sc, w.client) && w.client.role == Client
    && Inv(a, ss, w.server) && w.server.role == Server
    && Tracks(w.client, w.server)
    && Tracks(w.server, w.client)
  }

  /** A tuple that `x` sealed and `e` would open is a tuple of `e`'s peer, and opens to exactly the record sealed. */
  lemma SealedTupleIsPeers(a: Aead, s: Secrets, x: Endpoint, e: Endpoint, p: Parsed, i: nat)
    requires Correct(a) && History(a, s, x) && e.Shaped() && Canonical(p.header)
    requires i < |x.queries| && x.queries[i] == QueryFor(e, p)
    ensures x.role != e.role
    ensures x.manifestHash == e.manifestHash && x.contextHash == e.contextHash
    ensures Open(a, QueryFor(e, p)) == Some(x.sealed[i].plaintext)
    ensures QueryFor(e, p).key == s.traffic[MaterialIndex(p.header.channel, SendDirection(x.role))].key
    ensures OpenedRec(p, x.sealed[i].plaintext) == x.sealed[i]
  {
    var r := x.sealed[i];
    ProtectsEach(a, x.role, s, x.sealed, x.queries, i);
    LawfulPlace(x.sealed, i);
    LawfulNumbers(x.sealed, r.channel);
    var d := SendDirection(x.role);
    var header := HeaderFor(r.kind, r.channel, r.sequence, |r.plaintext|).value;
    AadInjective(s.manifestHash, s.contextHash, d, header.encoded,
                 e.manifestHash, e.contextHash, ReceiveDirection(e.role), p.header.encoded);
    EncodeInjective(header, p.header);
    var q := QueryFor(e, p);
    assert (q.ciphertext, q.tag) == a.seal(q.key, q.nonce, q.aad, r.plaintext);
  }

  /** Whatever the AEAD accepts from an unforging network is the record its peer sealed under that number. */
  lemma AcceptedIsPeers(a: Aead, sr: Secrets, sp: Secrets, e: Endpoint, peer: Endpoint, p: Parsed) returns (i: nat)
    requires Correct(a) && History(a, sr, e) && History(a, sp, peer) && e.role != peer.role && Canonical(p.header)
    requires QueryFor(e, p) in e.queries || QueryFor(e, p) in peer.queries
    ensures i < |peer.sealed|
    ensures peer.manifestHash == e.manifestHash && peer.contextHash == e.contextHash
    ensures Open(a, QueryFor(e, p)) == Some(peer.sealed[i].plaintext)
    ensures QueryFor(e, p).key == sp.traffic[MaterialIndex(p.header.channel, SendDirection(peer.role))].key
    ensures OpenedRec(p, peer.sealed[i].plaintext) == peer.sealed[i]
  {
    var q := QueryFor(e, p);
    if q in e.queries {
      var j :| 0 <= j < |e.queries| && e.queries[j] == q;
      SealedTupleIsPeers(a, sr, e, e, p, j);
      assert false;
    }
    i :| 0 <= i < |peer.queries| && peer.queries[i] == q;
    SealedTupleIsPeers(a, sp, peer, e, p, i);
  }

  lemma PrefixGrows<T>(x: seq<T>, y: seq<T>, t: T)
    requires x <= y && |x| < |y| && y[|x|] == t
    ensures x + [t] <= y
  {
  }

  lemma ExtendPrefix(received: seq<Rec>, sealed: seq<Rec>, r: Rec, c: Channel)
    requires OnChannel(received, c) <= OnChannel(sealed, c)
    requires r.sequence == |OnChannel(received, r.channel)| < |OnChannel(sealed, r.channel)|
    requires OnChannel(sealed, r.channel)[r.sequence] == r
    ensures OnChannel(received + [r], c) <= OnChannel(sealed, c)
  {
    AppendOnChannel(received, r, c);
    if c == r.channel {
      PrefixGrows(OnChannel(received, c), OnChannel(sealed, c), r);
    }
  }

  lemma OpenedTracks(a: Aead, sp: Secrets, e: Endpoint, peer: Endpoint, i: nat, n: Endpoint)
    requires History(a, sp, peer) && Tracks(e, peer) && i < |peer.sealed|
    requires peer.manifestHash == e.manifestHash && peer.contextHash == e.contextHash
    requires Follows(e.received, peer.sealed[i])
    requires n.received == e.received + [peer.sealed[i]]
    requires n.manifestHash == e.manifestHash && n.contextHash == e.contextHash
    ensures Tracks(n, peer)
  {
    LawfulPlace(peer.sealed, i);
    forall c
      ensures OnChannel(n.received, c) <= OnChannel(peer.sealed, c)
    {
      ExtendPrefix(e.received, peer.sealed, peer.sealed[i], c);
    }
  }

  /** A successful open returns a record the peer sealed. */
  lemma OpenedIsPeers(a: Aead, sr: Secrets, sp: Secrets, e: Endpoint, peer: Endpoint, input: seq<byte>,
                      n: Endpoint, outcome: Outcome) returns (i: nat)
    requires Correct(a) && History(a, sr, e) && History(a, sp, peer) && e.role != peer.role
    requires Honest(a, e, peer, input) && OpenStepEffect(a, sr, e, input, n, outcome) && outcome.Opened?
    ensures i < |peer.sealed|
    ensures peer.manifestHash == e.manifestHash && peer.contextHash == e.contextHash
    ensures Follows(e.received, peer.sealed[i]) && n.received == e.received + [peer.sealed[i]]
    ensures outcome.record == Delivered(peer.sealed[i])
  {
    ParsedIsCanonical(input);
    i := AcceptedIsPeers(a, sr, sp, e, peer, Precheck(e, input).value);
  }

  lemma SameTracks(e: Endpoint, peer: Endpoint, n: Endpoint)
    requires Tracks(e, peer) && Tracks(peer, e)
    requires n.sealed == e.sealed && n.received == e.received
    requires n.manifestHash == e.manifestHash && n.contextHash == e.contextHash
    ensures Tracks(n, peer) && Tracks(peer, n)
  {
  }

  lemma SealedKept(e: Endpoint, peer: Endpoint, n: Endpoint)
    requires Tracks(peer, e) && n.sealed == e.sealed
    requires n.manifestHash == e.manifestHash && n.contextHash == e.contextHash
    ensures Tracks(peer, n)
  {
  }

  /** Opening an unforged record keeps the receiver a channel-wise prefix of its peer. */
  lemma OpenTracks(a: Aead, sr: Secrets, sp: Secrets, e: Endpoint, peer: Endpoint, input: seq<byte>,
                   n: Endpoint, outcome: Outcome)
    requires Correct(a)
    requires Inv(a, sr, e) && Inv(a, sp, peer) && e.role != peer.role && Tracks(e, peer) && Tracks(peer, e)
    requires Honest(a, e, peer, input) && OpenStepEffect(a, sr, e, input, n, outcome)
    ensures Tracks(n, peer) && Tracks(peer, n)
  {
    KeptHashes(a, sr, e, n);
    if outcome.Refused? {
      FailKeepsHistory(e, n);
      SameTracks(e, peer, n);
    } else {
      SealedKept(e, peer, n);
      var i := OpenedIsPeers(a, sr, sp, e, peer, input, n, outcome);
      OpenedTracks(a, sp, e, peer, i, n);
    }
  }

  lemma MoreSealedTracks(e: Endpoint, peer: Endpoint, n: Endpoint, r: Rec)
    requires Tracks(peer, e) && Tracks(e, peer)
    requires n.sealed == e.sealed + [r] && n.received == e.received
    requires n.manifestHash == e.manifestHash && n.contextHash == e.contextHash
    ensures Tracks(n, peer) && Tracks(peer, n)
  {
    forall c
      ensures OnChannel(peer.received, c) <= OnChannel(n.sealed, c)
    {
      AppendOnChannel(e.sealed, r, c);
    }
  }

  /** What a sealing call changes, without the invariant. */
  lemma SealChanges(a: Aead, s: Secrets, e: Endpoint, op: Op, n: Endpoint, outcome: Outcome)
    requires |s.traffic| == MATERIAL_COUNT && IsSeal(op) && SealStepEffect(a, s, e, op, n, outcome)
    ensures outcome.Refused? ==> FailedFrom(e, n)
    ensures !outcome.Refused? ==>
              && n.sealed == e.sealed + [SealedRec(e, op)] && n.received == e.received
              && n.manifestHash == e.manifestHash && n.contextHash == e.contextHash
  {
  }

  /** Sealing only ever extends what the peer may already have opened. */
  lemma SealTracks(a: Aead, e: Endpoint, peer: Endpoint, op: Op, n: Endpoint, outcome: Outcome)
    requires IsSeal(op) && Tracks(peer, e) && Tracks(e, peer)
    requires outcome.Refused? ==> FailedFrom(e, n)
    requires !outcome.Refused? ==>
               && n.sealed == e.sealed + [SealedRec(e, op)] && n.received == e.received
               && n.manifestHash == e.manifestHash && n.contextHash == e.contextHash
    ensures Tracks(n, peer) && Tracks(peer, n)
  {
    if outcome.Refused? {
      FailKeepsHistory(e, n);
      SameTracks(e, peer, n);
    } else {
      MoreSealedTracks(e, peer, n, SealedRec(e, op));
    }
  }

  lemma SealCallTracks(a: Aead, s: Secrets, e: Endpoint, peer: Endpoint, op: Op, library: Library)
    requires Inv(a, s, e) && IsSeal(op) && Tracks(e, peer) && Tracks(peer, e)
    ensures var n := Apply(a, e, op, library).0;
            Tracks(n, peer) && Tracks(peer, n)
  {
    var (n, outcome) := Apply(a, e, op, library);
    SealStep(a, s, e, op, library);
    SealChanges(a, s, e, op, n, outcome);
    SealTracks(a, e, peer, op, n, outcome);
  }

  lemma OpenCallTracks(a: Aead, s: Secrets, sp: Secrets, e: Endpoint, peer: Endpoint, input: seq<byte>,
                       library: Library)
    requires Inv(a, s, e) && Inv(a, sp, peer) && e.role != peer.role && Tracks(e, peer) && Tracks(peer, e)
    requires Correct(a) && Honest(a, e, peer, input)
    ensures var n := Apply(a, e, CallOpen(input), library).0;
            Tracks(n, peer) && Tracks(peer, n)
  {
    var (n, outcome) := Apply(a, e, CallOpen(input), library);
    OpenStep(a, s, e, input, library);
    OpenTracks(a, s, sp, e, peer, input, n, outcome);
  }

  lemma AbortTracks(a: Aead, e: Endpoint, peer: Endpoint, library: Library)
    requires e.Shaped() && Tracks(e, peer) && Tracks(peer, e)
    ensures var n := Apply(a, e, CallAbort, library).0;
            Tracks(n, peer) && Tracks(peer, n)
  {
    FailKeepsHistory(e, Fail(e));
    SameTracks(e, peer, Fail(e));
  }

  /** One call of `e` keeps both prefix relations. */
  lemma CallTracks(a: Aead, s: Secrets, sp: Secrets, e: Endpoint, peer: Endpoint, call: Call)
    requires Correct(a)
    requires Inv(a, s, e) && Inv(a, sp, peer) && e.role != peer.role && Tracks(e, peer) && Tracks(peer, e)
    requires call.op.CallOpen? ==> Honest(a, e, peer, call.op.input)
    ensures var n := Apply(a, e, call.op, call.library).0;
            Tracks(n, peer) && Tracks(peer, n)
  {
    match call.op
    case CallAbort => AbortTracks(a, e, peer, call.library);
    case CallOpen(input) => OpenCallTracks(a, s, sp, e, peer, input, call.library);
    case _ => SealCallTracks(a, s, e, peer, call.op, call.library);
  }

  lemma MoveInv(a: Aead, sc: Secrets, ss: Secrets, w: World, m: Move)
    requires Correct(a) && WorldInv(a, sc, ss, w) && Unforged(a, w, m)
    ensures WorldInv(a, sc, ss, ApplyMove(a, w, m).0)
  {
    if m.who == Client {
      StepInv(a, sc, w.client, m.call);
      CallTracks(a, sc, ss, w.client, w.server, m.call);
    } else {
      StepInv(a, ss, w.server, m.call);
      CallTracks(a, ss, sc, w.server, w.client, m.call);
    }
  }

  lemma {:induction false} WorldRunInv(a: Aead, sc: Secrets, ss: Secrets, moves: seq<Move>)
    requires Correct(a) && |sc.traffic| == MATERIAL_COUNT && |ss.traffic| == MATERIAL_COUNT
    requires Ideal(a, Start(sc, ss), moves)
    ensures WorldInv(a, sc, ss, Run(a, Start(sc, ss), moves))
  {
    if moves == [] {
      FreshInv(a, Client, sc);
      FreshInv(a, Server, ss);
    } else {
      WorldRunInv(a, sc, ss, moves[..|moves| - 1]);
      MoveInv(a, sc, ss, Run(a, Start(sc, ss), moves[..|moves| - 1]), moves[|moves| - 1]);
    }
  }
}
