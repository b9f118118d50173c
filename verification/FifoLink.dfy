/**
 * Two endpoints of one derivation joined by a reliable first-in first-out link in each direction:
 * every record a seal returns is queued, and the receiver opens the queue in order.
 */
module FifoLink {
  import opened Wrappers
  import opened Bytes
  import opened Profile
  import opened Record
  import opened EndpointModel
  import opened EndpointInvariant
  import opened EndpointRuns
  import opened Adversary

  datatype Link = Link(client: Endpoint, server: Endpoint, toClient: seq<seq<byte>>, toServer: seq<seq<byte>>) {
    function Party(who: Role): Endpoint {
      if who == Client then client else server
    }

    /** The records in flight towards `who`. */
    function Inbox(who: Role): seq<seq<byte>> {
      if who == Client then toClient else toServer
    }

    function With(who: Role, e: Endpoint): Link {
      if who == Client then this.(client := e) else this.(server := e)
    }

    function WithInbox(who: Role, q: seq<seq<byte>>): Link {
      if who == Client then this.(toClient := q) else this.(toServer := q)
    }

    ghost predicate Shaped() {
      client.Shaped() && server.Shaped()
    }
  }

  /** A local call that is not an open, or the delivery of the oldest record in flight. */
  datatype Event = Local(who: Role, op: Op, library: Library) | Deliver(who: Role, library: Library)

  function Linked(s: Secrets): Link {
    Link(Fresh(Client, s), Fresh(Server, s), [], [])
  }

  function Step(a: Aead, l: Link, ev: Event): (r: Link)
    requires l.Shaped()
    ensures r.Shaped()
  {
    var e := l.Party(ev.who);
    match ev
    case Local(who, op, library) =>
      if op.CallOpen? then l
      else
        var (n, outcome) := Apply(a, e, op, library);
        var moved := l.With(who, n);
        if outcome.Sealed? then moved.WithInbox(Peer(who), l.Inbox(Peer(who)) + [outcome.wire]) else moved
    case Deliver(who, library) =>
      if l.Inbox(who) == [] then l
      else l.With(who, Apply(a, e, CallOpen(l.Inbox(who)[0]), library).0).WithInbox(who, l.Inbox(who)[1..])
  }

  function RunLink(a: Aead, l: Link, events: seq<Event>): (r: Link)
    requires l.Shaped()
    ensures r.Shaped()
  {
    if events == [] then l else Step(a, RunLink(a, l, events[..|events| - 1]), events[|events| - 1])
  }

  // ---------- the invariant of one direction

  /** The queue holds the wire forms of the newest records of a history. */
  ghost predicate Queued(a: Aead, s: Secrets, role: Role, recs: seq<Rec>, q: seq<seq<byte>>)
    requires |s.traffic| == MATERIAL_COUNT
  {
    && |q| <= |recs|
    && (forall i :: 0 <= i < |recs| ==> |recs[i].plaintext| <= MAX_PLAINTEXT)
    && (forall i :: 0 <= i < |q| ==> q[i] == TupleFor(a, role, s, recs[|recs| - |q| + i]).wire)
  }

  /** What is in flight from `p` is what `r` has not opened, and `r` has opened what came before. */
  ghost predicate Carries(a: Aead, s: Secrets, p: Endpoint, r: Endpoint, q: seq<seq<byte>>)
    requires |s.traffic| == MATERIAL_COUNT
  {
    && Queued(a, s, p.role, p.sealed, q)
    && r.received <= p.sealed
    && (!r.state.Terminal() ==> |r.received| + |q| == |p.sealed|)
  }

  ghost predicate LinkInv(a: Aead, s: Secrets, l: Link) {
    && Inv(a, s, l.client) && l.client.role == Client
    && Inv(a, s, l.server) && l.server.role == Server
    && Carries(a, s, l.client, l.server, l.toServer)
    && Carries(a, s, l.server, l.client, l.toClient)
  }

  lemma {:induction false} LawfulPrefix(recs: seq<Rec>, k: nat)
    requires Lawful(recs) && k < |recs|
    ensures Lawful(recs[..k]) && Follows(recs[..k], recs[k])
  {
    if k < |recs| - 1 {
      LawfulPrefix(recs[..|recs| - 1], k);
      assert recs[..|recs| - 1][..k] == recs[..k];
    }
  }

  // ---------- progress

  /** The one situation in which an in-order record is not welcome: traffic that crosses a local Close. */
  predicate CrossesClose(e: Endpoint, r: Rec) {
    (r.kind == Data || r.kind == RefreshRequired) && e.localClose
  }

  /** In a live receiver the next in-order record fits the state exactly unless it crosses a local Close. */
  lemma NextStateValid(a: Aead, s: Secrets, e: Endpoint, p: Endpoint, k: nat)
    requires Inv(a, s, e) && !e.state.Terminal() && History(a, s, p)
    requires e.received <= p.sealed && |e.received| == k < |p.sealed|
    requires p.received <= e.sealed
    ensures Follows(e.received, p.sealed[k])
    ensures StateValid(e, p.sealed[k].kind) <==> !CrossesClose(e, p.sealed[k])
  {
    LawfulPrefix(p.sealed, k);
    assert e.received == p.sealed[..k];
  }

  /** Everything before the key is used accepts the wire form of the next record. */
  lemma NextPrechecks(a: Aead, s: Secrets, e: Endpoint, sender: Role, r: Rec)
    requires Inv(a, s, e) && !e.state.Terminal() && Correct(a) && Follows(e.received, r)
    ensures var header := HeaderFor(r.kind, r.channel, r.sequence, |r.plaintext|).value;
            var q := TupleFor(a, sender, s, r).query;
            Precheck(e, TupleFor(a, sender, s, r).wire)
            == if StateValid(e, r.kind) then Ok(Parsed(header, q.ciphertext, q.tag)) else Err(InvalidState)
  {
    var header := HeaderFor(r.kind, r.channel, r.sequence, |r.plaintext|).value;
    var q := TupleFor(a, sender, s, r).query;
    assert q.ciphertext == a.seal(q.key, q.nonce, q.aad, r.plaintext).0;
    ParseOfWire(header, q.ciphertext, q.tag);
    ContextFits(a, s, e, r.channel, |r.plaintext|);
  }

  lemma NextAuthentic(a: Aead, s: Secrets, e: Endpoint, sender: Role, r: Rec)
    requires Inv(a, s, e) && !e.state.Terminal() && Correct(a) && Follows(e.received, r) && e.role != sender
    ensures var header := HeaderFor(r.kind, r.channel, r.sequence, |r.plaintext|).value;
            var q := TupleFor(a, sender, s, r).query;
            var p := Parsed(header, q.ciphertext, q.tag);
            QueryFor(e, p) == q && Open(a, q) == Some(r.plaintext) && OpenedRec(p, r.plaintext) == r
  {
    DirectionsMirror(e.role, sender);
    var q := TupleFor(a, sender, s, r).query;
    assert (q.ciphertext, q.tag) == a.seal(q.key, q.nonce, q.aad, r.plaintext);
  }

  /** Opening an input that passes the checks and authenticates. */
  lemma OpenKnown(a: Aead, e: Endpoint, input: seq<byte>, p: Parsed, plaintext: seq<byte>)
    requires e.Shaped() && !e.state.Terminal() && Precheck(e, input) == Ok(p) && SemanticallyValid(p.header)
    requires Open(a, QueryFor(e, p)) == Some(plaintext) && |plaintext| == p.header.plaintextLen
    requires e.usage[e.Receiving(p.header.channel)].Consume(p.header.plaintextLen).Ok?
    ensures var r := OpenedRec(p, plaintext);
            Apply(a, e, CallOpen(input), Works) == (AfterOpen(TryOpen(e, p), r), Opened(Delivered(r)))
  {
  }

  lemma OpenRefused(a: Aead, e: Endpoint, input: seq<byte>, library: Library)
    requires e.Shaped() && !e.state.Terminal()
    requires library.Fails? || Precheck(e, input).Err?
    ensures var (n, outcome) := Apply(a, e, CallOpen(input), library);
            FailedFrom(e, n) && outcome.Refused?
            && (Precheck(e, input).Err? ==> outcome.error == Precheck(e, input).error)
  {
  }

  lemma KnownTaken(a: Aead, s: Secrets, e: Endpoint, input: seq<byte>, p: Parsed, r: Rec)
    requires Inv(a, s, e) && !e.state.Terminal() && Follows(e.received, r) && StateValid(e, r.kind)
    requires e.received != [] ==> e.sealed != []
    requires Precheck(e, input) == Ok(p) && SemanticallyValid(p.header)
    requires Open(a, QueryFor(e, p)) == Some(r.plaintext) && |r.plaintext| == p.header.plaintextLen
    requires OpenedRec(p, r.plaintext) == r
    ensures var (n, outcome) := Apply(a, e, CallOpen(input), Works);
            outcome == Opened(Delivered(r)) && Taken(e, r, n)
  {
    ReceivingFits(a, s, e, r.channel, |r.plaintext|);
    OpenKnown(a, e, input, p, r.plaintext);
    TryOpenInv(a, s, e, p);
    TriedTakes(a, s, TryOpen(e, p), r);
  }

  /** Opening the wire form of the next record succeeds if the state is right, and fails the session if not. */
  lemma NextOpens(a: Aead, s: Secrets, e: Endpoint, sender: Role, r: Rec)
    requires Inv(a, s, e) && !e.state.Terminal() && Correct(a) && Follows(e.received, r) && e.role != sender
    ensures var (n, outcome) := Apply(a, e, CallOpen(TupleFor(a, sender, s, r).wire), Works);
            if StateValid(e, r.kind) then outcome == Opened(Delivered(r)) && Taken(e, r, n)
            else outcome == Refused(InvalidState) && FailedFrom(e, n)
  {
    var wire := TupleFor(a, sender, s, r).wire;
    NextPrechecks(a, s, e, sender, r);
    if StateValid(e, r.kind) {
      NextAuthentic(a, s, e, sender, r);
      KnownTaken(a, s, e, wire, Precheck(e, wire).value, r);
    } else {
      OpenRefused(a, e, wire, Works);
    }
  }

  // ---------- keeping the invariant

  lemma OneMoreQueued(a: Aead, s: Secrets, p: Endpoint, r: Endpoint, q: seq<seq<byte>>, rec: Rec, n: Endpoint)
    requires |s.traffic| == MATERIAL_COUNT && Carries(a, s, p, r, q)
    requires |rec.plaintext| <= MAX_PLAINTEXT && n.sealed == p.sealed + [rec] && n.role == p.role
    ensures Carries(a, s, n, r, q + [TupleFor(a, p.role, s, rec).wire])
  {
    QueueGrows(a, s, p.role, p.sealed, q, rec);
    PrefixStays(r.received, p.sealed, rec);
  }

  lemma PrefixStays(x: seq<Rec>, recs: seq<Rec>, rec: Rec)
    requires x <= recs
    ensures x <= recs + [rec]
  {
  }

  lemma QueueGrows(a: Aead, s: Secrets, role: Role, recs: seq<Rec>, q: seq<seq<byte>>, rec: Rec)
    requires |s.traffic| == MATERIAL_COUNT && Queued(a, s, role, recs, q) && |rec.plaintext| <= MAX_PLAINTEXT
    ensures Queued(a, s, role, recs + [rec], q + [TupleFor(a, role, s, rec).wire])
  {
    var more, queued := recs + [rec], q + [TupleFor(a, role, s, rec).wire];
    forall i | 0 <= i < |more|
      ensures |more[i].plaintext| <= MAX_PLAINTEXT
    {
      assert more[i] == if i < |recs| then recs[i] else rec;
    }
    forall i | 0 <= i < |queued|
      ensures queued[i] == TupleFor(a, role, s, more[|more| - |queued| + i]).wire
    {
      GrownAt(a, s, role, recs, q, rec, i);
    }
  }

  lemma GrownAt(a: Aead, s: Secrets, role: Role, recs: seq<Rec>, q: seq<seq<byte>>, rec: Rec, i: nat)
    requires |s.traffic| == MATERIAL_COUNT && |q| <= |recs| && i <= |q| && |rec.plaintext| <= MAX_PLAINTEXT
    requires i < |q| ==>
               var r := recs[|recs| - |q| + i];
               |r.plaintext| <= MAX_PLAINTEXT && q[i] == TupleFor(a, role, s, r).wire
    ensures var r := (recs + [rec])[|recs| - |q| + i];
            |r.plaintext| <= MAX_PLAINTEXT
            && (q + [TupleFor(a, role, s, rec).wire])[i] == TupleFor(a, role, s, r).wire
  {
    assert (recs + [rec])[|recs| - |q| + i] == if i < |q| then recs[|recs| - |q| + i] else rec;
  }

  lemma SealCarries(a: Aead, s: Secrets, p: Endpoint, r: Endpoint, q: seq<seq<byte>>, op: Op, n: Endpoint,
                    outcome: Outcome)
    requires Inv(a, s, p) && IsSeal(op) && SealStepEffect(a, s, p, op, n, outcome) && Carries(a, s, p, r, q)
    ensures Carries(a, s, n, r, if outcome.Sealed? then q + [outcome.wire] else q)
  {
    if outcome.Refused? {
      FailKeepsHistory(p, n);
      SenderKept(a, s, p, r, q, n);
    } else {
      OneMoreQueued(a, s, p, r, q, SealedRec(p, op), n);
    }
  }

  /** A sender that stops, or one that receives, leaves its own direction alone. */
  lemma SenderKept(a: Aead, s: Secrets, p: Endpoint, r: Endpoint, q: seq<seq<byte>>, n: Endpoint)
    requires |s.traffic| == MATERIAL_COUNT && Carries(a, s, p, r, q)
    requires n.sealed == p.sealed && n.role == p.role
    ensures Carries(a, s, n, r, q)
  {
  }

  /** A receiver that keeps its history, and at most becomes terminal. */
  lemma ReceiverKept(a: Aead, s: Secrets, p: Endpoint, r: Endpoint, q: seq<seq<byte>>, n: Endpoint)
    requires |s.traffic| == MATERIAL_COUNT && Carries(a, s, p, r, q)
    requires n.received == r.received && (r.state.Terminal() ==> n.state.Terminal())
    ensures Carries(a, s, p, n, q)
  {
  }

  /** Dropping the head of the queue towards a receiver that has become, or was, terminal. */
  lemma HeadDropped(a: Aead, s: Secrets, p: Endpoint, r: Endpoint, q: seq<seq<byte>>, n: Endpoint)
    requires |s.traffic| == MATERIAL_COUNT && Carries(a, s, p, r, q) && q != []
    requires n.received == r.received && n.state.Terminal()
    ensures Carries(a, s, p, n, q[1..])
  {
    QueueTail(a, s, p.role, p.sealed, q);
  }

  lemma QueueTail(a: Aead, s: Secrets, role: Role, recs: seq<Rec>, q: seq<seq<byte>>)
    requires |s.traffic| == MATERIAL_COUNT && q != [] && Queued(a, s, role, recs, q)
    ensures Queued(a, s, role, recs, q[1..])
  {
    forall i | 0 <= i < |q[1..]|
      ensures q[1..][i] == TupleFor(a, role, s, recs[|recs| - |q[1..]| + i]).wire
    {
      assert q[1..][i] == q[i + 1];
    }
  }

  lemma HeadOpened(a: Aead, s: Secrets, p: Endpoint, r: Endpoint, q: seq<seq<byte>>, n: Endpoint)
    requires |s.traffic| == MATERIAL_COUNT && Carries(a, s, p, r, q) && q != [] && !r.state.Terminal()
    requires n.received == r.received + [p.sealed[|r.received|]]
    ensures Carries(a, s, p, n, q[1..])
  {
    QueueTail(a, s, p.role, p.sealed, q);
    PrefixGrows(r.received, p.sealed, p.sealed[|r.received|]);
  }

  /** The oldest record in flight is the first one the receiver has not opened. */
  lemma HeadIsNext(a: Aead, s: Secrets, p: Endpoint, r: Endpoint, q: seq<seq<byte>>)
    requires |s.traffic| == MATERIAL_COUNT && Carries(a, s, p, r, q) && q != [] && !r.state.Terminal()
    ensures |r.received| < |p.sealed| && q[0] == TupleFor(a, p.role, s, p.sealed[|r.received|]).wire
  {
  }

  /** A live receiver takes the head of its queue, or fails and drops it. */
  lemma LiveDelivery(a: Aead, s: Secrets, p: Endpoint, r: Endpoint, q: seq<seq<byte>>, back: seq<seq<byte>>,
                     library: Library)
    requires Correct(a) && Inv(a, s, p) && Inv(a, s, r) && p.role != r.role && !r.state.Terminal()
    requires Carries(a, s, p, r, q) && Carries(a, s, r, p, back) && q != []
    ensures Carries(a, s, p, Apply(a, r, CallOpen(q[0]), library).0, q[1..])
  {
    var n := Apply(a, r, CallOpen(q[0]), library).0;
    var k := |r.received|;
    FailKeepsHistory(r, n);
    HeadIsNext(a, s, p, r, q);
    NextStateValid(a, s, r, p, k);
    if library.Fails? {
      OpenRefused(a, r, q[0], library);
      HeadDropped(a, s, p, r, q, n);
    } else {
      NextOpens(a, s, r, p.role, p.sealed[k]);
      if StateValid(r, p.sealed[k].kind) {
        HeadOpened(a, s, p, r, q, n);
      } else {
        HeadDropped(a, s, p, r, q, n);
      }
    }
  }

  /** Opening a record leaves the receiver's own sealed history alone. */
  lemma OpenKeepsSealed(a: Aead, s: Secrets, r: Endpoint, input: seq<byte>, library: Library)
    requires Inv(a, s, r)
    ensures var n := Apply(a, r, CallOpen(input), library).0;
            Inv(a, s, n) && n.role == r.role && n.sealed == r.sealed && (r.state.Terminal() ==> n == r)
  {
    StepInv(a, s, r, Call(CallOpen(input), library));
    OpenStep(a, s, r, input, library);
    FailKeepsHistory(r, Apply(a, r, CallOpen(input), library).0);
  }

  lemma DeliverKeeps(a: Aead, s: Secrets, p: Endpoint, r: Endpoint, q: seq<seq<byte>>, back: seq<seq<byte>>,
                     library: Library)
    requires Correct(a) && Inv(a, s, p) && Inv(a, s, r) && p.role != r.role
    requires Carries(a, s, p, r, q) && Carries(a, s, r, p, back) && q != []
    ensures var n := Apply(a, r, CallOpen(q[0]), library).0;
            Inv(a, s, n) && n.role == r.role && Carries(a, s, p, n, q[1..]) && Carries(a, s, n, p, back)
  {
    var n := Apply(a, r, CallOpen(q[0]), library).0;
    OpenKeepsSealed(a, s, r, q[0], library);
    if r.state.Terminal() {
      HeadDropped(a, s, p, r, q, n);
    } else {
      LiveDelivery(a, s, p, r, q, back, library);
    }
    SenderKept(a, s, r, p, back, n);
  }

  lemma LocalKeeps(a: Aead, s: Secrets, e: Endpoint, peer: Endpoint, out: seq<seq<byte>>, inbox: seq<seq<byte>>,
                   op: Op, library: Library)
    requires Inv(a, s, e) && !op.CallOpen?
    requires Carries(a, s, e, peer, out) && Carries(a, s, peer, e, inbox)
    ensures var (n, outcome) := Apply(a, e, op, library);
            && Inv(a, s, n) && n.role == e.role
            && Carries(a, s, n, peer, if outcome.Sealed? then out + [outcome.wire] else out)
            && Carries(a, s, peer, n, inbox)
  {
    var (n, outcome) := Apply(a, e, op, library);
    StepInv(a, s, e, Call(op, library));
    FailKeepsHistory(e, n);
    if op.CallAbort? {
      SenderKept(a, s, e, peer, out, n);
      ReceiverKept(a, s, peer, e, inbox, n);
    } else {
      SealStep(a, s, e, op, library);
      SealCarries(a, s, e, peer, out, op, n, outcome);
      if e.state.Terminal() {
        TerminalAbsorbs(a, e, Call(op, library));
      }
      ReceiverKept(a, s, peer, e, inbox, n);
    }
  }

  lemma LinkParts(a: Aead, s: Secrets, l: Link, who: Role)
    requires LinkInv(a, s, l)
    ensures var e, p := l.Party(who), l.Party(Peer(who));
            && Inv(a, s, e) && Inv(a, s, p) && e.role == who && p.role == Peer(who)
            && Carries(a, s, p, e, l.Inbox(who)) && Carries(a, s, e, p, l.Inbox(Peer(who)))
            && e.received <= p.sealed
  {
    if who == Client {
    } else {
    }
  }

  lemma LinkWhole(a: Aead, s: Secrets, l: Link, who: Role)
    requires Inv(a, s, l.Party(who)) && Inv(a, s, l.Party(Peer(who)))
    requires l.Party(who).role == who && l.Party(Peer(who)).role == Peer(who)
    requires Carries(a, s, l.Party(Peer(who)), l.Party(who), l.Inbox(who))
    requires Carries(a, s, l.Party(who), l.Party(Peer(who)), l.Inbox(Peer(who)))
    ensures LinkInv(a, s, l)
  {
    if who == Client {
    } else {
    }
  }

  lemma LocalStep(a: Aead, l: Link, who: Role, op: Op, library: Library)
    requires l.Shaped() && !op.CallOpen?
    ensures var (n, outcome) := Apply(a, l.Party(who), op, library);
            var m := Step(a, l, Local(who, op, library));
            && m.Party(who) == n && m.Party(Peer(who)) == l.Party(Peer(who)) && m.Inbox(who) == l.Inbox(who)
            && m.Inbox(Peer(who))
               == if outcome.Sealed? then l.Inbox(Peer(who)) + [outcome.wire] else l.Inbox(Peer(who))
  {
  }

  lemma DeliverStep(a: Aead, l: Link, who: Role, library: Library)
    requires l.Shaped() && l.Inbox(who) != []
    ensures var m := Step(a, l, Deliver(who, library));
            && m.Party(who) == Apply(a, l.Party(who), CallOpen(l.Inbox(who)[0]), library).0
            && m.Party(Peer(who)) == l.Party(Peer(who))
            && m.Inbox(who) == l.Inbox(who)[1..] && m.Inbox(Peer(who)) == l.Inbox(Peer(who))
  {
  }

  lemma StepKeeps(a: Aead, s: Secrets, l: Link, ev: Event)
    requires Correct(a) && LinkInv(a, s, l)
    ensures LinkInv(a, s, Step(a, l, ev))
  {
    var e, peer := l.Party(ev.who), l.Party(Peer(ev.who));
    LinkParts(a, s, l, ev.who);
    match ev
    case Local(who, op, library) =>
      if !op.CallOpen? {
        LocalKeeps(a, s, e, peer, l.Inbox(Peer(who)), l.Inbox(who), op, library);
        LocalStep(a, l, who, op, library);
        LinkWhole(a, s, Step(a, l, ev), who);
      }
    case Deliver(who, library) =>
      if l.Inbox(who) != [] {
        DeliverKeeps(a, s, peer, e, l.Inbox(who), l.Inbox(Peer(who)), library);
        DeliverStep(a, l, who, library);
        LinkWhole(a, s, Step(a, l, ev), who);
      }
  }

  lemma {:induction false} RunKeeps(a: Aead, s: Secrets, events: seq<Event>)
    requires Correct(a) && |s.traffic| == MATERIAL_COUNT
    ensures LinkInv(a, s, RunLink(a, Linked(s), events))
  {
    if events == [] {
      FreshInv(a, Client, s);
      FreshInv(a, Server, s);
    } else {
      RunKeeps(a, s, events[..|events| - 1]);
      StepKeeps(a, s, RunLink(a, Linked(s), events[..|events| - 1]), events[|events| - 1]);
    }
  }

  // ---------- theorems

  /**
   * Opening the oldest record in flight returns exactly the record the peer sealed, except that Data or RefreshRequired
   * crossing the receiver's own Close is refused and fails the session.
   */
  lemma ProgressOf(a: Aead, s: Secrets, e: Endpoint, peer: Endpoint, q: seq<seq<byte>>, back: seq<seq<byte>>)
    requires Correct(a) && Inv(a, s, e) && Inv(a, s, peer) && e.role != peer.role
    requires Carries(a, s, peer, e, q) && Carries(a, s, e, peer, back)
    requires !e.state.Terminal() && q != []
    ensures |e.received| < |peer.sealed|
    ensures var r := peer.sealed[|e.received|];
            && Follows(e.received, r)
            && Apply(a, e, CallOpen(q[0]), Works).1
               == if CrossesClose(e, r) then Refused(InvalidState) else Opened(Delivered(r))
  {
    HeadIsNext(a, s, peer, e, q);
    NextStateValid(a, s, e, peer, |e.received|);
    NextOpens(a, s, e, peer.role, peer.sealed[|e.received|]);
  }

  lemma ClosedOpenedAll(a: Aead, s: Secrets, e: Endpoint, peer: Endpoint)
    requires Inv(a, s, e) && Inv(a, s, peer) && e.received <= peer.sealed && e.state == Closed
    ensures e.received == peer.sealed
  {
    LawfulOrder(peer.sealed, |e.received| - 1);
  }

  /** On a reliable link an end that is Closed has opened everything its peer ever sealed. */
  lemma ClosedMeansComplete(a: Aead, s: Secrets, events: seq<Event>, who: Role)
    requires Correct(a) && |s.traffic| == MATERIAL_COUNT
    requires RunLink(a, Linked(s), events).Party(who).state == Closed
    ensures var l := RunLink(a, Linked(s), events);
            l.Party(who).received == l.Party(Peer(who)).sealed
  {
    var l := RunLink(a, Linked(s), events);
    RunKeeps(a, s, events);
    ClosedOpenedAll(a, s, l.Party(who), l.Party(Peer(who)));
  }

  /** The receiver after opening a whole queue in order. */
  function Drain(a: Aead, e: Endpoint, q: seq<seq<byte>>): (r: Endpoint)
    requires e.Shaped()
    ensures r.Shaped()
    decreases |q|
  {
    if q == [] then e else Drain(a, Apply(a, e, CallOpen(q[0]), Works).0, q[1..])
  }

  lemma {:induction false} DrainEnded(a: Aead, e: Endpoint, q: seq<seq<byte>>)
    requires e.Shaped() && e.state.Terminal()
    ensures Drain(a, e, q) == e
    decreases |q|
  {
    if q != [] {
      TerminalAbsorbs(a, e, Call(CallOpen(q[0]), Works));
      DrainEnded(a, e, q[1..]);
    }
  }

  /** The record that fills a context, and a Close, is the last record sealed. */
  lemma {:induction false} FillsLast(recs: seq<Rec>, k: nat)
    requires Lawful(recs) && k < |recs|
    requires recs[k].kind == Close || recs[k].sequence + 1 == HARD_RECORD_LIMIT
    ensures k == |recs| - 1
  {
    if k < |recs| - 1 {
      FullFrom(recs, k, |recs| - 1);
    }
  }

  lemma {:induction false} FullFrom(recs: seq<Rec>, k: nat, j: nat)
    requires Lawful(recs) && k < j < |recs|
    ensures recs[k].kind != Close && recs[k].sequence + 1 < HARD_RECORD_LIMIT
  {
    if j == |recs| - 1 {
      var front := recs[..j];
      LawfulPlace(front, k);
      if k < j - 1 {
        FullFrom(front, k, j - 1);
      }
    } else {
      FullFrom(recs[..|recs| - 1], k, j);
    }
  }

  /** Some record not yet opened will cross the receiver's own Close. */
  ghost predicate SomeCrosses(e: Endpoint, sealed: seq<Rec>) {
    exists i :: |e.received| <= i < |sealed| && CrossesClose(e, sealed[i])
  }

  lemma CrossesHead(e: Endpoint, n: Endpoint, sealed: seq<Rec>)
    requires |n.received| == |e.received| + 1 <= |sealed| && n.localClose == e.localClose
    ensures SomeCrosses(e, sealed) <==> CrossesClose(e, sealed[|e.received|]) || SomeCrosses(n, sealed)
  {
    if SomeCrosses(n, sealed) {
      var i :| |n.received| <= i < |sealed| && CrossesClose(n, sealed[i]);
      assert CrossesClose(e, sealed[i]);
    }
    if SomeCrosses(e, sealed) {
      var i :| |e.received| <= i < |sealed| && CrossesClose(e, sealed[i]);
      assert CrossesClose(n, sealed[i]);
    }
  }

  /** One step of draining: the head crosses and ends everything, or it is taken and the rest remains. */
  lemma DrainHead(a: Aead, s: Secrets, e: Endpoint, peer: Endpoint, q: seq<seq<byte>>, back: seq<seq<byte>>)
    requires Correct(a) && Inv(a, s, e) && Inv(a, s, peer) && e.role != peer.role
    requires Carries(a, s, peer, e, q) && Carries(a, s, e, peer, back)
    requires !e.state.Terminal() && q != []
    ensures |e.received| < |peer.sealed|
    ensures var n := Apply(a, e, CallOpen(q[0]), Works).0;
            var r := peer.sealed[|e.received|];
            if CrossesClose(e, r) then n.state.Terminal() && n.received == e.received
            else Taken(e, r, n) && (n.state.Terminal() ==> |e.received| == |peer.sealed| - 1)
  {
    var k := |e.received|;
    HeadIsNext(a, s, peer, e, q);
    NextStateValid(a, s, e, peer, k);
    NextOpens(a, s, e, peer.role, peer.sealed[k]);
    FailKeepsHistory(e, Apply(a, e, CallOpen(q[0]), Works).0);
    if peer.sealed[k].kind == Close || peer.sealed[k].sequence + 1 == HARD_RECORD_LIMIT {
      FillsLast(peer.sealed, k);
    }
  }

  /** The receiver after the head of its queue, which is still tied to its peer. */
  lemma DrainStep(a: Aead, s: Secrets, e: Endpoint, peer: Endpoint, q: seq<seq<byte>>, back: seq<seq<byte>>)
    returns (n: Endpoint)
    requires Correct(a) && Inv(a, s, e) && Inv(a, s, peer) && e.role != peer.role
    requires Carries(a, s, peer, e, q) && Carries(a, s, e, peer, back)
    requires !e.state.Terminal() && q != []
    ensures Inv(a, s, n) && n.role == e.role && Carries(a, s, peer, n, q[1..]) && Carries(a, s, n, peer, back)
    ensures Drain(a, e, q) == Drain(a, n, q[1..])
    ensures |e.received| < |peer.sealed|
    ensures var r := peer.sealed[|e.received|];
            if CrossesClose(e, r) then n.state.Terminal() && n.received == e.received
            else Taken(e, r, n) && (n.state.Terminal() ==> |e.received| == |peer.sealed| - 1)
  {
    n := Apply(a, e, CallOpen(q[0]), Works).0;
    DrainHead(a, s, e, peer, q, back);
    DeliverKeeps(a, s, peer, e, q, back, Works);
  }

  /** Where the head ends the receiver, it was the last record, or it crossed the local Close. */
  lemma EndedByHead(e: Endpoint, n: Endpoint, sealed: seq<Rec>)
    requires e.received <= sealed && |e.received| < |sealed|
    requires var r := sealed[|e.received|];
             if CrossesClose(e, r) then n.received == e.received
             else Taken(e, r, n) && |e.received| == |sealed| - 1
    ensures n.received == sealed <==> !SomeCrosses(e, sealed)
  {
    if !CrossesClose(e, sealed[|e.received|]) {
      CrossesHead(e, n, sealed);
    }
  }

  lemma {:induction false} DrainOpens(a: Aead, s: Secrets, e: Endpoint, peer: Endpoint, q: seq<seq<byte>>,
                                      back: seq<seq<byte>>)
    requires Correct(a) && Inv(a, s, e) && Inv(a, s, peer) && e.role != peer.role
    requires Carries(a, s, peer, e, q) && Carries(a, s, e, peer, back)
    requires !e.state.Terminal()
    ensures Drain(a, e, q).received == peer.sealed <==> !SomeCrosses(e, peer.sealed)
    decreases |q|
  {
    if q != [] {
      var n := DrainStep(a, s, e, peer, q, back);
      if n.state.Terminal() {
        DrainEnded(a, n, q[1..]);
        EndedByHead(e, n, peer.sealed);
      } else {
        CrossesHead(e, n, peer.sealed);
        DrainOpens(a, s, n, peer, q[1..], back);
      }
    }
  }

  /**
   * Nothing is lost on a reliable link, whatever ended the sender: a live receiver that empties its queue has then
   * opened every record its peer ever sealed, exactly unless it has sealed its own Close and a Data or
   * RefreshRequired record was still in flight.
   */
  lemma DrainDeliversEverything(a: Aead, s: Secrets, events: seq<Event>, who: Role)
    requires Correct(a) && |s.traffic| == MATERIAL_COUNT
    requires !RunLink(a, Linked(s), events).Party(who).state.Terminal()
    ensures var l := RunLink(a, Linked(s), events);
            var e, sealed := l.Party(who), l.Party(Peer(who)).sealed;
            && |e.received| + |l.Inbox(who)| == |sealed|
            && (Drain(a, e, l.Inbox(who)).received == sealed <==> !SomeCrosses(e, sealed))
  {
    var l := RunLink(a, Linked(s), events);
    RunKeeps(a, s, events);
    DrainOpens(a, s, l.Party(who), l.Party(Peer(who)), l.Inbox(who), l.Inbox(Peer(who)));
  }
}
