/**
 * A whole session on a reliable link without library failures: commits, any exchange of data, and closes leave both
 * ends Closed, each with exactly what the other one sent.
 */
module SessionCompletes {
  import opened Bytes
  import opened Profile
  import opened Record
  import opened EndpointModel
  import opened EndpointInvariant
  import opened EndpointRuns
  import opened Adversary
  import opened FifoLink
  import opened LinkAnswers

  // ---------- one end

  lemma {:induction false} PrefixOnChannel(recs: seq<Rec>, k: nat, c: Channel)
    requires k <= |recs|
    ensures |OnChannel(recs[..k], c)| <= |OnChannel(recs, c)|
  {
    if k < |recs| {
      PrefixOnChannel(recs[..|recs| - 1], k, c);
      assert recs[..|recs| - 1][..k] == recs[..k];
    } else {
      assert recs[..k] == recs;
    }
  }

  /** A record that comes next in a history that fills no context fills none. */
  lemma NextFillsNone(recs: seq<Rec>, k: nat)
    requires Roomy(recs) && k < |recs|
    ensures |OnChannel(recs[..k], recs[k].channel)| + 1 < HARD_RECORD_LIMIT
  {
    var c := recs[k].channel;
    PrefixOnChannel(recs, k + 1, c);
    AppendOnChannel(recs[..k], recs[k], c);
    assert recs[..k + 1] == recs[..k] + [recs[k]];
  }

  lemma LiveIsRoomy(a: Aead, s: Secrets, e: Endpoint)
    requires Inv(a, s, e) && !e.state.Terminal()
    ensures Roomy(e.sealed)
  {
  }

  /** A live end whose own and whose peer's history know no Close is Committing or Active, as its history says. */
  lemma LiveState(a: Aead, s: Secrets, e: Endpoint, p: Endpoint)
    requires Inv(a, s, e) && Inv(a, s, p) && !e.state.Terminal() && e.received <= p.sealed
    requires !EndsInClose(e.sealed) && !EndsInClose(p.sealed)
    ensures !EndsInClose(e.received) && !e.localClose && !e.peerClose
    ensures e.localCommit == (e.sealed != [])
    ensures e.state == if e.sealed != [] && e.received != [] then Active else Committing
  {
    if EndsInClose(e.received) {
      LawfulOrder(p.sealed, |e.received| - 1);
    }
  }

  /** `n` is `e` with the record of `op` sealed. */
  ghost predicate SentOne(e: Endpoint, op: Op, n: Endpoint)
    requires IsSeal(op)
  {
    n.sealed == e.sealed + [SealedRec(e, op)] && n.received == e.received && n.role == e.role
  }

  lemma SealLive(a: Aead, s: Secrets, e: Endpoint, op: Op)
    requires Correct(a) && Inv(a, s, e) && IsSeal(op) && SealAllowed(e, op)
    requires |OnChannel(e.sealed, SealedRec(e, op).channel)| + 1 < HARD_RECORD_LIMIT
    ensures var (n, outcome) := Apply(a, e, op, Works);
            && outcome.Sealed? && SentOne(e, op, n)
            && (n.state.Terminal() <==> op.CallSealClose? && e.peerClose)
            && (n.state == Closed <==> op.CallSealClose? && e.peerClose)
  {
    SealSucceeds(a, s, e, op, Works);
    SealStep(a, s, e, op, Works);
  }

  lemma OpenLive(a: Aead, s: Secrets, e: Endpoint, p: Endpoint, q: seq<seq<byte>>, back: seq<seq<byte>>)
    requires Correct(a) && Inv(a, s, e) && Inv(a, s, p) && e.role != p.role
    requires Carries(a, s, p, e, q) && Carries(a, s, e, p, back)
    requires !e.state.Terminal() && q != []
    requires |e.received| < |p.sealed| ==> !CrossesClose(e, p.sealed[|e.received|])
    requires Roomy(p.sealed)
    ensures |e.received| < |p.sealed|
    ensures var n := Apply(a, e, CallOpen(q[0]), Works).0;
            var r := p.sealed[|e.received|];
            && Taken(e, r, n)
            && (n.state.Terminal() <==> r.kind == Close && e.localClose)
  {
    DrainHead(a, s, e, p, q, back);
    NextFillsNone(p.sealed, |e.received|);
    assert e.received == p.sealed[..|e.received|];
  }

  lemma HearLive(a: Aead, s: Secrets, e: Endpoint, p: Endpoint, q: seq<seq<byte>>, back: seq<seq<byte>>)
    requires Correct(a) && Inv(a, s, e) && Inv(a, s, p) && e.role != p.role
    requires Carries(a, s, p, e, q) && Carries(a, s, e, p, back) && q != []
    requires !e.state.Terminal() && !EndsInClose(e.sealed)
    requires !p.state.Terminal() && !EndsInClose(p.sealed)
    ensures |e.received| < |p.sealed|
    ensures var n := Apply(a, e, CallOpen(q[0]), Works).0;
            && n.sealed == e.sealed && n.received == e.received + [p.sealed[|e.received|]] && !n.state.Terminal()
  {
    HeadIsNext(a, s, p, e, q);
    LiveState(a, s, e, p);
    LiveIsRoomy(a, s, p);
    OpenLive(a, s, e, p, q, back);
  }

  // ---------- what the ends say

  /** A record without its number. */
  datatype Content = Content(kind: RecordType, channel: Channel, plaintext: seq<byte>)

  function Contents(recs: seq<Rec>): seq<Content> {
    if recs == [] then []
    else
      var r := recs[|recs| - 1];
      Contents(recs[..|recs| - 1]) + [Content(r.kind, r.channel, r.plaintext)]
  }

  const COMMIT := Content(Commit, Guard, [])
  const CLOSE := Content(Close, Guard, [])

  /** One step of a conversation: an end says something or opens the oldest record on its way to it. */
  datatype Turn = Say(who: Role, op: Op) | Hear(who: Role)

  predicate Proper(turn: Turn) {
    turn.Say? ==>
      turn.op.CallSealRefreshRequired? || (turn.op.CallSealData? && |turn.op.plaintext| <= MAX_PLAINTEXT)
  }

  predicate AllProper(talk: seq<Turn>) {
    forall k :: 0 <= k < |talk| ==> Proper(talk[k])
  }

  function EventOf(turn: Turn): Event {
    match turn
    case Say(who, op) => Local(who, op, Works)
    case Hear(who) => Deliver(who, Works)
  }

  function Events(talk: seq<Turn>): (events: seq<Event>)
    ensures |events| == |talk|
  {
    if talk == [] then [] else Events(talk[..|talk| - 1]) + [EventOf(talk[|talk| - 1])]
  }

  /** What `who` says in a conversation. */
  function Spoken(talk: seq<Turn>, who: Role): seq<Content> {
    if talk == [] then []
    else
      var front, last := Spoken(talk[..|talk| - 1], who), talk[|talk| - 1];
      if last.Say? && last.who == who && IsSeal(last.op) then front + [ContentOf(last.op)] else front
  }

  function ContentOf(op: Op): Content
    requires IsSeal(op)
  {
    match op
    case CallSealCommit => COMMIT
    case CallSealData(c, plaintext) => Content(Data, c, plaintext)
    case CallSealRefreshRequired => Content(RefreshRequired, Guard, [])
    case CallSealClose => CLOSE
  }

  lemma SaidContent(e: Endpoint, op: Op, n: Endpoint)
    requires IsSeal(op) && SentOne(e, op, n)
    ensures Contents(n.sealed) == Contents(e.sealed) + [ContentOf(op)]
  {
    assert n.sealed[..|e.sealed|] == e.sealed;
  }

  lemma {:induction false} ContentsLength(recs: seq<Rec>)
    ensures |Contents(recs)| == |recs|
  {
    if recs != [] {
      ContentsLength(recs[..|recs| - 1]);
    }
  }

  // ---------- room to say it

  function OnLine(contents: seq<Content>, c: Channel): nat {
    if contents == [] then 0
    else
      OnLine(contents[..|contents| - 1], c) + if contents[|contents| - 1].channel == c then 1 else 0
  }

  lemma OnLineAppend(contents: seq<Content>, x: Content, c: Channel)
    ensures OnLine(contents + [x], c) == OnLine(contents, c) + if x.channel == c then 1 else 0
  {
    assert (contents + [x])[..|contents|] == contents;
  }

  lemma {:induction false} ContentsOnLine(recs: seq<Rec>, c: Channel)
    ensures OnLine(Contents(recs), c) == |OnChannel(recs, c)|
  {
    if recs != [] {
      var front, r := recs[..|recs| - 1], recs[|recs| - 1];
      ContentsOnLine(front, c);
      OnLineAppend(Contents(front), Content(r.kind, r.channel, r.plaintext), c);
    }
  }

  /** A Commit, what `said` lists, and a Close fill no context. */
  ghost predicate Room(said: seq<Content>) {
    forall c :: OnLine([COMMIT] + said + [CLOSE], c) < HARD_RECORD_LIMIT
  }

  lemma LessHasRoom(said: seq<Content>, x: Content)
    requires Room(said + [x])
    ensures Room(said)
  {
    forall c
      ensures OnLine([COMMIT] + said + [CLOSE], c) < HARD_RECORD_LIMIT
    {
      assert [COMMIT] + (said + [x]) == [COMMIT] + said + [x];
      OnLineAppend([COMMIT] + said, x, c);
      OnLineAppend([COMMIT] + said + [x], CLOSE, c);
      OnLineAppend([COMMIT] + said, CLOSE, c);
    }
  }

  lemma RoomToSay(e: Endpoint, said: seq<Content>, op: Op)
    requires Contents(e.sealed) == [COMMIT] + said && IsSeal(op)
    requires if op.CallSealClose? then Room(said) else Room(said + [ContentOf(op)])
    ensures |OnChannel(e.sealed, SealedRec(e, op).channel)| + 1 < HARD_RECORD_LIMIT
  {
    var c := SealedRec(e, op).channel;
    ContentsOnLine(e.sealed, c);
    OnLineAppend([COMMIT] + said, ContentOf(op), c);
    if !op.CallSealClose? {
      assert [COMMIT] + (said + [ContentOf(op)]) == [COMMIT] + said + [ContentOf(op)];
      OnLineAppend([COMMIT] + said + [ContentOf(op)], CLOSE, c);
    }
  }

  // ---------- one end in a conversation

  /** A live end that has sealed exactly a Commit and what `said` lists. */
  ghost predicate Speaks(e: Endpoint, said: seq<Content>) {
    !e.state.Terminal() && !EndsInClose(e.sealed) && Contents(e.sealed) == [COMMIT] + said
  }

  /** And that has received something as well. */
  ghost predicate Talks(e: Endpoint, said: seq<Content>) {
    Speaks(e, said) && e.received != []
  }

  lemma TalksLength(e: Endpoint, said: seq<Content>)
    requires Speaks(e, said)
    ensures |e.sealed| == |said| + 1
  {
    ContentsLength(e.sealed);
  }

  lemma TalksIsActive(a: Aead, s: Secrets, e: Endpoint, p: Endpoint, said: seq<Content>)
    requires Inv(a, s, e) && Inv(a, s, p) && e.received <= p.sealed && Talks(e, said) && !EndsInClose(p.sealed)
    ensures e.state == Active && !e.localClose && !e.peerClose
  {
    TalksLength(e, said);
    LiveState(a, s, e, p);
  }

  lemma SaysOne(e: Endpoint, op: Op, n: Endpoint, said: seq<Content>)
    requires Talks(e, said) && IsSeal(op) && !op.CallSealClose? && SentOne(e, op, n) && !n.state.Terminal()
    ensures Talks(n, said + [ContentOf(op)])
  {
    SaidContent(e, op, n);
    assert n.sealed[|n.sealed| - 1] == SealedRec(e, op);
  }

  lemma SayEnd(a: Aead, s: Secrets, e: Endpoint, p: Endpoint, op: Op, said: seq<Content>)
    requires Correct(a) && Inv(a, s, e) && Inv(a, s, p) && e.received <= p.sealed && !EndsInClose(p.sealed)
    requires Talks(e, said) && Proper(Say(e.role, op)) && Room(said + [ContentOf(op)])
    ensures var (n, outcome) := Apply(a, e, op, Works);
            outcome.Sealed? && Talks(n, said + [ContentOf(op)])
  {
    TalksIsActive(a, s, e, p, said);
    RoomToSay(e, said, op);
    SealLive(a, s, e, op);
    SaysOne(e, op, Apply(a, e, op, Works).0, said);
  }

  lemma HearEnd(a: Aead, s: Secrets, e: Endpoint, p: Endpoint, q: seq<seq<byte>>, back: seq<seq<byte>>,
                said: seq<Content>)
    requires Correct(a) && Inv(a, s, e) && Inv(a, s, p) && e.role != p.role
    requires Carries(a, s, p, e, q) && Carries(a, s, e, p, back) && q != []
    requires Speaks(e, said) && !p.state.Terminal() && !EndsInClose(p.sealed)
    ensures Talks(Apply(a, e, CallOpen(q[0]), Works).0, said)
  {
    HearLive(a, s, e, p, q, back);
  }

  // ---------- conversations

  lemma RunAppend(a: Aead, l: Link, first: seq<Event>, second: seq<Event>)
    requires l.Shaped()
    ensures RunLink(a, l, first + second) == RunLink(a, RunLink(a, l, first), second)
    decreases |second|
  {
    if second == [] {
      assert first + second == first;
    } else {
      var front := second[..|second| - 1];
      RunAppend(a, l, first, front);
      assert (first + second)[..|first + second| - 1] == first + front;
    }
  }

  /** A successful seal changes one end and the queue towards the other. */
  lemma SayShape(a: Aead, l: Link, who: Role, op: Op)
    requires l.Shaped() && IsSeal(op) && Apply(a, l.Party(who), op, Works).1.Sealed?
    ensures var n := Step(a, l, Local(who, op, Works));
            && n.Party(who) == Apply(a, l.Party(who), op, Works).0
            && n.Party(Peer(who)) == l.Party(Peer(who))
            && |n.Inbox(Peer(who))| == |l.Inbox(Peer(who))| + 1 && n.Inbox(who) == l.Inbox(who)
  {
  }

  /** The link after the events `past`, from the start. */
  ghost predicate Reached(a: Aead, s: Secrets, l: Link, past: seq<Event>) {
    |s.traffic| == MATERIAL_COUNT && l == RunLink(a, Linked(s), past)
  }

  lemma ReachedStep(a: Aead, s: Secrets, l: Link, past: seq<Event>, ev: Event)
    requires Reached(a, s, l, past)
    ensures l.Shaped() && Reached(a, s, Step(a, l, ev), past + [ev])
  {
    assert (past + [ev])[..|past|] == past;
  }

  lemma ReachedRun(a: Aead, s: Secrets, l: Link, past: seq<Event>, events: seq<Event>)
    requires Reached(a, s, l, past)
    ensures l.Shaped() && Reached(a, s, RunLink(a, l, events), past + events)
  {
    RunAppend(a, Linked(s), past, events);
  }

  /** What the invariant of the link says about one direction and its ends. */
  lemma Directions(a: Aead, s: Secrets, l: Link, past: seq<Event>, who: Role)
    requires Correct(a) && Reached(a, s, l, past)
    ensures var e, p := l.Party(who), l.Party(Peer(who));
            && Inv(a, s, e) && Inv(a, s, p) && e.role == who && p.role == Peer(who)
            && Carries(a, s, p, e, l.Inbox(who)) && Carries(a, s, e, p, l.Inbox(Peer(who)))
            && e.received <= p.sealed
  {
    RunKeeps(a, s, past);
    LinkParts(a, s, l, who);
  }

  /** Both ends talk, and have said what the two lists say. */
  ghost predicate Talking(l: Link, client: seq<Content>, server: seq<Content>) {
    Talks(l.client, client) && Talks(l.server, server)
  }

  function Said(said: seq<Content>, speaks: bool, op: Op): seq<Content>
    requires IsSeal(op)
  {
    if speaks then said + [ContentOf(op)] else said
  }

  lemma SayTurn(a: Aead, s: Secrets, l: Link, past: seq<Event>, who: Role, op: Op, client: seq<Content>,
                server: seq<Content>)
    requires Correct(a) && Reached(a, s, l, past) && Talking(l, client, server) && Proper(Say(who, op))
    requires Room(Said(client, who == Client, op)) && Room(Said(server, who == Server, op))
    ensures Talking(Step(a, l, Local(who, op, Works)), Said(client, who == Client, op), Said(server, who == Server, op))
  {
    Directions(a, s, l, past, who);
    SayEnd(a, s, l.Party(who), l.Party(Peer(who)), op, if who == Client then client else server);
    SayShape(a, l, who, op);
  }

  lemma HearStep(a: Aead, s: Secrets, l: Link, past: seq<Event>, who: Role, said: seq<Content>) returns (n: Link)
    requires Correct(a) && Reached(a, s, l, past) && l.Inbox(who) != [] && Speaks(l.Party(who), said)
    requires !l.Party(Peer(who)).state.Terminal() && !EndsInClose(l.Party(Peer(who)).sealed)
    ensures n == Step(a, l, Deliver(who, Works))
    ensures Talks(n.Party(who), said) && n.Party(Peer(who)) == l.Party(Peer(who))
    ensures n.Inbox(who) == l.Inbox(who)[1..] && n.Inbox(Peer(who)) == l.Inbox(Peer(who))
  {
    Directions(a, s, l, past, who);
    HearEnd(a, s, l.Party(who), l.Party(Peer(who)), l.Inbox(who), l.Inbox(Peer(who)), said);
    DeliverStep(a, l, who, Works);
    n := Step(a, l, Deliver(who, Works));
  }

  lemma HeardTalking(l: Link, n: Link, who: Role, client: seq<Content>, server: seq<Content>)
    requires Talking(l, client, server) && Talks(n.Party(who), if who == Client then client else server)
    requires n.Party(Peer(who)) == l.Party(Peer(who))
    ensures Talking(n, client, server)
  {
  }

  lemma HearTurn(a: Aead, s: Secrets, l: Link, past: seq<Event>, who: Role, client: seq<Content>, server: seq<Content>)
    returns (n: Link)
    requires Correct(a) && Reached(a, s, l, past) && Talking(l, client, server)
    ensures n == Step(a, l, Deliver(who, Works)) && Talking(n, client, server)
    ensures |n.Inbox(who)| == (if l.Inbox(who) == [] then 0 else |l.Inbox(who)| - 1)
    ensures n.Inbox(Peer(who)) == l.Inbox(Peer(who))
  {
    if l.Inbox(who) == [] {
      n := l;
    } else {
      n := HearStep(a, s, l, past, who, if who == Client then client else server);
      HeardTalking(l, n, who, client, server);
    }
  }

  lemma TurnSpoken(talk: seq<Turn>, turn: Turn, who: Role)
    requires Proper(turn)
    ensures Spoken(talk + [turn], who) ==
              if turn.Say? then Said(Spoken(talk, who), turn.who == who, turn.op) else Spoken(talk, who)
  {
    assert (talk + [turn])[..|talk|] == talk;
  }

  /** No context is filled by what the ends say. */
  ghost predicate Short(talk: seq<Turn>) {
    Room(Spoken(talk, Client)) && Room(Spoken(talk, Server))
  }

  lemma TurnKeepsTalking(a: Aead, s: Secrets, l: Link, past: seq<Event>, talk: seq<Turn>, turn: Turn)
    requires Correct(a) && Reached(a, s, l, past) && Proper(turn) && Short(talk + [turn])
    requires Talking(l, Spoken(talk, Client), Spoken(talk, Server))
    ensures Talking(Step(a, l, EventOf(turn)), Spoken(talk + [turn], Client), Spoken(talk + [turn], Server))
  {
    TurnSpoken(talk, turn, Client);
    TurnSpoken(talk, turn, Server);
    match turn
    case Say(who, op) => SayTurn(a, s, l, past, who, op, Spoken(talk, Client), Spoken(talk, Server));
    case Hear(who) =>
      var n := HearTurn(a, s, l, past, who, Spoken(talk, Client), Spoken(talk, Server));
  }

  lemma EventsLast(a: Aead, l: Link, talk: seq<Turn>)
    requires l.Shaped() && talk != []
    ensures RunLink(a, l, Events(talk))
            == Step(a, RunLink(a, l, Events(talk[..|talk| - 1])), EventOf(talk[|talk| - 1]))
  {
    assert Events(talk)[..|talk| - 1] == Events(talk[..|talk| - 1]);
  }

  /** After the conversation both ends still talk, and have said what it says. */
  ghost predicate TalkedOn(a: Aead, l: Link, talk: seq<Turn>)
    requires l.Shaped()
  {
    Talking(RunLink(a, l, Events(talk)), Spoken(talk, Client), Spoken(talk, Server))
  }

  lemma OneMoreTurn(a: Aead, s: Secrets, l: Link, past: seq<Event>, front: seq<Turn>, turn: Turn)
    requires Correct(a) && Reached(a, s, l, past) && Proper(turn)
    requires Short(front + [turn]) && TalkedOn(a, l, front)
    ensures TalkedOn(a, l, front + [turn])
  {
    ReachedRun(a, s, l, past, Events(front));
    TurnKeepsTalking(a, s, RunLink(a, l, Events(front)), past + Events(front), front, turn);
    assert (front + [turn])[..|front|] == front;
    EventsLast(a, l, front + [turn]);
  }

  lemma FrontHasRoom(talk: seq<Turn>, who: Role)
    requires talk != [] && Proper(talk[|talk| - 1]) && Room(Spoken(talk, who))
    ensures Room(Spoken(talk[..|talk| - 1], who))
  {
    var front, last := talk[..|talk| - 1], talk[|talk| - 1];
    if last.Say? && last.who == who {
      LessHasRoom(Spoken(front, who), ContentOf(last.op));
    }
  }

  lemma FrontIsShort(talk: seq<Turn>)
    requires talk != [] && AllProper(talk) && Short(talk)
    ensures AllProper(talk[..|talk| - 1]) && Short(talk[..|talk| - 1]) && Proper(talk[|talk| - 1])
  {
    FrontHasRoom(talk, Client);
    FrontHasRoom(talk, Server);
  }

  /** A conversation keeps both ends talking, and each has sealed exactly what it said. */
  lemma {:induction false} TalkGoesOn(a: Aead, s: Secrets, l: Link, past: seq<Event>, talk: seq<Turn>)
    requires Correct(a) && Reached(a, s, l, past) && TalkedOn(a, l, []) && AllProper(talk) && Short(talk)
    ensures TalkedOn(a, l, talk)
  {
    if talk != [] {
      var front, last := talk[..|talk| - 1], talk[|talk| - 1];
      assert front + [last] == talk;
      FrontIsShort(talk);
      TalkGoesOn(a, s, l, past, front);
      OneMoreTurn(a, s, l, past, front, last);
    }
  }

  // ---------- the commit exchange

  function Commits(who: Role): Event {
    Local(who, CallSealCommit, Works)
  }

  function Closes(who: Role): Event {
    Local(who, CallSealClose, Works)
  }

  function Hears(who: Role): Event {
    Deliver(who, Works)
  }

  lemma CommitEnd(a: Aead, s: Secrets, e: Endpoint)
    requires Correct(a) && Inv(a, s, e) && e.state == Committing && !e.localCommit
    ensures var (n, outcome) := Apply(a, e, CallSealCommit, Works);
            outcome.Sealed? && Speaks(n, []) && n.received == e.received
  {
    SealLive(a, s, e, CallSealCommit);
    SaidContent(e, CallSealCommit, Apply(a, e, CallSealCommit, Works).0);
  }

  lemma CommitStep(a: Aead, s: Secrets, l: Link, past: seq<Event>, who: Role) returns (n: Link)
    requires Correct(a) && Reached(a, s, l, past) && l.Party(who).state == Committing && !l.Party(who).localCommit
    ensures n == Step(a, l, Local(who, CallSealCommit, Works))
    ensures Speaks(n.Party(who), []) && n.Party(Peer(who)) == l.Party(Peer(who))
    ensures |n.Inbox(Peer(who))| == |l.Inbox(Peer(who))| + 1 && n.Inbox(who) == l.Inbox(who)
  {
    Directions(a, s, l, past, who);
    CommitEnd(a, s, l.Party(who));
    SayShape(a, l, who, CallSealCommit);
    n := Step(a, l, Local(who, CallSealCommit, Works));
  }

  /** Both ends commit, and both open the other's Commit. */
  const COMMITS := [Commits(Client), Commits(Server), Hears(Client), Hears(Server)]

  lemma FourEvents(a: Aead, l: Link, w: Event, x: Event, y: Event, z: Event)
    requires l.Shaped()
    ensures RunLink(a, l, [w, x, y, z]) == Step(a, Step(a, Step(a, Step(a, l, w), x), y), z)
  {
    assert [w, x, y, z][..3] == [w, x, y];
    assert [w, x, y][..2] == [w, x];
    assert [w, x][..1] == [w];
    assert [w][..0] == [];
    assert RunLink(a, l, [w]) == Step(a, l, w);
    assert RunLink(a, l, [w, x]) == Step(a, Step(a, l, w), x);
  }

  lemma BothCommit(a: Aead, s: Secrets, l: Link, past: seq<Event>) returns (n: Link)
    requires Correct(a) && Reached(a, s, l, past)
    requires l.client.state == Committing && !l.client.localCommit
    requires l.server.state == Committing && !l.server.localCommit
    ensures n == Step(a, Step(a, l, Commits(Client)), Commits(Server))
    ensures Speaks(n.client, []) && Speaks(n.server, []) && n.toClient != [] && n.toServer != []
  {
    var m := CommitStep(a, s, l, past, Client);
    ReachedStep(a, s, l, past, Commits(Client));
    n := CommitStep(a, s, m, past + [Commits(Client)], Server);
  }

  lemma BothHear(a: Aead, s: Secrets, l: Link, past: seq<Event>, client: seq<Content>, server: seq<Content>)
    returns (n: Link)
    requires Correct(a) && Reached(a, s, l, past)
    requires Speaks(l.client, client) && Speaks(l.server, server) && l.toClient != [] && l.toServer != []
    ensures n == Step(a, Step(a, l, Hears(Client)), Hears(Server)) && Talking(n, client, server)
  {
    var m := HearStep(a, s, l, past, Client, client);
    ReachedStep(a, s, l, past, Hears(Client));
    n := HearStep(a, s, m, past + [Hears(Client)], Server, server);
  }

  lemma CommitsFrom(a: Aead, s: Secrets, l: Link, past: seq<Event>) returns (n: Link)
    requires Correct(a) && Reached(a, s, l, past)
    requires l.client.state == Committing && !l.client.localCommit
    requires l.server.state == Committing && !l.server.localCommit
    ensures l.Shaped() && n == RunLink(a, l, COMMITS) && Talking(n, [], [])
  {
    var m := BothCommit(a, s, l, past);
    ReachedStep(a, s, l, past, Commits(Client));
    ReachedStep(a, s, Step(a, l, Commits(Client)), past + [Commits(Client)], Commits(Server));
    n := BothHear(a, s, m, past + [Commits(Client)] + [Commits(Server)], [], []);
    FourEvents(a, l, Commits(Client), Commits(Server), Hears(Client), Hears(Server));
  }

  lemma CommitsDone(a: Aead, s: Secrets) returns (n: Link)
    requires Correct(a) && |s.traffic| == MATERIAL_COUNT
    ensures n == RunLink(a, Linked(s), COMMITS) && Talking(n, [], [])
  {
    n := CommitsFrom(a, s, Linked(s), []);
  }

  // ---------- opening what is in flight

  function Deliveries(who: Role, k: nat): (events: seq<Event>)
    ensures |events| == k
  {
    if k == 0 then [] else Deliveries(who, k - 1) + [Deliver(who, Works)]
  }

  /** What `k` deliveries to `who` leave of a conversation. */
  ghost predicate Flushed(l: Link, n: Link, who: Role, k: nat, client: seq<Content>, server: seq<Content>) {
    && Talking(n, client, server)
    && |n.Inbox(who)| == |l.Inbox(who)| - k && n.Inbox(Peer(who)) == l.Inbox(Peer(who))
  }

  lemma OneMoreDelivery(a: Aead, s: Secrets, l: Link, past: seq<Event>, who: Role, k: nat, client: seq<Content>,
                        server: seq<Content>)
    requires Correct(a) && Reached(a, s, l, past) && k < |l.Inbox(who)|
    requires Flushed(l, RunLink(a, l, Deliveries(who, k)), who, k, client, server)
    ensures Flushed(l, RunLink(a, l, Deliveries(who, k + 1)), who, k + 1, client, server)
  {
    assert Deliveries(who, k + 1)[..k] == Deliveries(who, k);
    ReachedRun(a, s, l, past, Deliveries(who, k));
    var n := HearTurn(a, s, RunLink(a, l, Deliveries(who, k)), past + Deliveries(who, k), who, client, server);
  }

  lemma {:induction false} Flushes(a: Aead, s: Secrets, l: Link, past: seq<Event>, who: Role, k: nat,
                                   client: seq<Content>, server: seq<Content>)
    requires Correct(a) && Reached(a, s, l, past) && Talking(l, client, server) && k <= |l.Inbox(who)|
    ensures Flushed(l, RunLink(a, l, Deliveries(who, k)), who, k, client, server)
  {
    if k > 0 {
      Flushes(a, s, l, past, who, k - 1, client, server);
      OneMoreDelivery(a, s, l, past, who, k - 1, client, server);
    }
  }

  /** Every record in flight is opened, first by the client, then by the server. */
  function FlushAll(l: Link): seq<Event> {
    Deliveries(Client, |l.toClient|) + Deliveries(Server, |l.toServer|)
  }

  lemma FlushOne(a: Aead, s: Secrets, l: Link, past: seq<Event>, who: Role, client: seq<Content>, server: seq<Content>)
    returns (n: Link)
    requires Correct(a) && Reached(a, s, l, past) && Talking(l, client, server)
    ensures n == RunLink(a, l, Deliveries(who, |l.Inbox(who)|)) && Talking(n, client, server)
    ensures n.Inbox(who) == [] && n.Inbox(Peer(who)) == l.Inbox(Peer(who))
  {
    Flushes(a, s, l, past, who, |l.Inbox(who)|, client, server);
    n := RunLink(a, l, Deliveries(who, |l.Inbox(who)|));
  }

  lemma FlushEmpties(a: Aead, s: Secrets, l: Link, past: seq<Event>, client: seq<Content>, server: seq<Content>)
    returns (n: Link)
    requires Correct(a) && Reached(a, s, l, past) && Talking(l, client, server)
    ensures n == RunLink(a, l, FlushAll(l))
    ensures Talking(n, client, server) && n.toClient == [] && n.toServer == []
  {
    var m := FlushOne(a, s, l, past, Client, client, server);
    ReachedRun(a, s, l, past, Deliveries(Client, |l.toClient|));
    n := FlushOne(a, s, m, past + Deliveries(Client, |l.toClient|), Server, client, server);
    RunAppend(a, l, Deliveries(Client, |l.toClient|), Deliveries(Server, |l.toServer|));
  }

  // ---------- the close exchange

  /** `e` has sealed its Close last, after what `said` lists. */
  ghost predicate Finished(e: Endpoint, said: seq<Content>) {
    Contents(e.sealed) == [COMMIT] + said + [CLOSE] && EndsInClose(e.sealed)
  }

  lemma FinishedIsRoomy(e: Endpoint, said: seq<Content>)
    requires Finished(e, said) && Room(said)
    ensures Roomy(e.sealed)
  {
    forall c
      ensures |OnChannel(e.sealed, c)| < HARD_RECORD_LIMIT
    {
      ContentsOnLine(e.sealed, c);
    }
  }

  lemma ClosingEnd(a: Aead, s: Secrets, e: Endpoint, said: seq<Content>)
    requires Correct(a) && Inv(a, s, e) && Speaks(e, said) && Room(said)
    requires SealAllowed(e, CallSealClose)
    ensures var (n, outcome) := Apply(a, e, CallSealClose, Works);
            && outcome.Sealed? && Finished(n, said) && n.received == e.received
            && (n.state.Terminal() <==> e.peerClose) && (n.state == Closed <==> e.peerClose)
  {
    RoomToSay(e, said, CallSealClose);
    SealLive(a, s, e, CallSealClose);
    var n := Apply(a, e, CallSealClose, Works).0;
    SaidContent(e, CallSealClose, n);
    assert n.sealed[|n.sealed| - 1] == SealedRec(e, CallSealClose);
  }

  lemma LastInFlight(a: Aead, s: Secrets, e: Endpoint, p: Endpoint, q: seq<seq<byte>>)
    requires |s.traffic| == MATERIAL_COUNT && Carries(a, s, p, e, q) && !e.state.Terminal() && |q| == 1
    ensures |e.received| + 1 == |p.sealed| && e.received == p.sealed[..|e.received|]
  {
  }

  lemma TakesLast(e: Endpoint, sealed: seq<Rec>, n: Endpoint)
    requires |e.received| + 1 == |sealed| && e.received == sealed[..|e.received|] && EndsInClose(sealed)
    requires Taken(e, sealed[|e.received|], n)
    ensures n.received == sealed && n.sealed == e.sealed && n.localClose == e.localClose
    ensures n.state == Closed <==> e.localClose
  {
  }

  /** An end that opens its peer's Close, which is the only record in flight. */
  lemma OpensClose(a: Aead, s: Secrets, e: Endpoint, p: Endpoint, q: seq<seq<byte>>, back: seq<seq<byte>>)
    returns (n: Endpoint)
    requires Correct(a) && Inv(a, s, e) && Inv(a, s, p) && e.role != p.role
    requires Carries(a, s, p, e, q) && Carries(a, s, e, p, back)
    requires !e.state.Terminal() && |q| == 1 && EndsInClose(p.sealed) && Roomy(p.sealed)
    ensures n == Apply(a, e, CallOpen(q[0]), Works).0
    ensures n.received == p.sealed && n.sealed == e.sealed && n.localClose == e.localClose
    ensures (n.state.Terminal() <==> e.localClose) && (n.state == Closed <==> e.localClose)
  {
    n := Apply(a, e, CallOpen(q[0]), Works).0;
    LastInFlight(a, s, e, p, q);
    OpenLive(a, s, e, p, q, back);
    TakesLast(e, p.sealed, n);
  }

  lemma FirstCloses(a: Aead, s: Secrets, l: Link, past: seq<Event>, who: Role, mine: seq<Content>, theirs: seq<Content>)
    returns (n: Link)
    requires Correct(a) && Reached(a, s, l, past) && Talks(l.Party(who), mine) && Talks(l.Party(Peer(who)), theirs)
    requires Room(mine) && l.Inbox(who) == [] && l.Inbox(Peer(who)) == []
    ensures n == Step(a, l, Closes(who))
    ensures Finished(n.Party(who), mine) && !n.Party(who).state.Terminal() && Roomy(n.Party(who).sealed)
    ensures n.Party(Peer(who)) == l.Party(Peer(who)) && |n.Inbox(Peer(who))| == 1 && n.Inbox(who) == []
  {
    Directions(a, s, l, past, who);
    TalksIsActive(a, s, l.Party(who), l.Party(Peer(who)), mine);
    ClosingEnd(a, s, l.Party(who), mine);
    SayShape(a, l, who, CallSealClose);
    n := Step(a, l, Closes(who));
    FinishedIsRoomy(n.Party(who), mine);
  }

  lemma HearsClose(a: Aead, s: Secrets, l: Link, past: seq<Event>, who: Role) returns (n: Link)
    requires Correct(a) && Reached(a, s, l, past) && !l.Party(who).state.Terminal()
    requires EndsInClose(l.Party(Peer(who)).sealed)
    requires |l.Inbox(who)| == 1 && Roomy(l.Party(Peer(who)).sealed)
    ensures n == Step(a, l, Hears(who))
    ensures n.Party(who).received == l.Party(Peer(who)).sealed && n.Party(who).sealed == l.Party(who).sealed
    ensures n.Party(who).state.Terminal() <==> EndsInClose(l.Party(who).sealed)
    ensures n.Party(who).state == Closed <==> EndsInClose(l.Party(who).sealed)
    ensures n.Party(Peer(who)) == l.Party(Peer(who)) && n.Inbox(who) == [] && n.Inbox(Peer(who)) == l.Inbox(Peer(who))
  {
    Directions(a, s, l, past, who);
    LiveFlags(a, s, l.Party(who));
    var m := OpensClose(a, s, l.Party(who), l.Party(Peer(who)), l.Inbox(who), l.Inbox(Peer(who)));
    DeliverStep(a, l, who, Works);
    n := Step(a, l, Hears(who));
  }

  lemma LiveFlags(a: Aead, s: Secrets, e: Endpoint)
    requires Inv(a, s, e) && !e.state.Terminal()
    ensures e.localClose == EndsInClose(e.sealed) && e.peerClose == EndsInClose(e.received)
    ensures e.peerClose && !e.localClose ==> SealAllowed(e, CallSealClose)
  {
  }

  lemma SecondCloses(a: Aead, s: Secrets, l: Link, past: seq<Event>, who: Role, said: seq<Content>) returns (n: Link)
    requires Correct(a) && Reached(a, s, l, past) && Talks(l.Party(who), said) && EndsInClose(l.Party(who).received)
    requires Room(said) && l.Inbox(Peer(who)) == []
    ensures n == Step(a, l, Closes(who))
    ensures Finished(n.Party(who), said) && n.Party(who).state == Closed && Roomy(n.Party(who).sealed)
    ensures n.Party(who).received == l.Party(who).received
    ensures n.Party(Peer(who)) == l.Party(Peer(who)) && |n.Inbox(Peer(who))| == 1
  {
    Directions(a, s, l, past, who);
    LiveFlags(a, s, l.Party(who));
    ClosingEnd(a, s, l.Party(who), said);
    SayShape(a, l, who, CallSealClose);
    n := Step(a, l, Closes(who));
    FinishedIsRoomy(n.Party(who), said);
  }

  /** One end closes, the other opens that and closes, the first opens that. */
  function ClosedBy(first: Role): seq<Event> {
    [Closes(first), Hears(Peer(first)), Closes(Peer(first)), Hears(first)]
  }

  /** One end has closed, and the other one knows. */
  ghost predicate HalfClosed(l: Link, first: Role, mine: seq<Content>, theirs: seq<Content>) {
    var e, p := l.Party(first), l.Party(Peer(first));
    && Finished(e, mine) && !e.state.Terminal()
    && Talks(p, theirs) && p.received == e.sealed && l.Inbox(first) == []
  }

  /** Both ends are Closed, and each has opened all that the other one said. */
  ghost predicate BothClosed(l: Link, first: Role, mine: seq<Content>, theirs: seq<Content>) {
    var e, p := l.Party(first), l.Party(Peer(first));
    && e.state == Closed && Finished(e, mine) && e.received == p.sealed
    && p.state == Closed && Finished(p, theirs) && p.received == e.sealed
  }

  lemma FirstHalf(a: Aead, s: Secrets, l: Link, past: seq<Event>, first: Role, mine: seq<Content>, theirs: seq<Content>)
    returns (n: Link)
    requires Correct(a) && Reached(a, s, l, past) && Talks(l.Party(first), mine) && Talks(l.Party(Peer(first)), theirs)
    requires Room(mine) && l.Inbox(first) == [] && l.Inbox(Peer(first)) == []
    ensures n == Step(a, Step(a, l, Closes(first)), Hears(Peer(first))) && HalfClosed(n, first, mine, theirs)
  {
    var m := FirstCloses(a, s, l, past, first, mine, theirs);
    ReachedStep(a, s, l, past, Closes(first));
    n := HearsClose(a, s, m, past + [Closes(first)], Peer(first));
  }

  lemma SecondHalf(a: Aead, s: Secrets, l: Link, past: seq<Event>, first: Role, mine: seq<Content>,
                   theirs: seq<Content>)
    returns (n: Link)
    requires Correct(a) && Reached(a, s, l, past) && HalfClosed(l, first, mine, theirs)
    requires Room(theirs)
    ensures n == Step(a, Step(a, l, Closes(Peer(first))), Hears(first)) && BothClosed(n, first, mine, theirs)
  {
    var m := SecondCloses(a, s, l, past, Peer(first), theirs);
    ReachedStep(a, s, l, past, Closes(Peer(first)));
    n := HearsClose(a, s, m, past + [Closes(Peer(first))], first);
  }

  lemma ClosesDone(a: Aead, s: Secrets, l: Link, past: seq<Event>, first: Role, mine: seq<Content>,
                   theirs: seq<Content>)
    returns (n: Link)
    requires Correct(a) && Reached(a, s, l, past) && Talks(l.Party(first), mine) && Talks(l.Party(Peer(first)), theirs)
    requires Room(mine) && Room(theirs)
    requires l.Inbox(first) == [] && l.Inbox(Peer(first)) == []
    ensures n == RunLink(a, l, ClosedBy(first)) && BothClosed(n, first, mine, theirs)
  {
    var m := FirstHalf(a, s, l, past, first, mine, theirs);
    ReachedStep(a, s, l, past, Closes(first));
    ReachedStep(a, s, Step(a, l, Closes(first)), past + [Closes(first)], Hears(Peer(first)));
    n := SecondHalf(a, s, m, past + [Closes(first)] + [Hears(Peer(first))], first, mine, theirs);
    FourEvents(a, l, Closes(first), Hears(Peer(first)), Closes(Peer(first)), Hears(first));
  }

  // ---------- the whole session

  /** What the other end hears of what `who` says in a conversation. */
  function Reported(talk: seq<Turn>, who: Role): seq<OpenedRecord> {
    if talk == [] then []
    else
      var front, last := Reported(talk[..|talk| - 1], who), talk[|talk| - 1];
      if last.Say? && last.who == who && IsSeal(last.op) then front + [HeardAs(last.op)] else front
  }

  /** `x` is how a record of this content is reported. */
  predicate Means(content: Content, x: OpenedRecord) {
    match content.kind
    case Commit => x == OpenedCommit
    case RefreshRequired => x == OpenedRefreshRequired
    case Close => x == OpenedClose
    case Data => x.OpenedData? && x.channel == content.channel && x.plaintext == content.plaintext
  }

  ghost predicate AllMean(contents: seq<Content>, answers: seq<OpenedRecord>) {
    |contents| == |answers| && forall i :: 0 <= i < |contents| ==> Means(contents[i], answers[i])
  }

  lemma {:induction false} SpokenMeans(talk: seq<Turn>, who: Role)
    ensures AllMean(Spoken(talk, who), Reported(talk, who))
  {
    if talk != [] {
      SpokenMeans(talk[..|talk| - 1], who);
    }
  }

  lemma {:induction false} ContentAt(recs: seq<Rec>, i: nat)
    requires i < |recs|
    ensures |Contents(recs)| == |recs|
    ensures Contents(recs)[i] == Content(recs[i].kind, recs[i].channel, recs[i].plaintext)
  {
    ContentsLength(recs);
    ContentsLength(recs[..|recs| - 1]);
    if i < |recs| - 1 {
      ContentAt(recs[..|recs| - 1], i);
    }
  }

  lemma ReportsMean(answers: seq<OpenedRecord>, recs: seq<Rec>)
    requires Reports(answers, recs)
    ensures AllMean(Contents(recs), answers)
  {
    ContentsLength(recs);
    forall i | 0 <= i < |recs|
      ensures Means(Contents(recs)[i], answers[i])
    {
      ContentAt(recs, i);
    }
  }

  lemma MeaningIsUnique(contents: seq<Content>, x: seq<OpenedRecord>, y: seq<OpenedRecord>)
    requires AllMean(contents, x) && AllMean(contents, y)
    ensures x == y
  {
    forall i | 0 <= i < |contents|
      ensures x[i] == y[i]
    {
      assert Means(contents[i], x[i]) && Means(contents[i], y[i]);
    }
  }

  /** What is to be heard of a whole session: a Commit, the conversation, and a Close. */
  function HeardOf(talk: seq<Turn>, who: Role): seq<OpenedRecord> {
    [OpenedCommit] + Reported(talk, who) + [OpenedClose]
  }

  lemma AnswersAreHeard(talk: seq<Turn>, who: Role, recs: seq<Rec>, answers: seq<OpenedRecord>)
    requires Reports(answers, recs) && Contents(recs) == [COMMIT] + Spoken(talk, who) + [CLOSE]
    ensures answers == HeardOf(talk, who)
  {
    ReportsMean(answers, recs);
    SpokenMeans(talk, who);
    assert AllMean([COMMIT] + Spoken(talk, who) + [CLOSE], HeardOf(talk, who));
    MeaningIsUnique(Contents(recs), answers, HeardOf(talk, who));
  }

  /** A whole session: commits, a conversation, opening what is still in flight, closes. */
  function WholeSession(a: Aead, s: Secrets, talk: seq<Turn>, first: Role): seq<Event>
    requires |s.traffic| == MATERIAL_COUNT
  {
    var talked := RunLink(a, RunLink(a, Linked(s), COMMITS), Events(talk));
    COMMITS + Events(talk) + FlushAll(talked) + ClosedBy(first)
  }

  lemma SessionEnds(a: Aead, s: Secrets, talk: seq<Turn>, first: Role) returns (n: Link)
    requires Correct(a) && |s.traffic| == MATERIAL_COUNT && AllProper(talk) && Short(talk)
    ensures n == RunLink(a, Linked(s), WholeSession(a, s, talk, first))
    ensures BothClosed(n, first, Spoken(talk, first), Spoken(talk, Peer(first)))
  {
    var begun := CommitsDone(a, s);
    TalkGoesOn(a, s, begun, COMMITS, talk);
    ReachedRun(a, s, begun, COMMITS, Events(talk));
    var talked := RunLink(a, begun, Events(talk));
    var past := COMMITS + Events(talk);
    var flushed := FlushEmpties(a, s, talked, past, Spoken(talk, Client), Spoken(talk, Server));
    ReachedRun(a, s, talked, past, FlushAll(talked));
    n := ClosesDone(a, s, flushed, past + FlushAll(talked), first, Spoken(talk, first), Spoken(talk, Peer(first)));
    ReachedRun(a, s, flushed, past + FlushAll(talked), ClosedBy(first));
  }

  /**
   * Without library failures every session on a reliable link completes, as long as no context fills up: whatever the
   * conversation and whoever closes first, both ends are Closed in the end, and the opens at each have answered with a
   * Commit, exactly what the other said, in order, and a Close.
   */
  lemma SessionCompletes(a: Aead, s: Secrets, talk: seq<Turn>, first: Role, who: Role)
    requires Correct(a) && |s.traffic| == MATERIAL_COUNT && AllProper(talk) && Short(talk)
    ensures var events := WholeSession(a, s, talk, first);
            var e := RunLink(a, Linked(s), events).Party(who);
            && e.state == Closed && Contents(e.received) == [COMMIT] + Spoken(talk, Peer(who)) + [CLOSE]
            && Answers(a, Linked(s), events, who) == [OpenedCommit] + Reported(talk, Peer(who)) + [OpenedClose]
  {
    var n := SessionEnds(a, s, talk, first);
    RunTold(a, s, WholeSession(a, s, talk, first), who);
    AnswersAreHeard(talk, Peer(who), n.Party(who).received,
                    Answers(a, Linked(s), WholeSession(a, s, talk, first), who));
  }

  /** On the way there, after the commits and during any conversation, both ends are Active. */
  lemma SessionIsActive(a: Aead, s: Secrets, talk: seq<Turn>)
    requires Correct(a) && |s.traffic| == MATERIAL_COUNT && AllProper(talk) && Short(talk)
    ensures var l := RunLink(a, RunLink(a, Linked(s), COMMITS), Events(talk));
            l.client.state == Active && l.server.state == Active
  {
    var begun := CommitsDone(a, s);
    TalkGoesOn(a, s, begun, COMMITS, talk);
    ReachedRun(a, s, begun, COMMITS, Events(talk));
    var l := RunLink(a, begun, Events(talk));
    Directions(a, s, l, COMMITS + Events(talk), Client);
    Directions(a, s, l, COMMITS + Events(talk), Server);
    TalksIsActive(a, s, l.client, l.server, Spoken(talk, Client));
    TalksIsActive(a, s, l.server, l.client, Spoken(talk, Server));
  }
}
