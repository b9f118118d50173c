/**
 * What the two applications on a reliable link hear of each other: the answers of the opens at one end against the
 * sealing calls at the other.
 */
module LinkAnswers {
  import opened Wrappers
  import opened Bytes
  import opened Profile
  import opened Record
  import opened EndpointModel
  import opened EndpointInvariant
  import opened Adversary
  import opened FifoLink
  import opened SessionCalls

  /** How a sealing call is heard at the other end. */
  function HeardAs(op: Op): OpenedRecord
    requires IsSeal(op)
  {
    match op
    case CallSealCommit => OpenedCommit
    case CallSealData(c, plaintext) => OpenedData(c, plaintext)
    case CallSealRefreshRequired => OpenedRefreshRequired
    case CallSealClose => OpenedClose
  }

  /** The sealing call of `who` that an event is, if it returned a record. */
  function CalledIn(a: Aead, l: Link, ev: Event, who: Role): seq<Op>
    requires l.Shaped()
  {
    if ev.Local? && ev.who == who && !ev.op.CallOpen? && Apply(a, l.Party(who), ev.op, ev.library).1.Sealed? then
      [ev.op]
    else []
  }

  /** What the open of `who` that an event makes answered, if it was not refused. */
  function AnsweredIn(a: Aead, l: Link, ev: Event, who: Role): seq<OpenedRecord>
    requires l.Shaped()
  {
    if ev.Deliver? && ev.who == who && l.Inbox(who) != [] then
      match Apply(a, l.Party(who), CallOpen(l.Inbox(who)[0]), ev.library).1
      case Opened(x) => [x]
      case _ => []
    else []
  }

  /** The sealing calls of `who` that returned a record, in order. */
  function Called(a: Aead, l: Link, events: seq<Event>, who: Role): seq<Op>
    requires l.Shaped()
  {
    if events == [] then []
    else
      var front := events[..|events| - 1];
      Called(a, l, front, who) + CalledIn(a, RunLink(a, l, front), events[|events| - 1], who)
  }

  /** What the opens of `who` answered, refusals left out, in order. */
  function Answers(a: Aead, l: Link, events: seq<Event>, who: Role): seq<OpenedRecord>
    requires l.Shaped()
  {
    if events == [] then []
    else
      var front := events[..|events| - 1];
      Answers(a, l, front, who) + AnsweredIn(a, RunLink(a, l, front), events[|events| - 1], who)
  }

  /** `r` is the record of the call `op`. */
  ghost predicate RecordsCall(r: Rec, op: Op) {
    IsSeal(op) && TypeCode(r.kind) == CodeOf(op) && r.channel == LineOf(op) && r.plaintext == TextOf(op)
  }

  ghost predicate Logs(recs: seq<Rec>, ops: seq<Op>) {
    |recs| == |ops| && forall i :: 0 <= i < |recs| ==> RecordsCall(recs[i], ops[i])
  }

  ghost predicate Reports(answers: seq<OpenedRecord>, recs: seq<Rec>) {
    && |answers| == |recs|
    && forall i :: 0 <= i < |recs| ==> (recs[i].kind == Data ==> recs[i].channel != Guard)
                                       && answers[i] == Delivered(recs[i])
  }

  lemma HeardIsDelivered(r: Rec, op: Op)
    requires RecordsCall(r, op)
    ensures r.kind == Data ==> r.channel != Guard
    ensures Delivered(r) == HeardAs(op)
  {
  }

  // ---------- one event

  lemma LocalLogs(a: Aead, s: Secrets, e: Endpoint, op: Op, library: Library) returns (n: Endpoint, outcome: Outcome)
    requires Inv(a, s, e) && !op.CallOpen?
    ensures (n, outcome) == Apply(a, e, op, library) && n.received == e.received
    ensures outcome.Sealed? ==> IsSeal(op) && n.sealed == e.sealed + [SealedRec(e, op)]
    ensures !outcome.Sealed? ==> n.sealed == e.sealed
  {
    n, outcome := Apply(a, e, op, library).0, Apply(a, e, op, library).1;
    FailKeepsHistory(e, n);
    if IsSeal(op) {
      SealStep(a, s, e, op, library);
    }
  }

  lemma OpenReports(a: Aead, s: Secrets, e: Endpoint, input: seq<byte>, library: Library)
    returns (n: Endpoint, outcome: Outcome, r: Rec)
    requires Inv(a, s, e)
    ensures (n, outcome) == Apply(a, e, CallOpen(input), library) && n.sealed == e.sealed
    ensures outcome.Opened? ==>
              && n.received == e.received + [r]
              && (r.kind == Data ==> r.channel != Guard) && outcome.record == Delivered(r)
    ensures !outcome.Opened? ==> n.received == e.received
  {
    n, outcome := OpenCall(a, s, e, input, library);
    FailKeepsHistory(e, n);
    if outcome.Opened? {
      r := OpenedLast(a, s, e, input, n, outcome);
    } else {
      r := Rec(Data, Menora, 0, []);
    }
  }

  /** `ops` and `answers` are what the history of `e` says. */
  ghost predicate Told(e: Endpoint, ops: seq<Op>, answers: seq<OpenedRecord>) {
    Logs(e.sealed, ops) && Reports(answers, e.received)
  }

  lemma LogsOneMore(recs: seq<Rec>, ops: seq<Op>, r: Rec, op: Op)
    requires Logs(recs, ops) && RecordsCall(r, op)
    ensures Logs(recs + [r], ops + [op])
  {
  }

  lemma ReportsOneMore(answers: seq<OpenedRecord>, recs: seq<Rec>, r: Rec)
    requires Reports(answers, recs) && (r.kind == Data ==> r.channel != Guard)
    ensures Reports(answers + [Delivered(r)], recs + [r])
  {
  }

  lemma LocalShape(a: Aead, l: Link, ev: Event, n: Endpoint, outcome: Outcome)
    requires l.Shaped() && ev.Local? && !ev.op.CallOpen?
    requires (n, outcome) == Apply(a, l.Party(ev.who), ev.op, ev.library)
    ensures Step(a, l, ev).Party(ev.who) == n
    ensures CalledIn(a, l, ev, ev.who) == if outcome.Sealed? then [ev.op] else []
    ensures AnsweredIn(a, l, ev, ev.who) == []
  {
  }

  lemma LocalTold(a: Aead, s: Secrets, l: Link, ev: Event, ops: seq<Op>, answers: seq<OpenedRecord>)
    requires l.Shaped() && Inv(a, s, l.Party(ev.who)) && Told(l.Party(ev.who), ops, answers)
    requires ev.Local? && !ev.op.CallOpen?
    ensures Told(Step(a, l, ev).Party(ev.who), ops + CalledIn(a, l, ev, ev.who),
                 answers + AnsweredIn(a, l, ev, ev.who))
  {
    var e := l.Party(ev.who);
    var n, outcome := LocalLogs(a, s, e, ev.op, ev.library);
    LocalShape(a, l, ev, n, outcome);
    if outcome.Sealed? {
      SealedRecIs(e, ev.op);
      LogsOneMore(e.sealed, ops, SealedRec(e, ev.op), ev.op);
    } else {
      assert ops + [] == ops;
    }
    assert answers + [] == answers;
  }

  lemma DeliverTold(a: Aead, s: Secrets, l: Link, ev: Event, ops: seq<Op>, answers: seq<OpenedRecord>)
    requires l.Shaped() && Inv(a, s, l.Party(ev.who)) && Told(l.Party(ev.who), ops, answers)
    requires ev.Deliver? && l.Inbox(ev.who) != []
    ensures Told(Step(a, l, ev).Party(ev.who), ops + CalledIn(a, l, ev, ev.who),
                 answers + AnsweredIn(a, l, ev, ev.who))
  {
    var e := l.Party(ev.who);
    var n, outcome, r := OpenReports(a, s, e, l.Inbox(ev.who)[0], ev.library);
    assert Step(a, l, ev).Party(ev.who) == n;
    if outcome.Opened? {
      ReportsOneMore(answers, e.received, r);
    } else {
      assert answers + [] == answers;
    }
    assert ops + [] == ops;
  }

  /** An event that is not for `who` adds nothing. */
  lemma IdleTold(a: Aead, l: Link, ev: Event, who: Role)
    requires l.Shaped()
    requires ev.who != who || (if ev.Local? then ev.op.CallOpen? else l.Inbox(who) == [])
    ensures Step(a, l, ev).Party(who) == l.Party(who)
    ensures CalledIn(a, l, ev, who) == [] && AnsweredIn(a, l, ev, who) == []
  {
  }

  lemma StepTold(a: Aead, s: Secrets, l: Link, ev: Event, who: Role, ops: seq<Op>, answers: seq<OpenedRecord>)
    requires l.Shaped() && Inv(a, s, l.Party(who)) && Told(l.Party(who), ops, answers)
    ensures Told(Step(a, l, ev).Party(who), ops + CalledIn(a, l, ev, who), answers + AnsweredIn(a, l, ev, who))
  {
    if ev.who != who || (if ev.Local? then ev.op.CallOpen? else l.Inbox(who) == []) {
      IdleTold(a, l, ev, who);
      assert ops + [] == ops && answers + [] == answers;
    } else if ev.Local? {
      LocalTold(a, s, l, ev, ops, answers);
    } else {
      DeliverTold(a, s, l, ev, ops, answers);
    }
  }

  lemma {:induction false} RunTold(a: Aead, s: Secrets, events: seq<Event>, who: Role)
    requires Correct(a) && |s.traffic| == MATERIAL_COUNT
    ensures Told(RunLink(a, Linked(s), events).Party(who),
                 Called(a, Linked(s), events, who), Answers(a, Linked(s), events, who))
  {
    if events != [] {
      var front, last := events[..|events| - 1], events[|events| - 1];
      RunTold(a, s, front, who);
      RunKeeps(a, s, front);
      StepTold(a, s, RunLink(a, Linked(s), front), last, who,
               Called(a, Linked(s), front, who), Answers(a, Linked(s), front, who));
    }
  }

  // ---------- theorems

  /**
   * On every run over a reliable link the answers at one end are, one by one and in order, how the successful sealing
   * calls at the other end are to be heard; at an end that is Closed nothing is missing.
   */
  lemma AnswersAreCalls(a: Aead, s: Secrets, events: seq<Event>, who: Role)
    requires Correct(a) && |s.traffic| == MATERIAL_COUNT
    ensures var answers, ops := Answers(a, Linked(s), events, who), Called(a, Linked(s), events, Peer(who));
            && |answers| <= |ops|
            && (forall i :: 0 <= i < |answers| ==> IsSeal(ops[i]) && answers[i] == HeardAs(ops[i]))
            && (RunLink(a, Linked(s), events).Party(who).state == Closed ==> |answers| == |ops|)
  {
    var l := RunLink(a, Linked(s), events);
    RunKeeps(a, s, events);
    RunTold(a, s, events, who);
    RunTold(a, s, events, Peer(who));
    var answers, ops := Answers(a, Linked(s), events, who), Called(a, Linked(s), events, Peer(who));
    forall i | 0 <= i < |answers|
      ensures IsSeal(ops[i]) && answers[i] == HeardAs(ops[i])
    {
      assert l.Party(who).received[i] == l.Party(Peer(who)).sealed[i];
      HeardIsDelivered(l.Party(who).received[i], ops[i]);
    }
    if l.Party(who).state == Closed {
      ClosedMeansComplete(a, s, events, who);
    }
  }

  /**
   * Progress: in every reachable state with a live receiver and a record in flight, opening the oldest one answers how
   * the call behind it is to be heard, except that Data or RefreshRequired crossing the receiver's own Close is refused
   * and fails the session. Senders may have aborted, failed or hit a limit in the meantime.
   */
  lemma Progress(a: Aead, s: Secrets, events: seq<Event>, who: Role)
    requires Correct(a) && |s.traffic| == MATERIAL_COUNT
    requires var l := RunLink(a, Linked(s), events); !l.Party(who).state.Terminal() && l.Inbox(who) != []
    ensures var l := RunLink(a, Linked(s), events);
            var e, k := l.Party(who), |Answers(a, Linked(s), events, who)|;
            && k < |Called(a, Linked(s), events, Peer(who))|
            && var op := Called(a, Linked(s), events, Peer(who))[k];
            && IsSeal(op)
            && Apply(a, e, CallOpen(l.Inbox(who)[0]), Works).1
               == if (op.CallSealData? || op.CallSealRefreshRequired?) && e.localClose then Refused(InvalidState)
                  else Opened(HeardAs(op))
  {
    var l := RunLink(a, Linked(s), events);
    var e, peer := l.Party(who), l.Party(Peer(who));
    RunKeeps(a, s, events);
    RunTold(a, s, events, who);
    RunTold(a, s, events, Peer(who));
    ProgressOf(a, s, e, peer, l.Inbox(who), l.Inbox(Peer(who)));
    HeardIsDelivered(peer.sealed[|e.received|], Called(a, Linked(s), events, Peer(who))[|e.received|]);
  }
}
