/** Why the application is told what it is told: on every run, each event goes back to one step of the
    behaviour, and that to one outcome of a substream, with the kind of event, the id and the peer that
    belong to it. */
module Causes {
  import opened Basics
  import opened Messages
  import opened FileGetModel
  import opened Link
  import opened Swarm
  import OwnRequests
  import opened ReceivedRequests
  import opened Runs
  import opened Origins
  import HM = HandlerModel

  // ------------------------------------------------------------------- what the behaviour reports

  /** Step k is the behaviour processing the event of the connection, which is one to the peer. */
  ghost predicate Hears(run: seq<System>, steps: seq<Step>, k: nat, p: PeerId, c: ConnectionId, e: HandlerEvent)
    requires k < |steps| < |run|
  {
    Processes(run, steps, k, c, e) && run[k].links[c].peer == p
  }

  /** Step k reports the close of the connection, which is one to the peer. */
  ghost predicate Closes(run: seq<System>, steps: seq<Step>, k: nat, p: PeerId, c: ConnectionId)
    requires k < |steps| < |run|
  {
    steps[k].ReportClosed? && steps[k].connection == c && c in run[k].links && run[k].links[c].peer == p
  }

  /** Step k is the reason for the event; `c` is the connection concerned, if there is one. */
  ghost predicate Reason(run: seq<System>, steps: seq<Step>, k: nat, c: ConnectionId, e: FileGetEvent, origin: Origin)
    requires k < |steps| < |run|
  {
    match e
    case RequestReceived(p, id, fileName) => origin == Theirs && Hears(run, steps, k, p, c, Request(id, fileName))
    case ResponseReceived(p, id) => origin == Ours && Hears(run, steps, k, p, c, Response(id))
    case SentResponse(p, id) => origin == Theirs && Hears(run, steps, k, p, c, ResponseSent(id))
    case OutboundFailure(p, id, error) => (
      match error
      case DialFailed => origin == Ours && steps[k] == DialFails(Some(p)) && id in Ids(Queue(run[k].fg, p))
      case OutTimedOut => origin == Ours && Hears(run, steps, k, p, c, OutboundTimeout(id))
      case OutUnsupported => origin == Ours && Hears(run, steps, k, p, c, OutboundUnsupportedProtocols(id))
      case OutClosed => origin == Theirs && Closes(run, steps, k, p, c) && id in OutIds(run[k].fg, p, c))
    case InboundFailure(p, id, error) => (
      match error
      case InTimedOut => origin == Theirs && Hears(run, steps, k, p, c, InboundTimeout(id))
      case InUnsupported => origin == Theirs && Hears(run, steps, k, p, c, InboundUnsupportedProtocols(id))
      case Omitted => origin == Theirs && Hears(run, steps, k, p, c, ResponseOmission(id))
      case InClosed => origin == Ours && Closes(run, steps, k, p, c) && id in InIds(run[k].fg, p, c))
  }

  lemma {:induction false} IdOf(rs: seq<OutboundRequest>, r: OutboundRequest)
    requires r in rs
    ensures r.id in Ids(rs)
  {
    if r != rs[0] {
      IdOf(rs[1..], r);
    }
  }

  /** Every event a step enqueues has that step as its reason. */
  lemma EmittedHasReason(run: seq<System>, steps: seq<Step>, k: nat, a: Action) returns (c: ConnectionId)
    requires IsRun(run, steps) && k < |steps| && !steps[k].PollBehaviour?
    requires a in Emitted(run[k], steps[k]) && a.GenerateEvent?
    ensures Reason(run, steps, k, c, a.event, a.origin)
  {
    hide Apply, InIds, OutIds, Queue;
    var s, st := run[k], steps[k];
    assert Enabled(s, st);
    c := 0;
    match st
    case DeliverEvent(d) =>
      c := d;
      DeliveryIsProcessing(run, steps, k, d);
    case ReportClosed(d, theirs, ours) =>
      c := d;
      ClosingHasReason(run, steps, k, d, theirs, ours, a);
    case DialFails(f) =>
      var i :| 0 <= i < |Queue(s.fg, f.value)| && a == DialFailures(f.value, Queue(s.fg, f.value))[i];
      IdOf(Queue(s.fg, f.value), Queue(s.fg, f.value)[i]);
    case _ =>
  }

  lemma ClosingHasReason(run: seq<System>, steps: seq<Step>, k: nat, d: ConnectionId,
                         theirs: seq<RequestId>, ours: seq<RequestId>, a: Action)
    requires k < |steps| < |run| && steps[k] == ReportClosed(d, theirs, ours) && Enabled(run[k], steps[k])
    requires a in Emitted(run[k], steps[k])
    ensures a.GenerateEvent? && Reason(run, steps, k, d, a.event, a.origin)
  {
    hide Apply, InIds, OutIds;
    var p := run[k].links[d].peer;
    if a in ClosedTheirs(p, theirs) {
      var i :| 0 <= i < |theirs| && a == ClosedTheirs(p, theirs)[i];
      assert theirs[i] in multiset(theirs);
    } else {
      var i :| 0 <= i < |ours| && a == ClosedOurs(p, ours)[i];
      assert ours[i] in multiset(ours);
    }
  }

  /** On every run, every event enqueued for the application has its reason in an earlier step. */
  lemma {:induction false} EventsHaveReasons(run: seq<System>, steps: seq<Step>, i: nat, a: Action)
      returns (k: nat, c: ConnectionId)
    requires IsRun(run, steps) && i <= |steps| && a in Log(run[i]) && a.GenerateEvent?
    ensures k < i && Reason(run, steps, k, c, a.event, a.origin)
    decreases i
  {
    hide Inv, Apply, Structure, LinksOk, Log, Reason, Emitted;
    if i == 0 {
      assert Log(run[0]) == [] by {
        NothingLogged();
      }
      assert false;
    } else {
      var s, st := run[i - 1], steps[i - 1];
      assert Enabled(s, st) && run[i] == Apply(s, st);
      if a in Log(s) {
        k, c := EventsHaveReasons(run, steps, i - 1, a);
      } else {
        NewIsEmitted(run, steps, i - 1, a);
        k := i - 1;
        c := EmittedHasReason(run, steps, k, a);
      }
    }
  }

  lemma NewIsEmitted(run: seq<System>, steps: seq<Step>, k: nat, a: Action)
    requires IsRun(run, steps) && k < |steps| && a in Log(run[k + 1]) && a !in Log(run[k])
    ensures !steps[k].PollBehaviour? && a in Emitted(run[k], steps[k])
  {
    hide Inv, Apply, Structure, LinksOk, Log, Emitted;
    assert Enabled(run[k], steps[k]) && run[k + 1] == Apply(run[k], steps[k]);
    InvOverRuns(run, steps, k);
    IssuedIdsOf(run[k]);
    if steps[k].PollBehaviour? {
      PollEffect(run[k]);
    } else {
      StepEffect(run[k], steps[k]);
    }
  }

  /** Every event of a connection that the behaviour processes is reported, as one event with that reason. */
  lemma ProcessingIsReported(run: seq<System>, steps: seq<Step>, k: nat, c: ConnectionId, e: HandlerEvent)
      returns (a: Action)
    requires IsRun(run, steps) && k < |steps| && Processes(run, steps, k, c, e)
    ensures Log(run[k + 1]) == Log(run[k]) + [a] && a.GenerateEvent? && a.event.id == e.id
    ensures Reason(run, steps, k, c, a.event, a.origin)
  {
    hide Inv, Apply, Structure, LinksOk, Log;
    assert Enabled(run[k], steps[k]) && run[k + 1] == Apply(run[k], steps[k]);
    InvOverRuns(run, steps, k);
    IssuedIdsOf(run[k]);
    StepEffect(run[k], steps[k]);
    a := Report(run[k].links[c].peer, e);
  }

  /** What the debug assertions ask for: a response, received or sent, is of a tracked request. */
  lemma ProcessedIsTracked(run: seq<System>, steps: seq<Step>, k: nat, c: ConnectionId, e: HandlerEvent)
    requires IsRun(run, steps) && k < |steps| && Processes(run, steps, k, c, e)
    ensures var p := run[k].links[c].peer;
            && (IsKind(OutEnd, e) ==> e.id in InIds(run[k].fg, p, c))
            && (e.ResponseSent? ==> e.id in OutIds(run[k].fg, p, c))
            && !e.ResponseOmission?
  {
    hide Apply, InIds, OutIds, LinksOk, Structure;
    assert Enabled(run[k], steps[k]);
    InvOverRuns(run, steps, k);
    BothParts(run[k]);
    ReportedIsAccepted(run[k], c);
    if IsKind(OutEnd, e) {
      OwnRequests.OutcomeIsTracked(run[k], c);
    }
  }

  // ------------------------------------------------------------------- what the handlers tell

  /** The move of a connection that makes its handler tell the event. */
  predicate Outcome(e: HandlerEvent, move: LinkStep) {
    match e
    case Request(id, fileName) => move == RequestArrives(id, fileName)
    case Response(id) => move == OutboundDone(id, None)
    case OutboundTimeout(id) => move == OutboundDone(id, Some(HM.Timeout))
    case OutboundUnsupportedProtocols(id) => move == OutboundDone(id, Some(HM.Upgrade))
    case ResponseSent(id) => move == InboundDone(id, None)
    case InboundTimeout(id) => move == InboundDone(id, Some(HM.Timeout))
    case InboundUnsupportedProtocols(id) => move == InboundDone(id, Some(HM.Upgrade))
    case ResponseOmission(_) => false
  }

  predicate Tells(l: Link, e: HandlerEvent) {
    e in l.handler.events || e in l.outbox
  }

  lemma ToldOrOutcome(l: Link, move: LinkStep, e: HandlerEvent)
    requires LinkReady(l, move) && !e.Request? && Tells(LinkNext(l, move), e)
    ensures Tells(l, e) || Outcome(e, move)
  {
    hide HM.Poll, HM.OnConnectionEvent, Outcome;
    match move
    case PollHandler(pick, deadline) => PollTells(l, pick, deadline, e);
    case OutboundDone(id, error) => OutcomeTells(l.handler, OutboundOutcome(id, error), move, e);
    case InboundDone(id, error) => OutcomeTells(EndUpgrade(l, id).handler, InboundOutcome(id, error), move, e);
    case _ =>
  }

  lemma OutcomeTells(h: HM.HandlerState, outcome: HM.ConnectionEvent, move: LinkStep, e: HandlerEvent)
    requires || (move.OutboundDone? && outcome == OutboundOutcome(move.id, move.error))
             || (move.InboundDone? && outcome == InboundOutcome(move.id, move.error))
    ensures e in HM.OnConnectionEvent(h, outcome).events ==> e in h.events || Outcome(e, move)
  {
  }

  lemma PollTells(l: Link, pick: HM.InboundPoll, deadline: int, e: HandlerEvent)
    requires HM.CanYield(l.handler, pick) && !e.Request?
    requires var (h, r) := HM.Poll(l.handler, pick, deadline); Tells(AfterPoll(l, h, r), e)
    ensures Tells(l, e)
  {
    var (h, r) := HM.Poll(l.handler, pick, deadline);
    if r.Custom? {
      assert AfterPoll(l, h, r).outbox == l.outbox + [r.event];
      if l.handler.events != [] {
        assert l.handler.events[0] in l.handler.events;
      }
    }
  }

  lemma ToldBefore(s: System, st: Step, c: ConnectionId, e: HandlerEvent)
    requires Enabled(s, st) && c in Apply(s, st).links && !e.Request? && Tells(Apply(s, st).links[c], e)
    ensures c in s.links && Apply(s, st).links[c].peer == s.links[c].peer
    ensures Tells(s.links[c], e) || (st.LinkMoves? && st.connection == c && Outcome(e, st.move))
  {
    hide Apply, LinkNext;
    LinkAfter(s, st, c);
    if st.LinkMoves? && st.connection == c {
      LinkStepKeepsRequests(s.links[c], st.move);
      ToldOrOutcome(s.links[c], st.move, e);
    }
  }

  /** Step m is a move of the connection, which is one to the peer, with the outcome that the event tells. */
  ghost predicate Happens(run: seq<System>, steps: seq<Step>, m: nat, p: PeerId, c: ConnectionId, e: HandlerEvent)
    requires m < |steps| < |run|
  {
    && steps[m].LinkMoves? && steps[m].connection == c && Outcome(e, steps[m].move)
    && c in run[m].links && run[m].links[c].peer == p
  }

  lemma {:induction false} ToldHappened(run: seq<System>, steps: seq<Step>, i: nat, c: ConnectionId, e: HandlerEvent)
      returns (m: nat)
    requires IsRun(run, steps) && i <= |steps| && c in run[i].links && !e.Request? && Tells(run[i].links[c], e)
    ensures m < i && Happens(run, steps, m, run[i].links[c].peer, c, e)
    decreases i
  {
    hide Apply, Enabled, Tells;
    assert i > 0;
    assert Enabled(run[i - 1], steps[i - 1]) && run[i] == Apply(run[i - 1], steps[i - 1]);
    ToldBefore(run[i - 1], steps[i - 1], c, e);
    if Tells(run[i - 1].links[c], e) {
      m := ToldHappened(run, steps, i - 1, c, e);
    } else {
      m := i - 1;
    }
  }

  /** Whatever the behaviour hears of a connection has happened there. */
  lemma HeardHappened(run: seq<System>, steps: seq<Step>, k: nat, p: PeerId, c: ConnectionId, e: HandlerEvent)
      returns (m: nat)
    requires IsRun(run, steps) && k < |steps| && Hears(run, steps, k, p, c, e)
    ensures m < k && Happens(run, steps, m, p, c, e)
  {
    hide Inv, Apply, Enabled;
    if e.Request? {
      m := CarriedWasAsked(run, steps, k, c, e.id, e.fileName);
    } else {
      m := ToldHappened(run, steps, k, c, e);
    }
  }

  // ----------------------------------------------------------------- whom received requests name

  lemma {:induction false} HomeStays(run: seq<System>, steps: seq<Step>, i: nat, j: nat, c: ConnectionId)
    requires IsRun(run, steps) && i <= j <= |steps| && c in run[i].home
    ensures c in run[j].home && run[j].home[c] == run[i].home[c]
    decreases j
  {
    hide Apply, Enabled;
    if i < j {
      HomeStays(run, steps, i, j - 1, c);
      assert Enabled(run[j - 1], steps[j - 1]) && run[j] == Apply(run[j - 1], steps[j - 1]);
      HomeKept(run[j - 1], steps[j - 1], c);
    }
  }

  lemma HomeKept(s: System, st: Step, c: ConnectionId)
    requires Enabled(s, st) && c in s.home
    ensures c in Apply(s, st).home && Apply(s, st).home[c] == s.home[c]
  {
    hide LinkNext, SendRequest, Established, DialFailure, OnHandlerEvent, Closed, LinkEnabled, InIds, OutIds, Known, Act;
    if st.PollBehaviour? {
      PollEffect(s);
    }
  }

  /** Step m gives the id to the connection. */
  ghost predicate Accepts(run: seq<System>, steps: seq<Step>, m: nat, c: ConnectionId, id: RequestId)
    requires m < |steps| < |run|
  {
    steps[m] == LinkMoves(c, Accept(id)) && run[m].nextInbound == id
  }

  lemma {:induction false} AcceptedWasGiven(run: seq<System>, steps: seq<Step>, i: nat, c: ConnectionId, id: RequestId)
      returns (m: nat)
    requires IsRun(run, steps) && i <= |steps| && c in run[i].links && id in run[i].links[c].accepted
    ensures m < i && Accepts(run, steps, m, c, id)
    decreases i
  {
    hide Apply, LinkNext;
    assert i > 0;
    var s, st := run[i - 1], steps[i - 1];
    assert Enabled(s, st) && run[i] == Apply(s, st);
    AcceptedAfter(s, st);
    if id in AcceptedBy(s, c) {
      m := AcceptedWasGiven(run, steps, i - 1, c, id);
    } else {
      assert id in NewlyAccepted(s, st, c);
      m := i - 1;
    }
  }

  lemma {:induction false} InboundIdsGrow(run: seq<System>, steps: seq<Step>, i: nat, j: nat)
    requires IsRun(run, steps) && i <= j <= |steps|
    ensures 1 <= run[i].nextInbound <= run[j].nextInbound
    ensures i < j && steps[i].LinkMoves? && steps[i].move.Accept? ==> run[i].nextInbound < run[j].nextInbound
    decreases j
  {
    hide Apply, Enabled;
    if i < j {
      InboundIdsGrow(run, steps, i, j - 1);
      assert Enabled(run[j - 1], steps[j - 1]) && run[j] == Apply(run[j - 1], steps[j - 1]);
      NextInboundAfter(run[j - 1], steps[j - 1]);
    } else if 0 < i {
      InboundIdsGrow(run, steps, i - 1, i - 1);
      assert Enabled(run[i - 1], steps[i - 1]) && run[i] == Apply(run[i - 1], steps[i - 1]);
      NextInboundAfter(run[i - 1], steps[i - 1]);
    }
  }

  /** An id is given to one connection only. */
  lemma GivenOnce(run: seq<System>, steps: seq<Step>, m: nat, n: nat, c: ConnectionId, d: ConnectionId, id: RequestId)
    requires IsRun(run, steps) && m < |steps| && n < |steps|
    requires Accepts(run, steps, m, c, id) && Accepts(run, steps, n, d, id)
    ensures m == n && c == d
  {
    hide Apply, Enabled;
    if m < n {
      InboundIdsGrow(run, steps, m, n);
    } else if n < m {
      InboundIdsGrow(run, steps, n, m);
    }
  }

  /** The reason of an event about a received request is a step of the connection that was given its id. */
  lemma TheirsIsAccepted(run: seq<System>, steps: seq<Step>, k: nat, c: ConnectionId, e: FileGetEvent)
    requires IsRun(run, steps) && k < |steps| && Reason(run, steps, k, c, e, Theirs)
    ensures c in run[k].links && run[k].links[c].peer == e.peer && e.id in run[k].links[c].accepted
    ensures c in run[k].home && run[k].home[c] == e.peer
  {
    hide Inv, Apply, InIds, OutIds, LinksOk, Structure;
    assert Enabled(run[k], steps[k]);
    InvOverRuns(run, steps, k);
    IssuedIdsOf(run[k]);
    AllTrackedAccepted(run[k]);
    LinkIsHome(run[k], c);
    if steps[k].DeliverEvent? {
      ReportedIsAccepted(run[k], c);
    }
  }

  lemma LinkIsHome(s: System, c: ConnectionId)
    requires Structure(s) && c in s.links
    ensures c in s.home && s.home[c] == s.links[c].peer
  {
  }

  /** Every event about a received request names the peer of the connection that was given its id. */
  lemma TheirsNameTheirPeer(run: seq<System>, steps: seq<Step>, i: nat, a: Action) returns (m: nat, c: ConnectionId)
    requires IsRun(run, steps) && i <= |steps| && a in Log(run[i]) && a.GenerateEvent? && a.origin == Theirs
    ensures m < i && Accepts(run, steps, m, c, a.event.id)
    ensures c in run[i].home && run[i].home[c] == a.event.peer
  {
    hide Inv, Apply, Enabled, Log, Reason;
    var k;
    k, c := EventsHaveReasons(run, steps, i, a);
    TheirsIsAccepted(run, steps, k, c, a.event);
    m := AcceptedWasGiven(run, steps, k, c, a.event.id);
    HomeStays(run, steps, k, i, c);
  }

  /** All events about one received request, its announcement and its ends, name the same peer. */
  lemma TheirsNameOnePeer(run: seq<System>, steps: seq<Step>, i: nat, a: Action, b: Action)
    requires IsRun(run, steps) && i <= |steps| && a in Log(run[i]) && b in Log(run[i])
    requires a.GenerateEvent? && b.GenerateEvent? && a.origin == Theirs && b.origin == Theirs && a.event.id == b.event.id
    ensures a.event.peer == b.event.peer
  {
    hide Inv, Apply, Enabled, Log;
    var m, c := TheirsNameTheirPeer(run, steps, i, a);
    var n, d := TheirsNameTheirPeer(run, steps, i, b);
    GivenOnce(run, steps, m, n, c, d, a.event.id);
  }

  // -------------------------------------------------------------------- when a connection breaks down

  /** The move ends the connection: it breaks, an upgrade panics, or a poll meets the pending error. */
  predicate Ends(l: Link, move: LinkStep) {
    move.Break? || move.SenderMissing? || (move.PollHandler? && l.handler.error.Some?)
  }

  lemma MoveClosesIff(l: Link, move: LinkStep)
    requires LinkReady(l, move)
    ensures LinkNext(l, move).open <==> !Ends(l, move)
  {
  }

  /** A connection breaks down exactly by a move that ends it, and never recovers. */
  lemma BreaksDownIff(run: seq<System>, steps: seq<Step>, i: nat, c: ConnectionId)
    requires IsRun(run, steps) && i < |steps| && c in run[i].links && c in run[i + 1].links
    ensures !run[i + 1].links[c].open <==>
            || !run[i].links[c].open
            || (steps[i].LinkMoves? && steps[i].connection == c && Ends(run[i].links[c], steps[i].move))
  {
    hide Inv, Apply, LinkNext;
    assert Enabled(run[i], steps[i]) && run[i + 1] == Apply(run[i], steps[i]);
    LinkAfter(run[i], steps[i], c);
    InvOverRuns(run, steps, i);
    assert !(steps[i].Connect? && steps[i].connection == c) by {
      IssuedIdsOf(run[i]);
    }
    if steps[i].LinkMoves? && steps[i].connection == c {
      MoveClosesIff(run[i].links[c], steps[i].move);
    }
  }

  // ----------------------------------------------------------------------- what a handler waits for

  /** A request channel is open only as long as an upgrade holds its sender. */
  ghost predicate ChannelsHeld(l: Link) {
    forall id :: id in l.handler.inbound && l.handler.inbound[id] == HM.Waiting ==>
                   id in l.inUpgrades && l.inUpgrades[id] == Receiving
  }

  lemma MoveKeepsChannels(l: Link, move: LinkStep)
    requires ChannelsHeld(l) && LinkReady(l, move)
    ensures ChannelsHeld(LinkNext(l, move))
  {
    hide ChannelsHeld, HM.Poll, HM.OnConnectionEvent;
    match move
    case PollHandler(pick, deadline) => PollKeepsChannels(l, pick, deadline);
    case InboundDone(id, error) =>
      EndKeepsChannels(l, id);
      HM.OutcomesKeepTheRest(EndUpgrade(l, id).handler, InboundOutcome(id, error));
      SameChannels(EndUpgrade(l, id), LinkNext(l, move));
    case InboundUnused(id) => EndKeepsChannels(l, id);
    case OutboundDone(id, error) =>
      HM.OutcomesKeepTheRest(l.handler, OutboundOutcome(id, error));
      SameChannels(l, LinkNext(l, move));
    case _ => OtherMovesKeepChannels(l, move);
  }

  lemma SameChannels(l: Link, m: Link)
    requires ChannelsHeld(l) && m.handler.inbound == l.handler.inbound && m.inUpgrades == l.inUpgrades
    ensures ChannelsHeld(m)
  {
  }

  lemma EndKeepsChannels(l: Link, id: RequestId)
    requires ChannelsHeld(l) && id in l.inUpgrades
    ensures ChannelsHeld(EndUpgrade(l, id))
  {
  }

  lemma PollKeepsChannels(l: Link, pick: HM.InboundPoll, deadline: int)
    requires ChannelsHeld(l) && LinkReady(l, PollHandler(pick, deadline))
    ensures ChannelsHeld(LinkNext(l, PollHandler(pick, deadline)))
  {
  }

  lemma OtherMovesKeepChannels(l: Link, move: LinkStep)
    requires ChannelsHeld(l) && LinkReady(l, move)
    requires !move.PollHandler? && !move.InboundDone? && !move.InboundUnused? && !move.OutboundDone?
    ensures ChannelsHeld(LinkNext(l, move))
  {
    hide HM.Poll, HM.OnConnectionEvent, EndUpgrade;
  }

  lemma {:induction false} ChannelsOverRuns(run: seq<System>, steps: seq<Step>, i: nat, c: ConnectionId)
    requires IsRun(run, steps) && i <= |steps| && c in run[i].links
    ensures ChannelsHeld(run[i].links[c])
    decreases i
  {
    hide Apply, LinkNext, ChannelsHeld;
    assert i > 0;
    var s, st := run[i - 1], steps[i - 1];
    assert Enabled(s, st) && run[i] == Apply(s, st);
    LinkAfter(s, st, c);
    if c in s.links {
      ChannelsOverRuns(run, steps, i - 1, c);
      ThenKeepsChannels(s, st, c);
    } else {
      NewHoldsNothing(st.peer);
    }
  }

  lemma NewHoldsNothing(p: PeerId)
    ensures ChannelsHeld(NewLink(p))
  {
  }

  lemma ThenKeepsChannels(s: System, st: Step, c: ConnectionId)
    requires Enabled(s, st) && c in s.links && ChannelsHeld(s.links[c])
    ensures ChannelsHeld(LinkThen(s, st, c))
  {
    hide LinkNext;
    if st.LinkMoves? && st.connection == c {
      MoveKeepsChannels(s.links[c], st.move);
    }
  }

  /** A handler waits for a request exactly while the upgrade of its substream is receiving it; it is never
      kept alive by a substream that has ended. */
  lemma WaitsIffReceiving(run: seq<System>, steps: seq<Step>, i: nat, c: ConnectionId, id: RequestId)
    requires IsRun(run, steps) && i <= |steps| && c in run[i].links
    ensures var l := run[i].links[c];
            id in l.handler.inbound && l.handler.inbound[id] == HM.Waiting <==>
            id in l.inUpgrades && l.inUpgrades[id] == Receiving
  {
    hide Apply, Enabled, OwnRequests.OwnInv;
    ChannelsOverRuns(run, steps, i, c);
    InvOverRuns(run, steps, i);
    assert InboundRequests.InboundOk(run[i].links[c], OutsideOf(run[i], c));
    assert id in run[i].links[c].inUpgrades ==>
        InboundRequests.SenderExists(run[i].links[c], id, OutsideOf(run[i], c));
  }
}
