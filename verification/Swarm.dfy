/** FileGet composed with the handler of every connection, the swarm between them and an
    application that answers requests: a transition system with one step per event. */
module Swarm {
  import opened Basics
  import opened Messages
  import opened FileGetModel
  import opened Link

  /** What a request was issued for. */
  datatype Purpose = Purpose(peer: PeerId, fileName: string)

  /** `home` is the peer of every connection that ever existed, `dials` the dials whose result has
      not been reported, `polled` the actions taken from the behaviour so far, `app` the received
      requests whose response sender the application holds, `replied` those it has answered and
      `dropped` those whose sender it has dropped; `crashed` are the received requests whose upgrade
      panicked; `panicked` says that an expect or a debug assertion of the behaviour failed.
      `issued` records what each of our own requests was issued for; no step reads it. */
  datatype System = System(
    fg: FileGetState,
    nextInbound: RequestId,
    links: map<ConnectionId, Link>,
    home: map<ConnectionId, PeerId>,
    dials: multiset<PeerId>,
    polled: seq<Action>,
    app: set<RequestId>,
    replied: set<RequestId>,
    dropped: set<RequestId>,
    crashed: set<RequestId>,
    panicked: bool,
    issued: map<RequestId, Purpose>)

  const START := System(INITIAL, 1, map[], map[], multiset{}, [], {}, {}, {}, {}, false, map[])

  /** `theirs` and `ours` are the orders in which on_connection_closed iterates its hash sets. */
  datatype Step =
    | Send(peer: PeerId, fileName: string)
    | PollBehaviour
    | ForeignDial(peer: PeerId)  // another behaviour, or the application, dials the peer
    | Connect(peer: PeerId, connection: ConnectionId, dialed: bool)
    | DialFails(failed: Option<PeerId>)
    | LinkMoves(connection: ConnectionId, move: LinkStep)
    | DeliverEvent(connection: ConnectionId)
    | ReportClosed(connection: ConnectionId, theirs: seq<RequestId>, ours: seq<RequestId>)
    | Reply(id: RequestId)
    | DropSender(id: RequestId)

  /** The received requests whose response sender is with the behaviour or the application. */
  function Held(s: System): set<RequestId> {
    Elements(Pick(Received, s.fg.events)) + s.app
  }

  /** Fewer than 2^64 - 1 ids of either kind are drawn; connection ids are never reused; a dial has
      one result; the close of a connection is reported after its last event. */
  ghost predicate Enabled(s: System, st: Step) {
    match st
    case Send(_, _) => s.fg.nextId + 1 < U64_SIZE
    case PollBehaviour => s.fg.events != []
    case ForeignDial(_) => true
    case Connect(p, c, dialed) => c !in s.home && (dialed ==> p in s.dials)
    case DialFails(p) => p.Some? ==> p.value in s.dials
    case LinkMoves(c, move) =>
      && c in s.links && LinkEnabled(s.links[c], move, s.nextInbound, s.replied, Held(s))
      && (move.Accept? ==> s.nextInbound + 1 < U64_SIZE)
    case DeliverEvent(c) => c in s.links && s.links[c].outbox != []
    case ReportClosed(c, theirs, ours) =>
      && c in s.links && !s.links[c].open && s.links[c].outbox == []
      && IsListing(theirs, OutIds(s.fg, s.links[c].peer, c)) && IsListing(ours, InIds(s.fg, s.links[c].peer, c))
    case Reply(id) => id in s.app
    case DropSender(id) => id in s.app
  }

  /** The swarm's own count of the connections of a peer. */
  function OtherEstablished(s: System, p: PeerId): nat {
    |set c | c in s.links && s.links[c].peer == p|
  }

  /** A request handed to a connection that is breaking down is dropped by the swarm. */
  function Notify(l: Link, r: OutboundRequest): Link {
    if l.open then l.(inbox := l.inbox + [r]) else l.(lost := l.lost + multiset{r.id})
  }

  /** The swarm or the application acts on an action of the behaviour. */
  function Act(s: System, a: Action): System {
    match a
    case Dial(p) => s.(dials := s.dials + multiset{p})
    case NotifyHandler(_, c, r) => if c in s.links then s.(links := s.links[c := Notify(s.links[c], r)]) else s
    case GenerateEvent(e, _) => if e.RequestReceived? then s.(app := s.app + {e.id}) else s
  }

  function Apply(s: System, st: Step): System
    requires Enabled(s, st)
  {
    match st
    case Send(p, fileName) =>
      s.(fg := SendRequest(s.fg, p, fileName).0, issued := s.issued[s.fg.nextId := Purpose(p, fileName)])
    case PollBehaviour =>
      var a := s.fg.events[0];
      Act(s.(fg := PollAction(s.fg).0, polled := s.polled + [a]), a)
    case ForeignDial(p) => s.(dials := s.dials + multiset{p})
    case Connect(p, c, dialed) =>
      s.(fg := Established(s.fg, p, c, OtherEstablished(s, p)),
         links := s.links[c := NewLink(p)],
         home := s.home[c := p],
         dials := if dialed then s.dials - multiset{p} else s.dials)
    case DialFails(p) =>
      s.(fg := DialFailure(s.fg, p), dials := if p.Some? then s.dials - multiset{p.value} else s.dials)
    case LinkMoves(c, move) =>
      s.(links := s.links[c := LinkNext(s.links[c], move)],
         nextInbound := if move.Accept? then NextCounter(s.nextInbound) else s.nextInbound,
         crashed := if move.SenderMissing? then s.crashed + {move.id} else s.crashed)
    case DeliverEvent(c) =>
      var l := s.links[c];
      s.(fg := OnHandlerEvent(s.fg, l.peer, c, l.outbox[0]),
         links := s.links[c := l.(outbox := l.outbox[1..])],
         panicked := s.panicked || !AssertionHolds(s.fg, l.peer, c, l.outbox[0]))
    case ReportClosed(c, theirs, ours) =>
      if Known(s.fg, s.links[c].peer, c) then
        s.(fg := Closed(s.fg, s.links[c].peer, c, theirs, ours), links := s.links - {c})
      else
        s.(panicked := true)
    case Reply(id) => s.(app := s.app - {id}, replied := s.replied + {id})
    case DropSender(id) => s.(app := s.app - {id}, dropped := s.dropped + {id})
  }

  /** What a step makes of a connection. */
  function LinkThen(s: System, st: Step, c: ConnectionId): Link
    requires Enabled(s, st) && c in s.links
  {
    var l := s.links[c];
    if st.Connect? && st.connection == c then NewLink(st.peer)
    else if st.LinkMoves? && st.connection == c then LinkNext(l, st.move)
    else if st.DeliverEvent? && st.connection == c then l.(outbox := l.outbox[1..])
    else if st.PollBehaviour? && s.fg.events[0].NotifyHandler? && s.fg.events[0].connection == c
    then Notify(l, s.fg.events[0].request)
    else l
  }

  lemma LinkAfter(s: System, st: Step, c: ConnectionId)
    requires Enabled(s, st) && c in Apply(s, st).links
    ensures if c in s.links then Apply(s, st).links[c] == LinkThen(s, st, c)
            else st.Connect? && st.connection == c && Apply(s, st).links[c] == NewLink(st.peer)
  {
    hide LinkNext, Notify, SendRequest, Established, DialFailure, OnHandlerEvent, Closed, LinkEnabled, OutIds, InIds;
  }

  /** All actions ever enqueued by the behaviour, in order. */
  function Log(s: System): seq<Action> {
    s.polled + s.fg.events
  }

  ghost predicate IsRun(run: seq<System>, steps: seq<Step>) {
    && |run| == |steps| + 1
    && run[0] == START
    && (forall i :: 0 <= i < |steps| ==> Enabled(run[i], steps[i]) && run[i + 1] == Apply(run[i], steps[i]))
  }

  // ----------------------------------------------------------------------------- structure

  /** The connections FileGet knows are those of the swarm. */
  ghost predicate Structure(s: System) {
    && Tidy(s.fg)
    && (forall p, c :: Known(s.fg, p, c) <==> c in s.links && s.links[c].peer == p)
    && (forall c :: c in s.links ==> c in s.home && s.home[c] == s.links[c].peer)
    && 1 <= s.fg.nextId < U64_SIZE && 1 <= s.nextInbound < U64_SIZE
  }

  /** The actions a step enqueues. */
  function Emitted(s: System, st: Step): seq<Action> {
    match st
    case Send(p, fileName) =>
      if Conns(s.fg, p) == [] then [Dial(p)]
      else [NotifyHandler(p, Target(s.fg, p, s.fg.nextId), OutboundRequest(s.fg.nextId, fileName))]
    case Connect(p, c, _) => Handovers(p, c, Queue(s.fg, p))
    case DialFails(p) => if p.Some? then DialFailures(p.value, Queue(s.fg, p.value)) else []
    case DeliverEvent(c) =>
      if c in s.links && s.links[c].outbox != [] then [Report(s.links[c].peer, s.links[c].outbox[0])] else []
    case ReportClosed(c, theirs, ours) =>
      if c in s.links then ClosedTheirs(s.links[c].peer, theirs) + ClosedOurs(s.links[c].peer, ours) else []
    case _ => []
  }

  lemma OtherEstablishedIsZeroIff(s: System, p: PeerId)
    requires Structure(s)
    ensures OtherEstablished(s, p) == 0 <==> Conns(s.fg, p) == []
  {
    var cs := set c | c in s.links && s.links[c].peer == p;
    if Conns(s.fg, p) != [] {
      var c := Conns(s.fg, p)[0].id;
      assert Known(s.fg, p, c);
      assert c in cs;
    } else {
      forall c ensures c !in cs {
        assert !Known(s.fg, p, c);
      }
      assert cs == {};
    }
  }

  /** FileGet stays tidy, enqueues exactly `actions` and draws `ids` identifiers. */
  ghost predicate GrowsBy(s: System, t: System, actions: seq<Action>, ids: nat) {
    && Tidy(t.fg)
    && t.fg.events == s.fg.events + actions
    && t.fg.nextId == s.fg.nextId + ids
    && t.polled == s.polled
    && Log(t) == Log(s) + actions
  }

  lemma Grows(s: System, t: System, actions: seq<Action>, ids: nat)
    requires Tidy(t.fg) && t.fg.events == s.fg.events + actions && t.fg.nextId == s.fg.nextId + ids && t.polled == s.polled
    ensures GrowsBy(s, t, actions, ids)
  {
    assert s.polled + (s.fg.events + actions) == (s.polled + s.fg.events) + actions;
  }

  /** Every step but a poll appends to the log what it emits. */
  lemma StepEffect(s: System, st: Step)
    requires Structure(s) && Enabled(s, st) && !st.PollBehaviour?
    ensures GrowsBy(s, Apply(s, st), Emitted(s, st), if st.Send? then 1 else 0)
  {
    var t := Apply(s, st);
    match st
    case Send(p, fileName) => SendEffect(s, p, fileName);
    case Connect(p, c, _) =>
      OtherEstablishedIsZeroIff(s, p);
      EstablishedEffect(s.fg, p, c, OtherEstablished(s, p));
      Grows(s, t, Emitted(s, st), 0);
    case DialFails(p) =>
      DialFailureEffect(s.fg, p);
      assert s.fg.events + [] == s.fg.events;
      Grows(s, t, Emitted(s, st), 0);
    case DeliverEvent(c) => DeliverEffect(s, c);
    case ReportClosed(c, theirs, ours) => ReportClosedEffect(s, c, theirs, ours);
    case PollBehaviour => assert false;
    case ForeignDial(_) => GrowsByNothing(s, t);
    case LinkMoves(_, _) => GrowsByNothing(s, t);
    case Reply(_) => GrowsByNothing(s, t);
    case DropSender(_) => GrowsByNothing(s, t);
  }

  lemma GrowsByNothing(s: System, t: System)
    requires Tidy(s.fg) && t.fg == s.fg && t.polled == s.polled
    ensures GrowsBy(s, t, [], 0)
  {
    assert s.fg.events + [] == s.fg.events;
    Grows(s, t, [], 0);
  }

  lemma SendEffect(s: System, p: PeerId, fileName: string)
    requires Structure(s) && Enabled(s, Send(p, fileName))
    ensures GrowsBy(s, Apply(s, Send(p, fileName)), Emitted(s, Send(p, fileName)), 1)
  {
    SendRequestEffect(s.fg, p, fileName);
    Grows(s, Apply(s, Send(p, fileName)), Emitted(s, Send(p, fileName)), 1);
  }

  lemma DeliverEffect(s: System, c: ConnectionId)
    requires Structure(s) && Enabled(s, DeliverEvent(c))
    ensures GrowsBy(s, Apply(s, DeliverEvent(c)), Emitted(s, DeliverEvent(c)), 0)
  {
    HandlerEventEffect(s.fg, s.links[c].peer, c, s.links[c].outbox[0]);
    Grows(s, Apply(s, DeliverEvent(c)), Emitted(s, DeliverEvent(c)), 0);
  }

  lemma ReportClosedEffect(s: System, c: ConnectionId, theirs: seq<RequestId>, ours: seq<RequestId>)
    requires Structure(s) && Enabled(s, ReportClosed(c, theirs, ours))
    ensures GrowsBy(s, Apply(s, ReportClosed(c, theirs, ours)), Emitted(s, ReportClosed(c, theirs, ours)), 0)
  {
    var p := s.links[c].peer;
    ClosedEffect(s.fg, p, c, theirs, ours);
    assert s.fg.events + ClosedTheirs(p, theirs) + ClosedOurs(p, ours) ==
           s.fg.events + (ClosedTheirs(p, theirs) + ClosedOurs(p, ours));
    Grows(s, Apply(s, ReportClosed(c, theirs, ours)), ClosedTheirs(p, theirs) + ClosedOurs(p, ours), 0);
  }

  lemma ActEffect(s: System, a: Action)
    ensures var t := Act(s, a);
            && t.fg == s.fg && t.polled == s.polled
            && t.home == s.home && t.nextInbound == s.nextInbound && t.replied == s.replied && t.dropped == s.dropped
            && t.crashed == s.crashed && t.panicked == s.panicked && t.issued == s.issued
            && t.links.Keys == s.links.Keys
            && (forall c :: c in s.links ==> t.links[c].peer == s.links[c].peer)
            && t.app == s.app + (if a.GenerateEvent? && a.event.RequestReceived? then {a.event.id} else {})
  {
    match a
    case Dial(_) =>
    case NotifyHandler(_, _, _) =>
    case GenerateEvent(_, _) =>
  }

  /** Polling moves the oldest action from the queue to the polled ones. */
  lemma PollEffect(s: System)
    requires Enabled(s, PollBehaviour)
    ensures var t, a := Apply(s, PollBehaviour), s.fg.events[0];
            && t.fg == s.fg.(events := s.fg.events[1..])
            && t.polled == s.polled + [s.fg.events[0]]
            && Log(t) == Log(s)
            && t.home == s.home && t.nextInbound == s.nextInbound && t.replied == s.replied && t.dropped == s.dropped
            && t.crashed == s.crashed && t.panicked == s.panicked && t.issued == s.issued
            && t.links.Keys == s.links.Keys
            && (forall c :: c in s.links ==> t.links[c].peer == s.links[c].peer)
            && t.app == s.app + (if a.GenerateEvent? && a.event.RequestReceived? then {a.event.id} else {})
  {
    ActEffect(s.(fg := PollAction(s.fg).0, polled := s.polled + [s.fg.events[0]]), s.fg.events[0]);
    assert s.fg.events == [s.fg.events[0]] + s.fg.events[1..];
    assert (s.polled + [s.fg.events[0]]) + s.fg.events[1..] == s.polled + ([s.fg.events[0]] + s.fg.events[1..]);
  }

  /** The correspondence between FileGet and swarm is kept by every step. */
  lemma StructureKept(s: System, st: Step)
    requires Structure(s) && Enabled(s, st)
    ensures Structure(Apply(s, st))
  {
    match st
    case Send(p, fileName) => SendKeepsStructure(s, p, fileName);
    case Connect(p, c, dialed) => ConnectKeepsStructure(s, p, c, dialed);
    case DeliverEvent(c) => DeliverKeepsStructure(s, c);
    case ReportClosed(c, theirs, ours) => ReportClosedKeepsStructure(s, c, theirs, ours);
    case PollBehaviour => PollKeepsStructure(s);
    case LinkMoves(c, move) => MoveKeepsStructure(s, c, move);
    case _ => QuietStepKeepsStructure(s, st);
  }

  lemma PollKeepsStructure(s: System)
    requires Structure(s) && Enabled(s, PollBehaviour)
    ensures Structure(Apply(s, PollBehaviour))
  {
    PollEffect(s);
    PolledStructure(s, Apply(s, PollBehaviour));
  }

  lemma PolledStructure(s: System, t: System)
    requires Structure(s) && t.fg == s.fg.(events := t.fg.events)
    requires t.home == s.home && t.nextInbound == s.nextInbound
    requires t.links.Keys == s.links.Keys && forall c :: c in s.links ==> t.links[c].peer == s.links[c].peer
    ensures Structure(t)
  {
    SameStructure(s, t);
  }

  lemma MoveKeepsStructure(s: System, c: ConnectionId, move: LinkStep)
    requires Structure(s) && Enabled(s, LinkMoves(c, move))
    ensures Structure(Apply(s, LinkMoves(c, move)))
  {
    hide LinkNext, Known, Tidy, Tokens, Flow;
    LinkStepKeepsRequests(s.links[c], move);
    SameStructure(s, Apply(s, LinkMoves(c, move)));
  }

  lemma QuietStepKeepsStructure(s: System, st: Step)
    requires Structure(s) && Enabled(s, st) && (st.ForeignDial? || st.DialFails? || st.Reply? || st.DropSender?)
    ensures Structure(Apply(s, st))
  {
    if st.DialFails? {
      DialFailureEffect(s.fg, st.failed);
    }
    SameStructure(s, Apply(s, st));
  }

  lemma SameStructure(s: System, t: System)
    requires Structure(s) && Tidy(t.fg)
    requires t.fg.connected == s.fg.connected && t.fg.nextId == s.fg.nextId && t.home == s.home
    requires t.links.Keys == s.links.Keys && forall c :: c in s.links ==> t.links[c].peer == s.links[c].peer
    requires 1 <= t.nextInbound < U64_SIZE
    ensures Structure(t)
  {
    assert forall p :: Conns(t.fg, p) == Conns(s.fg, p);
    assert forall p, c :: Known(t.fg, p, c) == Known(s.fg, p, c);
  }

  lemma SendKeepsStructure(s: System, p: PeerId, fileName: string)
    requires Structure(s) && Enabled(s, Send(p, fileName))
    ensures Structure(Apply(s, Send(p, fileName)))
  {
    SendRequestEffect(s.fg, p, fileName);
    var t := Apply(s, Send(p, fileName));
    assert Conns(s.fg, p) == [] ==> forall q :: Conns(t.fg, q) == Conns(s.fg, q);
    assert forall q, d :: Known(t.fg, q, d) == Known(s.fg, q, d);
  }

  lemma ConnectKeepsStructure(s: System, p: PeerId, c: ConnectionId, dialed: bool)
    requires Structure(s) && Enabled(s, Connect(p, c, dialed))
    ensures Structure(Apply(s, Connect(p, c, dialed)))
  {
    OtherEstablishedIsZeroIff(s, p);
    EstablishedEffect(s.fg, p, c, OtherEstablished(s, p));
    var t := Apply(s, Connect(p, c, dialed));
    assert !Known(s.fg, p, c);
    forall q, d ensures Known(t.fg, q, d) <==> d in t.links && t.links[d].peer == q {
      assert q != p || d != c ==> Known(t.fg, q, d) == Known(s.fg, q, d);
    }
  }

  lemma DeliverKeepsStructure(s: System, c: ConnectionId)
    requires Structure(s) && Enabled(s, DeliverEvent(c))
    ensures Structure(Apply(s, DeliverEvent(c)))
  {
    HandlerEventEffect(s.fg, s.links[c].peer, c, s.links[c].outbox[0]);
    var t := Apply(s, DeliverEvent(c));
    assert forall q, d :: Known(t.fg, q, d) == Known(s.fg, q, d);
  }

  lemma ReportClosedKeepsStructure(s: System, c: ConnectionId, theirs: seq<RequestId>, ours: seq<RequestId>)
    requires Structure(s) && Enabled(s, ReportClosed(c, theirs, ours))
    ensures Structure(Apply(s, ReportClosed(c, theirs, ours)))
  {
    var p := s.links[c].peer;
    ClosedEffect(s.fg, p, c, theirs, ours);
    var t := Apply(s, ReportClosed(c, theirs, ours));
    forall q, d ensures Known(t.fg, q, d) <==> d in t.links && t.links[d].peer == q {
      assert q != p || d != c ==> Known(t.fg, q, d) == Known(s.fg, q, d);
    }
  }
}
