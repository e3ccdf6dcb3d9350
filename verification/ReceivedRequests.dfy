/** The requests of remote peers on every run: an id is announced once, has one outcome, and a
    response is reported as sent only for a request that was announced and is tracked. */
module ReceivedRequests {
  import opened Basics
  import opened Messages
  import opened FileGetModel
  import opened Link
  import opened InboundRequests
  import opened Swarm

  predicate AboutTheirs(k: ActionKey) {
    k.Received? || k.TheirOutcome? || k.TheirSent? || k.TheirClosed?
  }

  function Seen(s: System, k: ActionKey): set<RequestId> {
    Elements(Pick(k, Log(s)))
  }

  /** The received requests FileGet tracks for a connection. */
  function TheirsTrackedBy(s: System, c: ConnectionId): set<RequestId>
    requires c in s.links
  {
    OutIds(s.fg, s.links[c].peer, c)
  }

  function OutsideOf(s: System, c: ConnectionId): Outside
    requires c in s.links
  {
    Outside(Seen(s, Received), Seen(s, TheirOutcome), s.replied, TheirsTrackedBy(s, c))
  }

  ghost predicate LinksOk(s: System) {
    forall c :: c in s.links ==> InboundOk(s.links[c], OutsideOf(s, c))
  }

  /** Inbound ids are drawn once over all connections. */
  ghost predicate IdsApart(s: System) {
    && (forall c, id :: c in s.links && id in s.links[c].accepted ==> 1 <= id < s.nextInbound)
    && (forall c, d, id :: c in s.links && d in s.links && id in s.links[c].accepted && id in s.links[d].accepted ==> c == d)
    && (forall id :: id in Seen(s, Received) || id in Seen(s, TheirOutcome) ==> 1 <= id < s.nextInbound)
  }

  /** A request is announced at most once, has at most one outcome and is closed at most once. */
  ghost predicate ReportedOnce(s: System) {
    forall id, k :: k == Received || k == TheirOutcome || k == TheirClosed ==> Times(Pick(k, Log(s)), id) <= 1
  }

  /** The application holds, has used, or has dropped the response sender of what was announced to it. */
  ghost predicate SendersOwned(s: System) {
    && Elements(Pick(Received, s.polled)) == s.app + s.replied + s.dropped
    && s.app !! s.replied !! s.dropped
  }

  ghost predicate Untracked(s: System, id: RequestId) {
    forall c :: c in s.links ==> id !in TheirsTrackedBy(s, c)
  }

  /** Once a response was reported as sent, or its connection as closed, a request is over. */
  ghost predicate EndsAreFinal(s: System) {
    && (forall id :: id in Seen(s, TheirSent) ==> id in Seen(s, Received) && Untracked(s, id) && id !in Seen(s, TheirClosed))
    && (forall id :: id in Seen(s, TheirClosed) ==> id in Seen(s, Received) && Untracked(s, id))
    && (forall c, id :: c in s.links && id in TheirsTrackedBy(s, c) ==> id in Seen(s, Received))
  }

  ghost predicate ReceivedInv(s: System) {
    LinksOk(s) && IdsApart(s) && ReportedOnce(s) && SendersOwned(s) && EndsAreFinal(s)
  }

  lemma ReceivedInvAtStart()
    ensures ReceivedInv(START)
  {
    assert Log(START) == [];
  }

  // ---------------------------------------------- steps that report nothing about their requests

  predicate Quiet(st: Step) {
    !st.DeliverEvent? && !st.ReportClosed?
  }

  /** The log says the same about received requests and FileGet tracks the same ones. */
  ghost predicate SameTheirs(s: System, t: System) {
    && (forall k :: AboutTheirs(k) ==> Pick(k, Log(t)) == Pick(k, Log(s)))
    && (forall c :: c in t.links && c in s.links ==> TheirsTrackedBy(t, c) == TheirsTrackedBy(s, c))
    && (forall c :: c in t.links && c !in s.links ==> TheirsTrackedBy(t, c) == {})
  }

  lemma QuietKeepsTheirs(s: System, st: Step)
    requires Structure(s) && Enabled(s, st) && Quiet(st)
    ensures SameTheirs(s, Apply(s, st))
  {
    hide Known, InIds, OutIds, Tidy, Find, Apply, Enabled;
    forall k | AboutTheirs(k) ensures Pick(k, Log(Apply(s, st))) == Pick(k, Log(s)) {
      QuietLog(s, st, k);
    }
    QuietTracks(s, st);
  }

  lemma QuietLog(s: System, st: Step, k: ActionKey)
    requires Structure(s) && Enabled(s, st) && Quiet(st) && AboutTheirs(k)
    ensures Pick(k, Log(Apply(s, st))) == Pick(k, Log(s))
  {
    if st.PollBehaviour? {
      PollEffect(s);
    } else {
      StepEffect(s, st);
      QuietEmits(s, st, k);
      PickConcat(k, Log(s), Emitted(s, st));
      assert Pick(k, Log(s)) + [] == Pick(k, Log(s));
    }
  }

  lemma QuietTracks(s: System, st: Step)
    requires Structure(s) && Enabled(s, st) && Quiet(st)
    ensures var t := Apply(s, st);
            forall c :: c in t.links ==> TheirsTrackedBy(t, c) == if c in s.links then TheirsTrackedBy(s, c) else {}
  {
    hide Known, InIds, OutIds, Tidy, Find, SendRequest, Established, DialFailure, LinkNext;
    if st.Send? {
      SendTracksTheirs(s, st.peer, st.fileName);
    } else if st.Connect? {
      ConnectTracksTheirs(s, st.peer, st.connection, st.dialed);
    } else {
      SameConnected(s, st);
      SameTheirsTracked(s, Apply(s, st));
    }
  }

  lemma SameConnected(s: System, st: Step)
    requires Structure(s) && Enabled(s, st) && Quiet(st) && !st.Send? && !st.Connect?
    ensures var t := Apply(s, st);
            && t.fg.connected == s.fg.connected
            && forall c :: c in t.links ==> c in s.links && t.links[c].peer == s.links[c].peer
  {
    hide Known, InIds, OutIds, Tidy, Find, DialFailure, LinkNext;
    if st.PollBehaviour? {
      PollEffect(s);
    } else if st.DialFails? {
      DialFailureEffect(s.fg, st.failed);
    } else if st.LinkMoves? {
      LinkStepKeepsRequests(s.links[st.connection], st.move);
    }
  }

  lemma QuietEmits(s: System, st: Step, k: ActionKey)
    requires Quiet(st) && AboutTheirs(k)
    ensures Pick(k, Emitted(s, st)) == []
  {
    match st
    case Connect(p, c, _) => PickHandovers(p, c, Queue(s.fg, p));
    case DialFails(f) =>
      if f.Some? {
        PickDialFailures(f.value, Queue(s.fg, f.value));
      }
    case _ =>
  }

  lemma SameTheirsTracked(s: System, t: System)
    requires t.fg.connected == s.fg.connected
    requires forall c :: c in t.links ==> c in s.links && t.links[c].peer == s.links[c].peer
    ensures forall c :: c in t.links && c in s.links ==> TheirsTrackedBy(t, c) == TheirsTrackedBy(s, c)
  {
    assert forall p :: Conns(t.fg, p) == Conns(s.fg, p);
  }

  lemma SendTracksTheirs(s: System, p: PeerId, fileName: string)
    requires Structure(s) && Enabled(s, Send(p, fileName))
    ensures forall c :: c in s.links ==> TheirsTrackedBy(Apply(s, Send(p, fileName)), c) == TheirsTrackedBy(s, c)
  {
    SendRequestEffect(s.fg, p, fileName);
    if Conns(s.fg, p) == [] {
      SameTheirsTracked(s, Apply(s, Send(p, fileName)));
    }
  }

  lemma ConnectTracksTheirs(s: System, p: PeerId, d: ConnectionId, dialed: bool)
    requires Structure(s) && Enabled(s, Connect(p, d, dialed))
    ensures var t := Apply(s, Connect(p, d, dialed));
            forall c :: c in t.links ==> TheirsTrackedBy(t, c) == if c == d then {} else TheirsTrackedBy(s, c)
  {
    OtherEstablishedIsZeroIff(s, p);
    EstablishedEffect(s.fg, p, d, OtherEstablished(s, p));
  }

  lemma SameTheirsKeepsReports(s: System, t: System)
    requires ReportedOnce(s) && EndsAreFinal(s) && SameTheirs(s, t)
    requires forall c :: c in t.links && c !in s.links ==> TheirsTrackedBy(t, c) == {}
    ensures ReportedOnce(t) && EndsAreFinal(t)
  {
    assert forall k :: AboutTheirs(k) ==> Seen(t, k) == Seen(s, k);
    forall id | Untracked(s, id) ensures Untracked(t, id) {}
  }

  lemma QuietKeepsLinksOk(s: System, st: Step)
    requires Structure(s) && LinksOk(s) && IdsApart(s) && SendersOwned(s) && Enabled(s, st) && Quiet(st)
    ensures LinksOk(Apply(s, st))
  {
    var t := Apply(s, st);
    QuietKeepsTheirs(s, st);
    forall c | c in t.links ensures InboundOk(t.links[c], OutsideOf(t, c)) {
      if c in s.links {
        SameTheirsOutside(s, t, c);
        QuietKeepsLinkOk(s, st, c);
      } else {
        NewLinkKept(s, st, c);
      }
    }
  }

  lemma SameTheirsOutside(s: System, t: System, c: ConnectionId)
    requires SameTheirs(s, t) && c in s.links && c in t.links
    ensures OutsideOf(t, c) == OutsideOf(s, c).(replied := t.replied)
  {
  }

  lemma NewLinkKept(s: System, st: Step, c: ConnectionId)
    requires Structure(s) && SendersOwned(s) && Enabled(s, st) && Quiet(st) && SameTheirs(s, Apply(s, st))
    requires c in Apply(s, st).links && c !in s.links
    ensures InboundOk(Apply(s, st).links[c], OutsideOf(Apply(s, st), c))
  {
    var t := Apply(s, st);
    assert st.Connect? && t.links[c] == NewLink(st.peer) && t.replied == s.replied by {
      if st.PollBehaviour? {
        PollEffect(s);
      }
    }
    RepliedIsSeen(s);
    NewLinkOk(st.peer, OutsideOf(t, c));
  }

  lemma NewLinkOk(p: PeerId, o: Outside)
    requires o.tracked == {} && o.replied <= o.received
    ensures InboundOk(NewLink(p), o)
  {
  }

  lemma RepliedIsSeen(s: System)
    requires SendersOwned(s)
    ensures s.replied <= Seen(s, Received) && s.app <= Seen(s, Received) && s.dropped <= Seen(s, Received)
  {
    PickConcat(Received, s.polled, s.fg.events);
    forall id | id in s.app + s.replied + s.dropped ensures id in Seen(s, Received) {
      assert id in Elements(Pick(Received, s.polled));
    }
  }

  lemma QuietKeepsLinkOk(s: System, st: Step, c: ConnectionId)
    requires LinksOk(s) && IdsApart(s) && SendersOwned(s) && Enabled(s, st) && Quiet(st) && c in s.links
    requires st.Connect? ==> st.connection != c
    ensures c in Apply(s, st).links
    ensures InboundOk(Apply(s, st).links[c], OutsideOf(s, c).(replied := Apply(s, st).replied))
  {
    assert InboundOk(s.links[c], OutsideOf(s, c));
    if st.PollBehaviour? {
      PollKeepsLinkOk(s, c);
    } else if st.LinkMoves? {
      MoveKeepsLinkOk(s, st.connection, st.move, c);
    } else if st.Reply? {
      RepliedIsSeen(s);
      RepliesKeepInbound(s.links[c], OutsideOf(s, c), st.id);
    } else {
      assert Apply(s, st).links[c] == s.links[c] && Apply(s, st).replied == s.replied;
      assert OutsideOf(s, c).(replied := s.replied) == OutsideOf(s, c);
    }
  }

  lemma PollKeepsLinkOk(s: System, c: ConnectionId)
    requires Enabled(s, PollBehaviour) && c in s.links && InboundOk(s.links[c], OutsideOf(s, c))
    ensures c in Apply(s, PollBehaviour).links
    ensures InboundOk(Apply(s, PollBehaviour).links[c], OutsideOf(s, c).(replied := Apply(s, PollBehaviour).replied))
  {
    PolledLink(s, c);
    assert OutsideOf(s, c).(replied := s.replied) == OutsideOf(s, c);
    if s.fg.events[0].NotifyHandler? && s.fg.events[0].connection == c {
      NotifyKeepsInbound(s.links[c], s.fg.events[0].request, OutsideOf(s, c));
    }
  }

  lemma PolledLink(s: System, c: ConnectionId)
    requires Enabled(s, PollBehaviour) && c in s.links
    ensures var t, a := Apply(s, PollBehaviour), s.fg.events[0];
            && c in t.links && t.replied == s.replied
            && t.links[c] == if a.NotifyHandler? && a.connection == c then Notify(s.links[c], a.request) else s.links[c]
  {
  }

  lemma NotifyKeepsInbound(l: Link, r: OutboundRequest, o: Outside)
    requires InboundOk(l, o)
    ensures InboundOk(Notify(l, r), o)
  {
    SameInboundOk(l, Notify(l, r), o);
  }

  lemma MoveKeepsLinkOk(s: System, d: ConnectionId, move: LinkStep, c: ConnectionId)
    requires Enabled(s, LinkMoves(d, move)) && IdsApart(s) && c in s.links && InboundOk(s.links[c], OutsideOf(s, c))
    ensures var t := Apply(s, LinkMoves(d, move));
            c in t.links && InboundOk(t.links[c], OutsideOf(s, c).(replied := t.replied))
  {
    var o := OutsideOf(s, c);
    assert o.(replied := s.replied) == o;
    if c == d {
      assert StepAllowed(s.links[c], move, o);
      LinkStepKeepsInbound(s.links[c], move, o);
    }
  }

  lemma RepliesKeepInbound(l: Link, o: Outside, id: RequestId)
    requires InboundOk(l, o) && id in o.received
    ensures InboundOk(l, o.(replied := o.replied + {id}))
  {
    assert forall x :: x in l.inUpgrades ==> SenderExists(l, x, o);
  }

  /** Steps that report nothing about received requests keep the account of them. */
  lemma QuietKeepsReceivedInv(s: System, st: Step)
    requires Structure(s) && ReceivedInv(s) && Enabled(s, st) && Quiet(st)
    ensures ReceivedInv(Apply(s, st))
  {
    hide Apply, Enabled, Structure, LinksOk, IdsApart, SendersOwned;
    QuietKeepsTheirs(s, st);
    QuietKeepsLinksOk(s, st);
    SameTheirsKeepsReports(s, Apply(s, st));
    QuietKeepsIdsApart(s, st);
    QuietKeepsSenders(s, st);
  }

  /** Only a poll hands a response sender to the application, and only the application parts with it. */
  lemma QuietKeepsSenders(s: System, st: Step)
    requires ReportedOnce(s) && SendersOwned(s) && Enabled(s, st) && Quiet(st)
    ensures SendersOwned(Apply(s, st))
  {
    hide ReportedOnce, LinkNext, Established, SendRequest, DialFailure, Pick;
    if st.PollBehaviour? {
      PollKeepsSenders(s);
    }
  }

  lemma QuietKeepsIdsApart(s: System, st: Step)
    requires Structure(s) && IdsApart(s) && Enabled(s, st) && Quiet(st)
    ensures IdsApart(Apply(s, st))
  {
    QuietKeepsTheirs(s, st);
    SameTheirsSeen(s, Apply(s, st));
    AcceptedAfter(s, st);
    NextInboundAfter(s, st);
    StillApart(s, Apply(s, st), st);
  }

  lemma SameTheirsSeen(s: System, t: System)
    requires SameTheirs(s, t)
    ensures Seen(t, Received) == Seen(s, Received) && Seen(t, TheirOutcome) == Seen(s, TheirOutcome)
  {
  }

  lemma NextInboundAfter(s: System, st: Step)
    requires 1 <= s.nextInbound && Enabled(s, st)
    ensures Apply(s, st).nextInbound == if st.LinkMoves? && st.move.Accept? then s.nextInbound + 1 else s.nextInbound
  {
    if st.PollBehaviour? {
      PollEffect(s);
    }
  }

  function AcceptedBy(s: System, c: ConnectionId): set<RequestId> {
    if c in s.links then s.links[c].accepted else {}
  }

  function NewlyAccepted(s: System, st: Step, c: ConnectionId): set<RequestId> {
    if st.LinkMoves? && st.connection == c && st.move.Accept? then {s.nextInbound} else {}
  }

  lemma StillApart(s: System, t: System, st: Step)
    requires IdsApart(s)
    requires Seen(t, Received) == Seen(s, Received) && Seen(t, TheirOutcome) == Seen(s, TheirOutcome)
    requires 1 <= s.nextInbound
    requires t.nextInbound == if st.LinkMoves? && st.move.Accept? then s.nextInbound + 1 else s.nextInbound
    requires forall c :: c in t.links ==> t.links[c].accepted <= AcceptedBy(s, c) + NewlyAccepted(s, st, c)
    ensures IdsApart(t)
  {
    forall c, id | c in t.links && id in t.links[c].accepted
      ensures id in AcceptedBy(s, c) || (id == s.nextInbound && c == st.connection && st.move.Accept?)
      ensures 1 <= id < t.nextInbound
    {
      assert id in AcceptedBy(s, c) || id in NewlyAccepted(s, st, c);
    }
  }

  lemma AcceptedAfter(s: System, st: Step)
    requires Enabled(s, st)
    ensures var t := Apply(s, st);
            forall c :: c in t.links ==> t.links[c].accepted <= AcceptedBy(s, c) + NewlyAccepted(s, st, c)
  {
    hide Apply, LinkNext;
    forall c | c in Apply(s, st).links
      ensures Apply(s, st).links[c].accepted <= AcceptedBy(s, c) + NewlyAccepted(s, st, c)
    {
      LinkAfter(s, st, c);
      if st.LinkMoves? && st.connection == c {
        AcceptedByMove(s.links[c], st.move);
      }
    }
  }

  lemma AcceptedByMove(l: Link, move: LinkStep)
    requires LinkReady(l, move)
    ensures LinkNext(l, move).accepted == l.accepted + (if move.Accept? then {move.id} else {})
  {
  }

  /** A polled announcement passes its response sender to the application. */
  lemma PollKeepsSenders(s: System)
    requires ReportedOnce(s) && SendersOwned(s) && Enabled(s, PollBehaviour)
    ensures SendersOwned(Apply(s, PollBehaviour))
  {
    hide Apply, Act;
    PollEffect(s);
    var a, t := s.fg.events[0], Apply(s, PollBehaviour);
    PickConcat(Received, s.polled, [a]);
    assert Pick(Received, [a]) == Select(Received, a);
    assert Elements(Pick(Received, t.polled)) == Elements(Pick(Received, s.polled)) + Elements(Select(Received, a));
    if a.GenerateEvent? && a.event.RequestReceived? {
      NotAnnouncedBefore(s);
    }
  }

  lemma NotAnnouncedBefore(s: System)
    requires ReportedOnce(s) && s.fg.events != []
    ensures forall id :: id in Select(Received, s.fg.events[0]) ==> id !in Pick(Received, s.polled)
  {
    forall id | id in Select(Received, s.fg.events[0]) ensures id !in Pick(Received, s.polled) {
      assert Times(Pick(Received, Log(s)), id) <= 1;
      PickConcat(Received, s.polled, s.fg.events);
      TimesConcat(Pick(Received, s.polled), Pick(Received, s.fg.events), id);
      assert Pick(Received, s.fg.events)[0] == id;
      TimesPositive(Pick(Received, s.polled), id);
    }
  }

  // --------------------------------------------------------------------- an event is delivered

  /** Every id reported by a handler was drawn for its own connection. */
  lemma ReportedIsAccepted(s: System, d: ConnectionId)
    requires LinksOk(s) && Enabled(s, DeliverEvent(d))
    ensures var l, e := s.links[d], s.links[d].outbox[0];
            && (e.Request? ==> e.id in l.accepted && e.id !in Seen(s, Received))
            && (IsKind(InEnd, e) ==> e.id in l.accepted && e.id !in Seen(s, TheirOutcome))
            && (e.ResponseSent? ==> e.id in Seen(s, Received) && e.id in TheirsTrackedBy(s, d))
            && TheirsTrackedBy(s, d) <= l.accepted
            && !e.ResponseOmission?
  {
    var l, e := s.links[d], s.links[d].outbox[0];
    var o := OutsideOf(s, d);
    assert InboundOk(l, o);
    assert RequestTokens(l, e.id) <= One(e.id in l.accepted && e.id !in o.received);
    assert OutcomeTokens(l, e.id) <= One(e.id in l.accepted && e.id !in o.ended);
    assert e.ResponseSent? ==> Count(InSent, l.outbox, e.id) > 0;
  }

  /** The log after a delivery. */
  lemma DeliverExtendsLog(s: System, d: ConnectionId, k: ActionKey)
    requires Structure(s) && Enabled(s, DeliverEvent(d))
    ensures Pick(k, Log(Apply(s, DeliverEvent(d)))) ==
            Pick(k, Log(s)) + Select(k, Report(s.links[d].peer, s.links[d].outbox[0]))
  {
    var report := Report(s.links[d].peer, s.links[d].outbox[0]);
    DeliverEffect(s, d);
    PickConcat(k, Log(s), [report]);
    assert Pick(k, [report]) == Select(k, report);
  }

  lemma SeenGrows(s: System, d: ConnectionId, k: ActionKey)
    requires Structure(s) && Enabled(s, DeliverEvent(d))
    ensures Seen(Apply(s, DeliverEvent(d)), k) ==
            Seen(s, k) + Elements(Select(k, Report(s.links[d].peer, s.links[d].outbox[0])))
  {
    DeliverExtendsLog(s, d, k);
  }

  lemma DeliverTracksTheirs(s: System, d: ConnectionId, c: ConnectionId)
    requires Structure(s) && Enabled(s, DeliverEvent(d)) && c in s.links
    ensures var t, e := Apply(s, DeliverEvent(d)), s.links[d].outbox[0];
            && t.links.Keys == s.links.Keys
            && TheirsTrackedBy(t, c) ==
               if c != d then TheirsTrackedBy(s, c)
               else if e.Request? then TheirsTrackedBy(s, c) + {e.id}
               else if IsKind(InEnd, e) then TheirsTrackedBy(s, c) - {e.id}
               else TheirsTrackedBy(s, c)
  {
    HandlerEventEffect(s.fg, s.links[d].peer, d, s.links[d].outbox[0]);
  }

  /** What a delivered event adds to the log. */
  ghost predicate SeenDelivered(s: System, t: System, e: HandlerEvent) {
    && Seen(t, Received) == Seen(s, Received) + (if e.Request? then {e.id} else {})
    && Seen(t, TheirOutcome) == Seen(s, TheirOutcome) + (if IsKind(InEnd, e) then {e.id} else {})
    && Seen(t, TheirSent) == Seen(s, TheirSent) + (if e.ResponseSent? then {e.id} else {})
    && Seen(t, TheirClosed) == Seen(s, TheirClosed)
  }

  /** What a delivered event does to the links and to the requests tracked for them. */
  ghost predicate TrackDelivered(s: System, t: System, d: ConnectionId, e: HandlerEvent) {
    && d in s.links && t.links.Keys == s.links.Keys
    && (forall c :: c in s.links ==> t.links[c].accepted == s.links[c].accepted)
    && (forall c :: c in s.links && c != d ==> TheirsTrackedBy(t, c) == TheirsTrackedBy(s, c))
    && TheirsTrackedBy(t, d) ==
       (if e.Request? then TheirsTrackedBy(s, d) + {e.id}
        else if IsKind(InEnd, e) then TheirsTrackedBy(s, d) - {e.id}
        else TheirsTrackedBy(s, d))
  }

  ghost predicate Delivered(s: System, t: System, d: ConnectionId, e: HandlerEvent) {
    && SeenDelivered(s, t, e) && TrackDelivered(s, t, d, e)
    && t.replied == s.replied && t.nextInbound == s.nextInbound
  }

  lemma DeliveredFacts(s: System, d: ConnectionId)
    requires Structure(s) && Enabled(s, DeliverEvent(d)) && !s.links[d].outbox[0].ResponseOmission?
    ensures Delivered(s, Apply(s, DeliverEvent(d)), d, s.links[d].outbox[0])
  {
    SeenFacts(s, d);
    TrackFacts(s, d);
  }

  lemma SeenFacts(s: System, d: ConnectionId)
    requires Structure(s) && Enabled(s, DeliverEvent(d)) && !s.links[d].outbox[0].ResponseOmission?
    ensures SeenDelivered(s, Apply(s, DeliverEvent(d)), s.links[d].outbox[0])
  {
    hide Apply, Seen, Structure;
    SeenGrows(s, d, Received);
    SeenGrows(s, d, TheirOutcome);
    SeenGrows(s, d, TheirSent);
    SeenGrows(s, d, TheirClosed);
    ReportSelects(s.links[d].peer, s.links[d].outbox[0]);
  }

  lemma TrackFacts(s: System, d: ConnectionId)
    requires Structure(s) && Enabled(s, DeliverEvent(d))
    ensures TrackDelivered(s, Apply(s, DeliverEvent(d)), d, s.links[d].outbox[0])
  {
    forall c | c in s.links ensures c != d ==> TheirsTrackedBy(Apply(s, DeliverEvent(d)), c) == TheirsTrackedBy(s, c) {
      DeliverTracksTheirs(s, d, c);
    }
    DeliverTracksTheirs(s, d, d);
  }

  lemma ReportSelects(p: PeerId, e: HandlerEvent)
    requires !e.ResponseOmission?
    ensures Select(Received, Report(p, e)) == if e.Request? then [e.id] else []
    ensures Select(TheirOutcome, Report(p, e)) == if IsKind(InEnd, e) then [e.id] else []
    ensures Select(TheirSent, Report(p, e)) == if e.ResponseSent? then [e.id] else []
    ensures Select(TheirClosed, Report(p, e)) == []
  {
  }

  lemma OutsideAfterDelivery(s: System, t: System, d: ConnectionId, e: HandlerEvent, c: ConnectionId)
    requires Delivered(s, t, d, e) && c in s.links
    ensures OutsideOf(t, c) ==
            if c == d then Informed(OutsideOf(s, c), e) else Informed(OutsideOf(s, c), e).(tracked := TheirsTrackedBy(s, c))
  {
    InformedIs(OutsideOf(s, c), e);
  }

  lemma InformedIs(o: Outside, e: HandlerEvent)
    ensures var n := Informed(o, e);
            && n.received == o.received + (if e.Request? then {e.id} else {})
            && n.ended == o.ended + (if IsKind(InEnd, e) then {e.id} else {})
            && n.replied == o.replied
            && n.tracked == (if e.Request? then o.tracked + {e.id}
                             else if IsKind(InEnd, e) then o.tracked - {e.id}
                             else o.tracked)
  {
  }

  lemma DeliverKeepsLinksOk(s: System, d: ConnectionId)
    requires Structure(s) && LinksOk(s) && IdsApart(s) && Enabled(s, DeliverEvent(d))
    ensures LinksOk(Apply(s, DeliverEvent(d)))
  {
    hide Known, InIds, OutIds, Tidy, Find, SendRequest, Established, DialFailure, OnHandlerEvent, Closed, LinkNext;
    ReportedIsAccepted(s, d);
    DeliveredFacts(s, d);
    forall c | c in Apply(s, DeliverEvent(d)).links
      ensures InboundOk(Apply(s, DeliverEvent(d)).links[c], OutsideOf(Apply(s, DeliverEvent(d)), c))
    {
      DeliverKeepsLinkOk(s, Apply(s, DeliverEvent(d)), d, c);
    }
  }

  lemma DeliverKeepsLinkOk(s: System, t: System, d: ConnectionId, c: ConnectionId)
    requires LinksOk(s) && IdsApart(s) && c in s.links && d in s.links && s.links[d].outbox != []
    requires var e := s.links[d].outbox[0];
             Delivered(s, t, d, e) && (e.Request? || IsKind(InEnd, e) ==> e.id in s.links[d].accepted)
    requires t.links[c] == if c == d then s.links[d].(outbox := s.links[d].outbox[1..]) else s.links[c]
    ensures InboundOk(t.links[c], OutsideOf(t, c))
  {
    var e := s.links[d].outbox[0];
    assert InboundOk(s.links[c], OutsideOf(s, c));
    OutsideAfterDelivery(s, t, d, e, c);
    if c == d {
      DeliveryKeepsInbound(s.links[d], OutsideOf(s, d));
    } else {
      OtherLinkKept(s.links[c], OutsideOf(s, c), e, e.id in s.links[d].accepted);
    }
  }

  lemma OtherLinkKept(l: Link, o: Outside, e: HandlerEvent, theirs: bool)
    requires InboundOk(l, o)
    requires e.Request? || IsKind(InEnd, e) ==> theirs
    requires theirs ==> e.id !in l.accepted || (!e.Request? && !IsKind(InEnd, e))
    ensures InboundOk(l, Informed(o, e).(tracked := o.tracked))
  {
    if e.Request? || IsKind(InEnd, e) {
      ElsewhereKeepsInbound(l, o, Informed(o, e).(tracked := o.tracked), e);
    } else {
      assert Informed(o, e).(tracked := o.tracked) == o;
    }
  }

  lemma ApartAfterDelivery(s: System, t: System, d: ConnectionId, e: HandlerEvent)
    requires IdsApart(s) && SeenDelivered(s, t, e) && d in s.links && t.nextInbound == s.nextInbound
    requires t.links.Keys == s.links.Keys && forall c :: c in s.links ==> t.links[c].accepted == s.links[c].accepted
    requires e.Request? || IsKind(InEnd, e) ==> e.id in s.links[d].accepted
    ensures IdsApart(t)
  {
    forall id | id in Seen(t, Received) || id in Seen(t, TheirOutcome) ensures 1 <= id < t.nextInbound {
      assert id in Seen(s, Received) || id in Seen(s, TheirOutcome) || id in s.links[d].accepted;
    }
  }

  lemma DeliverReportsOnce(s: System, d: ConnectionId)
    requires Structure(s) && LinksOk(s) && ReportedOnce(s) && Enabled(s, DeliverEvent(d))
    ensures ReportedOnce(Apply(s, DeliverEvent(d)))
  {
    var t, e := Apply(s, DeliverEvent(d)), s.links[d].outbox[0];
    var report := Report(s.links[d].peer, e);
    ReportedIsAccepted(s, d);
    ReportSelects(s.links[d].peer, e);
    forall id, k | k == Received || k == TheirOutcome || k == TheirClosed ensures Times(Pick(k, Log(t)), id) <= 1 {
      DeliverExtendsLog(s, d, k);
      OnceMore(Pick(k, Log(s)), Select(k, report), id) by {
        assert Times(Pick(k, Log(s)), id) <= 1;
        assert id in Select(k, report) ==> id !in Seen(s, k);
      }
    }
  }

  lemma OnceMore(xs: seq<RequestId>, ys: seq<RequestId>, id: RequestId)
    requires Times(xs, id) <= 1 && |ys| <= 1 && (id in ys ==> id !in Elements(xs))
    ensures Times(xs + ys, id) <= 1
  {
    TimesConcat(xs, ys, id);
    TimesPositive(xs, id);
  }

  /** The facts about received requests that make the reported ends final. */
  ghost predicate Reported(s: System, d: ConnectionId, e: HandlerEvent) {
    && d in s.links
    && (e.Request? ==> e.id in s.links[d].accepted && e.id !in Seen(s, Received))
    && (e.ResponseSent? ==> e.id in Seen(s, Received) && e.id in TheirsTrackedBy(s, d))
    && (forall c :: c in s.links ==> TheirsTrackedBy(s, c) <= s.links[c].accepted)
  }

  lemma UntrackedAfterDelivery(s: System, t: System, d: ConnectionId, e: HandlerEvent, id: RequestId)
    requires Delivered(s, t, d, e) && Reported(s, d, e) && id in Seen(s, Received) && Untracked(s, id)
    ensures Untracked(t, id)
  {
    forall c | c in t.links ensures id !in TheirsTrackedBy(t, c) {
      assert id !in TheirsTrackedBy(s, c);
    }
  }

  lemma SentIsUntracked(s: System, t: System, d: ConnectionId, e: HandlerEvent)
    requires Delivered(s, t, d, e) && Reported(s, d, e) && IdsApart(s) && e.ResponseSent?
    ensures Untracked(t, e.id)
  {
    forall c | c in t.links ensures e.id !in TheirsTrackedBy(t, c) {
      assert c != d ==> e.id !in s.links[c].accepted;
    }
  }

  lemma FinalAfterDelivery(s: System, t: System, d: ConnectionId, e: HandlerEvent)
    requires IdsApart(s) && EndsAreFinal(s) && Delivered(s, t, d, e) && Reported(s, d, e)
    ensures EndsAreFinal(t)
  {
    hide OutIds, Untracked, Seen, Delivered, Reported, IdsApart;
    forall id | id in Seen(t, TheirSent) ensures id in Seen(t, Received) && Untracked(t, id) && id !in Seen(t, TheirClosed) {
      SentAfterDelivery(s, t, d, e, id);
    }
    forall id | id in Seen(t, TheirClosed) ensures id in Seen(t, Received) && Untracked(t, id) {
      ClosedAfterDelivery(s, t, d, e, id);
    }
    forall c, id | c in t.links && id in TheirsTrackedBy(t, c) ensures id in Seen(t, Received) {
      TrackedAfterDelivery(s, t, d, e, c, id);
    }
  }

  lemma SentAfterDelivery(s: System, t: System, d: ConnectionId, e: HandlerEvent, id: RequestId)
    requires IdsApart(s) && EndsAreFinal(s) && Delivered(s, t, d, e) && Reported(s, d, e) && id in Seen(t, TheirSent)
    ensures id in Seen(t, Received) && Untracked(t, id) && id !in Seen(t, TheirClosed)
  {
    hide OutIds, Seen;
    if id in Seen(s, TheirSent) {
      UntrackedAfterDelivery(s, t, d, e, id);
    } else {
      SentIsUntracked(s, t, d, e);
      assert !Untracked(s, id);
    }
  }

  lemma ClosedAfterDelivery(s: System, t: System, d: ConnectionId, e: HandlerEvent, id: RequestId)
    requires EndsAreFinal(s) && Delivered(s, t, d, e) && Reported(s, d, e) && id in Seen(t, TheirClosed)
    ensures id in Seen(t, Received) && Untracked(t, id)
  {
    hide OutIds, Seen;
    UntrackedAfterDelivery(s, t, d, e, id);
  }

  lemma TrackedAfterDelivery(s: System, t: System, d: ConnectionId, e: HandlerEvent, c: ConnectionId, id: RequestId)
    requires EndsAreFinal(s) && Delivered(s, t, d, e) && c in t.links && id in TheirsTrackedBy(t, c)
    ensures id in Seen(t, Received)
  {
    hide OutIds, Seen;
    assert id in TheirsTrackedBy(s, c) || (c == d && e.Request? && id == e.id);
  }

  lemma DeliverKeepsReceivedInv(s: System, d: ConnectionId)
    requires Structure(s) && ReceivedInv(s) && Enabled(s, DeliverEvent(d))
    ensures ReceivedInv(Apply(s, DeliverEvent(d)))
  {
    var t, e := Apply(s, DeliverEvent(d)), s.links[d].outbox[0];
    DeliverKeepsLinksOk(s, d);
    DeliverReportsOnce(s, d);
    ReportedIsAccepted(s, d);
    DeliveredFacts(s, d);
    ApartAfterDelivery(s, t, d, e);
    assert Reported(s, d, e) by {
      AllTrackedAccepted(s);
    }
    FinalAfterDelivery(s, t, d, e);
    DeliverEffect(s, d);
  }

  lemma AllTrackedAccepted(s: System)
    requires LinksOk(s)
    ensures forall c :: c in s.links ==> TheirsTrackedBy(s, c) <= s.links[c].accepted
  {
    forall c | c in s.links ensures TheirsTrackedBy(s, c) <= s.links[c].accepted {
      assert InboundOk(s.links[c], OutsideOf(s, c));
    }
  }

  // ------------------------------------------------------------------- a connection is closed

  lemma ClosedExtendsLog(s: System, d: ConnectionId, theirs: seq<RequestId>, ours: seq<RequestId>, k: ActionKey)
    requires Structure(s) && Enabled(s, ReportClosed(d, theirs, ours)) && AboutTheirs(k)
    ensures Pick(k, Log(Apply(s, ReportClosed(d, theirs, ours)))) ==
            Pick(k, Log(s)) + (if k == TheirClosed then theirs else [])
  {
    hide Apply, Structure, Pick, InIds, OutIds;
    var p := s.links[d].peer;
    ReportClosedEffect(s, d, theirs, ours);
    PickConcat(k, Log(s), ClosedTheirs(p, theirs) + ClosedOurs(p, ours));
    PickConcat(k, ClosedTheirs(p, theirs), ClosedOurs(p, ours));
    PickClosedTheirs(p, theirs);
    PickClosedOurs(p, ours);
  }

  lemma ClosedTracksTheirs(s: System, d: ConnectionId, theirs: seq<RequestId>, ours: seq<RequestId>)
    requires Structure(s) && Enabled(s, ReportClosed(d, theirs, ours))
    ensures var t := Apply(s, ReportClosed(d, theirs, ours));
            t.links == s.links - {d} && forall c :: c in t.links ==> TheirsTrackedBy(t, c) == TheirsTrackedBy(s, c)
  {
    ClosedEffect(s.fg, s.links[d].peer, d, theirs, ours);
  }

  lemma SeenAfterClose(s: System, d: ConnectionId, theirs: seq<RequestId>, ours: seq<RequestId>)
    requires Structure(s) && Enabled(s, ReportClosed(d, theirs, ours))
    ensures var t := Apply(s, ReportClosed(d, theirs, ours));
            && Seen(t, Received) == Seen(s, Received)
            && Seen(t, TheirOutcome) == Seen(s, TheirOutcome)
            && Seen(t, TheirSent) == Seen(s, TheirSent)
            && Seen(t, TheirClosed) == Seen(s, TheirClosed) + TheirsTrackedBy(s, d)
  {
    hide Apply, Structure, OutIds, InIds, Pick, Log;
    ClosedExtendsLog(s, d, theirs, ours, Received);
    ClosedExtendsLog(s, d, theirs, ours, TheirOutcome);
    ClosedExtendsLog(s, d, theirs, ours, TheirSent);
    ClosedExtendsLog(s, d, theirs, ours, TheirClosed);
    assert forall id :: id in theirs <==> id in multiset(theirs);
    assert Elements(theirs) == TheirsTrackedBy(s, d);
  }

  lemma CloseKeepsReceivedInv(s: System, d: ConnectionId, theirs: seq<RequestId>, ours: seq<RequestId>)
    requires Structure(s) && ReceivedInv(s) && Enabled(s, ReportClosed(d, theirs, ours))
    ensures ReceivedInv(Apply(s, ReportClosed(d, theirs, ours)))
  {
    var t := Apply(s, ReportClosed(d, theirs, ours));
    ClosedTracksTheirs(s, d, theirs, ours);
    SeenAfterClose(s, d, theirs, ours);
    forall c | c in t.links ensures InboundOk(t.links[c], OutsideOf(t, c)) {
      assert InboundOk(s.links[c], OutsideOf(s, c));
      assert OutsideOf(t, c) == OutsideOf(s, c);
    }
    CloseReportsOnce(s, d, theirs, ours);
    AllTrackedAccepted(s);
    FinalAfterClose(s, t, d);
  }

  lemma CloseReportsOnce(s: System, d: ConnectionId, theirs: seq<RequestId>, ours: seq<RequestId>)
    requires Structure(s) && ReportedOnce(s) && EndsAreFinal(s) && Enabled(s, ReportClosed(d, theirs, ours))
    ensures ReportedOnce(Apply(s, ReportClosed(d, theirs, ours)))
  {
    var t := Apply(s, ReportClosed(d, theirs, ours));
    forall id, k | k == Received || k == TheirOutcome || k == TheirClosed ensures Times(Pick(k, Log(t)), id) <= 1 {
      assert Times(Pick(k, Log(s)), id) <= 1;
      ClosedExtendsLog(s, d, theirs, ours, k);
      TimesConcat(Pick(k, Log(s)), if k == TheirClosed then theirs else [], id);
      TimesIsMultiplicity(theirs, id);
      TimesPositive(Pick(TheirClosed, Log(s)), id);
      assert id in TheirsTrackedBy(s, d) ==> id !in Seen(s, TheirClosed);
    }
  }

  lemma FinalAfterClose(s: System, t: System, d: ConnectionId)
    requires IdsApart(s) && EndsAreFinal(s) && d in s.links && t.links == s.links - {d}
    requires forall c :: c in t.links ==> TheirsTrackedBy(t, c) == TheirsTrackedBy(s, c)
    requires forall c :: c in s.links ==> TheirsTrackedBy(s, c) <= s.links[c].accepted
    requires Seen(t, Received) == Seen(s, Received) && Seen(t, TheirSent) == Seen(s, TheirSent)
    requires Seen(t, TheirClosed) == Seen(s, TheirClosed) + TheirsTrackedBy(s, d)
    ensures EndsAreFinal(t)
  {
    forall id | id in TheirsTrackedBy(s, d) ensures Untracked(t, id) {}
    forall id | Untracked(s, id) ensures Untracked(t, id) {}
  }

  // -------------------------------------------------------------------------- response senders

  /** The response sender an upgrade awaits is in exactly one place: inside the connection, in an
      event of the behaviour, with the application, used, or dropped. */
  lemma SenderIsInOnePlace(s: System, c: ConnectionId, id: RequestId)
    requires ReceivedInv(s) && c in s.links && id in s.links[c].inUpgrades && s.links[c].inUpgrades[id] == AwaitingReader
    ensures One(SenderInside(s.links[c], id)) + One(id in Pick(Received, s.fg.events))
            + One(id in s.app) + One(id in s.replied) + One(id in s.dropped) == 1
  {
    hide IdsApart, EndsAreFinal;
    var l, o := s.links[c], OutsideOf(s, c);
    assert InboundOk(l, o);
    assert SenderExists(l, id, o);
    assert RequestTokens(l, id) <= One(id in l.accepted && id !in o.received);
    AnnouncedIsQueuedOrPolled(s, id);
    assert id in Elements(Pick(Received, s.polled)) <==> id in s.app + s.replied + s.dropped;
  }

  /** An announcement is still queued or was polled, not both. */
  lemma AnnouncedIsQueuedOrPolled(s: System, id: RequestId)
    requires ReportedOnce(s)
    ensures One(id in Pick(Received, s.fg.events)) + One(id in Pick(Received, s.polled)) == One(id in Seen(s, Received))
  {
    PickConcat(Received, s.polled, s.fg.events);
    TimesConcat(Pick(Received, s.polled), Pick(Received, s.fg.events), id);
    TimesPositive(Pick(Received, s.polled), id);
    TimesPositive(Pick(Received, s.fg.events), id);
    assert Times(Pick(Received, Log(s)), id) <= 1;
  }

  // ------------------------------------------------------------------------------------- runs

  /** The account of received requests is kept by every step of the system. */
  lemma ReceivedInvKept(s: System, st: Step)
    requires Structure(s) && ReceivedInv(s) && Enabled(s, st)
    ensures ReceivedInv(Apply(s, st))
  {
    match st
    case DeliverEvent(d) => DeliverKeepsReceivedInv(s, d);
    case ReportClosed(d, theirs, ours) => CloseKeepsReceivedInv(s, d, theirs, ours);
    case _ => QuietKeepsReceivedInv(s, st);
  }
}
