/** Our own requests on every run: where they are, in which order they are handed over, and that
    a queued request always has a dial under way. */
module OwnRequests {
  import opened Basics
  import opened Messages
  import opened FileGetModel
  import opened Link
  import opened Swarm

  /** A request handed over goes to a connection of its peer. */
  ghost predicate HandedOver(s: System) {
    forall a :: a in Log(s) && a.NotifyHandler? ==> a.connection in s.home && s.home[a.connection] == a.peer
  }

  /** All requests ever handed over to connections of a peer, then the queued ones. */
  function HandOrder(s: System, p: PeerId): seq<RequestId> {
    Pick(ToPeer(p), Log(s)) + Ids(Queue(s.fg, p))
  }

  ghost predicate InRange(xs: seq<RequestId>, bound: RequestId) {
    forall i :: 0 <= i < |xs| ==> 1 <= xs[i] < bound
  }

  /** Requests for a peer are handed over in the order in which they were made. */
  ghost predicate Ordered(s: System) {
    forall p :: Increasing(HandOrder(s, p)) && InRange(HandOrder(s, p), s.fg.nextId)
  }

  ghost predicate Bounded(s: System) {
    forall p, c, id :: id in InIds(s.fg, p, c) ==> 1 <= id < s.fg.nextId
  }

  /** A tracked request is in exactly one place, and only tracked requests are anywhere. */
  ghost predicate Accounted(s: System) {
    forall c, id :: c in s.links ==> AccountedAt(s, c, id)
  }

  ghost predicate FlowsIn(l: Link, handedOver: seq<RequestId>) {
    Ids(Flow(l)) <= handedOver && (l.open ==> Ids(Flow(l)) == handedOver)
  }

  /** The link has received exactly, in order, what was handed over to it, as long as it is open. */
  ghost predicate InFlow(s: System) {
    forall c :: c in s.links ==> FlowsIn(s.links[c], Pick(ToConnection(c), s.polled))
  }

  /** Requests are queued only while a dial of their peer is enqueued or under way. */
  ghost predicate Dialing(s: System) {
    forall p :: p in s.fg.queued ==> p in s.dials || Dial(p) in s.fg.events
  }

  ghost predicate OwnInv(s: System) {
    Structure(s) && HandedOver(s) && Ordered(s) && Bounded(s) && Accounted(s) && InFlow(s) && Dialing(s)
  }

  // ---------------------------------------------------------------------------- handing over

  lemma HandedOverKept(s: System, st: Step)
    requires Structure(s) && HandedOver(s) && Enabled(s, st)
    ensures HandedOver(Apply(s, st))
  {
    var t := Apply(s, st);
    if st.PollBehaviour? {
      PollEffect(s);
    } else {
      StepEffect(s, st);
      forall a | a in Emitted(s, st) && a.NotifyHandler?
        ensures a.connection in t.home && t.home[a.connection] == a.peer
      {
        EmittedGoesHome(s, st, a);
      }
      assert forall c :: c in s.home ==> c in t.home && t.home[c] == s.home[c];
    }
  }

  lemma EmittedGoesHome(s: System, st: Step, a: Action)
    requires Structure(s) && Enabled(s, st) && a in Emitted(s, st) && a.NotifyHandler?
    ensures a.connection in Apply(s, st).home && Apply(s, st).home[a.connection] == a.peer
  {
    if st.Send? {
      SendRequestEffect(s.fg, st.peer, st.fileName);
      assert Known(s.fg, a.peer, a.connection);
    }
  }

  /** Nothing was ever handed over to a connection that does not exist yet. */
  lemma NothingForNewConnection(s: System, c: ConnectionId, actions: seq<Action>)
    requires HandedOver(s) && c !in s.home && forall a :: a in actions ==> a in Log(s)
    ensures Pick(ToConnection(c), actions) == []
  {
    var xs := Pick(ToConnection(c), actions);
    if xs != [] {
      PickSource(ToConnection(c), actions, xs[0]);
    }
  }

  // ------------------------------------------------------------------------------------ order

  /** A step appends `id` to the order, keeps a prefix of it, or leaves it alone. */
  lemma OrderedKept(s: System, st: Step)
    requires Structure(s) && Ordered(s) && Enabled(s, st)
    ensures Ordered(Apply(s, st))
  {
    match st
    case Send(p, fileName) => SendKeepsOrder(s, p, fileName);
    case PollBehaviour => PollKeepsOrder(s);
    case _ =>
      StepEffect(s, st);
      forall q ensures HandOrder(Apply(s, st), q) <= HandOrder(s, q) {
        OrderShrinks(s, st, q);
      }
      PrefixesOrdered(s, Apply(s, st));
  }

  lemma PrefixesOrdered(s: System, t: System)
    requires Ordered(s) && t.fg.nextId == s.fg.nextId && forall q :: HandOrder(t, q) <= HandOrder(s, q)
    ensures Ordered(t)
  {
    forall q ensures Increasing(HandOrder(t, q)) && InRange(HandOrder(t, q), t.fg.nextId) {
      assert Increasing(HandOrder(s, q)) && InRange(HandOrder(s, q), s.fg.nextId);
    }
  }

  lemma PollKeepsOrder(s: System)
    requires Ordered(s) && Enabled(s, PollBehaviour)
    ensures Ordered(Apply(s, PollBehaviour))
  {
    PollEffect(s);
    var t := Apply(s, PollBehaviour);
    forall q ensures HandOrder(t, q) == HandOrder(s, q) {}
    PrefixesOrdered(s, t);
  }

  lemma SendKeepsOrder(s: System, p: PeerId, fileName: string)
    requires Structure(s) && Ordered(s) && Enabled(s, Send(p, fileName))
    ensures Ordered(Apply(s, Send(p, fileName)))
  {
    hide Known, InIds, OutIds, Tidy, Find, SendRequest, Established, DialFailure, OnHandlerEvent, Closed, LinkNext;
    SendEffect(s, p, fileName);
    var t := Apply(s, Send(p, fileName));
    forall q ensures Increasing(HandOrder(t, q)) && InRange(HandOrder(t, q), t.fg.nextId) {
      assert Increasing(HandOrder(s, q)) && InRange(HandOrder(s, q), s.fg.nextId);
      if Conns(s.fg, p) == [] {
        QueueingExtendsOrder(s, p, fileName, q);
      } else {
        SendingExtendsOrder(s, p, fileName, q);
      }
    }
  }

  lemma QueueingExtendsOrder(s: System, p: PeerId, fileName: string, q: PeerId)
    requires Structure(s) && Enabled(s, Send(p, fileName)) && Conns(s.fg, p) == []
    ensures HandOrder(Apply(s, Send(p, fileName)), q) == HandOrder(s, q) + (if q == p then [s.fg.nextId] else [])
  {
    hide Structure, Apply, Enabled, Queue, Log, Pick, Ids;
    var queue, r := Queue(s.fg, q), OutboundRequest(s.fg.nextId, fileName);
    SendEffect(s, p, fileName);
    QueueGrows(s, p, fileName, q);
    PickConcat(ToPeer(q), Log(s), [Dial(p)]);
    DialHandsNothingOver(p, q);
    IdsPush(queue, r);
    assert queue + [] == queue;
    assert Pick(ToPeer(q), Log(s)) + [] == Pick(ToPeer(q), Log(s));
  }

  lemma DialHandsNothingOver(p: PeerId, q: PeerId)
    ensures Pick(ToPeer(q), [Dial(p)]) == []
  {
  }

  lemma QueueGrows(s: System, p: PeerId, fileName: string, q: PeerId)
    requires Structure(s) && Enabled(s, Send(p, fileName)) && Conns(s.fg, p) == []
    ensures Queue(Apply(s, Send(p, fileName)).fg, q) ==
            Queue(s.fg, q) + (if q == p then [OutboundRequest(s.fg.nextId, fileName)] else [])
  {
    hide Known, InIds, OutIds, Find, SendRequest;
    SendRequestEffect(s.fg, p, fileName);
  }

  lemma SendingExtendsOrder(s: System, p: PeerId, fileName: string, q: PeerId)
    requires Structure(s) && Enabled(s, Send(p, fileName)) && Conns(s.fg, p) != []
    ensures HandOrder(Apply(s, Send(p, fileName)), q) == HandOrder(s, q) + (if q == p then [s.fg.nextId] else [])
  {
    hide Known, InIds, OutIds, Find, SendRequest, Established, DialFailure, OnHandlerEvent, Closed, LinkNext;
    SendEffect(s, p, fileName);
    SendRequestEffect(s.fg, p, fileName);
    assert Queue(s.fg, p) == [];
    var a := NotifyHandler(p, Target(s.fg, p, s.fg.nextId), OutboundRequest(s.fg.nextId, fileName));
    PickConcat(ToPeer(q), Log(s), [a]);
    assert Pick(ToPeer(q), [a]) == Select(ToPeer(q), a);
  }

  /** Every other step hands over queued requests in order, or fails them. */
  lemma OrderShrinks(s: System, st: Step, q: PeerId)
    requires Structure(s) && Enabled(s, st) && !st.Send? && !st.PollBehaviour?
    ensures HandOrder(Apply(s, st), q) <= HandOrder(s, q)
  {
    StepEffect(s, st);
    QueueEffect(s, st, q);
    OrderAfter(s, Apply(s, st), Emitted(s, st), q);
  }

  /** The queue of a peer stays, is handed over as a whole, or is given up as a whole. */
  ghost predicate QueueFate(s: System, t: System, emitted: seq<Action>, q: PeerId) {
    || (Queue(t.fg, q) == Queue(s.fg, q) && Pick(ToPeer(q), emitted) == [])
    || (Queue(t.fg, q) == [] && Pick(ToPeer(q), emitted) == Ids(Queue(s.fg, q)))
    || (Queue(t.fg, q) == [] && Pick(ToPeer(q), emitted) == [])
  }

  lemma OrderAfter(s: System, t: System, emitted: seq<Action>, q: PeerId)
    requires Log(t) == Log(s) + emitted && QueueFate(s, t, emitted, q)
    ensures HandOrder(t, q) <= HandOrder(s, q)
  {
    PickConcat(ToPeer(q), Log(s), emitted);
  }

  lemma QueueEffect(s: System, st: Step, q: PeerId)
    requires Structure(s) && Enabled(s, st) && !st.Send? && !st.PollBehaviour?
    ensures QueueFate(s, Apply(s, st), Emitted(s, st), q)
  {
    match st
    case Connect(p, c, dialed) => ConnectEmpties(s, p, c, dialed, q);
    case DialFails(f) => DialFailsEmpties(s, f, q);
    case DeliverEvent(c) => DeliverKeepsQueue(s, c, q);
    case ReportClosed(c, theirs, ours) => ReportClosedKeepsQueue(s, c, theirs, ours, q);
    case _ =>
  }

  lemma ConnectEmpties(s: System, p: PeerId, c: ConnectionId, dialed: bool, q: PeerId)
    requires Structure(s) && Enabled(s, Connect(p, c, dialed))
    ensures var t := Apply(s, Connect(p, c, dialed));
            Queue(t.fg, q) == (if q == p then [] else Queue(s.fg, q)) &&
            Pick(ToPeer(q), Emitted(s, Connect(p, c, dialed))) == (if q == p then Ids(Queue(s.fg, p)) else [])
  {
    OtherEstablishedIsZeroIff(s, p);
    EstablishedEffect(s.fg, p, c, OtherEstablished(s, p));
    PickHandovers(p, c, Queue(s.fg, p));
  }

  lemma DialFailsEmpties(s: System, f: Option<PeerId>, q: PeerId)
    requires Structure(s) && Enabled(s, DialFails(f))
    ensures var t := Apply(s, DialFails(f));
            Queue(t.fg, q) == (if f == Some(q) then [] else Queue(s.fg, q)) &&
            Pick(ToPeer(q), Emitted(s, DialFails(f))) == []
  {
    DialFailureEffect(s.fg, f);
    if f.Some? {
      PickDialFailures(f.value, Queue(s.fg, f.value));
    }
  }

  lemma DeliverKeepsQueue(s: System, c: ConnectionId, q: PeerId)
    requires Structure(s) && Enabled(s, DeliverEvent(c))
    ensures Queue(Apply(s, DeliverEvent(c)).fg, q) == Queue(s.fg, q)
    ensures forall k: ActionKey :: k.ToPeer? || k.ToConnection? ==> Pick(k, Emitted(s, DeliverEvent(c))) == []
  {
    HandlerEventEffect(s.fg, s.links[c].peer, c, s.links[c].outbox[0]);
  }

  lemma ReportClosedKeepsQueue(s: System, c: ConnectionId, theirs: seq<RequestId>, ours: seq<RequestId>, q: PeerId)
    requires Structure(s) && Enabled(s, ReportClosed(c, theirs, ours))
    ensures Queue(Apply(s, ReportClosed(c, theirs, ours)).fg, q) == Queue(s.fg, q)
    ensures Pick(ToPeer(q), Emitted(s, ReportClosed(c, theirs, ours))) == []
  {
    ClosedEffect(s.fg, s.links[c].peer, c, theirs, ours);
    PickClosed(s.links[c].peer, theirs, ours);
  }

  lemma PickClosed(p: PeerId, theirs: seq<RequestId>, ours: seq<RequestId>)
    ensures forall k :: Pick(k, ClosedTheirs(p, theirs) + ClosedOurs(p, ours)) ==
                        if k == TheirClosed then theirs else if k == OurEnd then ours else []
  {
    PickConcatAll(ClosedTheirs(p, theirs), ClosedOurs(p, ours));
    PickClosedTheirs(p, theirs);
    PickClosedOurs(p, ours);
  }

  // ----------------------------------------------------------------------------------- bounds

  lemma BoundedKept(s: System, st: Step)
    requires Structure(s) && Ordered(s) && Bounded(s) && Enabled(s, st)
    ensures Bounded(Apply(s, st))
  {
    hide Known, InIds, OutIds, Tidy, Find, SendRequest, Established, DialFailure, OnHandlerEvent, Closed, LinkNext;
    match st
    case Send(p, fileName) => SendKeepsBounds(s, p, fileName);
    case Connect(p, c, dialed) => ConnectKeepsBounds(s, p, c, dialed);
    case DeliverEvent(c) =>
      HandlerEventEffect(s.fg, s.links[c].peer, c, s.links[c].outbox[0]);
      FewerTracked(s, Apply(s, st));
    case ReportClosed(c, theirs, ours) =>
      ClosedEffect(s.fg, s.links[c].peer, c, theirs, ours);
      FewerTracked(s, Apply(s, st));
    case DialFails(f) =>
      DialFailureEffect(s.fg, f);
      SameTracked(s, Apply(s, st));
    case PollBehaviour =>
      PollEffect(s);
      SameTracked(s, Apply(s, st));
    case _ => SameTracked(s, Apply(s, st));
  }

  lemma FewerTracked(s: System, t: System)
    requires Bounded(s) && t.fg.nextId == s.fg.nextId && forall p, c :: InIds(t.fg, p, c) <= InIds(s.fg, p, c)
    ensures Bounded(t)
  {
  }

  lemma SameTracked(s: System, t: System)
    requires t.fg.connected == s.fg.connected
    ensures forall p, c :: InIds(t.fg, p, c) == InIds(s.fg, p, c)
    ensures Bounded(s) && t.fg.nextId == s.fg.nextId ==> Bounded(t)
  {
    assert forall p :: Conns(t.fg, p) == Conns(s.fg, p);
  }

  lemma SendKeepsBounds(s: System, p: PeerId, fileName: string)
    requires Structure(s) && Bounded(s) && Enabled(s, Send(p, fileName))
    ensures Bounded(Apply(s, Send(p, fileName)))
  {
    hide Known, InIds, OutIds, Tidy, Find, SendRequest, Established, DialFailure, OnHandlerEvent, Closed, LinkNext;
    SendRequestEffect(s.fg, p, fileName);
    var t := Apply(s, Send(p, fileName));
    if Conns(s.fg, p) == [] {
      SameTracked(s, t);
    }
  }

  /** Queued ids are bounded because the order is. */
  lemma QueuedInRange(s: System, p: PeerId, id: RequestId)
    requires Ordered(s) && id in Ids(Queue(s.fg, p))
    ensures 1 <= id < s.fg.nextId
  {
    var i :| 0 <= i < |Ids(Queue(s.fg, p))| && Ids(Queue(s.fg, p))[i] == id;
    assert InRange(HandOrder(s, p), s.fg.nextId);
    assert HandOrder(s, p)[|Pick(ToPeer(p), Log(s))| + i] == id;
  }

  lemma ConnectKeepsBounds(s: System, p: PeerId, c: ConnectionId, dialed: bool)
    requires Structure(s) && Ordered(s) && Bounded(s) && Enabled(s, Connect(p, c, dialed))
    ensures Bounded(Apply(s, Connect(p, c, dialed)))
  {
    OtherEstablishedIsZeroIff(s, p);
    EstablishedEffect(s.fg, p, c, OtherEstablished(s, p));
    forall id | id in Elements(Ids(Queue(s.fg, p))) ensures 1 <= id < s.fg.nextId {
      QueuedInRange(s, p, id);
    }
  }

  // ------------------------------------------------------------------------------- accounting

  /** The account of one connection for one request. */
  ghost predicate Balanced(events: seq<Action>, c: ConnectionId, l: Link, tracked: set<RequestId>, id: RequestId) {
    Times(Pick(ToConnection(c), events), id) + Tokens(l, id) == if id in tracked then 1 else 0
  }

  lemma BalancedAfterEmission(events: seq<Action>, em: seq<Action>, c: ConnectionId, l: Link,
                              tracked: set<RequestId>, id: RequestId)
    requires Balanced(events, c, l, tracked, id) && Pick(ToConnection(c), em) == []
    ensures Balanced(events + em, c, l, tracked, id)
  {
    PickConcat(ToConnection(c), events, em);
    assert Pick(ToConnection(c), events + em) == Pick(ToConnection(c), events);
  }

  lemma BalancedAfterHandover(events: seq<Action>, p: PeerId, c: ConnectionId, r: OutboundRequest, l: Link,
                              tracked: set<RequestId>, id: RequestId)
    requires Balanced(events, c, l, tracked, id) && r.id !in tracked
    ensures Balanced(events + [NotifyHandler(p, c, r)], c, l, tracked + {r.id}, id)
  {
    var a := NotifyHandler(p, c, r);
    PickConcat(ToConnection(c), events, [a]);
    assert Pick(ToConnection(c), [a]) == [r.id];
    TimesConcat(Pick(ToConnection(c), events), [r.id], id);
  }

  /** An action leaves the queue; a request in it arrives at its connection. */
  lemma BalancedAfterPoll(events: seq<Action>, c: ConnectionId, l: Link, tracked: set<RequestId>, id: RequestId)
    requires events != [] && Balanced(events, c, l, tracked, id)
    ensures var a := events[0];
            Balanced(events[1..], c, if a.NotifyHandler? && a.connection == c then Notify(l, a.request) else l, tracked, id)
  {
    var a := events[0];
    TimesConcat(Select(ToConnection(c), a), Pick(ToConnection(c), events[1..]), id);
    if a.NotifyHandler? && a.connection == c {
      NotifyAddsToken(l, a.request, id);
    }
  }

  lemma NotifyAddsToken(l: Link, r: OutboundRequest, id: RequestId)
    ensures Tokens(Notify(l, r), id) == Tokens(l, id) + (if id == r.id then 1 else 0)
  {
    IdsPush(l.inbox, r);
    TimesConcat(Ids(l.inbox), [r.id], id);
  }

  lemma BalancedWhenNew(events: seq<Action>, p: PeerId, c: ConnectionId, queue: seq<OutboundRequest>, id: RequestId)
    requires Pick(ToConnection(c), events) == [] && Increasing(Ids(queue))
    ensures Balanced(events + Handovers(p, c, queue), c, NewLink(p), Elements(Ids(queue)), id)
  {
    var ids := Ids(queue);
    assert Pick(ToConnection(c), events + Handovers(p, c, queue)) == ids by {
      PickConcat(ToConnection(c), events, Handovers(p, c, queue));
      PickHandovers(p, c, queue);
    }
    TimesWhenIncreasing(ids, id);
    assert Tokens(NewLink(p), id) == 0;
  }

  lemma TimesWhenIncreasing(ids: seq<RequestId>, id: RequestId)
    requires Increasing(ids)
    ensures Times(ids, id) == if id in Elements(ids) then 1 else 0
  {
    IncreasingIsListing(ids);
    TimesIsMultiplicity(ids, id);
  }

  /** The outcome of a request is delivered: it is no longer tracked and no longer there. */
  lemma BalancedAfterDelivery(events: seq<Action>, p: PeerId, c: ConnectionId, l: Link,
                              tracked: set<RequestId>, id: RequestId)
    requires l.outbox != [] && Balanced(events, c, l, tracked, id)
    ensures var e := l.outbox[0];
            Balanced(events + [Report(p, e)], c, l.(outbox := l.outbox[1..]),
                     if IsKind(OutEnd, e) then tracked - {e.id} else tracked, id)
  {
    var e := l.outbox[0];
    var m := l.(outbox := l.outbox[1..]);
    PickConcat(ToConnection(c), events, [Report(p, e)]);
    assert Pick(ToConnection(c), [Report(p, e)]) == [];
    assert Pick(ToConnection(c), events + [Report(p, e)]) == Pick(ToConnection(c), events);
    assert Tokens(l, id) == Tokens(m, id) + Hit(OutEnd, e, id);
  }

  function TrackedBy(s: System, c: ConnectionId): set<RequestId>
    requires c in s.links
  {
    InIds(s.fg, s.links[c].peer, c)
  }

  ghost predicate AccountedAt(s: System, c: ConnectionId, id: RequestId)
    requires c in s.links
  {
    Balanced(s.fg.events, c, s.links[c], TrackedBy(s, c), id)
  }

  /** An outcome on its way to the behaviour is that of a tracked request. */
  lemma OutcomeIsTracked(s: System, c: ConnectionId)
    requires Accounted(s) && c in s.links && s.links[c].outbox != [] && IsKind(OutEnd, s.links[c].outbox[0])
    ensures s.links[c].outbox[0].id in InIds(s.fg, s.links[c].peer, c)
  {
    var e := s.links[c].outbox[0];
    assert AccountedAt(s, c, e.id);
    assert Count(OutEnd, s.links[c].outbox, e.id) > 0;
  }

  /** Every tracked request stays in exactly one place, whatever happens. */
  lemma AccountedKept(s: System, st: Step)
    requires Structure(s) && HandedOver(s) && Ordered(s) && Bounded(s) && Accounted(s) && Enabled(s, st)
    ensures Accounted(Apply(s, st))
  {
    var t := Apply(s, st);
    forall c, id | c in t.links ensures AccountedAt(t, c, id) {
      AccountKept(s, st, c, id);
    }
  }

  lemma AccountKept(s: System, st: Step, c: ConnectionId, id: RequestId)
    requires Structure(s) && HandedOver(s) && Ordered(s) && Bounded(s) && Accounted(s) && Enabled(s, st)
    requires c in Apply(s, st).links
    ensures AccountedAt(Apply(s, st), c, id)
  {
    hide Known, InIds, OutIds, Tidy, Find, SendRequest, Established, DialFailure, OnHandlerEvent, Closed, LinkNext;
    assert c in s.links ==> AccountedAt(s, c, id);
    match st
    case Send(p, fileName) => SendKeepsAccount(s, p, fileName, c, id);
    case PollBehaviour => PollKeepsAccount(s, c, id);
    case Connect(p, d, dialed) => ConnectKeepsAccount(s, p, d, dialed, c, id);
    case DialFails(f) => DialFailsKeepsAccount(s, f, c, id);
    case LinkMoves(d, move) => MoveKeepsAccount(s, d, move, c, id);
    case DeliverEvent(d) => DeliverKeepsAccount(s, d, c, id);
    case ReportClosed(d, theirs, ours) => ReportClosedKeepsAccount(s, d, theirs, ours, c, id);
    case ForeignDial(_) =>
    case Reply(_) =>
    case DropSender(_) =>
  }

  lemma SendKeepsAccount(s: System, p: PeerId, fileName: string, c: ConnectionId, id: RequestId)
    requires Structure(s) && Bounded(s) && Enabled(s, Send(p, fileName)) && c in s.links && AccountedAt(s, c, id)
    ensures AccountedAt(Apply(s, Send(p, fileName)), c, id)
  {
    var t, em, r := Apply(s, Send(p, fileName)), Emitted(s, Send(p, fileName)), OutboundRequest(s.fg.nextId, fileName);
    SendEffect(s, p, fileName);
    SendTracks(s, p, fileName, c);
    if Conns(s.fg, p) != [] && c == Target(s.fg, p, r.id) {
      assert r.id !in TrackedBy(s, c);
      BalancedAfterHandover(s.fg.events, p, c, r, s.links[c], TrackedBy(s, c), id);
    } else {
      assert Pick(ToConnection(c), em) == [];
      BalancedAfterEmission(s.fg.events, em, c, s.links[c], TrackedBy(s, c), id);
    }
  }

  lemma SendTracks(s: System, p: PeerId, fileName: string, c: ConnectionId)
    requires Structure(s) && Enabled(s, Send(p, fileName)) && c in s.links
    ensures TrackedBy(Apply(s, Send(p, fileName)), c) ==
            TrackedBy(s, c) + (if Conns(s.fg, p) != [] && c == Target(s.fg, p, s.fg.nextId) then {s.fg.nextId} else {})
  {
    SendRequestEffect(s.fg, p, fileName);
    if Conns(s.fg, p) == [] {
      SameTracked(s, Apply(s, Send(p, fileName)));
    } else {
      assert Known(s.fg, p, Target(s.fg, p, s.fg.nextId));
    }
  }

  lemma PollKeepsAccount(s: System, c: ConnectionId, id: RequestId)
    requires Structure(s) && Enabled(s, PollBehaviour) && c in s.links && AccountedAt(s, c, id)
    ensures AccountedAt(Apply(s, PollBehaviour), c, id)
  {
    hide Known, InIds, OutIds, Tidy, Find, SendRequest, Established, DialFailure, OnHandlerEvent, Closed, LinkNext;
    PollEffect(s);
    SameTracked(s, Apply(s, PollBehaviour));
    BalancedAfterPoll(s.fg.events, c, s.links[c], TrackedBy(s, c), id);
  }

  lemma ConnectKeepsAccount(s: System, p: PeerId, d: ConnectionId, dialed: bool, c: ConnectionId, id: RequestId)
    requires Structure(s) && HandedOver(s) && Ordered(s) && Enabled(s, Connect(p, d, dialed))
    requires c in s.links ==> AccountedAt(s, c, id)
    requires c in s.links || c == d
    ensures AccountedAt(Apply(s, Connect(p, d, dialed)), c, id)
  {
    ConnectTracks(s, p, d, dialed, c);
    if c == d {
      NothingForNewConnection(s, c, s.fg.events);
      QueueIncreases(s, p);
      BalancedWhenNew(s.fg.events, p, c, Queue(s.fg, p), id);
    } else {
      PickHandovers(p, d, Queue(s.fg, p));
      BalancedAfterEmission(s.fg.events, Handovers(p, d, Queue(s.fg, p)), c, s.links[c], TrackedBy(s, c), id);
    }
  }

  lemma ConnectTracks(s: System, p: PeerId, d: ConnectionId, dialed: bool, c: ConnectionId)
    requires Structure(s) && Enabled(s, Connect(p, d, dialed)) && (c in s.links || c == d)
    ensures var t := Apply(s, Connect(p, d, dialed));
            && t.fg.events == s.fg.events + Handovers(p, d, Queue(s.fg, p))
            && TrackedBy(t, c) == if c == d then Elements(Ids(Queue(s.fg, p))) else TrackedBy(s, c)
  {
    OtherEstablishedIsZeroIff(s, p);
    EstablishedEffect(s.fg, p, d, OtherEstablished(s, p));
  }

  lemma QueueIncreases(s: System, p: PeerId)
    requires Ordered(s)
    ensures Increasing(Ids(Queue(s.fg, p)))
  {
    var ids, n := Ids(Queue(s.fg, p)), |Pick(ToPeer(p), Log(s))|;
    assert Increasing(HandOrder(s, p));
    assert forall i :: 0 <= i < |ids| ==> ids[i] == HandOrder(s, p)[n + i];
  }

  lemma DialFailsKeepsAccount(s: System, f: Option<PeerId>, c: ConnectionId, id: RequestId)
    requires Structure(s) && Enabled(s, DialFails(f)) && c in s.links && AccountedAt(s, c, id)
    ensures AccountedAt(Apply(s, DialFails(f)), c, id)
  {
    DialFailureEffect(s.fg, f);
    SameTracked(s, Apply(s, DialFails(f)));
    if f.Some? {
      PickDialFailures(f.value, Queue(s.fg, f.value));
      BalancedAfterEmission(s.fg.events, DialFailures(f.value, Queue(s.fg, f.value)), c, s.links[c], TrackedBy(s, c), id);
    }
  }

  lemma MoveKeepsAccount(s: System, d: ConnectionId, move: LinkStep, c: ConnectionId, id: RequestId)
    requires Structure(s) && Enabled(s, LinkMoves(d, move)) && c in s.links && AccountedAt(s, c, id)
    ensures AccountedAt(Apply(s, LinkMoves(d, move)), c, id)
  {
    LinkStepKeepsRequests(s.links[d], move);
  }

  lemma DeliverKeepsAccount(s: System, d: ConnectionId, c: ConnectionId, id: RequestId)
    requires Structure(s) && Enabled(s, DeliverEvent(d)) && c in s.links && AccountedAt(s, c, id)
    ensures AccountedAt(Apply(s, DeliverEvent(d)), c, id)
  {
    var l := s.links[d];
    var report := Report(l.peer, l.outbox[0]);
    DeliverTracks(s, d, c);
    if c == d {
      BalancedAfterDelivery(s.fg.events, l.peer, c, l, TrackedBy(s, c), id);
    } else {
      assert Pick(ToConnection(c), [report]) == [];
      BalancedAfterEmission(s.fg.events, [report], c, s.links[c], TrackedBy(s, c), id);
    }
  }

  lemma DeliverTracks(s: System, d: ConnectionId, c: ConnectionId)
    requires Structure(s) && Enabled(s, DeliverEvent(d)) && c in s.links
    ensures var t, e := Apply(s, DeliverEvent(d)), s.links[d].outbox[0];
            && t.fg.events == s.fg.events + [Report(s.links[d].peer, e)]
            && TrackedBy(t, c) == if c == d && IsKind(OutEnd, e) then TrackedBy(s, c) - {e.id} else TrackedBy(s, c)
  {
    HandlerEventEffect(s.fg, s.links[d].peer, d, s.links[d].outbox[0]);
  }

  lemma ReportClosedKeepsAccount(s: System, d: ConnectionId, theirs: seq<RequestId>, ours: seq<RequestId>,
                                 c: ConnectionId, id: RequestId)
    requires Structure(s) && Enabled(s, ReportClosed(d, theirs, ours)) && c in s.links && c != d && AccountedAt(s, c, id)
    ensures AccountedAt(Apply(s, ReportClosed(d, theirs, ours)), c, id)
  {
    hide Known, InIds, OutIds, Tidy, Find, Closed, Tokens, Times, Pick;
    var p := s.links[d].peer;
    ReportClosedTracks(s, d, theirs, ours, c);
    PickClosed(p, theirs, ours);
    BalancedAfterEmission(s.fg.events, ClosedTheirs(p, theirs) + ClosedOurs(p, ours), c, s.links[c], TrackedBy(s, c), id);
  }

  lemma ReportClosedTracks(s: System, d: ConnectionId, theirs: seq<RequestId>, ours: seq<RequestId>, c: ConnectionId)
    requires Structure(s) && Enabled(s, ReportClosed(d, theirs, ours)) && c in s.links && c != d
    ensures var t, p := Apply(s, ReportClosed(d, theirs, ours)), s.links[d].peer;
            && c in t.links && t.links[c] == s.links[c]
            && t.fg.events == s.fg.events + (ClosedTheirs(p, theirs) + ClosedOurs(p, ours))
            && TrackedBy(t, c) == TrackedBy(s, c)
  {
    ReportClosedEffect(s, d, theirs, ours);
    ClosedEffect(s.fg, s.links[d].peer, d, theirs, ours);
  }

  // ------------------------------------------------------------------- order on a connection

  lemma NotifiedFlowsIn(l: Link, r: OutboundRequest, handedOver: seq<RequestId>)
    requires FlowsIn(l, handedOver)
    ensures FlowsIn(Notify(l, r), handedOver + [r.id])
  {
    IdsPush(Flow(l), r);
    assert l.open ==> Flow(Notify(l, r)) == Flow(l) + [r];
  }

  lemma InFlowKept(s: System, st: Step)
    requires Structure(s) && HandedOver(s) && InFlow(s) && Enabled(s, st)
    ensures InFlow(Apply(s, st))
  {
    hide FlowsIn, Structure, HandedOver, Apply, Enabled;
    forall c | c in Apply(s, st).links ensures FlowsIn(Apply(s, st).links[c], Pick(ToConnection(c), Apply(s, st).polled)) {
      FlowKept(s, st, c);
    }
  }

  lemma FlowKept(s: System, st: Step, c: ConnectionId)
    requires Structure(s) && HandedOver(s) && InFlow(s) && Enabled(s, st) && c in Apply(s, st).links
    ensures FlowsIn(Apply(s, st).links[c], Pick(ToConnection(c), Apply(s, st).polled))
  {
    hide Apply, LinkNext, Pick, Structure, HandedOver;
    assert c in s.links ==> FlowsIn(s.links[c], Pick(ToConnection(c), s.polled));
    LinkAfter(s, st, c);
    if st.PollBehaviour? {
      PollEffect(s);
      PollKeepsFlow(s, c);
    } else {
      StepEffect(s, st);
      if st.Connect? && c == st.connection {
        NothingForNewConnection(s, c, s.polled);
      } else if st.LinkMoves? && c == st.connection {
        MoveKeepsFlow(s.links[c], st.move, Pick(ToConnection(c), s.polled));
      } else {
        assert Flow(Apply(s, st).links[c]) == Flow(s.links[c]);
      }
    }
  }

  lemma MoveKeepsFlow(l: Link, move: LinkStep, handedOver: seq<RequestId>)
    requires FlowsIn(l, handedOver) && LinkReady(l, move)
    ensures FlowsIn(LinkNext(l, move), handedOver)
  {
    LinkStepKeepsRequests(l, move);
  }

  lemma PollKeepsFlow(s: System, c: ConnectionId)
    requires Enabled(s, PollBehaviour) && c in s.links && FlowsIn(s.links[c], Pick(ToConnection(c), s.polled))
    ensures var t := Apply(s, PollBehaviour); FlowsIn(t.links[c], Pick(ToConnection(c), t.polled))
  {
    hide Known, InIds, OutIds, Tidy, Find, SendRequest, Established, DialFailure, OnHandlerEvent, Closed, LinkNext;
    var a, k := s.fg.events[0], ToConnection(c);
    PollEffect(s);
    PickConcat(k, s.polled, [a]);
    assert Pick(k, [a]) == Select(k, a);
    if a.NotifyHandler? && a.connection == c {
      NotifiedFlowsIn(s.links[c], a.request, Pick(k, s.polled));
    } else {
      assert Pick(k, s.polled) + [] == Pick(k, s.polled);
    }
  }

  // ---------------------------------------------------------------------------------- dialing

  lemma DialingKept(s: System, st: Step)
    requires Structure(s) && Dialing(s) && Enabled(s, st)
    ensures Dialing(Apply(s, st))
  {
    hide Structure, Apply, Enabled;
    forall q | q in Apply(s, st).fg.queued ensures q in Apply(s, st).dials || Dial(q) in Apply(s, st).fg.events {
      DialKept(s, st, q);
    }
  }

  lemma DialKept(s: System, st: Step, q: PeerId)
    requires Structure(s) && Dialing(s) && Enabled(s, st) && q in Apply(s, st).fg.queued
    ensures q in Apply(s, st).dials || Dial(q) in Apply(s, st).fg.events
  {
    hide Known, InIds, OutIds, Tidy, Find, SendRequest, Established, DialFailure, OnHandlerEvent, Closed, LinkNext;
    if st.Send? {
      SendEffect(s, st.peer, st.fileName);
      SendRequestEffect(s.fg, st.peer, st.fileName);
      assert q in s.fg.queued || Dial(q) in Emitted(s, st);
    } else if st.PollBehaviour? {
      PollEffect(s);
      PollKeepsDial(s, q);
    } else {
      StepEffect(s, st);
      QueuedBefore(s, st, q);
    }
  }

  /** A peer that still has queued requests had them before, and its dials are not the ones ending. */
  lemma QueuedBefore(s: System, st: Step, q: PeerId)
    requires Structure(s) && Enabled(s, st) && !st.Send? && !st.PollBehaviour? && q in Apply(s, st).fg.queued
    ensures q in s.fg.queued && (q in s.dials ==> q in Apply(s, st).dials)
  {
    hide Known, InIds, OutIds, Tidy, Find, SendRequest, Established, DialFailure, OnHandlerEvent, Closed, LinkNext;
    match st
    case Connect(p, c, _) =>
      OtherEstablishedIsZeroIff(s, p);
      EstablishedEffect(s.fg, p, c, OtherEstablished(s, p)) by {
        NotKnownYet(s, p, c);
      }
    case DialFails(f) => DialFailureEffect(s.fg, f);
    case DeliverEvent(c) => HandlerEventEffect(s.fg, s.links[c].peer, c, s.links[c].outbox[0]);
    case ReportClosed(c, theirs, ours) => ClosedEffect(s.fg, s.links[c].peer, c, theirs, ours);
    case _ =>
  }

  lemma NotKnownYet(s: System, p: PeerId, c: ConnectionId)
    requires Structure(s) && c !in s.home
    ensures !Known(s.fg, p, c)
  {
  }

  lemma PollKeepsDial(s: System, q: PeerId)
    requires Enabled(s, PollBehaviour) && (q in s.dials || Dial(q) in s.fg.events)
    ensures var t := Apply(s, PollBehaviour); q in t.dials || Dial(q) in t.fg.events
  {
    PollEffect(s);
    assert Dial(q) in s.fg.events ==> s.fg.events[0] == Dial(q) || Dial(q) in s.fg.events[1..];
  }

  // ------------------------------------------------------------------------------------- runs

  lemma OwnInvAtStart()
    ensures OwnInv(START)
  {
    assert Log(START) == [];
    assert forall p :: HandOrder(START, p) == [];
  }

  /** The account of our own requests is kept by every step of the system. */
  lemma OwnInvKept(s: System, st: Step)
    requires OwnInv(s) && Enabled(s, st)
    ensures OwnInv(Apply(s, st))
  {
    StructureKept(s, st);
    HandedOverKept(s, st);
    OrderedKept(s, st);
    BoundedKept(s, st);
    AccountedKept(s, st);
    InFlowKept(s, st);
    DialingKept(s, st);
  }
}
