/** What travels between the application, the FileGet behaviour, the swarm and the handlers. */
module Messages {
  import opened Basics

  /** A request on its way to a remote peer; the writer it fills is not modelled. */
  datatype OutboundRequest = OutboundRequest(id: RequestId, fileName: string)

  /** What the handler of a connection tells the behaviour. */
  datatype HandlerEvent =
    | Request(id: RequestId, fileName: string)
    | Response(id: RequestId)
    | ResponseSent(id: RequestId)
    | ResponseOmission(id: RequestId)
    | OutboundTimeout(id: RequestId)
    | OutboundUnsupportedProtocols(id: RequestId)
    | InboundTimeout(id: RequestId)
    | InboundUnsupportedProtocols(id: RequestId)

  datatype OutboundError = DialFailed | OutTimedOut | OutClosed | OutUnsupported

  datatype InboundError = InTimedOut | InClosed | InUnsupported | Omitted

  /** What FileGet tells the application. */
  datatype FileGetEvent =
    | RequestReceived(peer: PeerId, id: RequestId, fileName: string)
    | ResponseReceived(peer: PeerId, id: RequestId)
    | SentResponse(peer: PeerId, id: RequestId)
    | OutboundFailure(peer: PeerId, id: RequestId, outError: OutboundError)
    | InboundFailure(peer: PeerId, id: RequestId, inError: InboundError)

  /** Who issued the identifier an event speaks of. Both generators start at 1, so an identifier
      alone does not say; no branch of the model reads this tag. */
  datatype Origin = Ours | Theirs

  /** An entry of the behaviour's queue of actions. */
  datatype Action =
    | Dial(peer: PeerId)
    | NotifyHandler(peer: PeerId, connection: ConnectionId, request: OutboundRequest)
    | GenerateEvent(event: FileGetEvent, origin: Origin)

  function Ids(rs: seq<OutboundRequest>): seq<RequestId> {
    if rs == [] then [] else [rs[0].id] + Ids(rs[1..])
  }

  // ---------------------------------------------------------------- projections of action queues

  /** The questions asked about a sequence of actions; each picks out identifiers, in order. */
  datatype ActionKey =
    | ToConnection(connection: ConnectionId)  // requests handed to a connection
    | ToPeer(peer: PeerId)                    // requests handed to any connection of a peer
    | OurEnd                                  // terminal events of our own requests
    | Answered                                // responses received
    | Received                                // requests received from a remote peer
    | TheirOutcome                            // outcomes of received requests reported by a handler
    | TheirSent                               // responses sent in full
    | TheirClosed                             // received requests ended by a closed connection

  function Select(k: ActionKey, a: Action): seq<RequestId> {
    match k
    case ToConnection(c) => if a.NotifyHandler? && a.connection == c then [a.request.id] else []
    case ToPeer(p) => if a.NotifyHandler? && a.peer == p then [a.request.id] else []
    case OurEnd => if a.GenerateEvent? && a.origin.Ours? then [a.event.id] else []
    case Answered => if a.GenerateEvent? && a.event.ResponseReceived? then [a.event.id] else []
    case Received => if a.GenerateEvent? && a.event.RequestReceived? then [a.event.id] else []
    case TheirOutcome =>
      if a.GenerateEvent? && a.origin.Theirs? &&
         (a.event.SentResponse? || (a.event.InboundFailure? && !a.event.inError.InClosed?))
      then [a.event.id] else []
    case TheirSent => if a.GenerateEvent? && a.event.SentResponse? then [a.event.id] else []
    case TheirClosed =>
      if a.GenerateEvent? && a.origin.Theirs? &&
         (a.event.OutboundFailure? || (a.event.InboundFailure? && a.event.inError.InClosed?))
      then [a.event.id] else []
  }

  function Pick(k: ActionKey, actions: seq<Action>): seq<RequestId> {
    if actions == [] then [] else Select(k, actions[0]) + Pick(k, actions[1..])
  }

  lemma {:induction false} PickConcat(k: ActionKey, a: seq<Action>, b: seq<Action>)
    ensures Pick(k, a + b) == Pick(k, a) + Pick(k, b)
  {
    if a == [] {
      assert a + b == b;
    } else {
      var head, rest, tail := Select(k, a[0]), Pick(k, a[1..]), Pick(k, b);
      assert Pick(k, a + b) == head + (rest + tail) by {
        assert (a + b)[1..] == a[1..] + b;
        PickConcat(k, a[1..], b);
      }
      assert head + (rest + tail) == (head + rest) + tail;
    }
  }

  lemma PickConcatAll(a: seq<Action>, b: seq<Action>)
    ensures forall k :: Pick(k, a + b) == Pick(k, a) + Pick(k, b)
  {
    forall k ensures Pick(k, a + b) == Pick(k, a) + Pick(k, b) {
      PickConcat(k, a, b);
    }
  }

  /** A picked identifier comes from some action of the sequence. */
  lemma {:induction false} PickSource(k: ActionKey, actions: seq<Action>, id: RequestId)
    requires id in Pick(k, actions)
    ensures exists a :: a in actions && id in Select(k, a)
  {
    if id in Select(k, actions[0]) {
      assert actions[0] in actions;
    } else {
      PickSource(k, actions[1..], id);
      var a :| a in actions[1..] && id in Select(k, a);
      assert a in actions;
    }
  }

  /** Every action that answers to a key contributes its identifier. */
  lemma {:induction false} PickContains(k: ActionKey, actions: seq<Action>, a: Action)
    requires a in actions
    ensures forall id :: id in Select(k, a) ==> id in Pick(k, actions)
  {
    if a != actions[0] {
      PickContains(k, actions[1..], a);
    }
  }

  // ---------------------------------------------------------- counting in handler event queues

  datatype EventKind =
    | OutEnd  // outcomes of our own requests
    | InEnd   // outcomes of received requests
    | InSent  // responses sent in full
    | Asked   // received requests

  predicate IsKind(k: EventKind, e: HandlerEvent) {
    match k
    case OutEnd => e.Response? || e.OutboundTimeout? || e.OutboundUnsupportedProtocols?
    case InEnd => e.ResponseSent? || e.ResponseOmission? || e.InboundTimeout? || e.InboundUnsupportedProtocols?
    case InSent => e.ResponseSent?
    case Asked => e.Request?
  }

  function Hit(k: EventKind, e: HandlerEvent, id: RequestId): nat {
    if IsKind(k, e) && e.id == id then 1 else 0
  }

  /** How many events of a kind carry an id. */
  function Count(k: EventKind, events: seq<HandlerEvent>, id: RequestId): nat {
    if events == [] then 0 else Hit(k, events[0], id) + Count(k, events[1..], id)
  }

  lemma {:induction false} CountPush(k: EventKind, events: seq<HandlerEvent>, e: HandlerEvent, id: RequestId)
    ensures Count(k, events + [e], id) == Count(k, events, id) + Hit(k, e, id)
  {
    if events != [] {
      CountPush(k, events[1..], e, id);
      assert (events + [e])[1..] == events[1..] + [e];
    }
  }

  // ------------------------------------------------------------- the batches FileGet enqueues

  /** The hand-overs of a drained queue. */
  function Handovers(p: PeerId, c: ConnectionId, rs: seq<OutboundRequest>): seq<Action> {
    seq(|rs|, i requires 0 <= i < |rs| => NotifyHandler(p, c, rs[i]))
  }

  /** The failures of a queue whose dial failed. */
  function DialFailures(p: PeerId, rs: seq<OutboundRequest>): seq<Action> {
    seq(|rs|, i requires 0 <= i < |rs| => GenerateEvent(OutboundFailure(p, rs[i].id, DialFailed), Ours))
  }

  /** A closed connection reports the requests received from the peer as OutboundFailure. */
  function ClosedTheirs(p: PeerId, ids: seq<RequestId>): seq<Action> {
    seq(|ids|, i requires 0 <= i < |ids| => GenerateEvent(OutboundFailure(p, ids[i], OutClosed), Theirs))
  }

  /** A closed connection reports our own requests as InboundFailure. */
  function ClosedOurs(p: PeerId, ids: seq<RequestId>): seq<Action> {
    seq(|ids|, i requires 0 <= i < |ids| => GenerateEvent(InboundFailure(p, ids[i], InClosed), Ours))
  }

  lemma {:induction false} PickHandovers(p: PeerId, c: ConnectionId, rs: seq<OutboundRequest>)
    ensures forall k :: Pick(k, Handovers(p, c, rs)) ==
                        if k == ToConnection(c) || k == ToPeer(p) then Ids(rs) else []
  {
    if rs != [] {
      PickHandovers(p, c, rs[1..]);
      assert Handovers(p, c, rs)[1..] == Handovers(p, c, rs[1..]);
      assert Ids(rs) == [rs[0].id] + Ids(rs[1..]);
    }
  }

  lemma {:induction false} PickDialFailures(p: PeerId, rs: seq<OutboundRequest>)
    ensures forall k :: Pick(k, DialFailures(p, rs)) == if k == OurEnd then Ids(rs) else []
  {
    if rs != [] {
      PickDialFailures(p, rs[1..]);
      assert DialFailures(p, rs)[1..] == DialFailures(p, rs[1..]);
      assert Ids(rs) == [rs[0].id] + Ids(rs[1..]);
    }
  }

  lemma {:induction false} PickClosedTheirs(p: PeerId, ids: seq<RequestId>)
    ensures forall k :: Pick(k, ClosedTheirs(p, ids)) == if k == TheirClosed then ids else []
  {
    if ids != [] {
      PickClosedTheirs(p, ids[1..]);
      assert ClosedTheirs(p, ids)[1..] == ClosedTheirs(p, ids[1..]);
    }
  }

  lemma {:induction false} PickClosedOurs(p: PeerId, ids: seq<RequestId>)
    ensures forall k :: Pick(k, ClosedOurs(p, ids)) == if k == OurEnd then ids else []
  {
    if ids != [] {
      PickClosedOurs(p, ids[1..]);
      assert ClosedOurs(p, ids)[1..] == ClosedOurs(p, ids[1..]);
    }
  }
}
