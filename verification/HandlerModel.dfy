/** The handler of one connection on values. */
module HandlerModel {
  import opened Basics
  import opened Messages

  datatype UpgradeError = Timeout | Timer | Upgrade

  /** The deadline is an opaque instant. */
  datatype KeepAlive = Yes | Until(deadline: int)

  /** The request channel of an inbound substream, seen from its receiving end. */
  datatype Slot = Waiting | Ready(fileName: string) | Cancelled

  datatype ConnectionEvent =
    | NegotiatedInbound(sent: bool, id: RequestId)
    | NegotiatedOutbound(id: RequestId)
    | ListenError(error: UpgradeError, id: RequestId)
    | DialError(error: UpgradeError, id: RequestId)
    | AddressChange

  datatype HandlerState = HandlerState(
    keepAlive: KeepAlive,
    events: seq<HandlerEvent>,
    inbound: map<RequestId, Slot>,
    outbound: seq<OutboundRequest>,
    error: Option<UpgradeError>)

  const NEW_HANDLER := HandlerState(Yes, [], map[], [], None)

  datatype PollResult =
    | Close(error: UpgradeError)
    | Custom(event: HandlerEvent)
    | OpenSubstream(request: OutboundRequest)
    | Pending

  /** What polling the unordered set of inbound channels yields. */
  datatype InboundPoll = NothingReady | Item(id: RequestId)

  predicate CanYield(h: HandlerState, pick: InboundPoll) {
    pick.Item? ==> pick.id in h.inbound && h.inbound[pick.id] != Waiting
  }

  function Listen(h: HandlerState, id: RequestId): HandlerState {
    h.(inbound := h.inbound[id := Waiting])
  }

  function OnBehaviourEvent(h: HandlerState, r: OutboundRequest): HandlerState {
    h.(keepAlive := Yes, outbound := h.outbound + [r])
  }

  function OnConnectionEvent(h: HandlerState, e: ConnectionEvent): HandlerState {
    match e
    case NegotiatedInbound(sent, id) => h.(events := h.events + [if sent then ResponseSent(id) else ResponseOmission(id)])
    case NegotiatedOutbound(id) => h.(events := h.events + [Response(id)])
    case ListenError(error, id) => (
      match error
      case Timeout => h.(events := h.events + [InboundTimeout(id)])
      case Upgrade => h.(events := h.events + [InboundUnsupportedProtocols(id)])
      case Timer => h.(error := Some(error)))
    case DialError(error, id) => (
      match error
      case Timeout => h.(events := h.events + [OutboundTimeout(id)])
      case Upgrade => h.(events := h.events + [OutboundUnsupportedProtocols(id)])
      case Timer => h.(error := Some(error)))
    case AddressChange => h
  }

  /** The last lines of poll: with no inbound channel left, the connection need only live until
      the deadline. */
  function Rest(h: HandlerState, deadline: int): HandlerState {
    if h.inbound.Keys == {} && h.keepAlive == Yes then h.(keepAlive := Until(deadline)) else h
  }

  /** One poll; a cancelled channel is consumed without being replaced by another one. */
  function Poll(h: HandlerState, pick: InboundPoll, deadline: int): (HandlerState, PollResult)
    requires CanYield(h, pick)
  {
    if h.error.Some? then (h.(error := None), Close(h.error.value))
    else if h.events != [] then (h.(events := h.events[1..]), Custom(h.events[0]))
    else if h.outbound != [] then (h.(outbound := h.outbound[1..]), OpenSubstream(h.outbound[0]))
    else match pick
      case NothingReady => (Rest(h, deadline), Pending)
      case Item(id) =>
        var taken := h.(inbound := h.inbound - {id});
        match h.inbound[id]
        case Ready(fileName) => (taken.(keepAlive := Yes), Custom(Request(id, fileName)))
        case _ => (Rest(taken, deadline), Pending)
  }

  // ------------------------------------------------------------------------- strict priority

  /** The results of n polls in a row. */
  function Polls(h: HandlerState, n: nat, deadline: int): seq<PollResult>
    decreases n
  {
    if n == 0 then []
    else var (h', r) := Poll(h, NothingReady, deadline); [r] + Polls(h', n - 1, deadline)
  }

  function Telling(events: seq<HandlerEvent>): seq<PollResult> {
    seq(|events|, i requires 0 <= i < |events| => Custom(events[i]))
  }

  function Asking(rs: seq<OutboundRequest>): seq<PollResult> {
    seq(|rs|, i requires 0 <= i < |rs| => OpenSubstream(rs[i]))
  }

  /** Everything a handler has to say before it looks at its inbound channels. */
  function Backlog(h: HandlerState): seq<PollResult>
  {
    (if h.error.Some? then [Close(h.error.value)] else []) + Telling(h.events) + Asking(h.outbound)
  }

  /** Polling yields the error, then the events, then the requests, each in the order of arrival. */
  lemma {:induction false} PollsDrainTheBacklog(h: HandlerState, n: nat, deadline: int)
    requires n <= |Backlog(h)|
    ensures Polls(h, n, deadline) == Backlog(h)[..n]
    decreases n
  {
    if n > 0 {
      var (h', r) := Poll(h, NothingReady, deadline);
      assert Backlog(h) == [r] + Backlog(h');
      PollsDrainTheBacklog(h', n - 1, deadline);
    }
  }

  /** A request is asked for right after everything the handler already had to say. */
  lemma RequestIsAskedForLast(h: HandlerState, r: OutboundRequest, deadline: int)
    ensures var n := |Backlog(h)|;
            Polls(OnBehaviourEvent(h, r), n + 1, deadline) == Backlog(h) + [OpenSubstream(r)]
  {
    assert Backlog(OnBehaviourEvent(h, r)) == Backlog(h) + [OpenSubstream(r)];
    PollsDrainTheBacklog(OnBehaviourEvent(h, r), |Backlog(h)| + 1, deadline);
  }

  /** The event a handler queues for a substream outcome other than an expired timer. */
  function EventFor(e: ConnectionEvent): (told: HandlerEvent)
    requires e != AddressChange
    ensures told.id == e.id
    ensures IsKind(OutEnd, told) <==> e.NegotiatedOutbound? || e.DialError?
    ensures IsKind(InEnd, told) <==> e.NegotiatedInbound? || e.ListenError?
  {
    match e
    case NegotiatedInbound(sent, id) => if sent then ResponseSent(id) else ResponseOmission(id)
    case NegotiatedOutbound(id) => Response(id)
    case ListenError(error, id) => if error.Timeout? then InboundTimeout(id) else InboundUnsupportedProtocols(id)
    case DialError(error, id) => if error.Timeout? then OutboundTimeout(id) else OutboundUnsupportedProtocols(id)
  }

  predicate Expired(e: ConnectionEvent) {
    (e.ListenError? || e.DialError?) && e.error == Timer
  }

  /** The outcome of a substream is told after the pending error and the earlier events and before the
      requests, of which none is lost. */
  lemma OutcomeIsTold(h: HandlerState, e: ConnectionEvent, deadline: int)
    requires e != AddressChange && !Expired(e)
    ensures var n := |h.events| + (if h.error.Some? then 1 else 0);
            Polls(OnConnectionEvent(h, e), n + 1 + |h.outbound|, deadline) ==
            Polls(h, n, deadline) + [Custom(EventFor(e))] + Asking(h.outbound)
  {
    hide Poll, Polls;
    var after, n := OnConnectionEvent(h, e), |h.events| + (if h.error.Some? then 1 else 0);
    assert after == h.(events := h.events + [EventFor(e)]);
    PollsDrainTheBacklog(after, n + 1 + |h.outbound|, deadline);
    PollsDrainTheBacklog(h, n, deadline);
    assert Telling(after.events) == Telling(h.events) + [Custom(EventFor(e))];
    assert Backlog(h)[..n] == (if h.error.Some? then [Close(h.error.value)] else []) + Telling(h.events);
  }

  /** An expired timer closes the connection at the next poll; whatever else was waiting still is. */
  lemma ExpiryCloses(h: HandlerState, e: ConnectionEvent, deadline: int)
    requires e != AddressChange && Expired(e)
    ensures var rest := h.(error := None);
            Polls(OnConnectionEvent(h, e), 1 + |Backlog(rest)|, deadline) == [Close(Timer)] + Backlog(rest)
  {
    hide Poll, Polls;
    PollsDrainTheBacklog(OnConnectionEvent(h, e), 1 + |Backlog(h.(error := None))|, deadline);
    assert Backlog(OnConnectionEvent(h, e)) == [Close(Timer)] + Backlog(h.(error := None));
  }

  /** No outcome touches what the handler holds open, and a new address changes nothing at all. */
  lemma OutcomesKeepTheRest(h: HandlerState, e: ConnectionEvent)
    ensures var after := OnConnectionEvent(h, e);
            && after.keepAlive == h.keepAlive && after.inbound == h.inbound && after.outbound == h.outbound
            && (e == AddressChange ==> Backlog(after) == Backlog(h))
  {
  }

  // ------------------------------------------------------------------------------ keep alive

  datatype HandlerOp =
    | DoListen(id: RequestId)
    | DoBehaviourEvent(request: OutboundRequest)
    | DoConnectionEvent(event: ConnectionEvent)
    | DoPoll(pick: InboundPoll, deadline: int)
    | ChannelMoves(id: RequestId, slot: Slot)  // the sending end of a request channel acts

  predicate Possible(h: HandlerState, op: HandlerOp) {
    (op.DoPoll? ==> CanYield(h, op.pick)) && (op.ChannelMoves? ==> op.id in h.inbound)
  }

  function Do(h: HandlerState, op: HandlerOp): HandlerState
    requires Possible(h, op)
  {
    match op
    case DoListen(id) => Listen(h, id)
    case DoBehaviourEvent(r) => OnBehaviourEvent(h, r)
    case DoConnectionEvent(e) => OnConnectionEvent(h, e)
    case DoPoll(pick, deadline) => Poll(h, pick, deadline).0
    case ChannelMoves(id, slot) => h.(inbound := h.inbound[id := slot])
  }

  ghost predicate IsHandlerRun(hs: seq<HandlerState>, ops: seq<HandlerOp>) {
    && |hs| == |ops| + 1
    && hs[0] == NEW_HANDLER
    && (forall i :: 0 <= i < |ops| ==> Possible(hs[i], ops[i]) && hs[i + 1] == Do(hs[i], ops[i]))
  }

  /** An operation that carries a request: it comes from the behaviour or is delivered to it. */
  predicate Busy(h: HandlerState, op: HandlerOp)
    requires Possible(h, op)
  {
    op.DoBehaviourEvent? ||
    (op.DoPoll? && Poll(h, op.pick, op.deadline).1.Custom? && Poll(h, op.pick, op.deadline).1.event.Request?)
  }

  /** A poll with the deadline that has nothing to yield. */
  predicate GoesIdle(h: HandlerState, op: HandlerOp, deadline: int)
    requires Possible(h, op)
  {
    op.DoPoll? && op.deadline == deadline && Poll(h, op.pick, op.deadline).1.Pending?
  }

  /** Nothing is left to report, to send or to receive. */
  predicate Idle(h: HandlerState) {
    h.error.None? && h.events == [] && h.outbound == [] && h.inbound.Keys == {}
  }

  /** No request waits on an expiring connection, at any point of any run. */
  lemma {:induction false} NoRequestWaitsWhileExpiring(hs: seq<HandlerState>, ops: seq<HandlerOp>, i: nat)
    requires IsHandlerRun(hs, ops) && i <= |ops|
    ensures hs[i].keepAlive.Until? ==> hs[i].outbound == []
    decreases i
  {
    if i > 0 {
      NoRequestWaitsWhileExpiring(hs, ops, i - 1);
      assert hs[i] == Do(hs[i - 1], ops[i - 1]);
    }
  }

  /** Over any run, the connection is kept alive until a poll leaves the handler idle, and from then on it
      lives until the deadline of that poll; the next request takes that back, and nothing else does. */
  lemma KeepAliveOverRuns(hs: seq<HandlerState>, ops: seq<HandlerOp>, i: nat)
    requires IsHandlerRun(hs, ops) && i < |ops|
    ensures hs[0].keepAlive.Yes?
    ensures hs[i].keepAlive.Yes? ==>
              forall d :: hs[i + 1].keepAlive == Until(d) <==> GoesIdle(hs[i], ops[i], d) && Idle(hs[i + 1])
    ensures hs[i].keepAlive.Until? ==>
              hs[i + 1].keepAlive == if Busy(hs[i], ops[i]) then Yes else hs[i].keepAlive
    ensures Busy(hs[i], ops[i]) ==> hs[i + 1].keepAlive.Yes?
  {
    NoRequestWaitsWhileExpiring(hs, ops, i);
    assert hs[i + 1] == Do(hs[i], ops[i]);
    if ops[i].DoPoll? && hs[i].keepAlive.Until? && hs[i].error.None? && hs[i].events != [] {
      QueuedEventsAreNotRequests(hs, ops, i);
    }
  }

  /** Requests bypass the event queue. */
  lemma {:induction false} QueuedEventsAreNotRequests(hs: seq<HandlerState>, ops: seq<HandlerOp>, i: nat)
    requires IsHandlerRun(hs, ops) && i <= |ops|
    ensures forall e :: e in hs[i].events ==> !e.Request?
    decreases i
  {
    if i > 0 {
      QueuedEventsAreNotRequests(hs, ops, i - 1);
      assert hs[i] == Do(hs[i - 1], ops[i - 1]);
    }
  }
}
