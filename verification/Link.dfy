/** What the swarm keeps for one connection: the channels between behaviour and handler, the
    handler, and the substream upgrades in progress. */
module Link {
  import opened Basics
  import opened Messages
  import HM = HandlerModel

  /** Progress of upgrade_inbound: it holds the sender of the request channel while Receiving,
      the receiver of the response channel while AwaitingReader, and a reader while Copying. */
  datatype InboundPhase = Receiving | AwaitingReader | Copying

  /** `outUpgrades` are the outbound substreams in progress, by request id; `lost` the requests
      that will get no outcome from the handler; `substreams` all requests a substream was asked for,
      and `accepted` all ids drawn for inbound substreams, since the connection exists. */
  datatype Link = Link(
    peer: PeerId,
    open: bool,
    inbox: seq<OutboundRequest>,
    handler: HM.HandlerState,
    outUpgrades: multiset<RequestId>,
    inUpgrades: map<RequestId, InboundPhase>,
    outbox: seq<HandlerEvent>,
    lost: multiset<RequestId>,
    substreams: seq<OutboundRequest>,
    accepted: set<RequestId>)

  function NewLink(p: PeerId): Link {
    Link(p, true, [], HM.NEW_HANDLER, multiset{}, map[], [], multiset{}, [], {})
  }

  datatype LinkStep =
    | DeliverRequest
    | PollHandler(pick: HM.InboundPoll, deadline: int)
    | OutboundDone(id: RequestId, error: Option<HM.UpgradeError>)
    | Accept(id: RequestId)
    | RequestArrives(id: RequestId, fileName: string)
    | ReaderArrives(id: RequestId)
    | InboundDone(id: RequestId, error: Option<HM.UpgradeError>)
    | InboundUnused(id: RequestId)  // the remote chose another protocol for the substream
    | SenderMissing(id: RequestId)  // the response channel is cancelled and the upgrade panics
    | Break                         // the connection fails or is closed for a reason of its own

  predicate LinkReady(l: Link, st: LinkStep) {
    && l.open
    && match st
       case DeliverRequest => l.inbox != []
       case PollHandler(pick, _) => HM.CanYield(l.handler, pick)
       case OutboundDone(id, _) => id in l.outUpgrades
       case Accept(id) => true
       case RequestArrives(id, _) => id in l.inUpgrades && l.inUpgrades[id] == Receiving
       case ReaderArrives(id) => id in l.inUpgrades && l.inUpgrades[id] == AwaitingReader
       case InboundDone(id, error) => id in l.inUpgrades && (error.None? ==> l.inUpgrades[id] == Copying)
       case InboundUnused(id) => id in l.inUpgrades && l.inUpgrades[id] == Receiving
       case SenderMissing(id) => id in l.inUpgrades && l.inUpgrades[id] == AwaitingReader
       case Break => true
  }

  /** The response sender of a request is with the handler, or in an event the handler has emitted. */
  predicate SenderInside(l: Link, id: RequestId) {
    id in l.handler.inbound || Count(Asked, l.outbox, id) > 0
  }

  /** `nextInbound` is the next inbound id, `replied` the received requests whose response sender was
      used, `held` those whose response sender exists outside the link. */
  predicate LinkEnabled(l: Link, st: LinkStep, nextInbound: RequestId, replied: set<RequestId>, held: set<RequestId>) {
    && LinkReady(l, st)
    && (st.Accept? ==> st.id == nextInbound)
    && (st.ReaderArrives? ==> st.id in replied)
    && (st.SenderMissing? ==> st.id !in replied && st.id !in held && !SenderInside(l, st.id))
  }

  /** The sending end of a request channel acts; nothing happens when the receiver is gone. */
  function MoveChannel(h: HM.HandlerState, id: RequestId, slot: HM.Slot): HM.HandlerState {
    if id in h.inbound then h.(inbound := h.inbound[id := slot]) else h
  }

  /** An inbound upgrade ends; a request sender it still holds is dropped. */
  function EndUpgrade(l: Link, id: RequestId): Link
    requires id in l.inUpgrades
  {
    l.(inUpgrades := l.inUpgrades - {id},
       handler := if l.inUpgrades[id] == Receiving then MoveChannel(l.handler, id, HM.Cancelled) else l.handler)
  }

  function AfterPoll(l: Link, h: HM.HandlerState, r: HM.PollResult): Link {
    match r
    case Close(_) => l.(handler := h, open := false)
    case Custom(e) => l.(handler := h, outbox := l.outbox + [e])
    case OpenSubstream(req) =>
      l.(handler := h, outUpgrades := l.outUpgrades + multiset{req.id}, substreams := l.substreams + [req])
    case Pending => l.(handler := h)
  }

  function OutboundOutcome(id: RequestId, error: Option<HM.UpgradeError>): HM.ConnectionEvent {
    if error.None? then HM.NegotiatedOutbound(id) else HM.DialError(error.value, id)
  }

  /** The upgrade of an inbound substream either fails or yields true. */
  function InboundOutcome(id: RequestId, error: Option<HM.UpgradeError>): HM.ConnectionEvent {
    if error.None? then HM.NegotiatedInbound(true, id) else HM.ListenError(error.value, id)
  }

  function LinkNext(l: Link, st: LinkStep): Link
    requires LinkReady(l, st)
  {
    match st
    case DeliverRequest =>
      l.(inbox := l.inbox[1..], handler := HM.OnBehaviourEvent(l.handler, l.inbox[0]))
    case PollHandler(pick, deadline) =>
      var (h, r) := HM.Poll(l.handler, pick, deadline);
      AfterPoll(l, h, r)
    case OutboundDone(id, error) =>
      l.(outUpgrades := l.outUpgrades - multiset{id},
         handler := HM.OnConnectionEvent(l.handler, OutboundOutcome(id, error)),
         lost := if error == Some(HM.Timer) then l.lost + multiset{id} else l.lost)
    case Accept(id) =>
      l.(handler := HM.Listen(l.handler, id),
         inUpgrades := l.inUpgrades[id := Receiving],
         accepted := l.accepted + {id})
    case RequestArrives(id, fileName) =>
      l.(inUpgrades := l.inUpgrades[id := AwaitingReader],
         handler := MoveChannel(l.handler, id, HM.Ready(fileName)))
    case ReaderArrives(id) =>
      l.(inUpgrades := l.inUpgrades[id := Copying])
    case InboundDone(id, error) =>
      var ended := EndUpgrade(l, id);
      ended.(handler := HM.OnConnectionEvent(ended.handler, InboundOutcome(id, error)))
    case InboundUnused(id) => EndUpgrade(l, id)
    case SenderMissing(_) => l.(open := false)
    case Break => l.(open := false)
  }

  // ------------------------------------------------------------- our own requests on the link

  /** How often one of our requests occurs on the link, over all the places where it can be. */
  ghost function Tokens(l: Link, id: RequestId): nat {
    Times(Ids(l.inbox), id) + Times(Ids(l.handler.outbound), id) + l.outUpgrades[id]
    + Count(OutEnd, l.handler.events, id) + Count(OutEnd, l.outbox, id) + l.lost[id]
  }

  /** Requests asked for a substream, waiting in the handler, waiting for the handler: in order. */
  function Flow(l: Link): seq<OutboundRequest> {
    l.substreams + l.handler.outbound + l.inbox
  }

  lemma IdsPop(rs: seq<OutboundRequest>)
    requires rs != []
    ensures Ids(rs) == [rs[0].id] + Ids(rs[1..])
  {
  }

  lemma IdsPush(rs: seq<OutboundRequest>, r: OutboundRequest)
    ensures Ids(rs + [r]) == Ids(rs) + [r.id]
  {
    if rs != [] {
      IdsPush(rs[1..], r);
      assert (rs + [r])[1..] == rs[1..] + [r];
    }
  }

  lemma {:induction false} IdsConcat(a: seq<OutboundRequest>, b: seq<OutboundRequest>)
    ensures Ids(a + b) == Ids(a) + Ids(b)
  {
    if a == [] {
      assert a + b == b;
    } else {
      IdsConcat(a[1..], b);
      assert (a + b)[1..] == a[1..] + b;
    }
  }

  /** Whatever a connection does on its own, every id stays accounted for, once, and the requests
      stay what they are, in order. */
  lemma LinkStepKeepsRequests(l: Link, st: LinkStep)
    requires LinkReady(l, st)
    ensures var m := LinkNext(l, st);
            m.peer == l.peer && Flow(m) == Flow(l) && forall id :: Tokens(m, id) == Tokens(l, id)
  {
    StepKeepsFlow(l, st);
    forall id ensures Tokens(LinkNext(l, st), id) == Tokens(l, id) {
      StepKeepsTokens(l, st, id);
    }
  }

  lemma StepKeepsFlow(l: Link, st: LinkStep)
    requires LinkReady(l, st)
    ensures LinkNext(l, st).peer == l.peer && Flow(LinkNext(l, st)) == Flow(l)
  {
    hide HM.Poll, Flow;
    match st
    case DeliverRequest => DeliveryKeepsFlow(l);
    case PollHandler(pick, deadline) => PollKeepsFlow(l, pick, deadline);
    case _ => SameQueuesSameFlow(l, LinkNext(l, st));
  }

  lemma SameQueuesSameFlow(l: Link, m: Link)
    requires m.substreams == l.substreams && m.handler.outbound == l.handler.outbound && m.inbox == l.inbox
    ensures Flow(m) == Flow(l)
  {
  }

  lemma DeliveryKeepsFlow(l: Link)
    requires LinkReady(l, DeliverRequest)
    ensures Flow(LinkNext(l, DeliverRequest)) == Flow(l)
  {
    assert l.inbox == [l.inbox[0]] + l.inbox[1..];
  }

  lemma PollKeepsFlow(l: Link, pick: HM.InboundPoll, deadline: int)
    requires LinkReady(l, PollHandler(pick, deadline))
    ensures Flow(LinkNext(l, PollHandler(pick, deadline))) == Flow(l)
  {
    if HM.Poll(l.handler, pick, deadline).1.OpenSubstream? {
      assert l.handler.outbound == [l.handler.outbound[0]] + l.handler.outbound[1..];
    }
  }

  /** The places where our own requests can be are the same. */
  ghost predicate SameQueues(l: Link, m: Link) {
    && m.inbox == l.inbox && m.handler.outbound == l.handler.outbound && m.handler.events == l.handler.events
    && m.outUpgrades == l.outUpgrades && m.outbox == l.outbox && m.lost == l.lost
  }

  lemma SameQueuesSameTokens(l: Link, m: Link, id: RequestId)
    requires SameQueues(l, m)
    ensures Tokens(m, id) == Tokens(l, id)
  {
  }

  lemma StepKeepsTokens(l: Link, st: LinkStep, id: RequestId)
    requires LinkReady(l, st)
    ensures Tokens(LinkNext(l, st), id) == Tokens(l, id)
  {
    match st
    case DeliverRequest =>
      IdsPop(l.inbox);
      IdsPush(l.handler.outbound, l.inbox[0]);
      TimesConcat(Ids(l.handler.outbound), [l.inbox[0].id], id);
    case PollHandler(pick, deadline) =>
      PollKeepsTokens(l, pick, deadline, id);
    case OutboundDone(r, error) =>
      OutboundDoneKeepsTokens(l, r, error, id);
    case InboundDone(r, error) =>
      InboundDoneKeepsTokens(l, r, error, id);
    case _ =>
      SameQueuesSameTokens(l, LinkNext(l, st), id);
  }

  lemma OutboundDoneKeepsTokens(l: Link, r: RequestId, error: Option<HM.UpgradeError>, id: RequestId)
    requires LinkReady(l, OutboundDone(r, error))
    ensures Tokens(LinkNext(l, OutboundDone(r, error)), id) == Tokens(l, id)
  {
    CountPush(OutEnd, l.handler.events, HM.EventFor(OutboundOutcome(r, error)), id);
  }

  lemma InboundDoneKeepsTokens(l: Link, r: RequestId, error: Option<HM.UpgradeError>, id: RequestId)
    requires LinkReady(l, InboundDone(r, error))
    ensures Tokens(LinkNext(l, InboundDone(r, error)), id) == Tokens(l, id)
  {
    CountPush(OutEnd, l.handler.events, HM.EventFor(InboundOutcome(r, error)), id);
  }

  lemma PollKeepsTokens(l: Link, pick: HM.InboundPoll, deadline: int, id: RequestId)
    requires HM.CanYield(l.handler, pick)
    ensures var (h, r) := HM.Poll(l.handler, pick, deadline);
            Tokens(AfterPoll(l, h, r), id) == Tokens(l, id)
  {
    var (h, r) := HM.Poll(l.handler, pick, deadline);
    if r.Custom? {
      CountPush(OutEnd, l.outbox, r.event, id);
    } else if r.OpenSubstream? {
      IdsPop(l.handler.outbound);
    } else {
      SameQueuesSameTokens(l, AfterPoll(l, h, r), id);
    }
  }
}
