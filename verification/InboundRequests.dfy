/** The received requests of one connection: where their tokens are, and what an outcome implies. */
module InboundRequests {
  import opened Basics
  import opened Messages
  import opened Link
  import HM = HandlerModel

  /** What the rest of the system knows: the ids announced to the application, those with an outcome
      reported by a handler, those with a response supplied, and those FileGet tracks for the link. */
  datatype Outside = Outside(
    received: set<RequestId>, ended: set<RequestId>, replied: set<RequestId>, tracked: set<RequestId>)

  function One(b: bool): nat {
    if b then 1 else 0
  }

  /** Requests on their way from a substream to the behaviour. */
  function RequestTokens(l: Link, id: RequestId): nat {
    One(id in l.handler.inbound) + Count(Asked, l.outbox, id)
  }

  /** Upgrades in progress and their outcomes on the way to the behaviour. */
  function OutcomeTokens(l: Link, id: RequestId): nat {
    One(id in l.inUpgrades) + Count(InEnd, l.handler.events, id) + Count(InEnd, l.outbox, id)
  }

  /** An id is announced at most once. */
  ghost predicate RequestsOnce(l: Link, o: Outside) {
    forall id :: RequestTokens(l, id) <= One(id in l.accepted && id !in o.received)
  }

  /** An id has at most one outcome. */
  ghost predicate OutcomesOnce(l: Link, o: Outside) {
    forall id :: OutcomeTokens(l, id) <= One(id in l.accepted && id !in o.ended)
  }

  /** The response sender of an upgrade is still held by someone, or has been used. */
  predicate SenderExists(l: Link, id: RequestId, o: Outside)
    requires id in l.inUpgrades
  {
    match l.inUpgrades[id]
    case Receiving => id in l.handler.inbound && l.handler.inbound[id] == HM.Waiting
    case AwaitingReader =>
      (id in l.handler.inbound && l.handler.inbound[id].Ready?) || Count(Asked, l.outbox, id) > 0 || id in o.received
    case Copying => id in o.replied
  }

  ghost predicate SendersExist(l: Link, o: Outside) {
    forall id :: id in l.inUpgrades ==> SenderExists(l, id, o)
  }

  /** An announced request without an outcome is tracked. */
  ghost predicate AnnouncedTracked(l: Link, o: Outside) {
    forall id :: id in l.inUpgrades && id in o.received ==> id in o.tracked
  }

  /** A response sent was asked for by a request that was announced and is tracked. */
  ghost predicate SentTracked(l: Link, o: Outside) {
    forall id :: Count(InSent, l.handler.events, id) + Count(InSent, l.outbox, id) > 0 ==>
                   id in o.received && id in o.tracked
  }

  /** The outcomes of received requests and only they pass through the event queue, and no
      response is ever omitted. */
  ghost predicate QueuesClean(l: Link) {
    && (forall e :: e in l.handler.events ==> !e.Request? && !e.ResponseOmission?)
    && (forall e :: e in l.outbox ==> !e.ResponseOmission?)
  }

  ghost predicate InboundOk(l: Link, o: Outside) {
    && RequestsOnce(l, o) && OutcomesOnce(l, o) && SendersExist(l, o)
    && AnnouncedTracked(l, o) && SentTracked(l, o) && QueuesClean(l)
    && o.replied <= o.received && o.tracked <= l.accepted
  }

  ghost predicate StepAllowed(l: Link, st: LinkStep, o: Outside) {
    && LinkReady(l, st)
    && (st.Accept? ==> st.id !in l.accepted && st.id !in o.received && st.id !in o.ended)
    && (st.ReaderArrives? ==> st.id in o.replied)
  }

  /** Every step of a connection keeps the account of its received requests. */
  lemma LinkStepKeepsInbound(l: Link, st: LinkStep, o: Outside)
    requires InboundOk(l, o) && StepAllowed(l, st, o)
    ensures InboundOk(LinkNext(l, st), o)
  {
    match st
    case PollHandler(pick, deadline) => PollKeepsInbound(l, pick, deadline, o);
    case OutboundDone(r, error) => OutboundDoneKeepsInbound(l, r, error, o);
    case Accept(id) => AcceptKeepsInbound(l, id, o);
    case RequestArrives(id, fileName) => RequestArrivesKeepsInbound(l, id, fileName, o);
    case ReaderArrives(id) => ReaderArrivesKeepsInbound(l, id, o);
    case InboundDone(r, error) => InboundDoneKeepsInbound(l, r, error, o);
    case InboundUnused(r) => EndUpgradeKeepsInbound(l, r, o);
    case DeliverRequest => SameInboundOk(l, LinkNext(l, st), o);
    case SenderMissing(_) => SameInboundOk(l, LinkNext(l, st), o);
    case Break => SameInboundOk(l, LinkNext(l, st), o);
  }

  ghost predicate SameInbound(l: Link, m: Link) {
    && m.handler.inbound == l.handler.inbound && m.handler.events == l.handler.events
    && m.inUpgrades == l.inUpgrades && m.outbox == l.outbox && m.accepted == l.accepted
  }

  lemma SameInboundOk(l: Link, m: Link, o: Outside)
    requires InboundOk(l, o) && SameInbound(l, m)
    ensures InboundOk(m, o)
  {
    assert forall id :: RequestTokens(m, id) == RequestTokens(l, id) && OutcomeTokens(m, id) == OutcomeTokens(l, id);
    assert forall id :: id in m.inUpgrades ==> SenderExists(l, id, o);
  }

  lemma PollKeepsInbound(l: Link, pick: HM.InboundPoll, deadline: int, o: Outside)
    requires InboundOk(l, o) && HM.CanYield(l.handler, pick)
    ensures var (h, r) := HM.Poll(l.handler, pick, deadline); InboundOk(AfterPoll(l, h, r), o)
  {
    var (h, r) := HM.Poll(l.handler, pick, deadline);
    var m := AfterPoll(l, h, r);
    if SameInbound(l, m) {
      SameInboundOk(l, m, o);
    } else if r.Pending? {
      TakenKeepsInbound(l, m, pick.id, o);
    } else if l.handler.events != [] {
      EventMovesKeepsInbound(l, m, o);
    } else {
      RequestMovesKeepsInbound(l, m, pick.id, o);
    }
  }

  lemma TakenKeepsInbound(l: Link, m: Link, id: RequestId, o: Outside)
    requires InboundOk(l, o) && id in l.handler.inbound && l.handler.inbound[id].Cancelled?
    requires SameInbound(l.(handler := l.handler.(inbound := l.handler.inbound - {id})), m)
    ensures InboundOk(m, o)
  {
    forall x ensures RequestTokens(m, x) <= RequestTokens(l, x) && OutcomeTokens(m, x) == OutcomeTokens(l, x) {}
    forall x | x in m.inUpgrades ensures SenderExists(m, x, o) {
      assert SenderExists(l, x, o);
    }
  }

  lemma EventMovesKeepsInbound(l: Link, m: Link, o: Outside)
    requires InboundOk(l, o) && l.handler.events != []
    requires SameInbound(l.(handler := l.handler.(events := l.handler.events[1..]),
                            outbox := l.outbox + [l.handler.events[0]]), m)
    ensures InboundOk(m, o)
  {
    var e := l.handler.events[0];
    forall x ensures RequestTokens(m, x) == RequestTokens(l, x) && OutcomeTokens(m, x) == OutcomeTokens(l, x)
      ensures Count(InSent, m.handler.events, x) + Count(InSent, m.outbox, x) ==
              Count(InSent, l.handler.events, x) + Count(InSent, l.outbox, x)
    {
      CountPush(Asked, l.outbox, e, x);
      CountPush(InEnd, l.outbox, e, x);
      CountPush(InSent, l.outbox, e, x);
    }
    forall x | x in m.inUpgrades ensures SenderExists(m, x, o) {
      assert SenderExists(l, x, o);
      CountPush(Asked, l.outbox, e, x);
    }
  }

  lemma RequestMovesKeepsInbound(l: Link, m: Link, id: RequestId, o: Outside)
    requires InboundOk(l, o) && id in l.handler.inbound && l.handler.inbound[id].Ready?
    requires var e := Request(id, l.handler.inbound[id].fileName);
             SameInbound(l.(handler := l.handler.(inbound := l.handler.inbound - {id}), outbox := l.outbox + [e]), m)
    ensures InboundOk(m, o)
  {
    var e := Request(id, l.handler.inbound[id].fileName);
    forall x ensures RequestTokens(m, x) == RequestTokens(l, x) && OutcomeTokens(m, x) == OutcomeTokens(l, x)
      ensures Count(InSent, m.outbox, x) == Count(InSent, l.outbox, x)
    {
      CountPush(Asked, l.outbox, e, x);
      CountPush(InEnd, l.outbox, e, x);
      CountPush(InSent, l.outbox, e, x);
    }
    forall x | x in m.inUpgrades ensures SenderExists(m, x, o) {
      assert SenderExists(l, x, o);
      CountPush(Asked, l.outbox, e, x);
    }
  }

  /** An event without bearing on received requests is queued. */
  lemma OutboundDoneKeepsInbound(l: Link, r: RequestId, error: Option<HM.UpgradeError>, o: Outside)
    requires InboundOk(l, o) && LinkReady(l, OutboundDone(r, error))
    ensures InboundOk(LinkNext(l, OutboundDone(r, error)), o)
  {
    var m := LinkNext(l, OutboundDone(r, error));
    if SameInbound(l, m) {
      SameInboundOk(l, m, o);
    } else {
      OurOutcomeKeepsInbound(l, m, HM.EventFor(OutboundOutcome(r, error)), o);
    }
  }

  lemma OurOutcomeKeepsInbound(l: Link, m: Link, e: HandlerEvent, o: Outside)
    requires InboundOk(l, o) && IsKind(OutEnd, e)
    requires SameInbound(l.(handler := l.handler.(events := l.handler.events + [e])), m)
    ensures InboundOk(m, o)
  {
    forall x ensures RequestTokens(m, x) == RequestTokens(l, x) && OutcomeTokens(m, x) == OutcomeTokens(l, x)
      ensures Count(InSent, m.handler.events, x) == Count(InSent, l.handler.events, x)
    {
      CountPush(InEnd, l.handler.events, e, x);
      CountPush(InSent, l.handler.events, e, x);
    }
    forall x | x in m.inUpgrades ensures SenderExists(m, x, o) {
      assert SenderExists(l, x, o);
    }
  }

  lemma AcceptKeepsInbound(l: Link, id: RequestId, o: Outside)
    requires InboundOk(l, o) && StepAllowed(l, Accept(id), o)
    ensures InboundOk(LinkNext(l, Accept(id)), o)
  {
    var m := LinkNext(l, Accept(id));
    forall x ensures RequestTokens(m, x) <= One(x in m.accepted && x !in o.received)
      ensures OutcomeTokens(m, x) <= One(x in m.accepted && x !in o.ended)
    {
      assert RequestTokens(l, x) <= One(x in l.accepted && x !in o.received);
      assert OutcomeTokens(l, x) <= One(x in l.accepted && x !in o.ended);
    }
    forall x | x in m.inUpgrades ensures SenderExists(m, x, o) {
      assert x in l.inUpgrades ==> SenderExists(l, x, o);
    }
  }

  lemma RequestArrivesKeepsInbound(l: Link, id: RequestId, fileName: string, o: Outside)
    requires InboundOk(l, o) && LinkReady(l, RequestArrives(id, fileName))
    ensures InboundOk(LinkNext(l, RequestArrives(id, fileName)), o)
  {
    var m := LinkNext(l, RequestArrives(id, fileName));
    assert SenderExists(l, id, o);
    forall x ensures RequestTokens(m, x) == RequestTokens(l, x) && OutcomeTokens(m, x) == OutcomeTokens(l, x) {}
    forall x | x in m.inUpgrades ensures SenderExists(m, x, o) {
      assert SenderExists(l, x, o);
    }
  }

  lemma ReaderArrivesKeepsInbound(l: Link, id: RequestId, o: Outside)
    requires InboundOk(l, o) && StepAllowed(l, ReaderArrives(id), o)
    ensures InboundOk(LinkNext(l, ReaderArrives(id)), o)
  {
    var m := LinkNext(l, ReaderArrives(id));
    forall x ensures RequestTokens(m, x) == RequestTokens(l, x) && OutcomeTokens(m, x) == OutcomeTokens(l, x) {}
    forall x | x in m.inUpgrades ensures SenderExists(m, x, o) {
      assert SenderExists(l, x, o);
    }
  }

  lemma EndUpgradeKeepsInbound(l: Link, r: RequestId, o: Outside)
    requires InboundOk(l, o) && r in l.inUpgrades
    ensures InboundOk(EndUpgrade(l, r), o)
    ensures forall x :: OutcomeTokens(EndUpgrade(l, r), x) == OutcomeTokens(l, x) - One(x == r)
  {
    var m := EndUpgrade(l, r);
    forall x
      ensures RequestTokens(m, x) == RequestTokens(l, x)
      ensures OutcomeTokens(m, x) == OutcomeTokens(l, x) - One(x == r)
    {}
    forall x | x in m.inUpgrades ensures SenderExists(m, x, o) {
      assert SenderExists(l, x, o);
    }
  }

  /** An upgrade ends with its outcome queued; a full response was preceded by the request. */
  lemma InboundDoneKeepsInbound(l: Link, r: RequestId, error: Option<HM.UpgradeError>, o: Outside)
    requires InboundOk(l, o) && LinkReady(l, InboundDone(r, error))
    ensures InboundOk(LinkNext(l, InboundDone(r, error)), o)
  {
    assert SenderExists(l, r, o);
    assert OutcomeTokens(l, r) <= One(r in l.accepted && r !in o.ended);
    EndUpgradeKeepsInbound(l, r, o);
    var ended := EndUpgrade(l, r);
    var m := LinkNext(l, InboundDone(r, error));
    if SameInbound(ended, m) {
      SameInboundOk(ended, m, o);
    } else {
      TheirOutcomeKeepsInbound(ended, m, HM.EventFor(InboundOutcome(r, error)), o);
    }
  }

  lemma TheirOutcomeKeepsInbound(l: Link, m: Link, e: HandlerEvent, o: Outside)
    requires InboundOk(l, o) && IsKind(InEnd, e) && !e.ResponseOmission?
    requires e.id in l.accepted && e.id !in o.ended && OutcomeTokens(l, e.id) == 0
    requires e.ResponseSent? ==> e.id in o.received && e.id in o.tracked
    requires SameInbound(l.(handler := l.handler.(events := l.handler.events + [e])), m)
    ensures InboundOk(m, o)
  {
    forall x ensures RequestTokens(m, x) == RequestTokens(l, x)
      ensures OutcomeTokens(m, x) == OutcomeTokens(l, x) + One(x == e.id)
      ensures Count(InSent, m.handler.events, x) == Count(InSent, l.handler.events, x) + Hit(InSent, e, x)
    {
      CountPush(InEnd, l.handler.events, e, x);
      CountPush(InSent, l.handler.events, e, x);
    }
    forall x | x in m.inUpgrades ensures SenderExists(m, x, o) {
      assert SenderExists(l, x, o);
    }
  }

  // ------------------------------------------------------------------ delivery to the behaviour

  /** What the outside knows once the behaviour has processed an event of the link. */
  function Informed(o: Outside, e: HandlerEvent): Outside {
    if e.Request? then o.(received := o.received + {e.id}, tracked := o.tracked + {e.id})
    else if IsKind(InEnd, e) then o.(ended := o.ended + {e.id}, tracked := o.tracked - {e.id})
    else o
  }

  lemma {:induction false} SentAreOutcomes(events: seq<HandlerEvent>, id: RequestId)
    ensures Count(InSent, events, id) <= Count(InEnd, events, id)
  {
    if events != [] {
      SentAreOutcomes(events[1..], id);
    }
  }

  /** The behaviour processes the oldest event of the link. */
  lemma DeliveryKeepsInbound(l: Link, o: Outside)
    requires InboundOk(l, o) && l.outbox != []
    ensures InboundOk(l.(outbox := l.outbox[1..]), Informed(o, l.outbox[0]))
  {
    var e, m, n := l.outbox[0], l.(outbox := l.outbox[1..]), Informed(o, l.outbox[0]);
    assert RequestTokens(l, e.id) <= One(e.id in l.accepted && e.id !in o.received);
    assert OutcomeTokens(l, e.id) <= One(e.id in l.accepted && e.id !in o.ended);
    forall x
      ensures RequestTokens(m, x) <= One(x in m.accepted && x !in n.received)
      ensures OutcomeTokens(m, x) <= One(x in m.accepted && x !in n.ended)
      ensures Count(InSent, m.handler.events, x) + Count(InSent, m.outbox, x) > 0 ==> x in n.received && x in n.tracked
    {
      assert RequestTokens(l, x) == RequestTokens(m, x) + Hit(Asked, e, x);
      assert OutcomeTokens(l, x) == OutcomeTokens(m, x) + Hit(InEnd, e, x);
      SentAreOutcomes(m.handler.events, x);
      SentAreOutcomes(m.outbox, x);
    }
    forall x | x in m.inUpgrades ensures SenderExists(m, x, n) {
      assert SenderExists(l, x, o);
      assert Count(Asked, l.outbox, x) == Hit(Asked, e, x) + Count(Asked, m.outbox, x);
    }
  }

  /** What another link reports does not concern this one. */
  lemma ElsewhereKeepsInbound(l: Link, o: Outside, n: Outside, e: HandlerEvent)
    requires InboundOk(l, o) && e.id !in l.accepted
    requires n == Informed(o, e).(tracked := o.tracked)
    ensures InboundOk(l, n)
  {
    assert RequestTokens(l, e.id) == 0 && OutcomeTokens(l, e.id) == 0;
    forall x
      ensures RequestTokens(l, x) <= One(x in l.accepted && x !in n.received)
      ensures OutcomeTokens(l, x) <= One(x in l.accepted && x !in n.ended)
    {
      assert RequestTokens(l, x) <= One(x in l.accepted && x !in o.received);
      assert OutcomeTokens(l, x) <= One(x in l.accepted && x !in o.ended);
    }
    forall x | x in l.inUpgrades ensures SenderExists(l, x, n) {
      assert SenderExists(l, x, o);
    }
  }
}
