/** The handler of one connection as the object it is, proved against HandlerModel. */
module ConnectionHandler {
  import opened Basics
  import opened Messages
  import HM = HandlerModel
  import opened FileGetBehaviour

  class Handler {
    const inboundIds: RequestIdGenerator
    var keepAlive: HM.KeepAlive
    var pendingEvents: seq<HandlerEvent>
    var inbound: map<RequestId, HM.Slot>
    var outbound: seq<OutboundRequest>
    var pendingError: Option<HM.UpgradeError>

    function Model(): HM.HandlerState
      reads this
    {
      HM.HandlerState(keepAlive, pendingEvents, inbound, outbound, pendingError)
    }

    constructor (inboundIds: RequestIdGenerator)
      ensures Model() == HM.NEW_HANDLER && this.inboundIds == inboundIds
    {
      this.inboundIds := inboundIds;
      keepAlive := HM.Yes;
      pendingEvents := [];
      inbound := map[];
      outbound := [];
      pendingError := None;
    }

    /** Draws the id of a new inbound substream from the generator shared by all handlers. */
    method ListenProtocol() returns (id: RequestId)
      modifies this`inbound, inboundIds
      ensures id == old(inboundIds.next) && inboundIds.next == NextCounter(old(inboundIds.next))
      ensures Model() == HM.Listen(old(Model()), id)
    {
      id := inboundIds.NextId();
      inbound := inbound[id := HM.Waiting];
    }

    method OnBehaviourEvent(request: OutboundRequest)
      modifies this
      ensures Model() == HM.OnBehaviourEvent(old(Model()), request)
    {
      keepAlive := HM.Yes;
      outbound := outbound + [request];
    }

    method OnConnectionEvent(event: HM.ConnectionEvent)
      modifies this`pendingEvents, this`pendingError
      ensures Model() == HM.OnConnectionEvent(old(Model()), event)
    {
      match event {
        case NegotiatedInbound(sent, id) =>
          if sent {
            pendingEvents := pendingEvents + [ResponseSent(id)];
          } else {
            pendingEvents := pendingEvents + [ResponseOmission(id)];
          }
        case NegotiatedOutbound(id) =>
          pendingEvents := pendingEvents + [Response(id)];
        case ListenError(error, id) =>
          match error {
            case Timeout => pendingEvents := pendingEvents + [InboundTimeout(id)];
            case Upgrade => pendingEvents := pendingEvents + [InboundUnsupportedProtocols(id)];
            case Timer => pendingError := Some(error);
          }
        case DialError(error, id) =>
          match error {
            case Timeout => pendingEvents := pendingEvents + [OutboundTimeout(id)];
            case Upgrade => pendingEvents := pendingEvents + [OutboundUnsupportedProtocols(id)];
            case Timer => pendingError := Some(error);
          }
        case AddressChange =>
      }
    }

    /** `pick` is what the set of inbound channels yields if this poll gets that far. */
    method Poll(pick: HM.InboundPoll, deadline: int) returns (result: HM.PollResult)
      requires HM.CanYield(Model(), pick)
      modifies this
      ensures (Model(), result) == HM.Poll(old(Model()), pick, deadline)
    {
      if pendingError.Some? {
        result := HM.Close(pendingError.value);
        pendingError := None;
        return;
      }
      if pendingEvents != [] {
        result := HM.Custom(pendingEvents[0]);
        pendingEvents := pendingEvents[1..];
        return;
      }
      if outbound != [] {
        result := HM.OpenSubstream(outbound[0]);
        outbound := outbound[1..];
        return;
      }
      if pick.Item? {
        var slot := inbound[pick.id];
        inbound := inbound - {pick.id};
        if slot.Ready? {
          keepAlive := HM.Yes;
          return HM.Custom(Request(pick.id, slot.fileName));
        }
      }
      if inbound == map[] && keepAlive == HM.Yes {
        keepAlive := HM.Until(deadline);
      }
      result := HM.Pending;
    }
  }
}
