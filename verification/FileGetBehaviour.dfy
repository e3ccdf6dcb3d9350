/** The FileGet behaviour as the object it is, proved against FileGetModel. */
module FileGetBehaviour {
  import opened Basics
  import opened Messages
  import opened FileGetModel

  /** An atomic counter; FileGet shares one of its two with every handler it creates. */
  class RequestIdGenerator {
    var next: nat

    constructor ()
      ensures next == 1
    {
      next := 1;
    }

    method NextId() returns (id: RequestId)
      modifies this
      ensures id == old(next) && next == NextCounter(old(next))
    {
      id := next;
      next := NextCounter(next);
    }
  }

  class FileGet {
    const requestIds: RequestIdGenerator
    const inboundIds: RequestIdGenerator
    var connected: map<PeerId, seq<Connection>>
    var pendingEvents: seq<Action>
    var pendingOutboundRequests: map<PeerId, seq<OutboundRequest>>

    function Model(): FileGetState
      reads this, requestIds
    {
      FileGetState(requestIds.next, connected, pendingOutboundRequests, pendingEvents)
    }

    constructor FromConfig()
      ensures fresh(requestIds) && fresh(inboundIds) && requestIds != inboundIds
      ensures Model() == INITIAL && inboundIds.next == 1
    {
      requestIds := new RequestIdGenerator();
      inboundIds := new RequestIdGenerator();
      connected := map[];
      pendingEvents := [];
      pendingOutboundRequests := map[];
    }

    method SendRequest(peer: PeerId, fileName: string) returns (id: RequestId)
      modifies this, requestIds
      ensures (Model(), id) == FileGetModel.SendRequest(old(Model()), peer, fileName)
    {
      id := requestIds.NextId();
      var request := OutboundRequest(id, fileName);
      var unsent := TrySendRequest(peer, request);
      if unsent.Some? {
        pendingEvents := pendingEvents + [Dial(peer)];
        var queue := if peer in pendingOutboundRequests then pendingOutboundRequests[peer] else [];
        pendingOutboundRequests := pendingOutboundRequests[peer := queue + [unsent.value]];
      }
    }

    method TrySendRequest(peer: PeerId, request: OutboundRequest) returns (unsent: Option<OutboundRequest>)
      modifies this`connected, this`pendingEvents
      ensures (Model(), unsent) == TrySend(old(Model()), peer, request)
    {
      if peer in connected {
        var connections := connected[peer];
        if connections == [] {
          return Some(request);
        }
        var i := request.id % |connections|;
        var conn := connections[i];
        connected := connected[peer := connections[i := conn.(pendingInbound := conn.pendingInbound + {request.id})]];
        pendingEvents := pendingEvents + [NotifyHandler(peer, conn.id, request)];
        unsent := None;
      } else {
        unsent := Some(request);
      }
    }

    method OnConnectionEstablished(peer: PeerId, connection: ConnectionId, otherEstablished: nat)
      modifies this
      ensures Model() == Established(old(Model()), peer, connection, otherEstablished)
    {
      var connections := if peer in connected then connected[peer] else [];
      connected := connected[peer := connections + [Connection(connection, {}, {})]];
      if otherEstablished == 0 {
        if peer in pendingOutboundRequests {
          var pending := pendingOutboundRequests[peer];
          pendingOutboundRequests := pendingOutboundRequests - {peer};
          ghost var start := Model();
          for i := 0 to |pending|
            invariant Drain(Model(), peer, pending[i..]) == Drain(start, peer, pending)
          {
            assert pending[i..] == [pending[i]] + pending[i + 1..];
            var _ := TrySendRequest(peer, pending[i]);
          }
          assert pending[|pending|..] == [];
        }
      }
    }

    /** The two hash sets are iterated in the orders `theirs` and `ours`. */
    method OnConnectionClosed(peer: PeerId, connection: ConnectionId)
        returns (ghost theirs: seq<RequestId>, ghost ours: seq<RequestId>)
      requires Known(Model(), peer, connection)
      modifies this
      ensures IsListing(theirs, old(OutIds(Model(), peer, connection)))
      ensures IsListing(ours, old(InIds(Model(), peer, connection)))
      ensures Model() == Closed(old(Model()), peer, connection, theirs, ours)
    {
      var connections := connected[peer];
      var i := Find(connections, connection);
      var conn := connections[i];
      connections := connections[..i] + connections[i + 1..];
      if connections == [] {
        connected := connected - {peer};
      } else {
        connected := connected[peer := connections];
      }
      theirs := PushClosedTheirs(peer, conn.pendingOutbound);
      ours := PushClosedOurs(peer, conn.pendingInbound);
    }

    method PushClosedTheirs(peer: PeerId, ids: set<RequestId>) returns (ghost order: seq<RequestId>)
      modifies this`pendingEvents
      ensures IsListing(order, ids)
      ensures pendingEvents == old(pendingEvents) + ClosedTheirs(peer, order)
    {
      var rest := ids;
      order := [];
      while rest != {}
        invariant rest <= ids && IsListing(order, ids - rest)
        invariant pendingEvents == old(pendingEvents) + ClosedTheirs(peer, order)
        decreases rest
      {
        var id :| id in rest;
        pendingEvents := pendingEvents + [GenerateEvent(OutboundFailure(peer, id, OutClosed), Theirs)];
        assert ClosedTheirs(peer, order + [id]) ==
               ClosedTheirs(peer, order) + [GenerateEvent(OutboundFailure(peer, id, OutClosed), Theirs)];
        assert ids - (rest - {id}) == (ids - rest) + {id};
        rest := rest - {id};
        order := order + [id];
      }
      assert ids - rest == ids;
    }

    method PushClosedOurs(peer: PeerId, ids: set<RequestId>) returns (ghost order: seq<RequestId>)
      modifies this`pendingEvents
      ensures IsListing(order, ids)
      ensures pendingEvents == old(pendingEvents) + ClosedOurs(peer, order)
    {
      var rest := ids;
      order := [];
      while rest != {}
        invariant rest <= ids && IsListing(order, ids - rest)
        invariant pendingEvents == old(pendingEvents) + ClosedOurs(peer, order)
        decreases rest
      {
        var id :| id in rest;
        pendingEvents := pendingEvents + [GenerateEvent(InboundFailure(peer, id, InClosed), Ours)];
        assert ClosedOurs(peer, order + [id]) ==
               ClosedOurs(peer, order) + [GenerateEvent(InboundFailure(peer, id, InClosed), Ours)];
        assert ids - (rest - {id}) == (ids - rest) + {id};
        rest := rest - {id};
        order := order + [id];
      }
      assert ids - rest == ids;
    }

    method OnDialFailure(peer: Option<PeerId>)
      modifies this
      ensures Model() == DialFailure(old(Model()), peer)
    {
      if peer.Some? {
        if peer.value in pendingOutboundRequests {
          var pending := pendingOutboundRequests[peer.value];
          pendingOutboundRequests := pendingOutboundRequests - {peer.value};
          for i := 0 to |pending|
            invariant connected == old(connected) && pendingOutboundRequests == old(pendingOutboundRequests) - {peer.value}
            invariant pendingEvents == old(pendingEvents) + DialFailures(peer.value, pending[..i])
          {
            pendingEvents := pendingEvents + [GenerateEvent(OutboundFailure(peer.value, pending[i].id, DialFailed), Ours)];
            assert pending[..i + 1] == pending[..i] + [pending[i]];
          }
          assert pending[..|pending|] == pending;
        }
      }
    }

    method RemovePendingInboundResponse(peer: PeerId, connection: ConnectionId, id: RequestId) returns (removed: bool)
      modifies this`connected
      ensures (Model(), removed) == RemoveInbound(old(Model()), peer, connection, id)
    {
      removed := false;
      if peer in connected {
        var i := Find(connected[peer], connection);
        if i < |connected[peer]| {
          var conn := connected[peer][i];
          removed := id in conn.pendingInbound;
          connected := connected[peer := connected[peer][i := conn.(pendingInbound := conn.pendingInbound - {id})]];
        }
      }
    }

    method RemovePendingOutboundResponse(peer: PeerId, connection: ConnectionId, id: RequestId) returns (removed: bool)
      modifies this`connected
      ensures (Model(), removed) == RemoveOutbound(old(Model()), peer, connection, id)
    {
      removed := false;
      if peer in connected {
        var i := Find(connected[peer], connection);
        if i < |connected[peer]| {
          var conn := connected[peer][i];
          removed := id in conn.pendingOutbound;
          connected := connected[peer := connected[peer][i := conn.(pendingOutbound := conn.pendingOutbound - {id})]];
        }
      }
    }

    /** `assertion` is the value of the debug assertion, true when the event has none. */
    method OnConnectionHandlerEvent(peer: PeerId, connection: ConnectionId, event: HandlerEvent)
        returns (assertion: bool)
      modifies this
      ensures Model() == OnHandlerEvent(old(Model()), peer, connection, event)
      ensures assertion == old(AssertionHolds(Model(), peer, connection, event))
    {
      assertion := true;
      match event {
        case Request(id, fileName) =>
          pendingEvents := pendingEvents + [GenerateEvent(RequestReceived(peer, id, fileName), Theirs)];
          var conns := if peer in connected then connected[peer] else [];
          var i := Find(conns, connection);
          if i < |conns| {
            var conn := conns[i];
            connected := connected[peer := conns[i := conn.(pendingOutbound := conn.pendingOutbound + {id})]];
          } else {
            pendingEvents := pendingEvents + [GenerateEvent(InboundFailure(peer, id, InClosed), Theirs)];
          }
        case Response(id) =>
          assertion := RemovePendingInboundResponse(peer, connection, id);
          pendingEvents := pendingEvents + [GenerateEvent(ResponseReceived(peer, id), Ours)];
        case ResponseSent(id) =>
          assertion := RemovePendingOutboundResponse(peer, connection, id);
          pendingEvents := pendingEvents + [GenerateEvent(SentResponse(peer, id), Theirs)];
        case ResponseOmission(id) =>
          assertion := RemovePendingOutboundResponse(peer, connection, id);
          pendingEvents := pendingEvents + [GenerateEvent(InboundFailure(peer, id, Omitted), Theirs)];
        case OutboundTimeout(id) =>
          var _ := RemovePendingInboundResponse(peer, connection, id);
          pendingEvents := pendingEvents + [GenerateEvent(OutboundFailure(peer, id, OutTimedOut), Ours)];
        case OutboundUnsupportedProtocols(id) =>
          var _ := RemovePendingInboundResponse(peer, connection, id);
          pendingEvents := pendingEvents + [GenerateEvent(OutboundFailure(peer, id, OutUnsupported), Ours)];
        case InboundTimeout(id) =>
          var _ := RemovePendingOutboundResponse(peer, connection, id);
          pendingEvents := pendingEvents + [GenerateEvent(InboundFailure(peer, id, InTimedOut), Theirs)];
        case InboundUnsupportedProtocols(id) =>
          var _ := RemovePendingOutboundResponse(peer, connection, id);
          pendingEvents := pendingEvents + [GenerateEvent(InboundFailure(peer, id, InUnsupported), Theirs)];
      }
    }

    method Poll() returns (action: Option<Action>)
      modifies this`pendingEvents
      ensures (Model(), action) == PollAction(old(Model()))
    {
      if pendingEvents != [] {
        action := Some(pendingEvents[0]);
        pendingEvents := pendingEvents[1..];
      } else {
        action := None;
      }
    }
  }
}
