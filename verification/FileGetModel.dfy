/** The FileGet behaviour on values: what each of its operations does to its state, and how
    that looks through four views of the state (Known, InIds, OutIds, Queue). */
module FileGetModel {
  import opened Basics
  import opened Messages

  /** `pendingInbound` holds our own requests awaiting a response on this connection,
      `pendingOutbound` the received requests awaiting our response. */
  datatype Connection = Connection(
    id: ConnectionId, pendingOutbound: set<RequestId>, pendingInbound: set<RequestId>)

  datatype FileGetState = FileGetState(
    nextId: RequestId,
    connected: map<PeerId, seq<Connection>>,
    queued: map<PeerId, seq<OutboundRequest>>,
    events: seq<Action>)

  const INITIAL := FileGetState(1, map[], map[], [])

  // ------------------------------------------------------------------------------- operations

  /** Position of the first connection with the given id, or the length when there is none. */
  function Find(conns: seq<Connection>, c: ConnectionId): (i: nat)
    ensures i <= |conns|
    ensures i < |conns| ==> conns[i].id == c
    ensures forall j :: 0 <= j < i ==> conns[j].id != c
  {
    if conns == [] || conns[0].id == c then 0 else 1 + Find(conns[1..], c)
  }

  function Conns(s: FileGetState, p: PeerId): seq<Connection> {
    if p in s.connected then s.connected[p] else []
  }

  function Queue(s: FileGetState, p: PeerId): seq<OutboundRequest> {
    if p in s.queued then s.queued[p] else []
  }

  function Emit(s: FileGetState, actions: seq<Action>): FileGetState {
    s.(events := s.events + actions)
  }

  function WithConn(s: FileGetState, p: PeerId, i: nat, conn: Connection): FileGetState
    requires i < |Conns(s, p)|
  {
    s.(connected := s.connected[p := s.connected[p][i := conn]])
  }

  /** Hands a request to a connection of the peer, or gives it back when there is none. */
  function TrySend(s: FileGetState, p: PeerId, request: OutboundRequest): (FileGetState, Option<OutboundRequest>)
  {
    if Conns(s, p) == [] then
      (s, Some(request))
    else
      var i := request.id % |Conns(s, p)|;
      var conn := Conns(s, p)[i];
      var tracked := WithConn(s, p, i, conn.(pendingInbound := conn.pendingInbound + {request.id}));
      (Emit(tracked, [NotifyHandler(p, conn.id, request)]), None)
  }

  function SendRequest(s: FileGetState, p: PeerId, fileName: string): (FileGetState, RequestId)
  {
    var request := OutboundRequest(s.nextId, fileName);
    var (sent, unsent) := TrySend(s.(nextId := NextCounter(s.nextId)), p, request);
    match unsent
    case None => (sent, s.nextId)
    case Some(rest) =>
      (Emit(sent, [Dial(p)]).(queued := sent.queued[p := Queue(sent, p) + [rest]]), s.nextId)
  }

  /** Sends a drained queue; a request that cannot be sent is dropped. */
  function Drain(s: FileGetState, p: PeerId, requests: seq<OutboundRequest>): FileGetState
    decreases |requests|
  {
    if requests == [] then s else Drain(TrySend(s, p, requests[0]).0, p, requests[1..])
  }

  function Established(s: FileGetState, p: PeerId, c: ConnectionId, otherEstablished: nat): FileGetState
  {
    var added := s.(connected := s.connected[p := Conns(s, p) + [Connection(c, {}, {})]]);
    if otherEstablished == 0 && p in s.queued then
      Drain(added.(queued := s.queued - {p}), p, s.queued[p])
    else
      added
  }

  /** Takes a connection out of the vector of its peer, and out with the vector when it was the last. */
  function RemoveConnection(s: FileGetState, p: PeerId, c: ConnectionId): FileGetState
    requires Known(s, p, c)
  {
    var rest := Without(Conns(s, p), Find(Conns(s, p), c));
    s.(connected := if rest == [] then s.connected - {p} else s.connected[p := rest])
  }

  /** `theirs` and `ours` are the orders in which the two hash sets are iterated. */
  function Closed(s: FileGetState, p: PeerId, c: ConnectionId,
                  theirs: seq<RequestId>, ours: seq<RequestId>): FileGetState
    requires Known(s, p, c)
  {
    Emit(RemoveConnection(s, p, c), ClosedTheirs(p, theirs) + ClosedOurs(p, ours))
  }

  function DialFailure(s: FileGetState, peer: Option<PeerId>): FileGetState
  {
    if peer.Some? && peer.value in s.queued then
      Emit(s.(queued := s.queued - {peer.value}), DialFailures(peer.value, s.queued[peer.value]))
    else
      s
  }

  /** Removes one of our requests from a connection; the second result says whether it was there. */
  function RemoveInbound(s: FileGetState, p: PeerId, c: ConnectionId, id: RequestId): (FileGetState, bool)
  {
    if Known(s, p, c) then
      var i := Find(Conns(s, p), c);
      var conn := Conns(s, p)[i];
      (WithConn(s, p, i, conn.(pendingInbound := conn.pendingInbound - {id})), id in conn.pendingInbound)
    else
      (s, false)
  }

  /** Removes a received request from a connection; the second result says whether it was there. */
  function RemoveOutbound(s: FileGetState, p: PeerId, c: ConnectionId, id: RequestId): (FileGetState, bool)
  {
    if Known(s, p, c) then
      var i := Find(Conns(s, p), c);
      var conn := Conns(s, p)[i];
      (WithConn(s, p, i, conn.(pendingOutbound := conn.pendingOutbound - {id})), id in conn.pendingOutbound)
    else
      (s, false)
  }

  function ReceiveRequest(s: FileGetState, p: PeerId, c: ConnectionId, id: RequestId, fileName: string): FileGetState
  {
    var announced := Emit(s, [GenerateEvent(RequestReceived(p, id, fileName), Theirs)]);
    if Known(s, p, c) then
      var i := Find(Conns(s, p), c);
      var conn := Conns(s, p)[i];
      WithConn(announced, p, i, conn.(pendingOutbound := conn.pendingOutbound + {id}))
    else
      Emit(announced, [GenerateEvent(InboundFailure(p, id, InClosed), Theirs)])
  }

  function OnHandlerEvent(s: FileGetState, p: PeerId, c: ConnectionId, e: HandlerEvent): FileGetState
  {
    match e
    case Request(id, fileName) => ReceiveRequest(s, p, c, id, fileName)
    case Response(id) =>
      Emit(RemoveInbound(s, p, c, id).0, [GenerateEvent(ResponseReceived(p, id), Ours)])
    case ResponseSent(id) =>
      Emit(RemoveOutbound(s, p, c, id).0, [GenerateEvent(SentResponse(p, id), Theirs)])
    case ResponseOmission(id) =>
      Emit(RemoveOutbound(s, p, c, id).0, [GenerateEvent(InboundFailure(p, id, Omitted), Theirs)])
    case OutboundTimeout(id) =>
      Emit(RemoveInbound(s, p, c, id).0, [GenerateEvent(OutboundFailure(p, id, OutTimedOut), Ours)])
    case OutboundUnsupportedProtocols(id) =>
      Emit(RemoveInbound(s, p, c, id).0, [GenerateEvent(OutboundFailure(p, id, OutUnsupported), Ours)])
    case InboundTimeout(id) =>
      Emit(RemoveOutbound(s, p, c, id).0, [GenerateEvent(InboundFailure(p, id, InTimedOut), Theirs)])
    case InboundUnsupportedProtocols(id) =>
      Emit(RemoveOutbound(s, p, c, id).0, [GenerateEvent(InboundFailure(p, id, InUnsupported), Theirs)])
  }

  /** The condition of the debug assertion met while the event is processed. */
  predicate AssertionHolds(s: FileGetState, p: PeerId, c: ConnectionId, e: HandlerEvent) {
    match e
    case Response(id) => RemoveInbound(s, p, c, id).1
    case ResponseSent(id) => RemoveOutbound(s, p, c, id).1
    case ResponseOmission(id) => RemoveOutbound(s, p, c, id).1
    case _ => true
  }

  function PollAction(s: FileGetState): (FileGetState, Option<Action>)
  {
    if s.events == [] then (s, None) else (s.(events := s.events[1..]), Some(s.events[0]))
  }

  // ------------------------------------------------------------------------------------ views

  predicate Known(s: FileGetState, p: PeerId, c: ConnectionId) {
    Find(Conns(s, p), c) < |Conns(s, p)|
  }

  /** Our own requests tracked by a connection. */
  function InIds(s: FileGetState, p: PeerId, c: ConnectionId): set<RequestId> {
    if Known(s, p, c) then Conns(s, p)[Find(Conns(s, p), c)].pendingInbound else {}
  }

  /** The received requests tracked by a connection. */
  function OutIds(s: FileGetState, p: PeerId, c: ConnectionId): set<RequestId> {
    if Known(s, p, c) then Conns(s, p)[Find(Conns(s, p), c)].pendingOutbound else {}
  }

  ghost predicate UniqueIds(conns: seq<Connection>) {
    forall i, j :: 0 <= i < j < |conns| ==> conns[i].id != conns[j].id
  }

  /** No connection vector is empty, connection ids are unique per peer, and a peer with queued
      requests has no connection. */
  ghost predicate Tidy(s: FileGetState) {
    && (forall p :: p in s.connected ==> s.connected[p] != [] && UniqueIds(s.connected[p]))
    && (forall p :: p in s.queued ==> s.queued[p] != [] && p !in s.connected)
  }

  /** The views of every connection but one, and of every queue but one, agree. */
  ghost predicate AgreeElsewhere(s: FileGetState, t: FileGetState, p: PeerId, c: ConnectionId) {
    && (forall q, d :: q != p || d != c ==>
          && Known(t, q, d) == Known(s, q, d)
          && InIds(t, q, d) == InIds(s, q, d)
          && OutIds(t, q, d) == OutIds(s, q, d))
    && (forall q :: q != p ==> Queue(t, q) == Queue(s, q))
  }

  // ------------------------------------------------------------ effects of the operations

  lemma FindAt(conns: seq<Connection>, i: nat)
    requires UniqueIds(conns) && i < |conns|
    ensures Find(conns, conns[i].id) == i
  {
    var j := Find(conns, conns[i].id);
    assert j <= i;
  }

  lemma FindUpdated(conns: seq<Connection>, i: nat, conn: Connection, d: ConnectionId)
    requires i < |conns| && conn.id == conns[i].id && UniqueIds(conns)
    ensures Find(conns[i := conn], d) == Find(conns, d)
    ensures UniqueIds(conns[i := conn])
  {
    var a, b := Find(conns[i := conn], d), Find(conns, d);
    assert a < |conns| ==> conns[a].id == d;
    assert b < |conns| ==> conns[i := conn][b].id == d;
  }

  /** Replacing one connection record by one with the same id changes the views of it alone. */
  lemma WithConnEffect(s: FileGetState, p: PeerId, i: nat, conn: Connection)
    requires Tidy(s) && i < |Conns(s, p)| && Conns(s, p)[i].id == conn.id
    ensures var t := WithConn(s, p, i, conn);
            && Tidy(t)
            && AgreeElsewhere(s, t, p, conn.id)
            && Known(s, p, conn.id) && Known(t, p, conn.id)
            && InIds(t, p, conn.id) == conn.pendingInbound
            && OutIds(t, p, conn.id) == conn.pendingOutbound
            && InIds(s, p, conn.id) == Conns(s, p)[i].pendingInbound
            && OutIds(s, p, conn.id) == Conns(s, p)[i].pendingOutbound
            && Queue(t, p) == Queue(s, p)
            && t.queued == s.queued
  {
    var t := WithConn(s, p, i, conn);
    FindAt(Conns(s, p), i);
    forall d ensures Find(Conns(t, p), d) == Find(Conns(s, p), d) && UniqueIds(Conns(t, p)) {
      FindUpdated(Conns(s, p), i, conn, d);
    }
    forall q | q != p ensures Conns(t, q) == Conns(s, q) {}
  }

  /** The connection that gets a request with the given id. */
  function Target(s: FileGetState, p: PeerId, id: RequestId): ConnectionId
    requires Conns(s, p) != []
  {
    Conns(s, p)[id % |Conns(s, p)|].id
  }

  /** A request for a connected peer goes to the target connection and nowhere else. */
  lemma TrySendEffect(s: FileGetState, p: PeerId, r: OutboundRequest)
    requires Tidy(s) && Conns(s, p) != []
    ensures var (t, rest) := TrySend(s, p, r);
            var c := Target(s, p, r.id);
            && rest.None?
            && Tidy(t)
            && AgreeElsewhere(s, t, p, c)
            && Known(s, p, c) && Known(t, p, c)
            && InIds(t, p, c) == InIds(s, p, c) + {r.id}
            && OutIds(t, p, c) == OutIds(s, p, c)
            && t.queued == s.queued
            && t.events == s.events + [NotifyHandler(p, c, r)]
            && t.nextId == s.nextId
            && |Conns(t, p)| == |Conns(s, p)|
            && (forall id :: Target(t, p, id) == Target(s, p, id))
  {
    var i := r.id % |Conns(s, p)|;
    var conn := Conns(s, p)[i];
    WithConnEffect(s, p, i, conn.(pendingInbound := conn.pendingInbound + {r.id}));
    EmitEffect(WithConn(s, p, i, conn.(pendingInbound := conn.pendingInbound + {r.id})), [NotifyHandler(p, conn.id, r)]);
  }

  /** Enqueueing actions changes no view. */
  lemma EmitEffect(s: FileGetState, actions: seq<Action>)
    ensures var t := Emit(s, actions);
            && (Tidy(s) ==> Tidy(t))
            && (forall q, d :: Known(t, q, d) == Known(s, q, d))
            && (forall q, d :: InIds(t, q, d) == InIds(s, q, d))
            && (forall q, d :: OutIds(t, q, d) == OutIds(s, q, d))
            && (forall q :: Queue(t, q) == Queue(s, q) && Conns(t, q) == Conns(s, q))
  {
  }

  /** send_request tracks the new id on the target connection and hands the request over, or,
      without a connection, queues it behind a dial. */
  lemma SendRequestEffect(s: FileGetState, p: PeerId, fileName: string)
    requires Tidy(s)
    ensures var (t, id) := SendRequest(s, p, fileName);
            var r := OutboundRequest(s.nextId, fileName);
            && id == s.nextId && t.nextId == NextCounter(s.nextId)
            && Tidy(t)
            && (Conns(s, p) != [] ==>
                  var c := Target(s, p, id);
                  && AgreeElsewhere(s, t, p, c)
                  && Known(s, p, c) && Known(t, p, c)
                  && InIds(t, p, c) == InIds(s, p, c) + {id}
                  && OutIds(t, p, c) == OutIds(s, p, c)
                  && t.queued == s.queued
                  && t.events == s.events + [NotifyHandler(p, c, r)])
            && (Conns(s, p) == [] ==>
                  && t.connected == s.connected
                  && t.queued == s.queued[p := Queue(s, p) + [r]]
                  && t.events == s.events + [Dial(p)])
  {
    var r := OutboundRequest(s.nextId, fileName);
    var numbered := s.(nextId := NextCounter(s.nextId));
    if Conns(s, p) != [] {
      assert Conns(numbered, p) == Conns(s, p);
      TrySendEffect(numbered, p, r);
      RenumberingKeepsViews(s, numbered.nextId);
    }
  }

  lemma RenumberingKeepsViews(s: FileGetState, n: RequestId)
    ensures forall q, d {:trigger Known(s, q, d)} {:trigger InIds(s, q, d)} {:trigger OutIds(s, q, d)} ::
              var t := s.(nextId := n);
              Known(t, q, d) == Known(s, q, d) && InIds(t, q, d) == InIds(s, q, d) && OutIds(t, q, d) == OutIds(s, q, d)
  {
    forall q ensures Conns(s.(nextId := n), q) == Conns(s, q) {}
  }

  /** Draining onto the only connection of a peer hands every request over, in order: none of
      the ignored results of try_send_request is a request. */
  lemma {:induction false} DrainEffect(s: FileGetState, p: PeerId, c: ConnectionId, rs: seq<OutboundRequest>)
    requires Tidy(s) && |Conns(s, p)| == 1 && Conns(s, p)[0].id == c
    ensures var t := Drain(s, p, rs);
            && Tidy(t)
            && AgreeElsewhere(s, t, p, c)
            && Known(s, p, c) && Known(t, p, c)
            && InIds(t, p, c) == InIds(s, p, c) + Elements(Ids(rs))
            && OutIds(t, p, c) == OutIds(s, p, c)
            && t.queued == s.queued
            && t.events == s.events + Handovers(p, c, rs)
            && t.nextId == s.nextId
    decreases |rs|
  {
    if rs == [] {
      assert Known(s, p, c);
    } else {
      TrySendEffect(s, p, rs[0]);
      var u := TrySend(s, p, rs[0]).0;
      assert Target(s, p, rs[0].id) == c && Conns(u, p)[0].id == Target(u, p, 0) == Target(s, p, 0) == c;
      DrainEffect(u, p, c, rs[1..]);
      assert Ids(rs) == [rs[0].id] + Ids(rs[1..]);
      assert Elements(Ids(rs)) == {rs[0].id} + Elements(Ids(rs[1..]));
      assert Handovers(p, c, rs) == [NotifyHandler(p, c, rs[0])] + Handovers(p, c, rs[1..]);
      assert u.events + Handovers(p, c, rs[1..]) == s.events + Handovers(p, c, rs);
    }
  }

  lemma AddConnectionEffect(s: FileGetState, p: PeerId, c: ConnectionId)
    requires Tidy(s) && !Known(s, p, c)
    ensures var t := s.(connected := s.connected[p := Conns(s, p) + [Connection(c, {}, {})]], queued := s.queued - {p});
            && Tidy(t)
            && AgreeElsewhere(s, t, p, c)
            && Known(t, p, c) && InIds(t, p, c) == {} && OutIds(t, p, c) == {}
            && Queue(t, p) == []
  {
    var t := s.(connected := s.connected[p := Conns(s, p) + [Connection(c, {}, {})]], queued := s.queued - {p});
    var before, after := Conns(s, p), Conns(t, p);
    assert forall i :: 0 <= i < |before| ==> after[i] == before[i];
    assert after[|before|].id == c;
    forall d | d != c ensures Known(t, p, d) == Known(s, p, d) && (Known(s, p, d) ==> Find(after, d) == Find(before, d)) {
      var i, j := Find(before, d), Find(after, d);
      assert i < |before| ==> after[i].id == d;
    }
    forall q | q != p ensures Conns(t, q) == Conns(s, q) && Queue(t, q) == Queue(s, q) {}
  }

  /** A new connection starts with exactly the requests that were queued for the peer. */
  lemma EstablishedEffect(s: FileGetState, p: PeerId, c: ConnectionId, otherEstablished: nat)
    requires Tidy(s) && !Known(s, p, c)
    requires otherEstablished == 0 <==> Conns(s, p) == []
    ensures var t := Established(s, p, c, otherEstablished);
            && Tidy(t)
            && AgreeElsewhere(s, t, p, c)
            && Known(t, p, c)
            && InIds(t, p, c) == Elements(Ids(Queue(s, p))) && OutIds(t, p, c) == {}
            && t.queued == s.queued - {p}
            && t.events == s.events + Handovers(p, c, Queue(s, p))
            && t.nextId == s.nextId
  {
    AddConnectionEffect(s, p, c);
    var u := s.(connected := s.connected[p := Conns(s, p) + [Connection(c, {}, {})]], queued := s.queued - {p});
    if p in s.queued {
      DrainEffect(u, p, c, s.queued[p]);
    } else {
      assert s.queued - {p} == s.queued;
      assert u == Established(s, p, c, otherEstablished);
    }
  }

  /** A further connection starts with nothing and leaves what is queued alone. */
  lemma FurtherConnectionEffect(s: FileGetState, p: PeerId, c: ConnectionId, otherEstablished: nat)
    requires !Known(s, p, c) && otherEstablished > 0
    ensures var t := Established(s, p, c, otherEstablished);
            && InIds(t, p, c) == {} && OutIds(t, p, c) == {}
            && t.queued == s.queued && t.events == s.events && t.nextId == s.nextId
            && Conns(t, p) == Conns(s, p) + [Connection(c, {}, {})]
            && forall q :: q != p ==> Conns(t, q) == Conns(s, q)
  {
    var after := Conns(Established(s, p, c, otherEstablished), p);
    assert after[|Conns(s, p)|] == Connection(c, {}, {});
    assert forall i :: 0 <= i < |Conns(s, p)| ==> after[i] == Conns(s, p)[i];
    assert Find(Conns(s, p), c) == |Conns(s, p)|;
  }

  /** Closing removes one connection, with everything it tracked, and no other; the events
      report each id of its two sets once. */
  lemma ClosedEffect(s: FileGetState, p: PeerId, c: ConnectionId, theirs: seq<RequestId>, ours: seq<RequestId>)
    requires Tidy(s) && Known(s, p, c)
    requires IsListing(theirs, OutIds(s, p, c)) && IsListing(ours, InIds(s, p, c))
    ensures var t := Closed(s, p, c, theirs, ours);
            && Tidy(t)
            && AgreeElsewhere(s, t, p, c)
            && !Known(t, p, c) && InIds(t, p, c) == {} && OutIds(t, p, c) == {}
            && t.queued == s.queued
            && t.events == s.events + ClosedTheirs(p, theirs) + ClosedOurs(p, ours)
            && t.nextId == s.nextId
  {
    RemoveConnectionEffect(s, p, c);
    EmitEffect(RemoveConnection(s, p, c), ClosedTheirs(p, theirs) + ClosedOurs(p, ours));
    assert s.events + (ClosedTheirs(p, theirs) + ClosedOurs(p, ours)) ==
           s.events + ClosedTheirs(p, theirs) + ClosedOurs(p, ours);
  }

  lemma RemoveConnectionEffect(s: FileGetState, p: PeerId, c: ConnectionId)
    requires Tidy(s) && Known(s, p, c)
    ensures var t := RemoveConnection(s, p, c);
            Tidy(t) && AgreeElsewhere(s, t, p, c) && !Known(t, p, c)
  {
    var t := RemoveConnection(s, p, c);
    var k := Find(Conns(s, p), c);
    RemovedConns(Conns(s, p), k);
    assert Conns(t, p) == Without(Conns(s, p), k);
    assert forall q :: q != p ==> Conns(t, q) == Conns(s, q);
    assert Tidy(t) by {
      assert forall q :: q in t.connected ==> t.connected[q] == Conns(t, q);
      assert forall q :: q in s.connected ==> s.connected[q] == Conns(s, q);
    }
  }

  function Without(conns: seq<Connection>, k: nat): seq<Connection>
    requires k < |conns|
  {
    conns[..k] + conns[k + 1..]
  }

  lemma RemovedConns(conns: seq<Connection>, k: nat)
    requires UniqueIds(conns) && k < |conns|
    ensures var rest := Without(conns, k);
            && UniqueIds(rest)
            && Find(rest, conns[k].id) == |rest|
            && (forall d :: d != conns[k].id ==>
                  && (Find(rest, d) < |rest| <==> Find(conns, d) < |conns|)
                  && (Find(rest, d) < |rest| ==> rest[Find(rest, d)] == conns[Find(conns, d)]))
  {
    var rest := Without(conns, k);
    assert forall i :: 0 <= i < k ==> rest[i] == conns[i];
    assert forall i :: k <= i < |rest| ==> rest[i] == conns[i + 1];
    assert forall i :: 0 <= i < |rest| ==> rest[i].id != conns[k].id;
    forall d | d != conns[k].id
      ensures Find(rest, d) < |rest| <==> Find(conns, d) < |conns|
      ensures Find(rest, d) < |rest| ==> rest[Find(rest, d)] == conns[Find(conns, d)]
    {
      FindRemoved(conns, k, d);
    }
  }

  lemma FindRemoved(conns: seq<Connection>, k: nat, d: ConnectionId)
    requires UniqueIds(conns) && k < |conns| && conns[k].id != d
    ensures var rest := Without(conns, k);
            && (Find(rest, d) < |rest| <==> Find(conns, d) < |conns|)
            && (Find(rest, d) < |rest| ==> rest[Find(rest, d)] == conns[Find(conns, d)])
  {
    var rest := Without(conns, k);
    var i, j := Find(conns, d), Find(rest, d);
    if i < |conns| {
      var i' := if i < k then i else i - 1;
      assert rest[i'] == conns[i];
      assert j <= i';
    }
    if j < |rest| {
      var j' := if j < k then j else j + 1;
      assert conns[j'] == rest[j];
    }
  }

  /** A failed dial fails the queued requests of the peer and touches no connection. */
  lemma DialFailureEffect(s: FileGetState, peer: Option<PeerId>)
    requires Tidy(s)
    ensures var t := DialFailure(s, peer);
            && Tidy(t)
            && t.connected == s.connected
            && t.nextId == s.nextId
            && (peer.None? ==> t == s)
            && (peer.Some? ==>
                  && t.queued == s.queued - {peer.value}
                  && t.events == s.events + DialFailures(peer.value, Queue(s, peer.value)))
  {
    if peer.Some? && peer.value !in s.queued {
      assert s.queued - {peer.value} == s.queued;
    }
  }

  /** The views of the connection that reports an event, before and after. */
  ghost predicate EventEffect(s: FileGetState, t: FileGetState, p: PeerId, c: ConnectionId, e: HandlerEvent) {
    && InIds(t, p, c) == (if IsKind(OutEnd, e) then InIds(s, p, c) - {e.id} else InIds(s, p, c))
    && OutIds(t, p, c) ==
       (if e.Request? then OutIds(s, p, c) + {e.id}
        else if IsKind(InEnd, e) then OutIds(s, p, c) - {e.id}
        else OutIds(s, p, c))
  }

  /** The action enqueued for an event of a connection the behaviour knows. */
  function Report(p: PeerId, e: HandlerEvent): Action {
    match e
    case Request(id, fileName) => GenerateEvent(RequestReceived(p, id, fileName), Theirs)
    case Response(id) => GenerateEvent(ResponseReceived(p, id), Ours)
    case ResponseSent(id) => GenerateEvent(SentResponse(p, id), Theirs)
    case ResponseOmission(id) => GenerateEvent(InboundFailure(p, id, Omitted), Theirs)
    case OutboundTimeout(id) => GenerateEvent(OutboundFailure(p, id, OutTimedOut), Ours)
    case OutboundUnsupportedProtocols(id) => GenerateEvent(OutboundFailure(p, id, OutUnsupported), Ours)
    case InboundTimeout(id) => GenerateEvent(InboundFailure(p, id, InTimedOut), Theirs)
    case InboundUnsupportedProtocols(id) => GenerateEvent(InboundFailure(p, id, InUnsupported), Theirs)
  }

  /** An event of a known connection moves one id of that connection and is reported once. */
  lemma HandlerEventEffect(s: FileGetState, p: PeerId, c: ConnectionId, e: HandlerEvent)
    requires Tidy(s) && Known(s, p, c)
    ensures var t := OnHandlerEvent(s, p, c, e);
            && Tidy(t)
            && AgreeElsewhere(s, t, p, c)
            && Known(t, p, c)
            && EventEffect(s, t, p, c, e)
            && t.queued == s.queued
            && t.events == s.events + [Report(p, e)]
            && t.nextId == s.nextId
  {
    var i := Find(Conns(s, p), c);
    var conn := Conns(s, p)[i];
    var conn' :=
      if e.Request? then conn.(pendingOutbound := conn.pendingOutbound + {e.id})
      else if IsKind(OutEnd, e) then conn.(pendingInbound := conn.pendingInbound - {e.id})
      else conn.(pendingOutbound := conn.pendingOutbound - {e.id});
    WithConnEffect(s, p, i, conn');
    EmitEffect(WithConn(s, p, i, conn'), [Report(p, e)]);
    assert OnHandlerEvent(s, p, c, e) == Emit(WithConn(s, p, i, conn'), [Report(p, e)]) by {
      if e.Request? {
        assert Conns(Emit(s, [Report(p, e)]), p) == Conns(s, p);
      }
    }
  }

  /** Whether a removal says that the id was there, and the debug assertions that ask for it. */
  lemma RemovalTells(s: FileGetState, p: PeerId, c: ConnectionId, id: RequestId)
    ensures RemoveInbound(s, p, c, id).1 <==> id in InIds(s, p, c)
    ensures RemoveOutbound(s, p, c, id).1 <==> id in OutIds(s, p, c)
  {
  }

  /** The three debug assertions hold exactly when the id is tracked where they look for it. */
  lemma AssertionHoldsIffTracked(s: FileGetState, p: PeerId, c: ConnectionId, e: HandlerEvent)
    ensures AssertionHolds(s, p, c, e) <==>
            && (e.Response? ==> e.id in InIds(s, p, c))
            && (e.ResponseSent? || e.ResponseOmission? ==> e.id in OutIds(s, p, c))
  {
    RemovalTells(s, p, c, e.id);
  }

  /** An event of a connection that is not known is reported all the same and tracked nowhere; a request
      is reported as failed at once. */
  lemma UnknownConnectionEffect(s: FileGetState, p: PeerId, c: ConnectionId, e: HandlerEvent)
    requires !Known(s, p, c)
    ensures OnHandlerEvent(s, p, c, e) ==
            Emit(s, [Report(p, e)] + (if e.Request? then [GenerateEvent(InboundFailure(p, e.id, InClosed), Theirs)] else []))
  {
    if e.Request? {
      var failed := GenerateEvent(InboundFailure(p, e.id, InClosed), Theirs);
      assert s.events + [Report(p, e)] + [failed] == s.events + ([Report(p, e)] + [failed]);
    }
  }

  /** What n polls in a row yield. */
  function PollActions(s: FileGetState, n: nat): seq<Option<Action>>
    decreases n
  {
    if n == 0 then [] else [PollAction(s).1] + PollActions(PollAction(s).0, n - 1)
  }

  /** Polling yields every action once, in the order in which they were enqueued, and then nothing. */
  lemma {:induction false} PollsYieldActionsInOrder(s: FileGetState, n: nat)
    ensures PollActions(s, n) ==
            seq(n, i requires 0 <= i < n => if i < |s.events| then Some(s.events[i]) else None)
    decreases n
  {
    if n > 0 {
      PollsYieldActionsInOrder(PollAction(s).0, n - 1);
    }
  }
}
