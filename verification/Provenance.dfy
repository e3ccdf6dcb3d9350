/** Every copy of one of our own requests, wherever it is, asks the peer and names the file it was
    issued for, and every event about it names that peer. */
module Provenance {
  import opened Basics
  import opened Messages
  import opened FileGetModel
  import opened Link
  import opened Swarm
  import opened OwnRequests

  /** The request is the one issued under its id, for this peer. */
  predicate Bears(issued: map<RequestId, Purpose>, p: PeerId, r: OutboundRequest) {
    r.id in issued && issued[r.id] == Purpose(p, r.fileName)
  }

  predicate IssuedTo(issued: map<RequestId, Purpose>, p: PeerId, id: RequestId) {
    id in issued && issued[id].peer == p
  }

  predicate ActionBears(issued: map<RequestId, Purpose>, a: Action) {
    match a
    case Dial(_) => true
    case NotifyHandler(p, _, r) => Bears(issued, p, r)
    case GenerateEvent(e, origin) => origin.Ours? ==> IssuedTo(issued, e.peer, e.id)
  }

  ghost predicate IssuedIds(s: System) {
    forall id :: id in s.issued <==> 1 <= id < s.fg.nextId
  }

  ghost predicate QueuesBear(s: System) {
    forall p, r :: r in Queue(s.fg, p) ==> Bears(s.issued, p, r)
  }

  ghost predicate LogBears(s: System) {
    forall a :: a in Log(s) ==> ActionBears(s.issued, a)
  }

  ghost predicate LinksBear(s: System) {
    forall c, r :: c in s.links && r in Flow(s.links[c]) ==> Bears(s.issued, s.links[c].peer, r)
  }

  ghost predicate TrackedBear(s: System) {
    forall p, c, id :: id in InIds(s.fg, p, c) ==> IssuedTo(s.issued, p, id)
  }

  ghost predicate InProgress(l: Link) {
    forall id :: id in l.outUpgrades ==> id in Ids(l.substreams)
  }

  /** A substream in progress is one that was asked for. */
  ghost predicate UpgradesAsked(s: System) {
    forall c :: c in s.links ==> InProgress(s.links[c])
  }

  ghost predicate Faithful(s: System) {
    IssuedIds(s) && QueuesBear(s) && LogBears(s) && LinksBear(s) && TrackedBear(s) && UpgradesAsked(s)
  }

  // ------------------------------------------------------------------------------ what is issued

  ghost predicate Extends(s: System, t: System) {
    forall id :: id in s.issued ==> id in t.issued && t.issued[id] == s.issued[id]
  }

  lemma IssuedAfter(s: System, st: Step)
    requires Structure(s) && IssuedIds(s) && Enabled(s, st)
    ensures var t := Apply(s, st);
            && t.issued == (if st.Send? then s.issued[s.fg.nextId := Purpose(st.peer, st.fileName)] else s.issued)
            && IssuedIds(t) && Extends(s, t)
  {
    hide Structure, Apply, Enabled, Log, Emitted;
    RecordAfter(s, st);
    NextAfter(s, st);
  }

  lemma RecordAfter(s: System, st: Step)
    requires Enabled(s, st)
    ensures Apply(s, st).issued ==
            if st.Send? then s.issued[s.fg.nextId := Purpose(st.peer, st.fileName)] else s.issued
  {
    hide LinkNext, Established, SendRequest, DialFailure, OnHandlerEvent, Closed, LinkEnabled, InIds, OutIds, Known, Act;
    if st.PollBehaviour? {
      PollEffect(s);
    }
  }

  lemma NextAfter(s: System, st: Step)
    requires Structure(s) && Enabled(s, st)
    ensures 1 <= s.fg.nextId && Apply(s, st).fg.nextId == s.fg.nextId + (if st.Send? then 1 else 0)
  {
    hide Apply, Log, Emitted;
    if st.PollBehaviour? {
      PollEffect(s);
    } else {
      StepEffect(s, st);
    }
  }

  // -------------------------------------------------------------------------------------- queues

  lemma QueuesBearKept(s: System, st: Step)
    requires Structure(s) && IssuedIds(s) && QueuesBear(s) && Enabled(s, st)
    ensures QueuesBear(Apply(s, st))
  {
    hide Structure, Apply, Enabled, Queue;
    IssuedAfter(s, st);
    forall p, r | r in Queue(Apply(s, st).fg, p) ensures Bears(Apply(s, st).issued, p, r) {
      QueuedWas(s, st, p, r);
    }
  }

  /** A queued request was queued before, or was issued just now. */
  lemma QueuedWas(s: System, st: Step, p: PeerId, r: OutboundRequest)
    requires Structure(s) && Enabled(s, st) && r in Queue(Apply(s, st).fg, p)
    ensures r in Queue(s.fg, p) || (st.Send? && st.peer == p && r == OutboundRequest(s.fg.nextId, st.fileName))
  {
    hide Structure, Apply, Queue, LinkNext;
    if st.Send? {
      if Conns(s.fg, st.peer) == [] {
        QueueGrows(s, st.peer, st.fileName, p);
      } else {
        SendingKeepsQueues(s, st.peer, st.fileName, p);
      }
    } else if st.PollBehaviour? {
      PollKeepsQueues(s, p);
    } else {
      QueueEffect(s, st, p);
    }
  }

  lemma SendingKeepsQueues(s: System, p: PeerId, fileName: string, q: PeerId)
    requires Structure(s) && Enabled(s, Send(p, fileName)) && Conns(s.fg, p) != []
    ensures Queue(Apply(s, Send(p, fileName)).fg, q) == Queue(s.fg, q)
  {
    hide Known, InIds, OutIds, Find, SendRequest;
    SendRequestEffect(s.fg, p, fileName);
  }

  lemma PollKeepsQueues(s: System, q: PeerId)
    requires Enabled(s, PollBehaviour)
    ensures Queue(Apply(s, PollBehaviour).fg, q) == Queue(s.fg, q)
  {
    PollEffect(s);
  }

  // ------------------------------------------------------------------------------------- tracked

  lemma TrackedBearKept(s: System, st: Step)
    requires Structure(s) && IssuedIds(s) && QueuesBear(s) && TrackedBear(s) && Enabled(s, st)
    ensures TrackedBear(Apply(s, st))
  {
    hide Structure, Apply, Enabled, InIds, Queue;
    IssuedAfter(s, st);
    forall p, c, id | id in InIds(Apply(s, st).fg, p, c) ensures IssuedTo(Apply(s, st).issued, p, id) {
      TrackedWas(s, st, p, c, id);
      if id in Ids(Queue(s.fg, p)) {
        IdSource(Queue(s.fg, p), id);
      }
    }
  }

  lemma {:induction false} IdSource(rs: seq<OutboundRequest>, id: RequestId)
    requires id in Ids(rs)
    ensures exists r :: r in rs && r.id == id
  {
    if rs[0].id == id {
      assert rs[0] in rs;
    } else {
      IdSource(rs[1..], id);
      var r :| r in rs[1..] && r.id == id;
      assert r in rs;
    }
  }

  /** A tracked request was tracked before, was queued for its peer, or was issued just now. */
  lemma TrackedWas(s: System, st: Step, p: PeerId, c: ConnectionId, id: RequestId)
    requires Structure(s) && Enabled(s, st) && id in InIds(Apply(s, st).fg, p, c)
    ensures || id in InIds(s.fg, p, c)
            || id in Ids(Queue(s.fg, p))
            || (st.Send? && st.peer == p && id == s.fg.nextId)
  {
    hide Known, InIds, OutIds, Tidy, Find, SendRequest, Established, DialFailure, OnHandlerEvent, Closed, LinkNext;
    match st
    case Send(q, fileName) =>
      SendRequestEffect(s.fg, q, fileName);
      if Conns(s.fg, q) == [] {
        SameTracked(s, Apply(s, st));
      }
    case Connect(q, d, _) =>
      OtherEstablishedIsZeroIff(s, q);
      EstablishedEffect(s.fg, q, d, OtherEstablished(s, q)) by {
        NotKnownYet(s, q, d);
      }
    case DeliverEvent(d) => HandlerEventEffect(s.fg, s.links[d].peer, d, s.links[d].outbox[0]);
    case ReportClosed(d, theirs, ours) => ClosedEffect(s.fg, s.links[d].peer, d, theirs, ours);
    case DialFails(f) =>
      DialFailureEffect(s.fg, f);
      SameTracked(s, Apply(s, st));
    case PollBehaviour =>
      PollEffect(s);
      SameTracked(s, Apply(s, st));
    case _ => SameTracked(s, Apply(s, st));
  }

  // ---------------------------------------------------------------------------------------- log

  lemma LogBearsKept(s: System, st: Step)
    requires Structure(s) && Accounted(s) && Enabled(s, st)
    requires IssuedIds(s) && QueuesBear(s) && TrackedBear(s) && LogBears(s)
    ensures LogBears(Apply(s, st))
  {
    hide Structure, Accounted, Apply, Enabled, QueuesBear, TrackedBear, Log;
    IssuedAfter(s, st);
    if st.PollBehaviour? {
      PollEffect(s);
    } else {
      StepEffect(s, st);
      forall a | a in Emitted(s, st) ensures ActionBears(Apply(s, st).issued, a) {
        EmittedBears(s, st, a);
      }
    }
  }

  lemma EmittedBears(s: System, st: Step, a: Action)
    requires Structure(s) && Accounted(s) && Enabled(s, st) && !st.PollBehaviour? && a in Emitted(s, st)
    requires IssuedIds(s) && QueuesBear(s) && TrackedBear(s)
    ensures ActionBears(Apply(s, st).issued, a)
  {
    hide Structure, Accounted, Apply, InIds, OutIds, Queue, IssuedIds;
    IssuedAfter(s, st);
    match st
    case DeliverEvent(c) => ReportBears(s, c);
    case ReportClosed(c, theirs, ours) => ClosuresBear(s, c, theirs, ours, a);
    case Connect(p, c, _) => QueuedBears(s, p, a.request);
    case DialFails(f) =>
      var i :| 0 <= i < |Queue(s.fg, f.value)| && a == DialFailures(f.value, Queue(s.fg, f.value))[i];
      QueuedBears(s, f.value, Queue(s.fg, f.value)[i]);
    case _ =>
  }

  lemma QueuedBears(s: System, p: PeerId, r: OutboundRequest)
    requires QueuesBear(s) && r in Queue(s.fg, p)
    ensures Bears(s.issued, p, r)
  {
  }

  lemma ReportBears(s: System, c: ConnectionId)
    requires Accounted(s) && TrackedBear(s) && Enabled(s, DeliverEvent(c))
    ensures ActionBears(s.issued, Report(s.links[c].peer, s.links[c].outbox[0]))
  {
    hide Accounted, InIds;
    if IsKind(OutEnd, s.links[c].outbox[0]) {
      OutcomeIsTracked(s, c);
    }
  }

  lemma ClosuresBear(s: System, c: ConnectionId, theirs: seq<RequestId>, ours: seq<RequestId>, a: Action)
    requires TrackedBear(s) && Enabled(s, ReportClosed(c, theirs, ours)) && a in Emitted(s, ReportClosed(c, theirs, ours))
    ensures ActionBears(s.issued, a)
  {
    hide InIds, OutIds;
    forall id | id in ours ensures IssuedTo(s.issued, s.links[c].peer, id) {
      assert id in multiset(ours);
    }
  }

  // --------------------------------------------------------------------------------------- links

  lemma LinksBearKept(s: System, st: Step)
    requires Structure(s) && HandedOver(s) && Enabled(s, st) && IssuedIds(s) && LogBears(s) && LinksBear(s)
    ensures LinksBear(Apply(s, st))
  {
    hide Structure, HandedOver, Apply, Enabled, LogBears, Flow;
    IssuedAfter(s, st);
    forall c, r | c in Apply(s, st).links && r in Flow(Apply(s, st).links[c])
      ensures Bears(Apply(s, st).issued, Apply(s, st).links[c].peer, r)
    {
      OnLinkWas(s, st, c, r);
      if HandedTo(s, st, c, r) {
        HandedBears(s, c, r);
      }
    }
  }

  /** A request on a link was there before, or is handed over to it just now. */
  predicate HandedTo(s: System, st: Step, c: ConnectionId, r: OutboundRequest) {
    st.PollBehaviour? && s.fg.events != [] && s.fg.events[0].NotifyHandler?
    && s.fg.events[0].connection == c && s.fg.events[0].request == r
  }

  lemma OnLinkWas(s: System, st: Step, c: ConnectionId, r: OutboundRequest)
    requires Enabled(s, st) && c in Apply(s, st).links && r in Flow(Apply(s, st).links[c])
    ensures c in s.links && Apply(s, st).links[c].peer == s.links[c].peer
    ensures r in Flow(s.links[c]) || HandedTo(s, st, c, r)
  {
    hide Apply, LinkNext;
    LinkAfter(s, st, c);
    if st.LinkMoves? && st.connection == c {
      LinkStepKeepsRequests(s.links[c], st.move);
    }
  }

  lemma HandedBears(s: System, c: ConnectionId, r: OutboundRequest)
    requires Structure(s) && HandedOver(s) && LogBears(s) && HandedTo(s, PollBehaviour, c, r) && c in s.links
    ensures Bears(s.issued, s.links[c].peer, r)
  {
    assert s.fg.events[0] in Log(s);
  }

  lemma UpgradesAskedKept(s: System, st: Step)
    requires UpgradesAsked(s) && Enabled(s, st)
    ensures UpgradesAsked(Apply(s, st))
  {
    hide Apply, LinkNext;
    forall c | c in Apply(s, st).links ensures InProgress(Apply(s, st).links[c]) {
      LinkAfter(s, st, c);
      assert c in s.links ==> InProgress(s.links[c]);
      if st.LinkMoves? && st.connection == c {
        MoveKeepsProgress(s.links[c], st.move);
      }
    }
  }

  lemma MoveKeepsProgress(l: Link, move: LinkStep)
    requires InProgress(l) && LinkReady(l, move)
    ensures InProgress(LinkNext(l, move))
  {
    var m := LinkNext(l, move);
    if m.substreams != l.substreams {
      IdsPush(l.substreams, l.handler.outbound[0]);
    }
  }

  // ---------------------------------------------------------------------------------------- runs

  lemma FaithfulAtStart()
    ensures Faithful(START)
  {
    assert Log(START) == [];
  }

  /** No step changes the peer or the file of a request. */
  lemma FaithfulKept(s: System, st: Step)
    requires OwnInv(s) && Faithful(s) && Enabled(s, st)
    ensures Faithful(Apply(s, st))
  {
    hide Structure, HandedOver, Ordered, Bounded, Accounted, InFlow, Dialing, Apply, Enabled;
    hide IssuedIds, QueuesBear, LogBears, LinksBear, TrackedBear, UpgradesAsked;
    IssuedAfter(s, st);
    QueuesBearKept(s, st);
    TrackedBearKept(s, st);
    LogBearsKept(s, st);
    LinksBearKept(s, st);
    UpgradesAskedKept(s, st);
  }
}
