/** Where things come from, on every run: each copy of one of our requests from the call that issued
    it, each announced request from what the remote peer asked for on the same connection, and each
    response sent from the announcement on the same connection. */
module Origins {
  import opened Basics
  import opened Messages
  import opened FileGetModel
  import opened Link
  import opened Swarm
  import opened OwnRequests
  import opened Provenance
  import opened ReceivedRequests
  import opened Runs
  import HM = HandlerModel

  // ------------------------------------------------------------------------------- our requests

  /** A call before step i asked the peer for the file and was given the id. */
  ghost predicate Called(run: seq<System>, steps: seq<Step>, i: nat, p: PeerId, r: OutboundRequest)
    requires i <= |steps| < |run|
  {
    exists m :: 0 <= m < i && steps[m] == Send(p, r.fileName) && run[m].fg.nextId == r.id
  }

  lemma {:induction false} IssuedByCall(run: seq<System>, steps: seq<Step>, i: nat, id: RequestId)
    requires IsRun(run, steps) && i <= |steps| && id in run[i].issued
    ensures Called(run, steps, i, run[i].issued[id].peer, OutboundRequest(id, run[i].issued[id].fileName))
    decreases i
  {
    hide Inv, OwnInv, Apply, Enabled, Structure;
    if i > 0 {
      var s, st := run[i - 1], steps[i - 1];
      InvOverRuns(run, steps, i - 1);
      IssuedIdsOf(s);
      IssuedAfter(s, st);
      if id in s.issued {
        IssuedByCall(run, steps, i - 1, id);
      } else {
        assert st == Send(run[i].issued[id].peer, run[i].issued[id].fileName) && s.fg.nextId == id;
      }
    }
  }

  lemma IssuedIdsOf(s: System)
    requires Inv(s)
    ensures Structure(s) && IssuedIds(s) && Faithful(s) && HandedOver(s) && LinksOk(s)
  {
  }

  /** Wherever a request is, it asks the peer and names the file of the one call that issued its id. */
  lemma CopiesAreFaithful(run: seq<System>, steps: seq<Step>, i: nat)
    requires IsRun(run, steps) && i <= |steps|
    ensures var s := run[i];
            && (forall p, r :: r in Queue(s.fg, p) ==> Called(run, steps, i, p, r))
            && (forall a :: a in Log(s) && a.NotifyHandler? ==> Called(run, steps, i, a.peer, a.request))
            && (forall c, r :: c in s.links && (r in s.links[c].inbox || r in s.links[c].handler.outbound
                                                || r in s.links[c].substreams)
                  ==> Called(run, steps, i, s.links[c].peer, r))
            && (forall c, id :: c in s.links && id in s.links[c].outUpgrades ==> id in Ids(s.links[c].substreams))
  {
    hide Inv, OwnInv, Apply, Enabled, Called, Structure, Log, Queue;
    var s := run[i];
    InvOverRuns(run, steps, i);
    IssuedIdsOf(s);
    forall p, r | Bears(s.issued, p, r) ensures Called(run, steps, i, p, r) {
      IssuedByCall(run, steps, i, r.id);
    }
    forall c, r | c in s.links && r in Flow(s.links[c]) ensures Called(run, steps, i, s.links[c].peer, r) {
      assert Bears(s.issued, s.links[c].peer, r);
    }
    assert forall c, r :: c in s.links && r in s.links[c].inbox ==> r in Flow(s.links[c]);
    assert forall c, r :: c in s.links && r in s.links[c].handler.outbound ==> r in Flow(s.links[c]);
    assert forall c, r :: c in s.links && r in s.links[c].substreams ==> r in Flow(s.links[c]);
    assert forall a :: a in Log(s) && a.NotifyHandler? ==> ActionBears(s.issued, a);
  }

  /** Every event about one of our requests names the peer that the call asked. */
  lemma EventsNameThePeerAsked(run: seq<System>, steps: seq<Step>, i: nat, a: Action)
    requires IsRun(run, steps) && i <= |steps| && a in Log(run[i]) && a.GenerateEvent? && a.origin.Ours?
    ensures exists fileName :: Called(run, steps, i, a.event.peer, OutboundRequest(a.event.id, fileName))
  {
    hide Inv, OwnInv, Apply, Enabled, Called, Structure, Log;
    InvOverRuns(run, steps, i);
    IssuedIdsOf(run[i]);
    assert ActionBears(run[i].issued, a);
    IssuedByCall(run, steps, i, a.event.id);
  }

  // ------------------------------------------------------------------------- received requests

  /** Step k is the behaviour processing the event of the connection. */
  ghost predicate Processes(run: seq<System>, steps: seq<Step>, k: nat, c: ConnectionId, e: HandlerEvent)
    requires k < |steps| < |run|
  {
    && steps[k] == DeliverEvent(c)
    && c in run[k].links && run[k].links[c].outbox != [] && run[k].links[c].outbox[0] == e
  }

  /** A received request becomes tracked for a connection only when it is announced from there. */
  lemma TrackedOrAnnounced(s: System, st: Step, c: ConnectionId, id: RequestId)
    requires Structure(s) && Enabled(s, st) && c in Apply(s, st).links && id in TheirsTrackedBy(Apply(s, st), c)
    ensures || (c in s.links && id in TheirsTrackedBy(s, c))
            || (st == DeliverEvent(c) && s.links[c].outbox[0].Request? && s.links[c].outbox[0].id == id)
  {
    hide Apply, Structure, OutIds;
    match st
    case DeliverEvent(d) => DeliverTracks(s, d, c);
    case ReportClosed(d, theirs, ours) => ClosedTracksTheirs(s, d, theirs, ours);
    case _ => QuietTracks(s, st);
  }

  lemma DeliverTracks(s: System, d: ConnectionId, c: ConnectionId)
    requires Structure(s) && Enabled(s, DeliverEvent(d)) && c in Apply(s, DeliverEvent(d)).links
    ensures c in s.links && (c != d ==> TheirsTrackedBy(Apply(s, DeliverEvent(d)), c) == TheirsTrackedBy(s, c))
    ensures var e := s.links[d].outbox[0];
            TheirsTrackedBy(Apply(s, DeliverEvent(d)), c) <=
            TheirsTrackedBy(s, c) + (if c == d && e.Request? then {e.id} else {})
  {
    hide OutIds, Structure, OnHandlerEvent;
    DeliverTracksTheirs(s, d, c);
  }

  lemma {:induction false} TrackedWasProcessed(run: seq<System>, steps: seq<Step>, i: nat, c: ConnectionId, id: RequestId)
      returns (k: nat, fileName: string)
    requires IsRun(run, steps) && i <= |steps| && c in run[i].links && id in TheirsTrackedBy(run[i], c)
    ensures k < i && Processes(run, steps, k, c, Request(id, fileName))
    decreases i
  {
    hide Inv, OwnInv, Apply, Enabled, Structure, OutIds, LinksOk;
    assert i > 0;
    InvOverRuns(run, steps, i - 1);
    IssuedIdsOf(run[i - 1]);
    assert Enabled(run[i - 1], steps[i - 1]) && run[i] == Apply(run[i - 1], steps[i - 1]);
    TrackedOrAnnounced(run[i - 1], steps[i - 1], c, id);
    if c in run[i - 1].links && id in TheirsTrackedBy(run[i - 1], c) {
      k, fileName := TrackedWasProcessed(run, steps, i - 1, c, id);
    } else {
      DeliveryIsProcessing(run, steps, i - 1, c);
      k, fileName := i - 1, run[i - 1].links[c].outbox[0].fileName;
    }
  }

  lemma DeliveryIsProcessing(run: seq<System>, steps: seq<Step>, k: nat, c: ConnectionId)
    requires IsRun(run, steps) && k < |steps| && steps[k] == DeliverEvent(c)
    ensures c in run[k].links && run[k].links[c].outbox != []
    ensures Processes(run, steps, k, c, run[k].links[c].outbox[0])
  {
    assert Enabled(run[k], steps[k]);
  }

  /** A response sent is processed only after its request was, on the same connection. */
  lemma ResponseFollowsOnConnection(run: seq<System>, steps: seq<Step>, j: nat, c: ConnectionId, id: RequestId)
      returns (k: nat, fileName: string)
    requires IsRun(run, steps) && j < |steps| && Processes(run, steps, j, c, ResponseSent(id))
    ensures k < j && Processes(run, steps, k, c, Request(id, fileName))
  {
    hide Inv, OwnInv, Apply, Structure, OutIds, LinksOk;
    InvOverRuns(run, steps, j);
    IssuedIdsOf(run[j]);
    assert Enabled(run[j], steps[j]);
    ReportedIsAccepted(run[j], c);
    k, fileName := TrackedWasProcessed(run, steps, j, c, id);
  }

  /** The link carries the request of a remote peer, with the file, towards the behaviour. */
  predicate Carries(l: Link, id: RequestId, fileName: string) {
    (id in l.handler.inbound && l.handler.inbound[id] == HM.Ready(fileName)) || Request(id, fileName) in l.outbox
  }

  lemma CarriedOrAsked(l: Link, move: LinkStep, id: RequestId, fileName: string)
    requires LinkReady(l, move) && Carries(LinkNext(l, move), id, fileName)
    requires forall e :: e in l.handler.events ==> !e.Request?
    ensures Carries(l, id, fileName) || move == RequestArrives(id, fileName)
  {
    match move
    case PollHandler(pick, deadline) => PollCarries(l, pick, deadline, id, fileName);
    case _ =>
      assert LinkNext(l, move).outbox == l.outbox by {
        OutboxStays(l, move);
      }
  }

  lemma OutboxStays(l: Link, move: LinkStep)
    requires LinkReady(l, move) && !move.PollHandler?
    ensures LinkNext(l, move).outbox == l.outbox
  {
    hide HM.OnConnectionEvent;
  }

  lemma PollCarries(l: Link, pick: HM.InboundPoll, deadline: int, id: RequestId, fileName: string)
    requires HM.CanYield(l.handler, pick) && forall e :: e in l.handler.events ==> !e.Request?
    requires var (h, r) := HM.Poll(l.handler, pick, deadline); Carries(AfterPoll(l, h, r), id, fileName)
    ensures Carries(l, id, fileName)
  {
    var (h, r) := HM.Poll(l.handler, pick, deadline);
    if r.Custom? {
      assert AfterPoll(l, h, r).outbox == l.outbox + [r.event];
      if l.handler.events != [] {
        assert l.handler.events[0] in l.handler.events;
      }
    }
  }

  lemma CarriedBefore(s: System, st: Step, c: ConnectionId, id: RequestId, fileName: string)
    requires LinksOk(s) && Enabled(s, st) && c in Apply(s, st).links && Carries(Apply(s, st).links[c], id, fileName)
    ensures c in s.links && Apply(s, st).links[c].peer == s.links[c].peer
    ensures Carries(s.links[c], id, fileName) || st == LinkMoves(c, RequestArrives(id, fileName))
  {
    hide Apply, LinkNext, LinksOk;
    LinkAfter(s, st, c);
    if st.LinkMoves? && st.connection == c {
      LinkStepKeepsRequests(s.links[c], st.move);
      EventsClean(s, c);
      CarriedOrAsked(s.links[c], st.move, id, fileName);
    }
  }

  lemma EventsClean(s: System, c: ConnectionId)
    requires LinksOk(s) && c in s.links
    ensures forall e :: e in s.links[c].handler.events ==> !e.Request?
  {
    hide InboundRequests.RequestsOnce, InboundRequests.OutcomesOnce, InboundRequests.SendersExist;
    assert InboundRequests.InboundOk(s.links[c], OutsideOf(s, c));
  }

  /** Step m is the arrival of a request for the file from the peer on the connection. */
  ghost predicate Asks(run: seq<System>, steps: seq<Step>, m: nat,
                       p: PeerId, c: ConnectionId, id: RequestId, fileName: string)
    requires m < |steps| < |run|
  {
    steps[m] == LinkMoves(c, RequestArrives(id, fileName)) && c in run[m].links && run[m].links[c].peer == p
  }

  lemma {:induction false} CarriedWasAsked(run: seq<System>, steps: seq<Step>, i: nat,
                                           c: ConnectionId, id: RequestId, fileName: string)
      returns (m: nat)
    requires IsRun(run, steps) && i <= |steps| && c in run[i].links && Carries(run[i].links[c], id, fileName)
    ensures m < i && Asks(run, steps, m, run[i].links[c].peer, c, id, fileName)
    decreases i
  {
    hide Inv, OwnInv, Apply, Enabled, Structure, LinksOk, Carries;
    assert i > 0;
    InvOverRuns(run, steps, i - 1);
    IssuedIdsOf(run[i - 1]);
    assert Enabled(run[i - 1], steps[i - 1]) && run[i] == Apply(run[i - 1], steps[i - 1]);
    CarriedBefore(run[i - 1], steps[i - 1], c, id, fileName);
    if Carries(run[i - 1].links[c], id, fileName) {
      m := CarriedWasAsked(run, steps, i - 1, c, id, fileName);
    } else {
      m := i - 1;
    }
  }

  lemma {:induction false} AnnouncementWasProcessed(run: seq<System>, steps: seq<Step>, i: nat, a: Action)
      returns (k: nat, c: ConnectionId)
    requires IsRun(run, steps) && i <= |steps| && a in Log(run[i]) && a.GenerateEvent? && a.event.RequestReceived?
    ensures k < i && Processes(run, steps, k, c, Request(a.event.id, a.event.fileName))
    ensures run[k].links[c].peer == a.event.peer
    decreases i
  {
    hide Inv, OwnInv, Apply, Structure, LinksOk, Log;
    if i == 0 {
      assert Log(run[0]) == [] by {
        NothingLogged();
      }
      assert false;
    } else {
      var s, st := run[i - 1], steps[i - 1];
      assert Enabled(s, st) && run[i] == Apply(s, st);
      InvOverRuns(run, steps, i - 1);
      IssuedIdsOf(s);
      if a in Log(s) {
        k, c := AnnouncementWasProcessed(run, steps, i - 1, a);
      } else {
        if st.PollBehaviour? {
          PollEffect(s);
        } else {
          StepEffect(s, st);
        }
        AnnouncementIsDelivery(s, st, a);
        k, c := i - 1, st.connection;
        DeliveryIsProcessing(run, steps, k, c);
      }
    }
  }

  lemma NothingLogged()
    ensures Log(START) == []
  {
  }

  /** Every announced request is what the remote peer asked for, on a connection to that peer. */
  lemma AnnouncedAsAsked(run: seq<System>, steps: seq<Step>, i: nat, a: Action) returns (m: nat, c: ConnectionId)
    requires IsRun(run, steps) && i <= |steps| && a in Log(run[i]) && a.GenerateEvent? && a.event.RequestReceived?
    ensures m < i && Asks(run, steps, m, a.event.peer, c, a.event.id, a.event.fileName)
  {
    hide Inv, Apply, Enabled, Log;
    var k;
    k, c := AnnouncementWasProcessed(run, steps, i, a);
    assert run[k].links[c].outbox[0] in run[k].links[c].outbox;
    m := CarriedWasAsked(run, steps, k, c, a.event.id, a.event.fileName);
  }
}
