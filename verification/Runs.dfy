/** What holds on every run of FileGet, its handlers, the swarm and the application. */
module Runs {
  import opened Basics
  import opened Messages
  import opened FileGetModel
  import opened Link
  import opened InboundRequests
  import opened Swarm
  import opened OwnRequests
  import opened Provenance
  import opened ReceivedRequests
  import opened Ledger

  /** The type of every event fits who issued the request, except for closed connections, whose
      failures are reported the other way round; and no response is reported as omitted. */
  predicate Tagged(a: Action) {
    a.GenerateEvent? ==>
      match a.event
      case RequestReceived(_, _, _) => a.origin == Theirs
      case ResponseReceived(_, _) => a.origin == Ours
      case SentResponse(_, _) => a.origin == Theirs
      case OutboundFailure(_, _, error) => a.origin == if error == OutClosed then Theirs else Ours
      case InboundFailure(_, _, error) => error != Omitted && a.origin == if error == InClosed then Ours else Theirs
  }

  ghost predicate AllTagged(s: System) {
    forall a :: a in Log(s) ==> Tagged(a)
  }

  predicate AnnouncedFor(s: System, c: ConnectionId, a: Action)
    requires c in s.links
  {
    a.GenerateEvent? && a.event.RequestReceived? && a.event.id in s.links[c].accepted
  }

  /** The peer of a connection is the one its requests were announced from. */
  ghost predicate AnnouncedBy(s: System) {
    forall c, a :: c in s.links && a in Log(s) && AnnouncedFor(s, c, a) ==> a.event.peer == s.links[c].peer
  }

  /** Every response sent follows the announcement, from the same peer, of its request. */
  ghost predicate Causal(s: System) {
    forall j :: 0 <= j < |Log(s)| && Log(s)[j].GenerateEvent? && Log(s)[j].event.SentResponse? ==>
      exists i :: 0 <= i < j && IsAnnouncement(Log(s)[i], Log(s)[j].event.peer, Log(s)[j].event.id)
  }

  predicate IsAnnouncement(a: Action, p: PeerId, id: RequestId) {
    a.GenerateEvent? && a.event.RequestReceived? && a.event.peer == p && a.event.id == id
  }

  ghost predicate Inv(s: System) {
    && OwnInv(s) && ReceivedInv(s) && !s.panicked && AllTagged(s) && AnnouncedBy(s) && Causal(s)
    && s.crashed <= s.dropped && Faithful(s)
  }

  // ------------------------------------------------------------------------------- invariance

  /** The debug assertions and expects hold whenever they are met. */
  lemma StepDoesNotPanic(s: System, st: Step)
    requires OwnInv(s) && ReceivedInv(s) && !s.panicked && Enabled(s, st)
    ensures !Apply(s, st).panicked
  {
    hide OwnInv, ReceivedInv, Known, InIds, OutIds, LinkNext;
    BothParts(s);
    if st.DeliverEvent? {
      AssertionsHold(s, st.connection);
    } else if st.PollBehaviour? {
      PollEffect(s);
    }
  }

  lemma AssertionsHold(s: System, c: ConnectionId)
    requires Structure(s) && Accounted(s) && LinksOk(s) && Enabled(s, DeliverEvent(c))
    ensures AssertionHolds(s.fg, s.links[c].peer, c, s.links[c].outbox[0])
  {
    hide Find, Tidy, InboundOk, Balanced;
    var e := s.links[c].outbox[0];
    assert Known(s.fg, s.links[c].peer, c);
    ReportedIsAccepted(s, c);
    if IsKind(OutEnd, e) {
      OutcomeIsTracked(s, c);
    }
  }

  lemma StepTags(s: System, st: Step)
    requires OwnInv(s) && ReceivedInv(s) && AllTagged(s) && Enabled(s, st)
    ensures AllTagged(Apply(s, st))
  {
    hide OwnInv, ReceivedInv, Apply, Enabled;
    assert Structure(s) && LinksOk(s) by {
      BothParts(s);
    }
    if st.PollBehaviour? {
      PollEffect(s);
    } else {
      StepEffect(s, st);
      EmittedTagged(s, st);
    }
  }

  lemma BothParts(s: System)
    requires OwnInv(s) && ReceivedInv(s)
    ensures Structure(s) && Accounted(s) && LinksOk(s) && IdsApart(s)
  {
  }

  lemma EmittedTagged(s: System, st: Step)
    requires Structure(s) && LinksOk(s) && Enabled(s, st)
    ensures forall a :: a in Emitted(s, st) ==> Tagged(a)
  {
    hide Structure, LinksOk, Apply;
    if st.DeliverEvent? {
      ReportedIsAccepted(s, st.connection);
    }
  }

  lemma AnnouncedByKept(s: System, st: Step)
    requires Structure(s) && LinksOk(s) && IdsApart(s) && AnnouncedBy(s) && Enabled(s, st)
    ensures AnnouncedBy(Apply(s, st))
  {
    hide Apply, Enabled, Structure, LinksOk, IdsApart;
    AcceptedAfter(s, st);
    forall c, a | c in Apply(s, st).links && a in Log(Apply(s, st)) && AnnouncedFor(Apply(s, st), c, a)
      ensures a.event.peer == Apply(s, st).links[c].peer
    {
      AnnouncerIsPeer(s, st, c, a);
    }
  }

  lemma AnnouncerIsPeer(s: System, st: Step, c: ConnectionId, a: Action)
    requires Structure(s) && LinksOk(s) && IdsApart(s) && AnnouncedBy(s) && Enabled(s, st)
    requires c in Apply(s, st).links && a in Log(Apply(s, st)) && a.GenerateEvent? && a.event.RequestReceived?
    requires a.event.id in AcceptedBy(s, c) + NewlyAccepted(s, st, c)
    ensures a.event.peer == Apply(s, st).links[c].peer
  {
    hide Structure, LinksOk, LinkNext, Apply, IdsApart, AnnouncedBy;
    PeerStays(s, st, c);
    if st.PollBehaviour? {
      PollEffect(s);
      AnnouncedBefore(s, st, c, a);
    } else {
      StepEffect(s, st);
      if a in Log(s) {
        AnnouncedBefore(s, st, c, a);
      } else {
        AnnouncementIsDelivery(s, st, a);
        ReportedIsAccepted(s, st.connection);
        assert c == st.connection by {
          AcceptedApart(s, c, st.connection, a.event.id);
        }
      }
    }
  }

  lemma AnnouncedBefore(s: System, st: Step, c: ConnectionId, a: Action)
    requires IdsApart(s) && AnnouncedBy(s) && a in Log(s) && a.GenerateEvent? && a.event.RequestReceived? && c in s.links
    requires a.event.id in AcceptedBy(s, c) + NewlyAccepted(s, st, c)
    ensures a.event.peer == s.links[c].peer
  {
    hide Log, Pick;
    PickContains(Received, Log(s), a);
    assert a.event.id in Seen(s, Received);
    assert AnnouncedFor(s, c, a);
  }

  lemma AcceptedApart(s: System, c: ConnectionId, d: ConnectionId, id: RequestId)
    requires IdsApart(s) && c in s.links && d in s.links && id in s.links[c].accepted && id in s.links[d].accepted
    ensures c == d
  {
  }

  lemma PeerStays(s: System, st: Step, c: ConnectionId)
    requires Structure(s) && Enabled(s, st) && c in s.links && c in Apply(s, st).links
    ensures Apply(s, st).links[c].peer == s.links[c].peer
  {
    hide LinkNext, Apply;
    LinkAfter(s, st, c);
    if st.LinkMoves? && st.connection == c {
      LinkStepKeepsRequests(s.links[c], st.move);
    }
  }

  lemma AnnouncementIsDelivery(s: System, st: Step, a: Action)
    requires Enabled(s, st) && a in Emitted(s, st) && a.GenerateEvent?
    requires a.event.RequestReceived? || a.event.SentResponse?
    ensures st.DeliverEvent? && a == Report(s.links[st.connection].peer, s.links[st.connection].outbox[0])
  {
  }

  lemma CausalKept(s: System, st: Step)
    requires Structure(s) && LinksOk(s) && AnnouncedBy(s) && Causal(s) && Enabled(s, st)
    ensures Causal(Apply(s, st))
  {
    hide Structure, LinksOk, Apply, Enabled, AnnouncedBy;
    if st.PollBehaviour? {
      PollEffect(s);
    } else {
      StepEffect(s, st);
      var t := Apply(s, st);
      forall j | 0 <= j < |Log(t)| && Log(t)[j].GenerateEvent? && Log(t)[j].event.SentResponse?
        ensures exists i :: 0 <= i < j && IsAnnouncement(Log(t)[i], Log(t)[j].event.peer, Log(t)[j].event.id)
      {
        if j < |Log(s)| {
          var i :| 0 <= i < j && IsAnnouncement(Log(s)[i], Log(s)[j].event.peer, Log(s)[j].event.id);
          assert Log(t)[i] == Log(s)[i];
        } else {
          SentWasAnnounced(s, st, Log(t)[j]);
          var i :| 0 <= i < |Log(s)| && IsAnnouncement(Log(s)[i], Log(t)[j].event.peer, Log(t)[j].event.id);
          assert Log(t)[i] == Log(s)[i];
        }
      }
    }
  }

  lemma SentWasAnnounced(s: System, st: Step, a: Action)
    requires Structure(s) && LinksOk(s) && AnnouncedBy(s) && Enabled(s, st)
    requires a in Emitted(s, st) && a.GenerateEvent? && a.event.SentResponse?
    ensures exists i :: 0 <= i < |Log(s)| && IsAnnouncement(Log(s)[i], a.event.peer, a.event.id)
  {
    hide Structure, Apply, LinksOk;
    AnnouncementIsDelivery(s, st, a);
    var c := st.connection;
    ReportedIsAccepted(s, c);
    PickSource(Received, Log(s), a.event.id);
    var r :| r in Log(s) && a.event.id in Select(Received, r);
    assert AnnouncedFor(s, c, r);
    assert IsAnnouncement(r, a.event.peer, a.event.id);
  }

  lemma InvAtStart()
    ensures Inv(START)
  {
    OwnInvAtStart();
    FaithfulAtStart();
    ReceivedInvAtStart();
    assert Log(START) == [];
  }

  /** Every step of the system keeps the invariant. */
  lemma InvKept(s: System, st: Step)
    requires Inv(s) && Enabled(s, st)
    ensures Inv(Apply(s, st))
  {
    hide OwnInv, ReceivedInv, Faithful, AllTagged, AnnouncedBy, Causal, Apply, Enabled;
    hide Structure, Accounted, LinksOk, IdsApart;
    OwnInvKept(s, st);
    BothParts(s);
    ReceivedInvKept(s, st);
    StepDoesNotPanic(s, st);
    StepTags(s, st);
    AnnouncedByKept(s, st);
    CausalKept(s, st);
    CrashesKept(s, st);
    FaithfulKept(s, st);
  }

  /** Only an upgrade whose sender was dropped panics. */
  lemma CrashesKept(s: System, st: Step)
    requires ReceivedInv(s) && s.crashed <= s.dropped && Enabled(s, st)
    ensures Apply(s, st).crashed <= Apply(s, st).dropped
  {
    hide ReceivedInv, LinkNext, Established, SendRequest, DialFailure, OnHandlerEvent, Closed;
    if st.PollBehaviour? {
      PollEffect(s);
    } else if st.LinkMoves? && st.move.SenderMissing? {
      SenderIsInOnePlace(s, st.connection, st.move.id);
    }
  }

  lemma {:induction false} InvOverRuns(run: seq<System>, steps: seq<Step>, i: nat)
    requires IsRun(run, steps) && i <= |steps|
    ensures Inv(run[i])
    decreases i
  {
    hide Inv;
    if i == 0 {
      InvAtStart();
    } else {
      InvOverRuns(run, steps, i - 1);
      InvKept(run[i - 1], steps[i - 1]);
    }
  }

  // --------------------------------------------------------------------------------- theorems

  /** No expect and no debug assertion of the behaviour ever fails. */
  lemma NoPanic(run: seq<System>, steps: seq<Step>, i: nat)
    requires IsRun(run, steps) && i <= |steps|
    ensures !run[i].panicked
  {
    InvOverRuns(run, steps, i);
  }

  /** Every run of the system is a run of the ledger. */
  lemma {:induction false} RunsRefineLedger(run: seq<System>, steps: seq<Step>) returns (books: seq<Book>)
    requires IsRun(run, steps)
    ensures |books| == |run| && books[0] == map[]
    ensures forall i :: 0 <= i < |run| ==> Refines(run[i], books[i])
    ensures forall i :: 0 <= i < |steps| ==>
              Legal(books[i], EntryOf(run[i], steps[i])) && books[i + 1] == Post(books[i], EntryOf(run[i], steps[i]))
    decreases |steps|
  {
    hide Refines, Post, Legal, Apply, Enabled, OwnInv;
    if steps == [] {
      RefinesAtStart();
      books := [map[]];
    } else {
      var n := |steps| - 1;
      assert IsRun(run[..n + 1], steps[..n]);
      var front := RunsRefineLedger(run[..n + 1], steps[..n]);
      InvOverRuns(run, steps, n);
      assert Refines(run[n], front[n]);
      StepRefinesEntry(run[n], steps[n], front[n]);
      books := front + [Post(front[n], EntryOf(run[n], steps[n]))];
    }
  }

  /** The three places a request can be, and nowhere else. */
  ghost predicate IsQueued(s: System, p: PeerId, id: RequestId) {
    id in Ids(Queue(s.fg, p))
  }

  ghost predicate IsTracked(s: System, p: PeerId, c: ConnectionId, id: RequestId) {
    id in InIds(s.fg, p, c)
  }

  /** The number of terminal events of a request. */
  function Ends(s: System, id: RequestId): nat {
    Times(Pick(OurEnd, Log(s)), id)
  }

  /** On every run, an issued request is queued for one peer, or tracked by one connection, or has
      exactly one terminal event, and the peer is the one it was issued for; what was never issued is
      nowhere. */
  lemma ExactlyOnce(run: seq<System>, steps: seq<Step>, i: nat, id: RequestId) returns (status: Status)
    requires IsRun(run, steps) && i <= |steps|
    ensures var s := run[i];
            if 1 <= id < s.fg.nextId then
              && (forall p :: IsQueued(s, p, id) <==> status == Queued(p))
              && (forall p, c :: IsTracked(s, p, c, id) <==> status == InFlight(p, c))
              && Ends(s, id) == (if status == Done then 1 else 0)
              && id in s.issued
              && (!status.Done? ==> status.peer == s.issued[id].peer)
              && (forall a :: a in Log(s) && id in Select(OurEnd, a) ==> a.event.peer == s.issued[id].peer)
            else
              (forall p :: !IsQueued(s, p, id)) && (forall p, c :: !IsTracked(s, p, c, id)) && Ends(s, id) == 0
  {
    hide Known, InIds, Pick, Apply, Enabled, Log, OwnInv, ReceivedInv, Faithful;
    var books := RunsRefineLedger(run, steps);
    var s, b := run[i], books[i];
    assert Refines(s, b);
    status := if id in b then b[id] else Done;
    forall p ensures IsQueued(s, p, id) <==> Is(b, id, Queued(p)) {}
    forall p, c ensures IsTracked(s, p, c, id) <==> Is(b, id, InFlight(p, c)) {}
    InvOverRuns(run, steps, i);
    if id in b {
      PlaceIsFaithful(s, b, id);
    }
  }

  /** A request is kept for the peer it was issued for, and ends with an event about that peer. */
  lemma PlaceIsFaithful(s: System, b: Book, id: RequestId)
    requires Faithful(s) && Refines(s, b) && id in b
    ensures id in s.issued && (!b[id].Done? ==> b[id].peer == s.issued[id].peer)
    ensures forall a :: a in Log(s) && id in Select(OurEnd, a) ==> a.event.peer == s.issued[id].peer
  {
    hide Known, InIds, Pick, Log;
    match b[id]
    case Queued(p) =>
      assert Is(b, id, Queued(p));
      IdSource(Queue(s.fg, p), id);
    case InFlight(p, c) =>
      assert Is(b, id, InFlight(p, c));
      assert IssuedTo(s.issued, p, id);
    case Done =>
    forall a | a in Log(s) && id in Select(OurEnd, a) ensures a.event.peer == s.issued[id].peer {
      assert ActionBears(s.issued, a);
    }
  }

  /** A finished request stays finished: it is never reported, queued or tracked again. */
  lemma {:induction false} DoneForGood(books: seq<Book>, entries: seq<Entry>, i: nat, j: nat, id: RequestId)
    requires |books| == |entries| + 1 && i <= j < |books| && Is(books[i], id, Done)
    requires forall k :: 0 <= k < |entries| ==> Legal(books[k], entries[k]) && books[k + 1] == Post(books[k], entries[k])
    ensures Is(books[j], id, Done)
    decreases j
  {
    if i < j {
      DoneForGood(books, entries, i, j - 1, id);
      assert books[j] == Post(books[j - 1], entries[j - 1]);
    }
  }

  lemma EndedForGood(run: seq<System>, steps: seq<Step>, i: nat, j: nat, id: RequestId)
    requires IsRun(run, steps) && i <= j <= |steps| && Ends(run[i], id) > 0
    ensures Ends(run[j], id) == 1
    ensures forall p :: !IsQueued(run[j], p, id)
    ensures forall p, c :: !IsTracked(run[j], p, c, id)
  {
    hide Known, InIds, Pick, Apply, Enabled, Post, Legal, EntryOf;
    var books := RunsRefineLedger(run, steps);
    assert Refines(run[i], books[i]) && Refines(run[j], books[j]);
    var entries := seq(|steps|, k requires 0 <= k < |steps| => EntryOf(run[k], steps[k]));
    DoneForGood(books, entries, i, j, id);
    assert Is(books[j], id, Done);
    forall p ensures IsQueued(run[j], p, id) <==> Is(books[j], id, Queued(p)) {}
    forall p, c ensures IsTracked(run[j], p, c, id) <==> Is(books[j], id, InFlight(p, c)) {}
  }

  /** A request tracked by a connection is in exactly one place between the behaviour's queue and
      the outcome on its way back; an untracked one is in none of them. */
  lemma TrackedIsInOnePlace(run: seq<System>, steps: seq<Step>, i: nat, c: ConnectionId, id: RequestId)
    requires IsRun(run, steps) && i <= |steps| && c in run[i].links
    ensures var s, l := run[i], run[i].links[c];
            Times(Pick(ToConnection(c), s.fg.events), id)
            + Times(Ids(l.inbox), id) + Times(Ids(l.handler.outbound), id) + l.outUpgrades[id]
            + Count(OutEnd, l.handler.events, id) + Count(OutEnd, l.outbox, id) + l.lost[id]
            == if IsTracked(s, l.peer, c, id) then 1 else 0
  {
    InvOverRuns(run, steps, i);
    assert AccountedAt(run[i], c, id);
  }

  /** Requests for a peer are handed over in the order of their ids, across queueing, draining,
      failed dials, disconnection and reconnection; the queued ones come after all of them. */
  lemma HandedOverInOrder(run: seq<System>, steps: seq<Step>, i: nat, p: PeerId)
    requires IsRun(run, steps) && i <= |steps|
    ensures Increasing(Pick(ToPeer(p), Log(run[i])) + Ids(Queue(run[i].fg, p)))
  {
    InvOverRuns(run, steps, i);
    assert Increasing(HandOrder(run[i], p));
  }

  /** A handler asks for substreams in the order of the request ids, and for what was handed over
      to its connection first. */
  lemma SubstreamsInOrder(run: seq<System>, steps: seq<Step>, i: nat, c: ConnectionId)
    requires IsRun(run, steps) && i <= |steps| && c in run[i].links
    ensures var l := run[i].links[c];
            Ids(l.substreams) <= Pick(ToConnection(c), run[i].polled) && Increasing(Ids(l.substreams))
  {
    hide Inv, OwnInv, Structure, HandedOver, Ordered, Pick, Ids, Increasing, Enabled, Apply;
    InvOverRuns(run, steps, i);
    var s, l := run[i], run[i].links[c];
    OwnPartsOf(s);
    assert FlowsIn(l, Pick(ToConnection(c), s.polled));
    ToConnectionInOrder(s, c);
    PickConcat(ToConnection(c), s.polled, s.fg.events);
    var xs := Pick(ToConnection(c), Log(s));
    assert Flow(l) == l.substreams + (l.handler.outbound + l.inbox);
    IdsConcat(l.substreams, l.handler.outbound + l.inbox);
    PrefixIncreases(Ids(l.substreams), xs);
  }

  lemma OwnPartsOf(s: System)
    requires Inv(s)
    ensures Structure(s) && HandedOver(s) && Ordered(s) && InFlow(s)
  {
  }

  lemma PrefixIncreases(ids: seq<RequestId>, xs: seq<RequestId>)
    requires ids <= xs && Increasing(xs)
    ensures Increasing(ids)
  {
    assert forall k :: 0 <= k < |ids| ==> ids[k] == xs[k];
  }

  lemma ToConnectionInOrder(s: System, c: ConnectionId)
    requires Structure(s) && HandedOver(s) && Ordered(s) && c in s.links
    ensures Increasing(Pick(ToConnection(c), Log(s)))
  {
    hide Pick;
    var p := s.links[c].peer;
    var xs := Pick(ToPeer(p), Log(s));
    assert Increasing(HandOrder(s, p));
    assert forall i :: 0 <= i < |xs| ==> xs[i] == HandOrder(s, p)[i];
    SelectionInOrder(Log(s), p, c);
  }

  /** The requests to one connection are among those to its peer, in the same order. */
  lemma {:induction false} SelectionInOrder(actions: seq<Action>, p: PeerId, c: ConnectionId)
    requires forall a :: a in actions && a.NotifyHandler? && a.connection == c ==> a.peer == p
    requires Increasing(Pick(ToPeer(p), actions))
    ensures Increasing(Pick(ToConnection(c), actions))
    ensures forall id :: id in Pick(ToConnection(c), actions) ==> id in Pick(ToPeer(p), actions)
  {
    if actions != [] {
      var a, rest := actions[0], actions[1..];
      IncreasingTail(Select(ToPeer(p), a), Pick(ToPeer(p), rest));
      SelectionInOrder(rest, p, c);
      if a.NotifyHandler? && a.connection == c {
        IncreasingPush(a.request.id, Pick(ToPeer(p), rest), Pick(ToConnection(c), rest));
      }
    }
  }

  lemma IncreasingTail(head: seq<RequestId>, tail: seq<RequestId>)
    requires Increasing(head + tail)
    ensures Increasing(tail)
  {
    assert forall i :: 0 <= i < |tail| ==> tail[i] == (head + tail)[|head| + i];
  }

  lemma IncreasingPush(id: RequestId, all: seq<RequestId>, some: seq<RequestId>)
    requires Increasing([id] + all) && Increasing(some) && forall x :: x in some ==> x in all
    ensures Increasing([id] + some)
  {
    var xs, ys := [id] + all, [id] + some;
    forall x | x in all ensures id < x {
      var k :| 0 <= k < |all| && all[k] == x;
      assert xs[0] < xs[k + 1];
    }
    forall i, j | 0 <= i < j < |ys| ensures ys[i] < ys[j] {
      assert ys[j] == some[j - 1] && some[j - 1] in all;
      assert i > 0 ==> ys[i] == some[i - 1];
    }
  }

  /** A queued request is never orphaned: its peer has no connection, and a dial is enqueued or
      under way. No connection vector is ever empty. */
  lemma QueuedIsDialed(run: seq<System>, steps: seq<Step>, i: nat, p: PeerId)
    requires IsRun(run, steps) && i <= |steps|
    ensures var s := run[i];
            && (Queue(s.fg, p) != [] ==> p !in s.fg.connected && (p in s.dials || Dial(p) in s.fg.events))
            && (p in s.fg.connected ==> s.fg.connected[p] != [])
  {
    InvOverRuns(run, steps, i);
  }

  /** A response is reported as sent only after its request was announced from the same peer, and
      then once, and as the last word on that request. */
  lemma ResponsesFollowRequests(run: seq<System>, steps: seq<Step>, i: nat, j: nat)
    requires IsRun(run, steps) && i <= |steps| && j < |Log(run[i])|
    requires Log(run[i])[j].GenerateEvent? && Log(run[i])[j].event.SentResponse?
    ensures var s, id := run[i], Log(run[i])[j].event.id;
            && (exists k :: 0 <= k < j && IsAnnouncement(Log(s)[k], Log(s)[j].event.peer, id))
            && Times(Pick(Received, Log(s)), id) == 1
            && Times(Pick(TheirOutcome, Log(s)), id) == 1
            && id !in Pick(TheirClosed, Log(s))
  {
    hide OwnInv, LinksOk, IdsApart, Apply, Enabled;
    InvOverRuns(run, steps, i);
    var s, a := run[i], Log(run[i])[j];
    PickContains(TheirSent, Log(s), a);
    PickContains(TheirOutcome, Log(s), a) by {
      assert Tagged(a);
    }
    assert a.event.id in Seen(s, TheirSent);
    TimesPositive(Pick(Received, Log(s)), a.event.id);
    TimesPositive(Pick(TheirOutcome, Log(s)), a.event.id);
    assert Times(Pick(Received, Log(s)), a.event.id) <= 1;
    assert Times(Pick(TheirOutcome, Log(s)), a.event.id) <= 1;
  }

  /** The response sender that an upgrade awaits is in exactly one place: inside its connection, in an
      event of the behaviour, with the application, used, or dropped. */
  lemma SenderIsSomewhere(run: seq<System>, steps: seq<Step>, i: nat, c: ConnectionId, id: RequestId)
    requires IsRun(run, steps) && i <= |steps| && c in run[i].links
    requires id in run[i].links[c].inUpgrades && run[i].links[c].inUpgrades[id] == AwaitingReader
    ensures var s := run[i];
            One(SenderInside(s.links[c], id)) + One(id in Pick(Received, s.fg.events))
            + One(id in s.app) + One(id in s.replied) + One(id in s.dropped) == 1
  {
    hide OwnInv, Apply, Enabled;
    InvOverRuns(run, steps, i);
    SenderIsInOnePlace(run[i], c, id);
  }

  /** The expect of an awaiting upgrade can fail exactly when the application has dropped its sender:
      no other part of the system ever loses one. */
  lemma UpgradePanicsIffDropped(run: seq<System>, steps: seq<Step>, i: nat, c: ConnectionId, id: RequestId)
    requires IsRun(run, steps) && i <= |steps| && c in run[i].links && run[i].links[c].open
    requires id in run[i].links[c].inUpgrades && run[i].links[c].inUpgrades[id] == AwaitingReader
    ensures Enabled(run[i], LinkMoves(c, SenderMissing(id))) <==> id in run[i].dropped
    ensures Enabled(run[i], LinkMoves(c, ReaderArrives(id))) <==> id in run[i].replied
  {
    hide Apply;
    SenderIsSomewhere(run, steps, i, c, id);
  }

  /** An upgrade that has panicked had its sender dropped. */
  lemma CrashedWasDropped(run: seq<System>, steps: seq<Step>, i: nat, id: RequestId)
    requires IsRun(run, steps) && i <= |steps| && id in run[i].crashed
    ensures id in run[i].dropped
  {
    hide OwnInv, ReceivedInv;
    InvOverRuns(run, steps, i);
  }

  // ------------------------------------------------------------- failures of closed connections

  /** The pairing the event types promise: outbound failures end our requests, inbound ones theirs. */
  predicate Paired(a: Action) {
    a.GenerateEvent? ==>
      && (a.event.OutboundFailure? ==> a.origin == Ours)
      && (a.event.InboundFailure? ==> a.origin == Theirs)
  }

  predicate ReportsClosed(a: Action) {
    a.GenerateEvent? &&
    ((a.event.OutboundFailure? && a.event.outError == OutClosed) || (a.event.InboundFailure? && a.event.inError == InClosed))
  }

  /** On every run, the pairing is broken by exactly the failures of closed connections. */
  lemma PairedIffNotClosed(run: seq<System>, steps: seq<Step>, i: nat, a: Action)
    requires IsRun(run, steps) && i <= |steps| && a in Log(run[i])
    ensures Paired(a) <==> !ReportsClosed(a)
  {
    InvOverRuns(run, steps, i);
    assert Tagged(a);
  }

  /** Closing a connection keeps the pairing exactly when nothing was pending on it. */
  lemma ClosePairsIffIdle(s: FileGetState, p: PeerId, c: ConnectionId, theirs: seq<RequestId>, ours: seq<RequestId>)
    requires Known(s, p, c) && IsListing(theirs, OutIds(s, p, c)) && IsListing(ours, InIds(s, p, c))
    requires forall a :: a in s.events ==> Paired(a)
    ensures (forall a :: a in Closed(s, p, c, theirs, ours).events ==> Paired(a)) <==>
            OutIds(s, p, c) == {} && InIds(s, p, c) == {}
  {
    hide Known, InIds, OutIds, Find;
    var t := Closed(s, p, c, theirs, ours);
    assert t.events == s.events + (ClosedTheirs(p, theirs) + ClosedOurs(p, ours));
    EmptyListing(theirs, OutIds(s, p, c));
    EmptyListing(ours, InIds(s, p, c));
    if theirs != [] {
      assert ClosedTheirs(p, theirs)[0] in t.events;
    }
    if ours != [] {
      assert ClosedOurs(p, ours)[0] in t.events;
    }
  }

  lemma EmptyListing(xs: seq<RequestId>, s: set<RequestId>)
    requires IsListing(xs, s)
    ensures xs == [] <==> s == {}
  {
    assert |multiset(xs)| == |multiset(s)|;
    if xs != [] {
      assert xs[0] in multiset(s);
    }
  }
}
