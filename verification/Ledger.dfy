/** The nested bookkeeping of FileGet refines a flat ledger of its own requests: each issued id is
    queued for a peer, in flight on one connection, or done and reported exactly once. */
module Ledger {
  import opened Basics
  import opened Messages
  import opened FileGetModel
  import opened Link
  import opened Swarm
  import opened OwnRequests

  datatype Status = Queued(peer: PeerId) | InFlight(peer: PeerId, connection: ConnectionId) | Done

  type Book = map<RequestId, Status>

  datatype Entry =
    | Issue(id: RequestId, status: Status)
    | HandOver(peer: PeerId, connection: ConnectionId)  // all queued for the peer go in flight
    | GiveUp(peer: PeerId)                              // all queued for the peer are done
    | Finish(id: RequestId)
    | Abandon(peer: PeerId, connection: ConnectionId)   // all in flight on the connection are done
    | Nothing

  ghost predicate Legal(b: Book, e: Entry) {
    && (e.Issue? ==> e.id !in b && !e.status.Done?)
    && (e.Finish? ==> e.id in b && b[e.id].InFlight?)
  }

  function Move(from: Status, to: Status, at: Status): Status {
    if at == from then to else at
  }

  function Post(b: Book, e: Entry): Book {
    match e
    case Issue(id, status) => b[id := status]
    case HandOver(p, c) => map id | id in b :: Move(Queued(p), InFlight(p, c), b[id])
    case GiveUp(p) => map id | id in b :: Move(Queued(p), Done, b[id])
    case Finish(id) => b[id := Done]
    case Abandon(p, c) => map id | id in b :: Move(InFlight(p, c), Done, b[id])
    case Nothing => b
  }

  /** The ledger entry that a step of the system amounts to. */
  function EntryOf(s: System, st: Step): Entry {
    match st
    case Send(p, _) =>
      Issue(s.fg.nextId, if Conns(s.fg, p) == [] then Queued(p) else InFlight(p, Target(s.fg, p, s.fg.nextId)))
    case Connect(p, c, _) => HandOver(p, c)
    case DialFails(f) => if f.Some? then GiveUp(f.value) else Nothing
    case DeliverEvent(c) =>
      if c in s.links && s.links[c].outbox != [] && IsKind(OutEnd, s.links[c].outbox[0])
      then Finish(s.links[c].outbox[0].id) else Nothing
    case ReportClosed(c, _, _) => if c in s.links then Abandon(s.links[c].peer, c) else Nothing
    case _ => Nothing
  }

  predicate Is(b: Book, id: RequestId, status: Status) {
    id in b && b[id] == status
  }

  // ------------------------------------------------------------------------ the refinement

  ghost predicate BooksIssued(s: System, b: Book) {
    forall id :: id in b <==> 1 <= id < s.fg.nextId
  }

  ghost predicate BooksQueues(s: System, b: Book) {
    forall p, id :: id in Ids(Queue(s.fg, p)) <==> Is(b, id, Queued(p))
  }

  ghost predicate BooksFlights(s: System, b: Book) {
    forall p, c, id :: id in InIds(s.fg, p, c) <==> Is(b, id, InFlight(p, c))
  }

  ghost predicate BooksEnds(s: System, b: Book) {
    forall id :: Times(Pick(OurEnd, Log(s)), id) == if Is(b, id, Done) then 1 else 0
  }

  ghost predicate Refines(s: System, b: Book) {
    BooksIssued(s, b) && BooksQueues(s, b) && BooksFlights(s, b) && BooksEnds(s, b)
  }

  /** A state has at most one ledger. */
  lemma LedgerIsUnique(s: System, a: Book, b: Book)
    requires Refines(s, a) && Refines(s, b)
    ensures a == b
  {
    forall id | id in a ensures id in b && a[id] == b[id] {
      match a[id]
      case Queued(p) => assert Is(a, id, Queued(p));
      case InFlight(p, c) => assert Is(a, id, InFlight(p, c));
      case Done => assert Is(a, id, Done);
    }
    assert a.Keys == b.Keys;
  }

  lemma RefinesAtStart()
    ensures Refines(START, map[])
  {
    assert Log(START) == [];
  }

  // ------------------------------------------------------------------------ the simulation

  lemma BooksAfter(b: Book, from: Status, to: Status)
    requires from != to
    ensures var a := map id | id in b :: Move(from, to, b[id]);
            && (forall id :: Is(a, id, to) <==> Is(b, id, to) || Is(b, id, from))
            && (forall id :: !Is(a, id, from))
            && (forall id, status :: status != to && status != from ==> (Is(a, id, status) <==> Is(b, id, status)))
            && a.Keys == b.Keys
  {
  }

  /** Every step of the system is the ledger entry it amounts to. */
  lemma StepRefinesEntry(s: System, st: Step, b: Book)
    requires OwnInv(s) && Enabled(s, st) && Refines(s, b)
    ensures Legal(b, EntryOf(s, st)) && Refines(Apply(s, st), Post(b, EntryOf(s, st)))
  {
    hide Structure, HandedOver, Ordered, Bounded, Accounted, InFlow, Dialing, Refines, LinkNext;
    match st
    case Send(p, fileName) => SendRefines(s, p, fileName, b);
    case PollBehaviour => PollRefines(s, b);
    case Connect(p, c, dialed) => ConnectRefines(s, p, c, dialed, b);
    case DialFails(f) => DialFailsRefines(s, f, b);
    case DeliverEvent(c) => DeliverRefines(s, c, b);
    case ReportClosed(c, theirs, ours) => ReportClosedRefines(s, c, theirs, ours, b);
    case ForeignDial(_) => SameBooks(s, Apply(s, st), b);
    case LinkMoves(_, _) => SameBooks(s, Apply(s, st), b);
    case Reply(_) => SameBooks(s, Apply(s, st), b);
    case DropSender(_) => SameBooks(s, Apply(s, st), b);
  }

  lemma SameBooks(s: System, t: System, b: Book)
    requires Refines(s, b) && Log(t) == Log(s) && t.fg.nextId == s.fg.nextId
    requires t.fg.connected == s.fg.connected && t.fg.queued == s.fg.queued
    ensures Refines(t, b)
  {
    SameTracked(s, t);
    assert forall p :: Queue(t.fg, p) == Queue(s.fg, p);
  }

  lemma PollRefines(s: System, b: Book)
    requires Enabled(s, PollBehaviour) && Refines(s, b)
    ensures Refines(Apply(s, PollBehaviour), b)
  {
    PollEffect(s);
    SameBooks(s, Apply(s, PollBehaviour), b);
  }

  lemma EndsAfter(s: System, t: System, em: seq<Action>, b: Book, a: Book)
    requires Log(t) == Log(s) + em && BooksEnds(s, b)
    requires forall id :: Times(Pick(OurEnd, em), id) ==
                          (if Is(a, id, Done) then 1 else 0) - (if Is(b, id, Done) then 1 else 0)
    ensures BooksEnds(t, a)
  {
    PickConcat(OurEnd, Log(s), em);
    forall id ensures Times(Pick(OurEnd, Log(t)), id) == if Is(a, id, Done) then 1 else 0 {
      TimesConcat(Pick(OurEnd, Log(s)), Pick(OurEnd, em), id);
    }
  }

  lemma SendRefines(s: System, p: PeerId, fileName: string, b: Book)
    requires Structure(s) && Enabled(s, Send(p, fileName)) && Refines(s, b)
    ensures var e := EntryOf(s, Send(p, fileName)); Legal(b, e) && Refines(Apply(s, Send(p, fileName)), Post(b, e))
  {
    hide Known, InIds, OutIds, Tidy, Find, SendRequest, Established, DialFailure, OnHandlerEvent, Closed, LinkNext;
    var t, em := Apply(s, Send(p, fileName)), Emitted(s, Send(p, fileName));
    var id, e := s.fg.nextId, EntryOf(s, Send(p, fileName));
    var a := Post(b, e);
    SendEffect(s, p, fileName);
    assert forall x, status :: x != id ==> (Is(a, x, status) <==> Is(b, x, status));
    assert forall status :: Is(a, id, status) <==> status == e.status;
    assert id !in b;
    assert Pick(OurEnd, em) == [];
    EndsAfter(s, t, em, b, a);
    if Conns(s.fg, p) == [] {
      QueueingRefines(s, p, fileName, b, a);
    } else {
      SendingRefines(s, p, fileName, b, a);
    }
  }

  lemma QueueingRefines(s: System, p: PeerId, fileName: string, b: Book, a: Book)
    requires Structure(s) && Enabled(s, Send(p, fileName)) && Refines(s, b) && Conns(s.fg, p) == []
    requires a == b[s.fg.nextId := Queued(p)] && s.fg.nextId !in b
    ensures BooksQueues(Apply(s, Send(p, fileName)), a) && BooksFlights(Apply(s, Send(p, fileName)), a)
  {
    hide Known, InIds, OutIds, Tidy, Find, SendRequest, Established, DialFailure, OnHandlerEvent, Closed, LinkNext;
    var t := Apply(s, Send(p, fileName));
    SendRequestEffect(s.fg, p, fileName);
    SameTracked(s, t);
    IdsPush(Queue(s.fg, p), OutboundRequest(s.fg.nextId, fileName));
    forall q, id ensures id in Ids(Queue(t.fg, q)) <==> Is(a, id, Queued(q)) {
      assert id in Ids(Queue(s.fg, q)) <==> Is(b, id, Queued(q));
    }
  }

  lemma SendingRefines(s: System, p: PeerId, fileName: string, b: Book, a: Book)
    requires Structure(s) && Enabled(s, Send(p, fileName)) && Refines(s, b) && Conns(s.fg, p) != []
    requires a == b[s.fg.nextId := InFlight(p, Target(s.fg, p, s.fg.nextId))] && s.fg.nextId !in b
    ensures BooksQueues(Apply(s, Send(p, fileName)), a) && BooksFlights(Apply(s, Send(p, fileName)), a)
  {
    hide Known, InIds, OutIds, Tidy, Find, SendRequest, Established, DialFailure, OnHandlerEvent, Closed, LinkNext;
    var t := Apply(s, Send(p, fileName));
    SendRequestEffect(s.fg, p, fileName);
    forall q, id ensures id in Ids(Queue(t.fg, q)) <==> Is(a, id, Queued(q)) {
      assert Queue(t.fg, q) == Queue(s.fg, q);
    }
    forall q, c, id ensures id in InIds(t.fg, q, c) <==> Is(a, id, InFlight(q, c)) {
      assert id in InIds(s.fg, q, c) <==> Is(b, id, InFlight(q, c));
    }
  }

  lemma ConnectRefines(s: System, p: PeerId, c: ConnectionId, dialed: bool, b: Book)
    requires Structure(s) && Enabled(s, Connect(p, c, dialed)) && Refines(s, b)
    ensures Refines(Apply(s, Connect(p, c, dialed)), Post(b, HandOver(p, c)))
  {
    hide Known, InIds, OutIds, Tidy, Find, SendRequest, Established, DialFailure, OnHandlerEvent, Closed, LinkNext;
    var t, q := Apply(s, Connect(p, c, dialed)), Queue(s.fg, p);
    var a := Post(b, HandOver(p, c));
    BooksAfter(b, Queued(p), InFlight(p, c));
    OtherEstablishedIsZeroIff(s, p);
    EstablishedEffect(s.fg, p, c, OtherEstablished(s, p));
    StepEffect(s, Connect(p, c, dialed));
    PickHandovers(p, c, q);
    EndsAfter(s, t, Handovers(p, c, q), b, a);
    ConnectFlights(s, t, p, c, b, a);
    assert BooksQueues(t, a) by {
      forall r, id ensures id in Ids(Queue(t.fg, r)) <==> Is(a, id, Queued(r)) {
        assert id in Ids(Queue(s.fg, r)) <==> Is(b, id, Queued(r));
      }
    }
  }

  lemma ConnectFlights(s: System, t: System, p: PeerId, c: ConnectionId, b: Book, a: Book)
    requires Refines(s, b) && a == Post(b, HandOver(p, c)) && !Known(s.fg, p, c)
    requires AgreeElsewhere(s.fg, t.fg, p, c) && InIds(t.fg, p, c) == Elements(Ids(Queue(s.fg, p)))
    ensures BooksFlights(t, a)
  {
    BooksAfter(b, Queued(p), InFlight(p, c));
    forall q, d, id ensures id in InIds(t.fg, q, d) <==> Is(a, id, InFlight(q, d)) {
      assert id in InIds(s.fg, q, d) <==> Is(b, id, InFlight(q, d));
      assert id in Ids(Queue(s.fg, p)) <==> Is(b, id, Queued(p));
    }
  }

  lemma DialFailsRefines(s: System, f: Option<PeerId>, b: Book)
    requires Structure(s) && Ordered(s) && Enabled(s, DialFails(f)) && Refines(s, b)
    ensures Refines(Apply(s, DialFails(f)), Post(b, EntryOf(s, DialFails(f))))
  {
    if f.None? {
      SameBooks(s, Apply(s, DialFails(f)), b);
    } else {
      DialFailureRefines(s, f.value, b);
    }
  }

  lemma DialFailureRefines(s: System, p: PeerId, b: Book)
    requires Structure(s) && Ordered(s) && Enabled(s, DialFails(Some(p))) && Refines(s, b)
    ensures Refines(Apply(s, DialFails(Some(p))), Post(b, GiveUp(p)))
  {
    hide Known, InIds, OutIds, Tidy, Find, SendRequest, Established, DialFailure, OnHandlerEvent, Closed, LinkNext;
    var t, q, a := Apply(s, DialFails(Some(p))), Queue(s.fg, p), Post(b, GiveUp(p));
    DialFailureEffect(s.fg, Some(p));
    StepEffect(s, DialFails(Some(p)));
    BooksAfter(b, Queued(p), Done);
    SameTracked(s, t);
    FailuresAreEnds(s, p, b);
    EndsAfter(s, t, DialFailures(p, q), b, a);
    assert BooksQueues(t, a) by {
      forall r, id ensures id in Ids(Queue(t.fg, r)) <==> Is(a, id, Queued(r)) {
        assert id in Ids(Queue(s.fg, r)) <==> Is(b, id, Queued(r));
      }
    }
  }

  lemma FailuresAreEnds(s: System, p: PeerId, b: Book)
    requires Ordered(s) && BooksQueues(s, b)
    ensures var a := Post(b, GiveUp(p));
            forall id :: Times(Pick(OurEnd, DialFailures(p, Queue(s.fg, p))), id) ==
                         (if Is(a, id, Done) then 1 else 0) - (if Is(b, id, Done) then 1 else 0)
  {
    var q, a := Queue(s.fg, p), Post(b, GiveUp(p));
    BooksAfter(b, Queued(p), Done);
    PickDialFailures(p, q);
    QueueIncreases(s, p);
    forall id ensures Times(Ids(q), id) == (if Is(a, id, Done) then 1 else 0) - (if Is(b, id, Done) then 1 else 0) {
      TimesWhenIncreasing(Ids(q), id);
      assert id in Ids(q) <==> Is(b, id, Queued(p));
    }
  }

  lemma DeliverRefines(s: System, c: ConnectionId, b: Book)
    requires Structure(s) && Accounted(s) && Enabled(s, DeliverEvent(c)) && Refines(s, b)
    ensures var e := EntryOf(s, DeliverEvent(c)); Legal(b, e) && Refines(Apply(s, DeliverEvent(c)), Post(b, e))
  {
    hide Structure, Accounted, Apply, Refines;
    if IsKind(OutEnd, s.links[c].outbox[0]) {
      OutcomeIsTracked(s, c);
      OutcomeRefines(s, c, b);
    } else {
      OtherEventRefines(s, c, b);
    }
  }

  lemma OutcomeRefines(s: System, c: ConnectionId, b: Book)
    requires Structure(s) && Enabled(s, DeliverEvent(c)) && Refines(s, b)
    requires var e := s.links[c].outbox[0]; IsKind(OutEnd, e) && e.id in InIds(s.fg, s.links[c].peer, c)
    ensures var e := Finish(s.links[c].outbox[0].id); Legal(b, e) && Refines(Apply(s, DeliverEvent(c)), Post(b, e))
  {
    hide Known, InIds, OutIds, Tidy, Find, OnHandlerEvent, Pick, Queue, Log;
    var t, l, e := Apply(s, DeliverEvent(c)), s.links[c], s.links[c].outbox[0];
    var a := b[e.id := Done];
    HandlerEventEffect(s.fg, l.peer, c, e);
    DeliverEffect(s, c);
    ReportIsEnd(l.peer, e);
    QueuesStay(s.fg, t.fg);
    assert Is(b, e.id, InFlight(l.peer, c));
    EndsAfter(s, t, [Report(l.peer, e)], b, a);
    DeliverFlights(s, t, l.peer, c, e, b, a);
  }

  lemma ReportIsEnd(p: PeerId, e: HandlerEvent)
    ensures Pick(OurEnd, [Report(p, e)]) == if IsKind(OutEnd, e) then [e.id] else []
  {
  }

  lemma QueuesStay(f: FileGetState, g: FileGetState)
    requires f.queued == g.queued
    ensures forall p :: Queue(f, p) == Queue(g, p)
  {
  }

  lemma OtherEventRefines(s: System, c: ConnectionId, b: Book)
    requires Structure(s) && Enabled(s, DeliverEvent(c)) && Refines(s, b) && !IsKind(OutEnd, s.links[c].outbox[0])
    ensures Refines(Apply(s, DeliverEvent(c)), b)
  {
    hide Known, InIds, OutIds, Tidy, Find, OnHandlerEvent;
    var t, l, e := Apply(s, DeliverEvent(c)), s.links[c], s.links[c].outbox[0];
    HandlerEventEffect(s.fg, l.peer, c, e);
    DeliverEffect(s, c);
    ReportIsEnd(l.peer, e);
    QueuesStay(s.fg, t.fg);
    EndsAfter(s, t, [Report(l.peer, e)], b, b);
  }

  lemma DeliverFlights(s: System, t: System, p: PeerId, c: ConnectionId, e: HandlerEvent, b: Book, a: Book)
    requires Refines(s, b) && Is(b, e.id, InFlight(p, c)) && a == b[e.id := Done]
    requires AgreeElsewhere(s.fg, t.fg, p, c) && InIds(t.fg, p, c) == InIds(s.fg, p, c) - {e.id}
    ensures BooksFlights(t, a)
  {
    forall q, d, id ensures id in InIds(t.fg, q, d) <==> Is(a, id, InFlight(q, d)) {
      assert id in InIds(s.fg, q, d) <==> Is(b, id, InFlight(q, d));
    }
  }

  lemma ReportClosedRefines(s: System, c: ConnectionId, theirs: seq<RequestId>, ours: seq<RequestId>, b: Book)
    requires Structure(s) && Enabled(s, ReportClosed(c, theirs, ours)) && Refines(s, b)
    ensures Refines(Apply(s, ReportClosed(c, theirs, ours)), Post(b, Abandon(s.links[c].peer, c)))
  {
    hide Known, InIds, OutIds, Tidy, Find, SendRequest, Established, DialFailure, OnHandlerEvent, Closed, LinkNext;
    var t, p := Apply(s, ReportClosed(c, theirs, ours)), s.links[c].peer;
    var em, a := ClosedTheirs(p, theirs) + ClosedOurs(p, ours), Post(b, Abandon(p, c));
    ClosedEffect(s.fg, p, c, theirs, ours);
    ReportClosedEffect(s, c, theirs, ours);
    ClosuresAreEnds(s, p, c, theirs, ours, b);
    EndsAfter(s, t, em, b, a);
    CloseFlights(s, t, p, c, b, a);
    BooksAfter(b, InFlight(p, c), Done);
    assert forall r :: Queue(t.fg, r) == Queue(s.fg, r);
  }

  lemma ClosuresAreEnds(s: System, p: PeerId, c: ConnectionId, theirs: seq<RequestId>, ours: seq<RequestId>, b: Book)
    requires BooksFlights(s, b) && IsListing(ours, InIds(s.fg, p, c))
    ensures var a := Post(b, Abandon(p, c));
            forall id :: Times(Pick(OurEnd, ClosedTheirs(p, theirs) + ClosedOurs(p, ours)), id) ==
                         (if Is(a, id, Done) then 1 else 0) - (if Is(b, id, Done) then 1 else 0)
  {
    hide Known, InIds;
    var a := Post(b, Abandon(p, c));
    BooksAfter(b, InFlight(p, c), Done);
    PickClosed(p, theirs, ours);
    forall id ensures Times(ours, id) == (if Is(a, id, Done) then 1 else 0) - (if Is(b, id, Done) then 1 else 0) {
      TimesIsMultiplicity(ours, id);
      assert id in InIds(s.fg, p, c) <==> Is(b, id, InFlight(p, c));
    }
  }

  lemma CloseFlights(s: System, t: System, p: PeerId, c: ConnectionId, b: Book, a: Book)
    requires Refines(s, b) && a == Post(b, Abandon(p, c)) && AgreeElsewhere(s.fg, t.fg, p, c) && !Known(t.fg, p, c)
    ensures BooksFlights(t, a)
  {
    BooksAfter(b, InFlight(p, c), Done);
    forall q, d, id ensures id in InIds(t.fg, q, d) <==> Is(a, id, InFlight(q, d)) {
      assert id in InIds(s.fg, q, d) <==> Is(b, id, InFlight(q, d));
    }
  }
}
