/** No state of a run is a dead end for a request: from each of them some continuation of the run
    reports its outcome, and closing a connection reports whatever its handler dropped. */
module Progress {
  import opened Basics
  import opened Messages
  import opened FileGetModel
  import opened Link
  import opened Swarm
  import opened OwnRequests
  import opened Ledger
  import opened Runs

  /** The steps can be taken from `s` and lead to `t`. */
  ghost predicate Leads(s: System, steps: seq<Step>, t: System)
    decreases |steps|
  {
    if steps == [] then t == s else Enabled(s, steps[0]) && Leads(Apply(s, steps[0]), steps[1..], t)
  }

  lemma Prepend(s: System, st: Step, steps: seq<Step>, t: System)
    requires Enabled(s, st) && Leads(Apply(s, st), steps, t)
    ensures Leads(s, [st] + steps, t)
  {
    assert ([st] + steps)[1..] == steps;
  }

  lemma EndsWhenDone(s: System, b: Book, id: RequestId)
    requires Refines(s, b) && Is(b, id, Done)
    ensures Ends(s, id) == 1
  {
  }

  /** A queued request ends at the latest when the dial under way fails. */
  lemma {:induction false} QueuedCanEnd(s: System, b: Book, id: RequestId, p: PeerId) returns (steps: seq<Step>, t: System)
    requires Inv(s) && Refines(s, b) && Is(b, id, Queued(p))
    ensures Leads(s, steps, t) && Ends(t, id) == 1
    decreases |s.fg.events|
  {
    hide Inv, OwnInv, Refines;
    assert p in s.dials || Dial(p) in s.fg.events by {
      DialIsUnderWay(s, b, id, p);
    }
    var st := if p in s.dials then DialFails(Some(p)) else PollBehaviour;
    var u, a := Apply(s, st), Post(b, EntryOf(s, st));
    InvKept(s, st);
    InvIsOwn(s);
    StepRefinesEntry(s, st, b);
    if p in s.dials {
      EndsWhenDone(u, a, id);
      steps, t := [], u;
    } else {
      PollEffect(s);
      steps, t := QueuedCanEnd(u, a, id, p);
    }
    Prepend(s, st, steps, t);
    steps := [st] + steps;
  }

  lemma InvIsOwn(s: System)
    requires Inv(s)
    ensures OwnInv(s)
  {
  }

  lemma DialIsUnderWay(s: System, b: Book, id: RequestId, p: PeerId)
    requires Inv(s) && Refines(s, b) && Is(b, id, Queued(p))
    ensures p in s.dials || Dial(p) in s.fg.events
  {
    assert id in Ids(Queue(s.fg, p));
  }

  lemma FlightIsOnLink(s: System, b: Book, id: RequestId, p: PeerId, c: ConnectionId)
    requires Inv(s) && Refines(s, b) && Is(b, id, InFlight(p, c))
    ensures c in s.links && s.links[c].peer == p
  {
    assert id in InIds(s.fg, p, c);
    assert Known(s.fg, p, c);
  }

  /** A request in flight ends at the latest when its connection is closed. */
  lemma {:induction false} InFlightCanEnd(s: System, b: Book, id: RequestId, p: PeerId, c: ConnectionId)
      returns (steps: seq<Step>, t: System)
    requires Inv(s) && Refines(s, b) && Is(b, id, InFlight(p, c))
    ensures Leads(s, steps, t) && Ends(t, id) == 1
    decreases c in s.links && s.links[c].open, if c in s.links then |s.links[c].outbox| else 0
  {
    hide Inv, OwnInv, Refines;
    FlightIsOnLink(s, b, id, p, c);
    var l := s.links[c];
    var theirs := ListingExists(OutIds(s.fg, p, c));
    var ours := ListingExists(InIds(s.fg, p, c));
    var st :=
      if l.open then LinkMoves(c, Break)
      else if l.outbox != [] then DeliverEvent(c)
      else ReportClosed(c, theirs, ours);
    var u, a := Apply(s, st), Post(b, EntryOf(s, st));
    InvKept(s, st);
    InvIsOwn(s);
    StepRefinesEntry(s, st, b);
    if Is(a, id, Done) {
      EndsWhenDone(u, a, id);
      steps, t := [], u;
    } else {
      steps, t := InFlightCanEnd(u, a, id, p, c);
    }
    Prepend(s, st, steps, t);
    steps := [st] + steps;
  }

  /** From every state of every run, each issued request can still come to its one end. */
  lemma RequestsCanEnd(run: seq<System>, steps: seq<Step>, i: nat, id: RequestId)
      returns (more: seq<Step>, t: System)
    requires IsRun(run, steps) && i <= |steps| && 1 <= id < run[i].fg.nextId
    ensures Leads(run[i], more, t) && Ends(t, id) == 1
  {
    hide Inv, Enabled, Apply, Pick;
    var books := RunsRefineLedger(run, steps);
    InvOverRuns(run, steps, i);
    var s, b := run[i], books[i];
    assert Refines(s, b);
    match b[id]
    case Queued(p) => more, t := QueuedCanEnd(s, b, id, p);
    case InFlight(p, c) => more, t := InFlightCanEnd(s, b, id, p, c);
    case Done => more, t := [], s;
  }

  /** The places of a connection where a request has no outcome that the behaviour will hear of. */
  predicate Dropped(s: System, c: ConnectionId, id: RequestId) {
    c in s.links &&
    var l := s.links[c];
    || id in Pick(ToConnection(c), s.fg.events)
    || id in Ids(l.inbox)
    || id in Ids(l.handler.outbound)
    || id in l.outUpgrades
    || Count(OutEnd, l.handler.events, id) > 0
    || id in l.lost
  }

  lemma DroppedIsTracked(run: seq<System>, steps: seq<Step>, i: nat, c: ConnectionId, id: RequestId)
    requires IsRun(run, steps) && i <= |steps| && Dropped(run[i], c, id)
    ensures IsTracked(run[i], run[i].links[c].peer, c, id)
  {
    hide Inv, Apply, Enabled, Times, Count, Pick, Ids, IsTracked;
    TrackedIsInOnePlace(run, steps, i, c, id);
    TimesPositive(Pick(ToConnection(c), run[i].fg.events), id);
    TimesPositive(Ids(run[i].links[c].inbox), id);
    TimesPositive(Ids(run[i].links[c].handler.outbound), id);
  }

  /** Whatever a closed connection has dropped, in the handler or on the way to it, is reported when
      the connection is, not before and never again. */
  lemma DroppedIsReportedOnce(run: seq<System>, steps: seq<Step>, i: nat, j: nat, id: RequestId)
    requires IsRun(run, steps) && i < j <= |steps| && steps[i].ReportClosed?
    requires Dropped(run[i], steps[i].connection, id)
    ensures Ends(run[i], id) == 0 && Ends(run[i + 1], id) == 1 && Ends(run[j], id) == 1
  {
    hide Inv, Apply, Enabled, Pick, InIds, Known;
    var s, c := run[i], steps[i].connection;
    var p := s.links[c].peer;
    DroppedIsTracked(run, steps, i, c, id);
    var books := RunsRefineLedger(run, steps);
    assert Refines(s, books[i]) && Refines(run[i + 1], books[i + 1]);
    assert Is(books[i], id, InFlight(p, c));
    assert books[i + 1] == Post(books[i], EntryOf(s, steps[i]));
    EndsWhenDone(run[i + 1], books[i + 1], id);
    EndedForGood(run, steps, i + 1, j, id);
  }
}
