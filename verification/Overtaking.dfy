/** How often FileGet reports the end of a received request. The outcome of a request can overtake
    the request itself, because a handler reports outcomes first; exactly then the end is reported
    once more when the connection closes. */
module Overtaking {
  import opened Basics
  import opened Messages
  import opened FileGetModel
  import opened Link
  import opened Swarm
  import opened ReceivedRequests
  import HM = HandlerModel
  import Runs

  /** The outcome of a received request was reported before the request was announced. */
  ghost predicate Overtaken(log: seq<Action>, id: RequestId) {
    exists i, j :: 0 <= i < j < |log| && id in Select(TheirOutcome, log[i]) && id in Select(Received, log[j])
  }

  lemma OvertakenAfter(log: seq<Action>, a: Action, id: RequestId)
    ensures Overtaken(log + [a], id) <==>
            Overtaken(log, id) || (id in Select(Received, a) && id in Pick(TheirOutcome, log))
  {
    var all := log + [a];
    if Overtaken(all, id) {
      var i, j :| 0 <= i < j < |all| && id in Select(TheirOutcome, all[i]) && id in Select(Received, all[j]);
      PickContains(TheirOutcome, log, log[i]);
      assert j < |log| ==> all[i] == log[i] && all[j] == log[j];
    }
    if Overtaken(log, id) {
      var i, j :| 0 <= i < j < |log| && id in Select(TheirOutcome, log[i]) && id in Select(Received, log[j]);
      assert all[i] == log[i] && all[j] == log[j];
    }
    if id in Select(Received, a) && id in Pick(TheirOutcome, log) {
      PickSource(TheirOutcome, log, id);
      var i :| 0 <= i < |log| && id in Select(TheirOutcome, log[i]);
      assert all[i] == log[i] && all[|log|] == a;
    }
  }

  lemma OvertakenUnchanged(log: seq<Action>, more: seq<Action>, id: RequestId)
    requires Pick(Received, more) == []
    ensures Overtaken(log + more, id) <==> Overtaken(log, id)
  {
    var all := log + more;
    if Overtaken(all, id) {
      var i, j :| 0 <= i < j < |all| && id in Select(TheirOutcome, all[i]) && id in Select(Received, all[j]);
      if j >= |log| {
        PickContains(Received, more, more[j - |log|]);
      }
      assert all[i] == log[i] && all[j] == log[j];
    }
    if Overtaken(log, id) {
      var i, j :| 0 <= i < j < |log| && id in Select(TheirOutcome, log[i]) && id in Select(Received, log[j]);
      assert all[i] == log[i] && all[j] == log[j];
    }
  }

  /** A request that was overtaken was announced and has its outcome. */
  lemma OvertakenIsSeen(s: System, id: RequestId)
    requires Overtaken(Log(s), id)
    ensures id in Seen(s, Received) && id in Seen(s, TheirOutcome)
  {
    var i, j :| 0 <= i < j < |Log(s)| && id in Select(TheirOutcome, Log(s)[i]) && id in Select(Received, Log(s)[j]);
    PickContains(TheirOutcome, Log(s), Log(s)[i]);
    PickContains(Received, Log(s), Log(s)[j]);
  }

  /** Only an outcome that comes after the announcement takes a request out of the account; closing
      its connection reports it. */
  ghost predicate Settled(s: System, id: RequestId) {
    id in Seen(s, Received) ==>
      (Untracked(s, id) && id !in Seen(s, TheirClosed) <==> id in Seen(s, TheirOutcome) && !Overtaken(Log(s), id))
  }

  ghost predicate ClosedApart(s: System) {
    forall c, id :: c in s.links && id in Seen(s, TheirClosed) ==> id !in s.links[c].accepted
  }

  ghost predicate Account(s: System) {
    ClosedApart(s) && forall id :: Settled(s, id)
  }

  // -------------------------------------------------------------------------------- invariance

  lemma QuietKeepsLinks(s: System, st: Step)
    requires Enabled(s, st) && Quiet(st)
    ensures s.links.Keys <= Apply(s, st).links.Keys
  {
    if st.PollBehaviour? {
      PollEffect(s);
    }
  }

  lemma QuietOvertakesNothing(s: System, st: Step, id: RequestId)
    requires Structure(s) && Enabled(s, st) && Quiet(st)
    ensures Overtaken(Log(Apply(s, st)), id) <==> Overtaken(Log(s), id)
  {
    hide Apply, Overtaken;
    if st.PollBehaviour? {
      PollEffect(s);
    } else {
      StepEffect(s, st);
      QuietEmits(s, st, Received);
      OvertakenUnchanged(Log(s), Emitted(s, st), id);
    }
  }

  lemma QuietKeepsAccount(s: System, st: Step)
    requires Structure(s) && ReceivedInv(s) && Account(s) && Enabled(s, st) && Quiet(st)
    ensures Account(Apply(s, st))
  {
    hide Apply, Enabled, Overtaken, LinksOk, Structure, LinkNext, SameTheirs, Settled, ClosedApart, IdsApart, EndsAreFinal;
    var t := Apply(s, st);
    QuietKeepsTheirs(s, st);
    QuietKeepsLinks(s, st);
    forall id ensures Settled(t, id) {
      QuietOvertakesNothing(s, st, id);
      QuietSettles(s, t, id);
    }
    AcceptedAfter(s, st);
    SameTheirsSeen(s, t);
    QuietKeepsApart(s, t, st);
  }

  lemma QuietSettles(s: System, t: System, id: RequestId)
    requires SameTheirs(s, t) && s.links.Keys <= t.links.Keys && Settled(s, id)
    requires Overtaken(Log(t), id) <==> Overtaken(Log(s), id)
    ensures Settled(t, id)
  {
    hide Overtaken, OutIds;
    SameTheirsSeen(s, t);
    assert Seen(t, TheirClosed) == Seen(s, TheirClosed);
    assert Untracked(t, id) <==> Untracked(s, id);
  }

  lemma QuietKeepsApart(s: System, t: System, st: Step)
    requires SameTheirs(s, t) && IdsApart(s) && EndsAreFinal(s) && ClosedApart(s)
    requires forall c :: c in t.links ==> t.links[c].accepted <= AcceptedBy(s, c) + NewlyAccepted(s, st, c)
    ensures ClosedApart(t)
  {
    assert Seen(t, TheirClosed) == Seen(s, TheirClosed);
    forall c, id | c in t.links && id in Seen(t, TheirClosed) ensures id !in t.links[c].accepted {
      assert id in Seen(s, Received);
      assert id < s.nextInbound;
    }
  }

  lemma DeliverOvertakes(s: System, d: ConnectionId, id: RequestId)
    requires Structure(s) && Enabled(s, DeliverEvent(d))
    ensures var e := s.links[d].outbox[0];
            Overtaken(Log(Apply(s, DeliverEvent(d))), id) <==>
            Overtaken(Log(s), id) || (e.Request? && e.id == id && id in Seen(s, TheirOutcome))
  {
    hide Apply, Overtaken;
    DeliverEffect(s, d);
    OvertakenAfter(Log(s), Report(s.links[d].peer, s.links[d].outbox[0]), id);
  }

  lemma DeliverKeepsAccount(s: System, d: ConnectionId)
    requires Structure(s) && ReceivedInv(s) && Account(s) && Enabled(s, DeliverEvent(d))
    ensures Account(Apply(s, DeliverEvent(d)))
  {
    hide Apply, Overtaken, LinksOk, Structure, OnHandlerEvent, Untracked, Settled, OutIds;
    var t, e := Apply(s, DeliverEvent(d)), s.links[d].outbox[0];
    ReportedIsAccepted(s, d);
    DeliveredFacts(s, d);
    AllTrackedAccepted(s);
    forall id ensures Settled(t, id) {
      DeliverOvertakes(s, d, id);
      UntrackedAfterEvent(s, t, d, e, id);
      if Overtaken(Log(s), id) {
        OvertakenIsSeen(s, id);
      }
      DeliverSettles(s, t, d, e, id);
    }
  }

  /** A request becomes tracked when it is announced, and untracked with its outcome. */
  lemma UntrackedAfterEvent(s: System, t: System, d: ConnectionId, e: HandlerEvent, id: RequestId)
    requires TrackDelivered(s, t, d, e) && IdsApart(s)
    requires forall c :: c in s.links ==> TheirsTrackedBy(s, c) <= s.links[c].accepted
    requires IsKind(InEnd, e) ==> e.id in s.links[d].accepted
    ensures Untracked(t, id) <==>
            if e.Request? && e.id == id then false
            else if IsKind(InEnd, e) && e.id == id then true
            else Untracked(s, id)
  {
    hide OutIds, Seen;
    if id == e.id && e.Request? {
      assert id in TheirsTrackedBy(t, d);
    } else if id == e.id && IsKind(InEnd, e) {
      forall c | c in t.links ensures id !in TheirsTrackedBy(t, c) {
        assert c != d ==> id !in s.links[c].accepted;
      }
    } else {
      forall c | c in s.links ensures id in TheirsTrackedBy(t, c) <==> id in TheirsTrackedBy(s, c) {}
    }
  }

  lemma DeliverSettles(s: System, t: System, d: ConnectionId, e: HandlerEvent, id: RequestId)
    requires SeenDelivered(s, t, e) && ClosedApart(s) && Settled(s, id) && d in s.links
    requires e.Request? ==> e.id !in Seen(s, Received)
    requires IsKind(InEnd, e) ==> e.id in s.links[d].accepted && e.id !in Seen(s, TheirOutcome)
    requires Overtaken(Log(t), id) <==> Overtaken(Log(s), id) || (e.Request? && e.id == id && id in Seen(s, TheirOutcome))
    requires Overtaken(Log(s), id) ==> id in Seen(s, Received) && id in Seen(s, TheirOutcome)
    requires Untracked(t, id) <==>
             if e.Request? && e.id == id then false
             else if IsKind(InEnd, e) && e.id == id then true
             else Untracked(s, id)
    ensures Settled(t, id)
  {
    hide Overtaken, Untracked, Seen;
  }

  lemma CloseKeepsAccount(s: System, d: ConnectionId, theirs: seq<RequestId>, ours: seq<RequestId>)
    requires Structure(s) && ReceivedInv(s) && Account(s) && Enabled(s, ReportClosed(d, theirs, ours))
    ensures Account(Apply(s, ReportClosed(d, theirs, ours)))
  {
    hide Apply, Overtaken, LinksOk, Structure, Seen, OutIds;
    var st := ReportClosed(d, theirs, ours);
    var t := Apply(s, st);
    ReportClosedEffect(s, d, theirs, ours);
    ClosingAnnouncesNothing(s, st);
    ClosedTracksTheirs(s, d, theirs, ours);
    SeenAfterClose(s, d, theirs, ours);
    AllTrackedAccepted(s);
    forall id ensures Settled(t, id) {
      assert Settled(s, id);
      OvertakenUnchanged(Log(s), Emitted(s, st), id);
      assert Untracked(s, id) <==> Untracked(t, id) && id !in TheirsTrackedBy(s, d);
    }
  }

  lemma ClosingAnnouncesNothing(s: System, st: Step)
    requires st.ReportClosed? && st.connection in s.links
    ensures Pick(Received, Emitted(s, st)) == []
  {
    var p := s.links[st.connection].peer;
    PickConcat(Received, ClosedTheirs(p, st.theirs), ClosedOurs(p, st.ours));
    PickClosedTheirs(p, st.theirs);
    PickClosedOurs(p, st.ours);
  }

  lemma AccountKept(s: System, st: Step)
    requires Structure(s) && ReceivedInv(s) && Account(s) && Enabled(s, st)
    ensures Account(Apply(s, st))
  {
    hide Structure, ReceivedInv, Account, Apply, Enabled;
    match st
    case DeliverEvent(d) => DeliverKeepsAccount(s, d);
    case ReportClosed(d, theirs, ours) => CloseKeepsAccount(s, d, theirs, ours);
    case _ => QuietKeepsAccount(s, st);
  }

  lemma {:induction false} AccountOverRuns(run: seq<System>, steps: seq<Step>, i: nat)
    requires IsRun(run, steps) && i <= |steps|
    ensures Account(run[i])
    decreases i
  {
    hide Account, Apply, Enabled, ReceivedInv, Structure;
    if i == 0 {
      AccountAtStart();
    } else {
      AccountOverRuns(run, steps, i - 1);
      Runs.InvOverRuns(run, steps, i - 1);
      AccountKept(run[i - 1], steps[i - 1]);
    }
  }

  lemma AccountAtStart()
    ensures Account(START)
  {
    assert Log(START) == [];
  }

  // ----------------------------------------------------------------------------------- theorems

  /** The number of times the end of a received request was reported. */
  function TheirEnds(s: System, id: RequestId): nat {
    Times(Pick(TheirOutcome, Log(s)), id) + Times(Pick(TheirClosed, Log(s)), id)
  }

  /** On every run, an announced request is tracked by at most one connection, and it is tracked or
      its end was reported once, with one report too many exactly when it was overtaken. */
  lemma ReceivedAccount(run: seq<System>, steps: seq<Step>, i: nat, id: RequestId)
    requires IsRun(run, steps) && i <= |steps| && id in Pick(Received, Log(run[i]))
    ensures var s := run[i];
            && TheirEnds(s, id) + (if Untracked(s, id) then 0 else 1) == 1 + (if Overtaken(Log(s), id) then 1 else 0)
            && (forall c, d :: c in s.links && d in s.links && id in TheirsTrackedBy(s, c) && id in TheirsTrackedBy(s, d)
                  ==> c == d)
  {
    hide Overtaken, Apply, Enabled, LinksOk;
    var s := run[i];
    Runs.InvOverRuns(run, steps, i);
    AccountOverRuns(run, steps, i);
    AllTrackedAccepted(s);
    assert Settled(s, id);
    if Overtaken(Log(s), id) {
      OvertakenIsSeen(s, id);
    }
    TimesPositive(Pick(TheirOutcome, Log(s)), id);
    TimesPositive(Pick(TheirClosed, Log(s)), id);
    assert Times(Pick(TheirOutcome, Log(s)), id) <= 1;
    assert Times(Pick(TheirClosed, Log(s)), id) <= 1;
  }

  /** The life of connection 3 to peer 7, whose only request times out while its answer is awaited. */
  function LateLife(n: nat): Link
    requires n <= 7
  {
    var request, timeout := Request(1, "f"), InboundTimeout(1);
    var l := NewLink(7).(accepted := {1});
    var waiting, ready := map[1 := HM.Waiting], map[1 := HM.Ready("f")];
    if n == 0 then NewLink(7)
    else if n == 1 then l.(inUpgrades := map[1 := Receiving], handler := HM.NEW_HANDLER.(inbound := waiting))
    else if n == 2 then l.(inUpgrades := map[1 := AwaitingReader], handler := HM.NEW_HANDLER.(inbound := ready))
    else if n == 3 then l.(handler := HM.NEW_HANDLER.(inbound := ready, events := [timeout]))
    else if n == 4 then l.(handler := HM.NEW_HANDLER.(inbound := ready), outbox := [timeout])
    else if n == 5 then l.(outbox := [timeout, request])
    else if n == 6 then l.(outbox := [request])
    else l
  }

  const LATE_MOVES: seq<LinkStep> := [
    Accept(1), RequestArrives(1, "f"), InboundDone(1, Some(HM.Timeout)),
    PollHandler(HM.NothingReady, 0), PollHandler(HM.Item(1), 0)]

  lemma LateLifeMoves(n: nat)
    requires n < 5
    ensures LinkReady(LateLife(n), LATE_MOVES[n]) && LinkNext(LateLife(n), LATE_MOVES[n]) == LateLife(n + 1)
  {
    if n < 2 {
      LateLifeBegins(n);
    }
  }

  lemma LateLifeBegins(n: nat)
    requires n < 2
    ensures LinkReady(LateLife(n), LATE_MOVES[n]) && LinkNext(LateLife(n), LATE_MOVES[n]) == LateLife(n + 1)
  {
  }

  /** The system while the request of LateLife is late. */
  function LateSystem(n: nat): System
    requires n <= 7
  {
    var timedOut := GenerateEvent(InboundFailure(7, 1, InTimedOut), Theirs);
    var announced := GenerateEvent(RequestReceived(7, 1, "f"), Theirs);
    START.(fg := FileGetState(1, map[7 := [Connection(3, if n == 7 then {1} else {}, {})]], map[],
                              if n < 6 then [] else if n == 6 then [timedOut] else [timedOut, announced]),
           nextInbound := if n == 0 then 1 else 2,
           links := map[3 := LateLife(n)],
           home := map[3 := 7])
  }

  lemma LateSystemMoves(n: nat)
    requires n < 5
    ensures Enabled(LateSystem(n), LinkMoves(3, LATE_MOVES[n]))
    ensures Apply(LateSystem(n), LinkMoves(3, LATE_MOVES[n])) == LateSystem(n + 1)
  {
    hide LinkNext, LateLife;
    LateLifeMoves(n);
    assert LateSystem(n).links[3 := LateLife(n + 1)] == LateSystem(n + 1).links;
  }

  lemma LateSystemConnects()
    ensures Enabled(START, Connect(7, 3, false)) && Apply(START, Connect(7, 3, false)) == LateSystem(0)
  {
    var t := Apply(START, Connect(7, 3, false));
    assert Conns(START.fg, 7) + [Connection(3, {}, {})] == [Connection(3, {}, {})];
    assert t.fg.connected == map[7 := [Connection(3, {}, {})]];
    assert t.links == map[3 := NewLink(7)];
  }

  lemma LateSystemDelivers(n: nat)
    requires 5 <= n < 7
    ensures Enabled(LateSystem(n), DeliverEvent(3)) && Apply(LateSystem(n), DeliverEvent(3)) == LateSystem(n + 1)
  {
    var s, t := LateSystem(n), Apply(LateSystem(n), DeliverEvent(3));
    assert Find(Conns(s.fg, 7), 3) == 0;
    assert s.links[3].outbox[1..] == LateLife(n + 1).outbox;
    assert t.links == map[3 := LateLife(n + 1)];
    if n == 5 {
      assert OutIds(s.fg, 7, 3) - {1} == {};
    } else {
      assert OutIds(s.fg, 7, 3) + {1} == {1};
    }
    assert Conns(s.fg, 7)[0 := Conns(LateSystem(n + 1).fg, 7)[0]] == Conns(LateSystem(n + 1).fg, 7);
    assert t.fg.connected[7] == LateSystem(n + 1).fg.connected[7];
    assert t.fg.connected == LateSystem(n + 1).fg.connected;
    assert t.fg.events == LateSystem(n + 1).fg.events;
  }

  /** Some run lets a request be overtaken by its own timeout. */
  lemma OvertakingHappens() returns (run: seq<System>, steps: seq<Step>)
    ensures IsRun(run, steps) && Overtaken(Log(run[|steps|]), 1)
  {
    hide Apply, Enabled, LateSystem;
    var moves := seq(5, n requires 0 <= n < 5 => LinkMoves(3, LATE_MOVES[n]));
    steps := [Connect(7, 3, false)] + moves + [DeliverEvent(3), DeliverEvent(3)];
    run := [START] + seq(8, n requires 0 <= n < 8 => LateSystem(n));
    LateSystemConnects();
    forall i | 0 <= i < |steps| ensures Enabled(run[i], steps[i]) && run[i + 1] == Apply(run[i], steps[i]) {
      if 1 <= i < 6 {
        LateSystemMoves(i - 1);
      } else if i >= 6 {
        LateSystemDelivers(i - 1);
      }
    }
    LateIsOvertaken();
  }

  lemma LateIsOvertaken()
    ensures Overtaken(Log(LateSystem(7)), 1)
  {
    var log := Log(LateSystem(7));
    assert log == LateSystem(7).fg.events;
    assert 1 in Select(TheirOutcome, log[0]) && 1 in Select(Received, log[1]);
  }
}
