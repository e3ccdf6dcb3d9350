/** Runs on which what the other theorems allow does happen: one of our own requests is reported as
    an inbound failure, and an upgrade panics because the application dropped its sender. */
module Witnesses {
  import opened Basics
  import opened Messages
  import opened FileGetModel
  import opened Link
  import opened Swarm
  import opened Progress
  import HM = HandlerModel

  /** Connection 3 to peer 7 while its first request from there is received, at move n. */
  function AskedLife(n: nat): Link
    requires n <= 4
  {
    var l := NewLink(7).(accepted := {1});
    var ready := HM.NEW_HANDLER.(inbound := map[1 := HM.Ready("f")]);
    if n == 0 then NewLink(7)
    else if n == 1 then l.(inUpgrades := map[1 := Receiving], handler := HM.NEW_HANDLER.(inbound := map[1 := HM.Waiting]))
    else if n == 2 then l.(inUpgrades := map[1 := AwaitingReader], handler := ready)
    else if n == 3 then l.(inUpgrades := map[1 := AwaitingReader], outbox := [Request(1, "f")])
    else l.(inUpgrades := map[1 := AwaitingReader])
  }

  const ASKED_MOVES: seq<LinkStep> := [Accept(1), RequestArrives(1, "f"), PollHandler(HM.Item(1), 0)]

  lemma AskedLifeMoves(n: nat)
    requires n < 3
    ensures LinkReady(AskedLife(n), ASKED_MOVES[n]) && LinkNext(AskedLife(n), ASKED_MOVES[n]) == AskedLife(n + 1)
  {
  }

  const ANNOUNCED := GenerateEvent(RequestReceived(7, 1, "f"), Theirs)

  /** The system while that happens; at 4 the request is announced to the behaviour. */
  function AskedSystem(n: nat): System
    requires n <= 4
  {
    START.(fg := FileGetState(1, map[7 := [Connection(3, if n == 4 then {1} else {}, {})]], map[],
                              if n == 4 then [ANNOUNCED] else []),
           nextInbound := if n == 0 then 1 else 2,
           links := map[3 := AskedLife(n)],
           home := map[3 := 7])
  }

  lemma AskedSystemConnects()
    ensures Enabled(START, Connect(7, 3, false)) && Apply(START, Connect(7, 3, false)) == AskedSystem(0)
  {
    var t := Apply(START, Connect(7, 3, false));
    assert Conns(START.fg, 7) + [Connection(3, {}, {})] == [Connection(3, {}, {})];
    assert t.fg.connected == map[7 := [Connection(3, {}, {})]];
    assert t.links == map[3 := NewLink(7)];
  }

  lemma AskedSystemMoves(n: nat)
    requires n < 3
    ensures Enabled(AskedSystem(n), LinkMoves(3, ASKED_MOVES[n]))
    ensures Apply(AskedSystem(n), LinkMoves(3, ASKED_MOVES[n])) == AskedSystem(n + 1)
  {
    AskedLifeMoves(n);
  }

  lemma AskedSystemDelivers()
    ensures Enabled(AskedSystem(3), DeliverEvent(3)) && Apply(AskedSystem(3), DeliverEvent(3)) == AskedSystem(4)
  {
    var s, t := AskedSystem(3), Apply(AskedSystem(3), DeliverEvent(3));
    assert Find(Conns(s.fg, 7), 3) == 0;
    assert s.links[3].outbox[1..] == AskedLife(4).outbox;
    assert t.links == map[3 := AskedLife(4)];
    assert OutIds(s.fg, 7, 3) + {1} == {1};
    assert Conns(s.fg, 7)[0 := Conns(AskedSystem(4).fg, 7)[0]] == Conns(AskedSystem(4).fg, 7);
    assert t.fg.connected[7] == AskedSystem(4).fg.connected[7];
    assert t.fg.connected == AskedSystem(4).fg.connected;
    assert t.fg.events == AskedSystem(4).fg.events;
  }

  /** The application has taken the event and holds the sender. */
  function HoldingSystem(): System {
    AskedSystem(4).(fg := AskedSystem(4).fg.(events := []), polled := [ANNOUNCED], app := {1})
  }

  lemma HoldingSystemPolled()
    ensures Enabled(AskedSystem(4), PollBehaviour) && Apply(AskedSystem(4), PollBehaviour) == HoldingSystem()
  {
    assert [] + [ANNOUNCED] == [ANNOUNCED];
  }

  /** The application drops the sender, and the upgrade that awaits it panics. */
  lemma DroppedSenderCrashes()
    ensures Enabled(HoldingSystem(), DropSender(1))
    ensures var s := Apply(HoldingSystem(), DropSender(1));
            Enabled(s, LinkMoves(3, SenderMissing(1))) && Apply(s, LinkMoves(3, SenderMissing(1))).crashed == {1}
  {
    var s := Apply(HoldingSystem(), DropSender(1));
    assert s.links[3].inUpgrades[1] == AwaitingReader;
    assert Pick(Received, s.fg.events) == [];
    assert Count(Asked, s.links[3].outbox, 1) == 0;
  }

  /** The states along a sequence of steps. */
  lemma {:induction false} StatesAlong(s: System, steps: seq<Step>, t: System) returns (states: seq<System>)
    requires Leads(s, steps, t)
    ensures |states| == |steps| + 1 && states[0] == s && states[|steps|] == t
    ensures forall i :: 0 <= i < |steps| ==> Enabled(states[i], steps[i]) && states[i + 1] == Apply(states[i], steps[i])
    decreases |steps|
  {
    hide Enabled, Apply;
    if steps == [] {
      states := [s];
    } else {
      var rest := StatesAlong(Apply(s, steps[0]), steps[1..], t);
      states := [s] + rest;
      forall i | 0 <= i < |steps| ensures Enabled(states[i], steps[i]) && states[i + 1] == Apply(states[i], steps[i]) {
        assert i > 0 ==> states[i] == rest[i - 1] && steps[i] == steps[1..][i - 1];
      }
    }
  }

  /** Some run lets an upgrade panic: the application drops the response sender it was given. */
  lemma UpgradePanics() returns (run: seq<System>, steps: seq<Step>)
    ensures IsRun(run, steps) && 1 in run[|steps|].crashed
  {
    hide Enabled, Apply, AskedSystem, HoldingSystem;
    var held := HoldingSystem();
    DroppedSenderCrashes();
    var s := Apply(held, DropSender(1));
    var t := Apply(s, LinkMoves(3, SenderMissing(1)));
    assert Leads(t, [], t);
    Prepend(s, LinkMoves(3, SenderMissing(1)), [], t);
    steps := [LinkMoves(3, SenderMissing(1))] + [];
    Prepend(held, DropSender(1), steps, t);
    steps := HoldsFirst([DropSender(1)] + steps, t);
    run := StatesAlong(START, steps, t);
  }

  /** From the start, the application comes to hold the sender, and goes on from there. */
  lemma HoldsFirst(more: seq<Step>, t: System) returns (steps: seq<Step>)
    requires Leads(HoldingSystem(), more, t)
    ensures Leads(START, steps, t)
  {
    hide Enabled, Apply, AskedSystem, HoldingSystem;
    HoldingSystemPolled();
    AskedSystemDelivers();
    AskedSystemConnects();
    steps := [PollBehaviour] + more;
    Prepend(AskedSystem(4), PollBehaviour, more, t);
    Prepend(AskedSystem(3), DeliverEvent(3), steps, t);
    steps := [DeliverEvent(3)] + steps;
    for n := 3 downto 0
      invariant Leads(AskedSystem(n), steps, t)
    {
      AskedSystemMoves(n);
      Prepend(AskedSystem(n), LinkMoves(3, ASKED_MOVES[n]), steps, t);
      steps := [LinkMoves(3, ASKED_MOVES[n])] + steps;
    }
    Prepend(START, Connect(7, 3, false), steps, t);
    steps := [Connect(7, 3, false)] + steps;
  }

  // ------------------------------------------------------------------ the failure that is mislabelled

  const REQUEST := OutboundRequest(1, "f")

  /** Our request is on its way over connection 3 when that breaks. */
  function BrokenSystem(broken: bool): System {
    START.(fg := FileGetState(2, map[7 := [Connection(3, {}, {1})]], map[], [NotifyHandler(7, 3, REQUEST)]),
           links := map[3 := NewLink(7).(open := !broken)],
           home := map[3 := 7],
           issued := map[1 := Purpose(7, "f")])
  }

  lemma BrokenSystemSends()
    ensures Enabled(AskedSystem(0), Send(7, "f")) && Apply(AskedSystem(0), Send(7, "f")) == BrokenSystem(false)
  {
    var s, t := AskedSystem(0), Apply(AskedSystem(0), Send(7, "f"));
    assert {} + {1} == {1};
    assert Conns(s.fg, 7)[0 := Connection(3, {}, {1})] == [Connection(3, {}, {1})];
    assert t.fg.connected == map[7 := [Connection(3, {}, {1})]];
    assert [] + [NotifyHandler(7, 3, REQUEST)] == [NotifyHandler(7, 3, REQUEST)];
    assert t.issued == map[1 := Purpose(7, "f")];
  }

  lemma BrokenSystemBreaks()
    ensures Enabled(BrokenSystem(false), LinkMoves(3, Break))
    ensures Apply(BrokenSystem(false), LinkMoves(3, Break)) == BrokenSystem(true)
  {
  }

  lemma BrokenSystemCloses()
    ensures Enabled(BrokenSystem(true), ReportClosed(3, [], [1]))
    ensures GenerateEvent(InboundFailure(7, 1, InClosed), Ours) in Log(Apply(BrokenSystem(true), ReportClosed(3, [], [1])))
  {
    var s := BrokenSystem(true);
    assert Find(Conns(s.fg, 7), 3) == 0;
    assert InIds(s.fg, 7, 3) == {1} && OutIds(s.fg, 7, 3) == {};
    var t := Apply(s, ReportClosed(3, [], [1]));
    assert t.fg.events[|t.fg.events| - 1] == ClosedOurs(7, [1])[0];
  }

  /** On some run one of our own requests is reported as an inbound failure. */
  lemma CloseMislabels() returns (run: seq<System>, steps: seq<Step>)
    ensures IsRun(run, steps) && GenerateEvent(InboundFailure(7, 1, InClosed), Ours) in Log(run[|steps|])
  {
    hide Enabled, Apply, AskedSystem, BrokenSystem;
    BrokenSystemCloses();
    BrokenSystemBreaks();
    BrokenSystemSends();
    AskedSystemConnects();
    var t := Apply(BrokenSystem(true), ReportClosed(3, [], [1]));
    assert Leads(t, [], t);
    Prepend(BrokenSystem(true), ReportClosed(3, [], [1]), [], t);
    steps := [ReportClosed(3, [], [1])] + [];
    Prepend(BrokenSystem(false), LinkMoves(3, Break), steps, t);
    steps := [LinkMoves(3, Break)] + steps;
    Prepend(AskedSystem(0), Send(7, "f"), steps, t);
    steps := [Send(7, "f")] + steps;
    Prepend(START, Connect(7, 3, false), steps, t);
    steps := [Connect(7, 3, false)] + steps;
    run := StatesAlong(START, steps, t);
  }
}
