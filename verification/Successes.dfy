/** Runs on which everything goes well: a download is answered with its file, and a file is sent in full
    to a peer that asks for it. */
module Successes {
  import opened Basics
  import opened Messages
  import opened Commands
  import opened FileGetModel
  import opened Link
  import opened EndToEnd
  import opened Unanswered
  import EL = EventLoopModel
  import HM = HandlerModel
  import Swarm
  import Served = ServedRequests
  import W = Witnesses

  const ASKED := OutboundRequest(1, "f")

  const RESPONDED := GenerateEvent(ResponseReceived(7, 1), Ours)

  /** Command 0 asks for a file of bob, whose peer 7 is dialed and sends it. */
  const DOWNLOAD_STEPS: seq<WorldStep> := [
    HANGING_STEPS[0], HANGING_STEPS[1], HANGING_STEPS[2],
    Internal(Swarm.Connect(7, 3, true)),
    Internal(Swarm.PollBehaviour),
    Internal(Swarm.LinkMoves(3, DeliverRequest)),
    Internal(Swarm.LinkMoves(3, PollHandler(HM.NothingReady, 0))),
    Internal(Swarm.LinkMoves(3, OutboundDone(1, None))),
    Internal(Swarm.LinkMoves(3, PollHandler(HM.NothingReady, 0))),
    Internal(Swarm.DeliverEvent(3)),
    TakeFileGetEvent(true)]

  /** Connection 3 after n of the steps. */
  function DownloadLink(n: nat): Link
    requires 4 <= n <= 10
  {
    var l := NewLink(7);
    var idle := HM.NEW_HANDLER.(keepAlive := HM.Yes);
    if n == 4 then l
    else if n == 5 then l.(inbox := [ASKED])
    else if n == 6 then l.(handler := idle.(outbound := [ASKED]))
    else if n == 7 then l.(substreams := [ASKED], outUpgrades := multiset{1})
    else if n == 8 then l.(substreams := [ASKED], handler := idle.(events := [Response(1)]))
    else if n == 9 then l.(substreams := [ASKED], outbox := [Response(1)])
    else l.(substreams := [ASKED])
  }

  function DownloadSystem(n: nat): Swarm.System
    requires 4 <= n <= 11
  {
    var handedOver := NotifyHandler(7, 3, ASKED);
    var polled := [Dial(7), handedOver];
    Swarm.START.(
      fg := INITIAL.(nextId := 2,
                     connected := map[7 := [Connection(3, {}, if n < 10 then {1} else {})]],
                     events := if n == 4 then [handedOver] else if n == 10 then [RESPONDED] else []),
      links := map[3 := DownloadLink(if n == 11 then 10 else n)],
      home := map[3 := 7],
      polled := if n == 4 then [Dial(7)] else if n < 11 then polled else polled + [RESPONDED],
      issued := map[1 := Swarm.Purpose(7, "f")])
  }

  function DownloadWorld(n: nat): World
    requires n <= 11
  {
    if n < 4 then HangingWorld(n)
    else if n < 11 then HangingWorld(3).(sys := DownloadSystem(n))
    else
      var l := HangingWorld(3).loop;
      HangingWorld(3).(
        sys := DownloadSystem(11),
        loop := l.(pendingCommands := map[], pendingFileGets := map[],
                   answers := [Answer(0, Ok(Got(BOB, "f")))]))
  }

  ghost predicate Moves(n: nat)
    requires n < 11
  {
    Enabled(DownloadWorld(n), DOWNLOAD_STEPS[n]) && Next(DownloadWorld(n), DOWNLOAD_STEPS[n]) == DownloadWorld(n + 1)
  }

  lemma BobIsDialedFirst(n: nat)
    requires n < 3
    ensures Moves(n)
  {
    hide Enabled, Next, HangingWorld;
    if n == 0 {
      BobIsDiscovered();
    } else if n == 1 {
      BobIsAsked();
    } else {
      BobIsDialed();
    }
    assert Unanswered.Moves(n);
  }

  lemma BobIsConnected()
    ensures Moves(3)
  {
    hide Established, InIds, OutIds, Known, Swarm.OtherEstablished;
    var s := HangingSystem(3);
    var t := Swarm.Apply(s, Swarm.Connect(7, 3, true));
    EstablishedHandsOver(s.fg);
    NobodyIsConnected();
    assert t.fg == DownloadSystem(4).fg;
    assert t.links == map[3 := NewLink(7)];
    assert t.dials == multiset{};
    assert t == DownloadSystem(4);
  }

  lemma NobodyIsConnected()
    ensures Swarm.OtherEstablished(HangingSystem(3), 7) == 0
  {
    assert Conns(HangingSystem(3).fg, 7) == [];
    Swarm.OtherEstablishedIsZeroIff(HangingSystem(3), 7);
  }

  lemma EstablishedHandsOver(s: FileGetState)
    requires s == HangingSystem(3).fg
    ensures Established(s, 7, 3, 0) == DownloadSystem(4).fg
  {
    var added := s.(connected := s.connected[7 := Conns(s, 7) + [Connection(3, {}, {})]]);
    assert Conns(s, 7) + [Connection(3, {}, {})] == [Connection(3, {}, {})];
    var u := added.(queued := s.queued - {7});
    assert u.queued == map[];
    var sent := TrySend(u, 7, ASKED).0;
    assert Conns(u, 7)[0 := Connection(3, {}, {1})] == [Connection(3, {}, {1})];
    assert {} + {1} == {1};
    assert sent.connected == map[7 := [Connection(3, {}, {1})]];
    assert sent.events == [NotifyHandler(7, 3, ASKED)];
    assert Drain(u, 7, [ASKED]) == sent;
  }

  lemma RequestIsHandedOver()
    ensures Moves(4)
  {
    var s := DownloadSystem(4);
    var t := Swarm.Apply(s, Swarm.PollBehaviour);
    assert [] + [ASKED] == [ASKED];
    assert t.links == map[3 := DownloadLink(5)];
    assert t.polled == DownloadSystem(5).polled;
    assert t == DownloadSystem(5);
  }

  lemma LinkServes(n: nat)
    requires 5 <= n < 9
    ensures LinkReady(DownloadLink(n), DOWNLOAD_STEPS[n].step.move)
    ensures LinkNext(DownloadLink(n), DOWNLOAD_STEPS[n].step.move) == DownloadLink(n + 1)
  {
    if n < 7 {
      LinkAsks(n);
    }
  }

  lemma LinkAsks(n: nat)
    requires 5 <= n < 7
    ensures LinkReady(DownloadLink(n), DOWNLOAD_STEPS[n].step.move)
    ensures LinkNext(DownloadLink(n), DOWNLOAD_STEPS[n].step.move) == DownloadLink(n + 1)
  {
  }

  lemma RequestIsServed(n: nat)
    requires 5 <= n < 9
    ensures Moves(n)
  {
    hide LinkNext, DownloadLink;
    LinkServes(n);
    assert DownloadSystem(n).links[3 := DownloadLink(n + 1)] == DownloadSystem(n + 1).links;
  }

  lemma ResponseIsHeard()
    ensures Moves(9)
  {
    hide LinkNext, EL.HandleEvent, EL.HandleCommand, OnHandlerEvent;
    var s, t := DownloadSystem(9), Swarm.Apply(DownloadSystem(9), Swarm.DeliverEvent(3));
    ResponseIsReported();
    assert s.links[3].outbox[1..] == DownloadLink(10).outbox;
    assert t.links == map[3 := DownloadLink(10)];
    assert t == DownloadSystem(10);
  }

  lemma ResponseIsReported()
    ensures var f, e := DownloadSystem(9).fg, Response(1);
            OnHandlerEvent(f, 7, 3, e) == DownloadSystem(10).fg && AssertionHolds(f, 7, 3, e)
  {
    var f := DownloadSystem(9).fg;
    assert Find(Conns(f, 7), 3) == 0;
    assert InIds(f, 7, 3) - {1} == {};
    assert Conns(f, 7)[0 := Connection(3, {}, {})] == [Connection(3, {}, {})];
    assert OnHandlerEvent(f, 7, 3, Response(1)).connected == DownloadSystem(10).fg.connected;
    assert OnHandlerEvent(f, 7, 3, Response(1)).events == [RESPONDED];
  }

  lemma CommandIsAnswered()
    ensures Moves(10)
  {
    var s, t := DownloadSystem(10), Swarm.Apply(DownloadSystem(10), Swarm.PollBehaviour);
    assert t.polled == DownloadSystem(11).polled;
    assert t == DownloadSystem(11);
    var v := Next(DownloadWorld(10), DOWNLOAD_STEPS[10]);
    assert v.loop == DownloadWorld(11).loop;
  }

  /** Some run answers a download with its file. */
  lemma DownloadSucceeds() returns (run: seq<World>)
    ensures IsRun(run, DOWNLOAD_STEPS) && Answer(0, Ok(Got(BOB, "f"))) in run[11].loop.answers
  {
    hide Next, Enabled, HangingSystem;
    run := seq(12, n requires 0 <= n < 12 => DownloadWorld(n));
    assert run[0] == Begin(9);
    forall i | 0 <= i < 11 ensures Enabled(run[i], DOWNLOAD_STEPS[i]) && run[i + 1] == Next(run[i], DOWNLOAD_STEPS[i]) {
      DownloadMoves(i);
    }
  }

  lemma DownloadMoves(n: nat)
    requires n < 11
    ensures Moves(n)
  {
    hide Moves;
    if n < 3 {
      BobIsDialedFirst(n);
    } else if n == 3 {
      BobIsConnected();
    } else if n == 4 {
      RequestIsHandedOver();
    } else if n < 9 {
      RequestIsServed(n);
    } else if n == 9 {
      ResponseIsHeard();
    } else {
      CommandIsAnswered();
    }
  }

  // ------------------------------------------------------------------------------------- an upload

  const SENT := GenerateEvent(SentResponse(7, 1), Theirs)

  const UPLOAD_STEPS: seq<WorldStep> := [
    Served.MISSING_STEPS[0], Served.MISSING_STEPS[1], Served.MISSING_STEPS[2], Served.MISSING_STEPS[3],
    Served.MISSING_STEPS[4],
    TakeFileGetEvent(true),
    Internal(Swarm.LinkMoves(3, ReaderArrives(1))),
    Internal(Swarm.LinkMoves(3, InboundDone(1, None))),
    Internal(Swarm.LinkMoves(3, PollHandler(HM.NothingReady, 0))),
    Internal(Swarm.DeliverEvent(3))]

  function UploadLink(n: nat): Link
    requires 6 <= n <= 10
  {
    var l := W.AskedLife(4);
    if n == 6 then l
    else if n == 7 then l.(inUpgrades := map[1 := Copying])
    else if n == 8 then l.(inUpgrades := map[], handler := HM.NEW_HANDLER.(events := [ResponseSent(1)]))
    else if n == 9 then l.(inUpgrades := map[], outbox := [ResponseSent(1)])
    else l.(inUpgrades := map[])
  }

  function UploadSystem(n: nat): Swarm.System
    requires 6 <= n <= 10
  {
    var h := W.HoldingSystem();
    h.(fg := h.fg.(connected := map[7 := [Connection(3, if n < 10 then {1} else {}, {})]],
                   events := if n < 10 then [] else [SENT]),
       links := map[3 := UploadLink(n)], app := {}, replied := {1})
  }

  function UploadWorld(n: nat): World
    requires n <= 10
  {
    if n < 6 then Served.MissingWorld(n)
    else Begin(9).(sys := UploadSystem(n), loop := Begin(9).loop.(senders := [EL.Used(1)]))
  }

  ghost predicate UploadMoves(n: nat)
    requires n < 10
  {
    Enabled(UploadWorld(n), UPLOAD_STEPS[n]) && Next(UploadWorld(n), UPLOAD_STEPS[n]) == UploadWorld(n + 1)
  }

  lemma FileIsAskedFor(n: nat)
    requires n < 5
    ensures UploadMoves(n)
  {
    hide Enabled, Next, Served.MissingWorld;
    Served.MissingWorldMoves(n);
  }

  lemma FileIsOpened()
    ensures UploadMoves(5)
  {
    W.HoldingSystemPolled();
    var s := Swarm.Apply(W.HoldingSystem(), Swarm.Reply(1));
    assert s.app == {} && s.replied == {1};
    assert s == UploadSystem(6);
    var v := Next(UploadWorld(5), UPLOAD_STEPS[5]);
    assert v.loop == UploadWorld(6).loop;
  }

  lemma LinkSends(n: nat)
    requires 6 <= n < 9
    ensures LinkReady(UploadLink(n), UPLOAD_STEPS[n].step.move)
    ensures LinkNext(UploadLink(n), UPLOAD_STEPS[n].step.move) == UploadLink(n + 1)
  {
  }

  lemma FileIsSent(n: nat)
    requires 6 <= n < 9
    ensures UploadMoves(n)
  {
    hide LinkNext, UploadLink;
    LinkSends(n);
    assert UploadSystem(n).links[3 := UploadLink(n + 1)] == UploadSystem(n + 1).links;
  }

  lemma SendingIsHeard()
    ensures UploadMoves(9)
  {
    hide LinkNext, EL.HandleEvent, EL.HandleCommand, OnHandlerEvent;
    var s, t := UploadSystem(9), Swarm.Apply(UploadSystem(9), Swarm.DeliverEvent(3));
    SendingIsReported();
    assert s.links[3].outbox[1..] == UploadLink(10).outbox;
    assert t.links == map[3 := UploadLink(10)];
    assert t == UploadSystem(10);
  }

  lemma SendingIsReported()
    ensures var f, e := UploadSystem(9).fg, ResponseSent(1);
            OnHandlerEvent(f, 7, 3, e) == UploadSystem(10).fg && AssertionHolds(f, 7, 3, e)
  {
    var f := UploadSystem(9).fg;
    assert Find(Conns(f, 7), 3) == 0;
    assert OutIds(f, 7, 3) - {1} == {};
    assert Conns(f, 7)[0 := Connection(3, {}, {})] == [Connection(3, {}, {})];
    assert OnHandlerEvent(f, 7, 3, ResponseSent(1)).connected == UploadSystem(10).fg.connected;
    assert OnHandlerEvent(f, 7, 3, ResponseSent(1)).events == [SENT];
  }

  /** Some run sends a file in full to a peer that asked for it. */
  lemma UploadSucceeds() returns (run: seq<World>)
    ensures IsRun(run, UPLOAD_STEPS) && SENT in Swarm.Log(run[10].sys)
  {
    hide Next, Enabled;
    run := seq(11, n requires 0 <= n < 11 => UploadWorld(n));
    assert run[0] == Begin(9);
    forall i | 0 <= i < 10 ensures Enabled(run[i], UPLOAD_STEPS[i]) && run[i + 1] == Next(run[i], UPLOAD_STEPS[i]) {
      EachUploadMoves(i);
    }
    assert SENT in UploadSystem(10).fg.events;
  }

  lemma EachUploadMoves(n: nat)
    requires n < 10
    ensures UploadMoves(n)
  {
    hide UploadMoves;
    if n < 5 {
      FileIsAskedFor(n);
    } else if n == 5 {
      FileIsOpened();
    } else if n < 9 {
      FileIsSent(n);
    } else {
      SendingIsHeard();
    }
  }
}
