/** What the event loop does with the response senders of received requests: each is used as soon as
    its request is taken, until a file cannot be opened; then the sender is dropped as the loop ends,
    and the upgrade that awaits it panics. */
module ServedRequests {
  import opened Basics
  import opened Messages
  import opened Commands
  import opened Link
  import opened EndToEnd
  import opened Downloads
  import EL = EventLoopModel
  import FGM = FileGetModel
  import Swarm
  import Runs
  import R = ReceivedRequests
  import W = Witnesses

  /** The application of the swarm is the loop: it keeps no sender, and a dropped one ends it. */
  ghost predicate SendersParted(w: World) {
    && w.sys.app == {}
    && (forall id: nat :: id in w.sys.replied <==> EL.Used(id) in w.loop.senders)
    && (forall id: nat :: id in w.sys.dropped <==> EL.Discarded(id) in w.loop.senders)
    && (w.outcome.Continue? ==> w.sys.dropped == {})
  }

  lemma SystemKeepsSenders(s: Swarm.System, st: Swarm.Step)
    requires Swarm.Enabled(s, st) && !st.Reply? && !st.DropSender? && (st.PollBehaviour? ==> !EventAhead(s))
    ensures var t := Swarm.Apply(s, st); t.app == s.app && t.replied == s.replied && t.dropped == s.dropped
  {
    hide LinkNext, FGM.Established, FGM.SendRequest, FGM.DialFailure, FGM.OnHandlerEvent, FGM.Closed;
    hide Swarm.Act, FGM.InIds, FGM.OutIds, LinkEnabled, FGM.Known;
    if st.PollBehaviour? {
      Swarm.PollEffect(s);
    }
  }

  lemma EventKeepsSenders(l: EL.LoopState, e: EL.LoopEvent, order: seq<nat>, listings: seq<seq<string>>)
    requires |listings| == |order| && !e.FileRequested?
    ensures EL.HandleEvent(l, e, order, listings).0.senders == l.senders
  {
    if e.Discovered? {
      AnswerPeersRemoves(l.(namespacePeers := EL.Learn(l.namespacePeers, e.registrations)), order, listings);
    }
  }

  lemma SendersKept(w: World, st: WorldStep)
    requires SendersParted(w) && Enabled(w, st)
    ensures SendersParted(Next(w, st))
  {
    hide Swarm.Apply, Swarm.Enabled, EL.HandleEvent;
    match st
    case Internal(step) => SystemKeepsSenders(w.sys, step);
    case TakeCommand(c, valid, writable) =>
      var send := SendFor(w, c, valid, writable);
      if send.Some? {
        SystemKeepsSenders(w.sys, send.value);
      }
    case TakeFileGetEvent(openable) => TakenEventKeepsSenders(w, openable);
    case TakeEvent(e, order, listings) => EventKeepsSenders(w.loop, e, order, listings);
  }

  lemma TakenEventKeepsSenders(w: World, openable: bool)
    requires SendersParted(w) && Enabled(w, TakeFileGetEvent(openable))
    ensures SendersParted(Next(w, TakeFileGetEvent(openable)))
  {
    hide Swarm.Act;
    var e := w.sys.fg.events[0].event;
    Swarm.PollEffect(w.sys);
    if e.RequestReceived? {
      FileRequestedEffect(w.loop, e.id, openable);
    } else {
      EventKeepsSenders(w.loop, Told(e, openable), [], []);
    }
  }

  lemma {:induction false} SendersOverRuns(run: seq<World>, steps: seq<WorldStep>, i: nat)
    requires IsRun(run, steps) && i <= |steps|
    ensures SendersParted(run[i])
    decreases i
  {
    hide SendersParted, Next, Enabled;
    if i == 0 {
      SendersAtStart(run, steps);
    } else {
      SendersOverRuns(run, steps, i - 1);
      assert Enabled(run[i - 1], steps[i - 1]) && run[i] == Next(run[i - 1], steps[i - 1]);
      SendersKept(run[i - 1], steps[i - 1]);
    }
  }

  lemma SendersAtStart(run: seq<World>, steps: seq<WorldStep>)
    requires IsRun(run, steps)
    ensures SendersParted(run[0])
  {
  }

  /** The step takes an announced request whose file cannot be opened. */
  predicate FailsToOpen(w: World, st: WorldStep, id: RequestId) {
    && st == TakeFileGetEvent(false) && EventAhead(w.sys)
    && w.sys.fg.events[0].event.RequestReceived? && w.sys.fg.events[0].event.id == id
  }

  /** On every run, a response sender is dropped exactly by the last step, when that fails to open the
      file; the loop ends with it. */
  lemma DroppedIffOpenFails(run: seq<World>, steps: seq<WorldStep>, i: nat, id: RequestId)
    requires IsRun(run, steps) && i <= |steps|
    ensures id in run[i].sys.dropped <==> i > 0 && FailsToOpen(run[i - 1], steps[i - 1], id)
    ensures id in run[i].sys.dropped ==> i == |steps| && run[i].outcome == EL.Exit(Io)
  {
    hide WorldInv, SendersParted, Next, Enabled;
    if i == 0 {
      NothingDropped(run, steps);
    } else {
      StepFacts(run, steps, i);
      SendersOverRuns(run, steps, i - 1);
      DropsOnlyThen(run[i - 1], steps[i - 1], id);
      if id in run[i].sys.dropped && i < |steps| {
        StepFacts(run, steps, i + 1);
      }
    }
  }

  lemma NothingDropped(run: seq<World>, steps: seq<WorldStep>)
    requires IsRun(run, steps)
    ensures run[0].sys.dropped == {}
  {
  }

  lemma DropsOnlyThen(w: World, st: WorldStep, id: RequestId)
    requires SendersParted(w) && w.outcome.Continue? && Enabled(w, st)
    ensures id in Next(w, st).sys.dropped <==> FailsToOpen(w, st, id)
    ensures id in Next(w, st).sys.dropped ==> Next(w, st).outcome == EL.Exit(Io)
  {
    hide Swarm.Act, Swarm.Enabled, EL.HandleEvent, EL.HandleCommand;
    match st
    case Internal(step) => InternalDropsNothing(w, step);
    case TakeCommand(c, valid, writable) =>
      var send := SendFor(w, c, valid, writable);
      if send.Some? {
        SystemKeepsSenders(w.sys, send.value);
      }
    case TakeFileGetEvent(openable) =>
      Swarm.PollEffect(w.sys);
      if w.sys.fg.events[0].event.RequestReceived? {
        FileRequestedEffect(w.loop, w.sys.fg.events[0].event.id, openable);
      }
    case TakeEvent(_, _, _) =>
  }

  lemma InternalDropsNothing(w: World, step: Swarm.Step)
    requires SendersParted(w) && w.outcome.Continue? && Enabled(w, Internal(step))
    ensures Next(w, Internal(step)).sys.dropped == {}
  {
    SystemKeepsSenders(w.sys, step);
  }

  /** As long as the loop goes on, every request it has taken was answered and no upgrade panics, nor can
      one. */
  lemma NoUpgradePanicsMeanwhile(run: seq<World>, steps: seq<WorldStep>, i: nat, c: ConnectionId, id: RequestId)
    requires IsRun(run, steps) && i <= |steps| && run[i].outcome.Continue?
    ensures var s := run[i].sys;
            && s.crashed == {} && Elements(Pick(Received, s.polled)) == s.replied
            && !Swarm.Enabled(s, Swarm.LinkMoves(c, SenderMissing(id)))
  {
    hide WorldInv, Next, Enabled, R.LinksOk;
    WorldInvOverRuns(run, steps, i);
    SystemOfWorld(run[i]);
    SendersOverRuns(run, steps, i);
    var s := run[i].sys;
    if Swarm.Enabled(s, Swarm.LinkMoves(c, SenderMissing(id))) {
      MissingWasDropped(s, c, id);
      assert false;
    }
  }

  lemma MissingWasDropped(s: Swarm.System, c: ConnectionId, id: RequestId)
    requires SystemOk(s) && Swarm.Enabled(s, Swarm.LinkMoves(c, SenderMissing(id)))
    ensures id in s.dropped
  {
    hide R.LinksOk, R.IdsApart, R.EndsAreFinal, R.ReportedOnce, R.SendersOwned, Runs.Causal, Runs.AnnouncedBy;
    R.SenderIsInOnePlace(s, c, id);
  }

  // ------------------------------------------------------------------------------- a file is missing

  /** The remote peer asks for a file that cannot be opened. */
  const MISSING_STEPS: seq<WorldStep> := [
    Internal(Swarm.Connect(7, 3, false)),
    Internal(Swarm.LinkMoves(3, W.ASKED_MOVES[0])),
    Internal(Swarm.LinkMoves(3, W.ASKED_MOVES[1])),
    Internal(Swarm.LinkMoves(3, W.ASKED_MOVES[2])),
    Internal(Swarm.DeliverEvent(3)),
    TakeFileGetEvent(false)]

  function MissingWorld(n: nat): World
    requires n <= 6
  {
    if n == 0 then Begin(9)
    else if n < 6 then Begin(9).(sys := W.AskedSystem(n - 1))
    else
      Begin(9).(sys := W.HoldingSystem().(app := {}, dropped := {1}),
                loop := Begin(9).loop.(senders := [EL.Discarded(1)]),
                outcome := EL.Exit(Io))
  }

  lemma MissingWorldMoves(n: nat)
    requires n < 6
    ensures Enabled(MissingWorld(n), MISSING_STEPS[n]) && Next(MissingWorld(n), MISSING_STEPS[n]) == MissingWorld(n + 1)
  {
    hide Swarm.Apply, Swarm.Enabled, W.AskedSystem;
    if n == 0 {
      W.AskedSystemConnects();
    } else if n < 4 {
      W.AskedSystemMoves(n - 1);
    } else if n == 4 {
      W.AskedSystemDelivers();
    } else {
      MissingFileDrops();
    }
  }

  lemma MissingFileDrops()
    ensures Enabled(MissingWorld(5), MISSING_STEPS[5]) && Next(MissingWorld(5), MISSING_STEPS[5]) == MissingWorld(6)
  {
    W.HoldingSystemPolled();
    var v := Next(MissingWorld(5), MISSING_STEPS[5]);
    assert v.sys == MissingWorld(6).sys;
    assert v.loop == MissingWorld(6).loop;
  }

  /** Some run ends with a file that cannot be opened, and the upgrade of the request for it can then
      panic. */
  lemma MissingFilePanics() returns (run: seq<World>)
    ensures IsRun(run, MISSING_STEPS) && run[6].outcome == EL.Exit(Io)
    ensures var s := run[6].sys;
            Swarm.Enabled(s, Swarm.LinkMoves(3, SenderMissing(1))) &&
            Swarm.Apply(s, Swarm.LinkMoves(3, SenderMissing(1))).crashed == {1}
  {
    hide Next, Enabled, MissingWorld;
    run := seq(7, n requires 0 <= n < 7 => MissingWorld(n));
    forall i | 0 <= i < 6 ensures Enabled(run[i], MISSING_STEPS[i]) && run[i + 1] == Next(run[i], MISSING_STEPS[i]) {
      MissingWorldMoves(i);
    }
    MissingWorldEnds();
  }

  lemma MissingWorldEnds()
    ensures MissingWorld(0) == Begin(9) && MissingWorld(6).outcome == EL.Exit(Io)
    ensures var s := MissingWorld(6).sys;
            Swarm.Enabled(s, Swarm.LinkMoves(3, SenderMissing(1))) &&
            Swarm.Apply(s, Swarm.LinkMoves(3, SenderMissing(1))).crashed == {1}
  {
    W.DroppedSenderCrashes();
    var held := W.HoldingSystem();
    assert Swarm.Apply(held, Swarm.DropSender(1)) == MissingWorld(6).sys;
  }
}
