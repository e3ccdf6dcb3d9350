/** Which commands are never answered: exactly the downloads and listings whose request got no
    response, because the event loop ignores the failures of both protocols. */
module Unanswered {
  import opened Basics
  import opened Messages
  import opened Commands
  import opened EndToEnd
  import opened Downloads
  import EL = EventLoopModel
  import Swarm
  import FGM = FileGetModel
  import OwnRequests
  import Ledger
  import Runs

  // -------------------------------------------------------------------------------- downloads

  /** The loop has taken the response to the request. */
  ghost predicate Responded(w: World, id: RequestId) {
    id in Pick(Answered, w.sys.polled)
  }

  lemma {:induction false} PickedStays(k: ActionKey, before: seq<Action>, after: seq<Action>, id: RequestId)
    requires before <= after && id in Pick(k, before)
    ensures id in Pick(k, after)
  {
    assert after == before + after[|before|..];
    PickConcat(k, before, after[|before|..]);
  }

  /** A download taken up is pending, for its request, until the response is taken, and gone from then on. */
  ghost predicate DownloadState(w: World, k: nat, id: RequestId) {
    && k < w.nextCommand && 1 <= id < w.sys.fg.nextId
    && (if Responded(w, id) then k !in w.loop.pendingCommands
        else id in w.loop.pendingFileGets && w.loop.pendingFileGets[id] == k && k in w.loop.pendingCommands)
  }

  lemma DownloadStarts(w: World, st: WorldStep, k: nat, id: RequestId, p: PeerId, userName: string, fileName: string)
    requires WorldInv(w) && Enabled(w, st) && Requests(w, st, k, id, p, userName, fileName)
    requires WorldInv(Next(w, st)) && Next(w, st).outcome.Continue?
    ensures DownloadState(Next(w, st), k, id)
  {
    hide SystemOk, Swarm.Apply, EL.Partition, CommandsOwned;
    var send := SendFor(w, GetFile(userName, fileName), true, true);
    SystemOfWorld(w);
    AwaitedAfterStep(w.sys, send.value);
    assert AwaitsFile(Next(w, st).sys, id);
  }

  lemma DownloadGoesOn(w: World, st: WorldStep, k: nat, id: RequestId)
    requires WorldInv(w) && Enabled(w, st) && DownloadState(w, k, id)
    requires WorldInv(Next(w, st)) && Next(w, st).outcome.Continue?
    ensures DownloadState(Next(w, st), k, id)
  {
    hide SystemOk, EL.Partition, CommandsOwned, Next, Enabled, EL.HandleEvent;
    var v := Next(w, st);
    StepGrows(w, st);
    CommandsStay(w, st);
    IdsGrow(w, st);
    if Responded(w, id) {
      PickedStays(Answered, w.sys.polled, v.sys.polled, id);
    } else if Responded(v, id) {
      ResponseEndsIt(w, st, k, id);
    } else {
      assert AwaitsFile(v.sys, id);
      PendingWhileAwaited(v, id);
    }
  }

  lemma IdsGrow(w: World, st: WorldStep)
    requires WorldInv(w) && Enabled(w, st)
    ensures w.sys.fg.nextId <= Next(w, st).sys.fg.nextId
  {
    hide SystemOk, Swarm.Apply, Swarm.Enabled, EL.Partition, CommandsOwned, EL.HandleEvent, EL.HandleCommand;
    match st
    case Internal(step) => SystemIdsGrow(w.sys, step);
    case TakeCommand(c, valid, writable) =>
      if SendFor(w, c, valid, writable).Some? {
        SystemIdsGrow(w.sys, SendFor(w, c, valid, writable).value);
      }
    case TakeFileGetEvent(openable) => TakenEventKeepsIds(w, openable);
    case TakeEvent(_, _, _) =>
  }

  lemma SystemIdsGrow(s: Swarm.System, st: Swarm.Step)
    requires SystemOk(s) && Swarm.Enabled(s, st)
    ensures s.fg.nextId <= Swarm.Apply(s, st).fg.nextId
  {
    hide Swarm.Apply, Swarm.Enabled;
    if st.PollBehaviour? {
      Swarm.PollEffect(s);
    } else {
      Swarm.StepEffect(s, st);
    }
  }

  lemma TakenEventKeepsIds(w: World, openable: bool)
    requires WorldInv(w) && Enabled(w, TakeFileGetEvent(openable))
    ensures Next(w, TakeFileGetEvent(openable)).sys.fg.nextId == w.sys.fg.nextId
  {
    hide SystemOk, EL.Partition, CommandsOwned, EL.HandleEvent, Swarm.Act;
    Swarm.PollEffect(w.sys);
  }

  /** The step that takes the response removes the command. */
  lemma ResponseEndsIt(w: World, st: WorldStep, k: nat, id: RequestId)
    requires WorldInv(w) && Enabled(w, st) && DownloadState(w, k, id) && !Responded(w, id) && Responded(Next(w, st), id)
    ensures k !in Next(w, st).loop.pendingCommands
  {
    hide SystemOk, EL.Partition, CommandsOwned, EL.HandleCommand;
    match st
    case Internal(step) => PolledBy(w.sys, step, id);
    case TakeCommand(c, valid, writable) =>
      CommandPollsNothing(w, c, valid, writable);
      assert false;
    case TakeFileGetEvent(openable) => TakenResponse(w, openable, id);
    case TakeEvent(_, _, _) =>
  }

  lemma CommandPollsNothing(w: World, c: Command, valid: bool, writable: bool)
    requires Enabled(w, TakeCommand(c, valid, writable))
    ensures Next(w, TakeCommand(c, valid, writable)).sys.polled == w.sys.polled
  {
    hide Swarm.Enabled, EL.HandleCommand;
  }

  /** Only a poll of its response makes a request count as responded to. */
  lemma PolledBy(s: Swarm.System, st: Swarm.Step, id: RequestId)
    requires SystemOk(s) && Swarm.Enabled(s, st)
    requires id !in Pick(Answered, s.polled) && id in Pick(Answered, Swarm.Apply(s, st).polled)
    ensures st.PollBehaviour? && EventAhead(s) && s.fg.events[0].event.ResponseReceived? && s.fg.events[0].event.id == id
  {
    hide Swarm.Apply, Swarm.Enabled;
    if st.PollBehaviour? {
      Swarm.PollEffect(s);
      PickConcat(Answered, s.polled, [s.fg.events[0]]);
      assert Pick(Answered, [s.fg.events[0]]) == Select(Answered, s.fg.events[0]);
    } else {
      Swarm.StepEffect(s, st);
    }
  }

  lemma TakenResponse(w: World, openable: bool, id: RequestId)
    requires WorldInv(w) && Enabled(w, TakeFileGetEvent(openable))
    requires !Responded(w, id) && Responded(Next(w, TakeFileGetEvent(openable)), id)
    requires id in w.loop.pendingFileGets && w.loop.pendingFileGets[id] in w.loop.pendingCommands
    ensures w.loop.pendingFileGets[id] !in Next(w, TakeFileGetEvent(openable)).loop.pendingCommands
  {
    hide SystemOk, EL.Partition, CommandsOwned, Swarm.Act, EL.HandleEvent, FilesAwaited;
    Swarm.PollEffect(w.sys);
    PolledBy(w.sys, Swarm.PollBehaviour, id);
    ReceivedEnds(w.loop, id);
  }

  lemma ReceivedEnds(l: EL.LoopState, id: RequestId)
    requires id in l.pendingFileGets
    ensures l.pendingFileGets[id] !in EL.HandleEvent(l, EL.FileReceived(id), [], []).0.pendingCommands
  {
  }

  /** On every run, a download taken up is pending as long as no response to its request is taken, and
      not pending afterwards. */
  lemma {:induction false} DownloadPendingIff(run: seq<World>, steps: seq<WorldStep>, m: nat, i: nat,
                                              k: nat, id: RequestId, p: PeerId, userName: string, fileName: string)
    requires IsRun(run, steps) && m < i <= |steps| && run[i].outcome.Continue?
    requires Requests(run[m], steps[m], k, id, p, userName, fileName)
    ensures DownloadState(run[i], k, id)
    ensures k in run[i].loop.pendingCommands <==> !Responded(run[i], id)
    decreases i
  {
    hide WorldInv, Next, Enabled, Requests, Responded;
    StepFacts(run, steps, i);
    if i == m + 1 {
      DownloadStarts(run[m], steps[m], k, id, p, userName, fileName);
    } else {
      DownloadPendingIff(run, steps, m, i - 1, k, id, p, userName, fileName);
      DownloadGoesOn(run[i - 1], steps[i - 1], k, id);
    }
  }

  /** An end other than a response leaves no room for a response. */
  lemma {:induction false} EndsBeyondAnswers(actions: seq<Action>, a: Action, id: RequestId)
    requires forall b :: b in actions ==> Runs.Tagged(b)
    requires a in actions && id in Select(OurEnd, a) && !a.event.ResponseReceived?
    ensures Times(Pick(Answered, actions), id) < Times(Pick(OurEnd, actions), id)
  {
    var b, rest := actions[0], actions[1..];
    assert Runs.Tagged(b);
    TimesConcat(Select(Answered, b), Pick(Answered, rest), id);
    TimesConcat(Select(OurEnd, b), Pick(OurEnd, rest), id);
    if b == a {
      AnswersAreEnds(rest, id);
      TimesPositive(Select(OurEnd, a), id);
    } else {
      EndsBeyondAnswers(rest, a, id);
    }
  }

  /** Once the terminal event of its request is taken, a download is pending exactly if that event is not
      the response. */
  lemma EndDecides(run: seq<World>, steps: seq<WorldStep>, m: nat, i: nat,
                   k: nat, id: RequestId, p: PeerId, userName: string, fileName: string, a: Action)
    requires IsRun(run, steps) && m < i <= |steps| && run[i].outcome.Continue?
    requires Requests(run[m], steps[m], k, id, p, userName, fileName)
    requires a in run[i].sys.polled && id in Select(OurEnd, a)
    ensures k in run[i].loop.pendingCommands <==> !a.event.ResponseReceived?
  {
    hide WorldInv, Next, Enabled, Requests;
    DownloadPendingIff(run, steps, m, i, k, id, p, userName, fileName);
    if a.event.ResponseReceived? {
      PickContains(Answered, run[i].sys.polled, a);
    } else {
      WorldInvOverRuns(run, steps, i);
      SystemOfWorld(run[i]);
      NoResponseBeside(run[i].sys, a, id);
    }
  }

  lemma NoResponseBeside(s: Swarm.System, a: Action, id: RequestId)
    requires SystemOk(s) && a in s.polled && id in Select(OurEnd, a) && !a.event.ResponseReceived?
    ensures id !in Pick(Answered, s.polled)
  {
    hide OwnRequests.OwnInv;
    var b :| Ledger.Refines(s, b);
    assert Times(Pick(OurEnd, Swarm.Log(s)), id) <= 1;
    EndsBeyondAnswers(Swarm.Log(s), a, id);
    PickConcat(Answered, s.polled, s.fg.events);
    TimesPositive(Pick(Answered, Swarm.Log(s)), id);
  }

  /** The request has come to its end, and not with a response. */
  ghost predicate Failed(s: Swarm.System, id: RequestId) {
    Runs.Ends(s, id) == 1 && id !in Pick(Answered, Swarm.Log(s))
  }

  lemma FailedForGood(s: Swarm.System, t: Swarm.System, id: RequestId)
    requires SystemOk(t) && Swarm.Log(s) <= Swarm.Log(t) && Failed(s, id)
    ensures Failed(t, id)
  {
    hide OwnRequests.OwnInv;
    var more := Swarm.Log(t)[|Swarm.Log(s)|..];
    assert Swarm.Log(t) == Swarm.Log(s) + more;
    var b :| Ledger.Refines(t, b);
    assert Times(Pick(OurEnd, Swarm.Log(t)), id) <= 1;
    PickConcat(OurEnd, Swarm.Log(s), more);
    TimesConcat(Pick(OurEnd, Swarm.Log(s)), Pick(OurEnd, more), id);
    AnswersAreEnds(more, id);
    PickConcat(Answered, Swarm.Log(s), more);
    TimesPositive(Pick(Answered, more), id);
  }

  lemma {:induction false} StaysFailed(run: seq<World>, steps: seq<WorldStep>, i: nat, j: nat, id: RequestId)
    requires IsRun(run, steps) && i <= j <= |steps| && Failed(run[i].sys, id)
    ensures Failed(run[j].sys, id)
    decreases j
  {
    hide WorldInv, Next, Enabled, Failed;
    if i < j {
      StaysFailed(run, steps, i, j - 1, id);
      StepFacts(run, steps, j);
      StepGrows(run[j - 1], steps[j - 1]);
      SystemOfWorld(run[j]);
      FailedForGood(run[j - 1].sys, run[j].sys, id);
    }
  }

  /** The loop ignores failures: a download whose request has failed is pending and unanswered for good. */
  lemma FailedDownloadHangs(run: seq<World>, steps: seq<WorldStep>, m: nat, i: nat, j: nat,
                            k: nat, id: RequestId, p: PeerId, userName: string, fileName: string)
    requires IsRun(run, steps) && m < i <= j <= |steps| && run[j].outcome.Continue?
    requires Requests(run[m], steps[m], k, id, p, userName, fileName) && Failed(run[i].sys, id)
    ensures k in run[j].loop.pendingCommands && Answers(run[j].loop.answers, k) == 0
  {
    hide WorldInv, Next, Enabled, Requests;
    StaysFailed(run, steps, i, j, id);
    PickConcat(Answered, run[j].sys.polled, run[j].sys.fg.events);
    DownloadPendingIff(run, steps, m, j, k, id, p, userName, fileName);
    WorldInvOverRuns(run, steps, j);
    PendingWhileAwaited(run[j], id);
  }

  lemma PendingWhileAwaited(w: World, id: RequestId)
    requires WorldInv(w) && w.outcome.Continue? && id in w.loop.pendingFileGets
    ensures var k := w.loop.pendingFileGets[id];
            k in w.loop.pendingCommands && Answers(w.loop.answers, k) == 0
  {
    hide SystemOk;
    assert w.loop.pendingFileGets[id] in EL.WaitingForFile(w.loop);
  }

  // --------------------------------------------------------------------------------- listings

  /** The step takes command k, a listing for a user with a known peer, and sends request r for it. */
  predicate Lists(w: World, st: WorldStep, k: nat, r: EL.ListId) {
    && st.TakeCommand? && st.command.ListFiles? && st.valid && st.command.userName in w.loop.namespacePeers
    && w.nextCommand == k && w.nextListId == r
  }

  /** The step takes the response to listing request r. */
  predicate AnswersList(st: WorldStep, r: EL.ListId) {
    st.TakeEvent? && st.event.ListFilesAnswered? && st.event.id == r
  }

  ghost predicate ListingState(w: World, k: nat, r: EL.ListId, answered: bool) {
    && k < w.nextCommand && r < w.nextListId
    && (if answered then k !in w.loop.pendingCommands
        else r in w.loop.pendingListFiles && w.loop.pendingListFiles[r] == k && k in w.loop.pendingCommands)
  }

  lemma ListingStarts(w: World, st: WorldStep, k: nat, r: EL.ListId)
    requires Enabled(w, st) && Lists(w, st, k, r)
    ensures ListingState(Next(w, st), k, r, false)
  {
  }

  /** Nothing but its own answer takes a listing off the pending ones. */
  lemma EventKeepsListing(l: EL.LoopState, e: EL.LoopEvent, order: seq<nat>, listings: seq<seq<string>>, r: EL.ListId)
    requires EL.Partition(l) && EL.Iterates(l, e, order, listings) && r in l.pendingListFiles
    requires !(e.ListFilesAnswered? && e.id == r)
    ensures var m := EL.HandleEvent(l, e, order, listings).0;
            && r in m.pendingListFiles && m.pendingListFiles[r] == l.pendingListFiles[r]
            && l.pendingListFiles[r] in m.pendingCommands
  {
    var k := l.pendingListFiles[r];
    assert k in EL.WaitingForNames(l);
    if e.Discovered? {
      EL.DiscoveredEffect(l, e.registrations, order, listings);
    } else if e.FileReceived? && e.id in l.pendingFileGets {
      assert l.pendingFileGets[e.id] in EL.WaitingForFile(l);
    }
  }

  lemma CommandKeepsListing(w: World, c: Command, valid: bool, writable: bool, r: EL.ListId)
    requires WorldInv(w) && Enabled(w, TakeCommand(c, valid, writable)) && r in w.loop.pendingListFiles
    requires w.loop.pendingListFiles[r] in w.loop.pendingCommands
    ensures var m := Next(w, TakeCommand(c, valid, writable)).loop;
            && r in m.pendingListFiles && m.pendingListFiles[r] == w.loop.pendingListFiles[r]
            && w.loop.pendingListFiles[r] in m.pendingCommands
  {
    hide SystemOk, Swarm.Apply, Swarm.Enabled, EL.Partition, CommandsOwned;
    assert r < w.nextListId;
  }

  lemma ListingGoesOn(w: World, st: WorldStep, k: nat, r: EL.ListId)
    requires WorldInv(w) && Enabled(w, st) && ListingState(w, k, r, false) && !AnswersList(st, r)
    ensures ListingState(Next(w, st), k, r, false)
  {
    hide SystemOk, Swarm.Apply, Swarm.Enabled, EL.Partition, CommandsOwned, EL.HandleEvent, EL.HandleCommand;
    match st
    case Internal(_) =>
    case TakeCommand(c, valid, writable) => CommandKeepsListing(w, c, valid, writable, r);
    case TakeFileGetEvent(openable) =>
      NothingToIterate(w.loop, Told(w.sys.fg.events[0].event, openable));
      EventKeepsListing(w.loop, Told(w.sys.fg.events[0].event, openable), [], [], r);
    case TakeEvent(e, order, listings) => EventKeepsListing(w.loop, e, order, listings, r);
  }

  lemma NothingToIterate(l: EL.LoopState, e: EL.LoopEvent)
    requires !e.Discovered?
    ensures EL.Iterates(l, e, [], [])
  {
  }

  lemma ListingEnds(w: World, st: WorldStep, k: nat, r: EL.ListId)
    requires WorldInv(w) && Enabled(w, st) && ListingState(w, k, r, false) && AnswersList(st, r)
    ensures ListingState(Next(w, st), k, r, true)
  {
    hide SystemOk, Swarm.Apply, Swarm.Enabled, EL.Partition, CommandsOwned;
  }

  lemma ListingIsOver(w: World, st: WorldStep, k: nat, r: EL.ListId)
    requires WorldInv(w) && Enabled(w, st) && ListingState(w, k, r, true)
    ensures ListingState(Next(w, st), k, r, true)
  {
    hide WorldInv, Swarm.Apply, Swarm.Enabled, EL.HandleEvent, EL.HandleCommand;
    CommandsStay(w, st);
  }

  /** Whether one of the steps from m + 1 up to i takes the response to the listing request. */
  predicate AnswerTaken(steps: seq<WorldStep>, m: nat, i: nat, r: EL.ListId)
    requires i <= |steps|
  {
    exists n :: m < n < i && AnswersList(steps[n], r)
  }

  lemma {:induction false} ListingStateOverRuns(run: seq<World>, steps: seq<WorldStep>, m: nat, i: nat, k: nat, r: EL.ListId)
    requires IsRun(run, steps) && m < i <= |steps| && Lists(run[m], steps[m], k, r)
    ensures ListingState(run[i], k, r, AnswerTaken(steps, m, i, r))
    decreases i
  {
    hide WorldInv, Next, Enabled, Lists, AnswersList, ListingState;
    StepFacts(run, steps, i);
    if i == m + 1 {
      ListingStarts(run[m], steps[m], k, r);
    } else {
      ListingStateOverRuns(run, steps, m, i - 1, k, r);
      if AnswerTaken(steps, m, i - 1, r) {
        ListingIsOver(run[i - 1], steps[i - 1], k, r);
      } else if AnswersList(steps[i - 1], r) {
        ListingEnds(run[i - 1], steps[i - 1], k, r);
      } else {
        ListingGoesOn(run[i - 1], steps[i - 1], k, r);
      }
    }
  }

  /** On every run, a listing taken up is pending exactly as long as its response is not taken; a failure
      of its request, which the loop only logs, leaves it pending. */
  lemma ListingPendingIff(run: seq<World>, steps: seq<WorldStep>, m: nat, i: nat, k: nat, r: EL.ListId)
    requires IsRun(run, steps) && m < i <= |steps| && Lists(run[m], steps[m], k, r)
    ensures k in run[i].loop.pendingCommands <==> !AnswerTaken(steps, m, i, r)
  {
    hide Next, Enabled, Lists, AnswersList;
    ListingStateOverRuns(run, steps, m, i, k, r);
  }

  // ----------------------------------------------------------------------- a download that hangs

  const BOB := "bob"

  /** Command 0 asks for a file of bob, whose peer 7 cannot be dialed. */
  const HANGING_STEPS: seq<WorldStep> := [
    TakeEvent(EL.Discovered([EL.Registration(BOB, 7, 1)]), [], []),
    TakeCommand(GetFile(BOB, "f"), true, true),
    Internal(Swarm.PollBehaviour),
    Internal(Swarm.DialFails(Some(7))),
    TakeFileGetEvent(false)]

  const UNDIALED := GenerateEvent(OutboundFailure(7, 1, DialFailed), Ours)

  function HangingSystem(n: nat): Swarm.System
    requires n <= 5
  {
    var queue := map[7 := [OutboundRequest(1, "f")]];
    if n < 2 then Swarm.START
    else
      Swarm.START.(
        fg := FGM.INITIAL.(nextId := 2,
                             queued := if n <= 3 then queue else map[],
                             events := if n == 2 then [Dial(7)] else if n == 4 then [UNDIALED] else []),
        dials := if n == 3 then multiset{7} else multiset{},
        polled := if n == 2 then [] else if n == 5 then [Dial(7), UNDIALED] else [Dial(7)],
        issued := map[1 := Swarm.Purpose(7, "f")])
  }

  function HangingWorld(n: nat): World
    requires n <= 5
  {
    var start := Begin(9);
    var pending := map[0 := CommandRequest(0, GetFile(BOB, "f"))];
    var known := start.loop.(namespacePeers := map[BOB := 7]);
    if n == 0 then start
    else if n == 1 then start.(loop := known)
    else start.(sys := HangingSystem(n),
                loop := known.(pendingCommands := pending, pendingFileGets := map[1 := 0]),
                received := map[0 := GetFile(BOB, "f")], nextCommand := 1, nextListId := 1)
  }

  ghost predicate Moves(n: nat)
    requires n < 5
  {
    Enabled(HangingWorld(n), HANGING_STEPS[n]) && Next(HangingWorld(n), HANGING_STEPS[n]) == HangingWorld(n + 1)
  }

  lemma BobIsDiscovered()
    ensures Moves(0)
  {
    var l := HangingWorld(0).loop;
    var rs := [EL.Registration(BOB, 7, 1)];
    assert EL.WaitingForPeers(l) == {};
    assert rs[..0] == [];
    assert EL.Learn(l.namespacePeers, rs) == map[BOB := 7];
  }

  lemma BobIsAsked()
    ensures Moves(1)
  {
    var w := HangingWorld(1);
    var v := Next(w, HANGING_STEPS[1]);
    assert SendFor(w, GetFile(BOB, "f"), true, true) == Some(Swarm.Send(7, "f"));
    assert FGM.Queue(w.sys.fg, 7) + [OutboundRequest(1, "f")] == [OutboundRequest(1, "f")];
    assert v.sys.fg.queued == map[7 := [OutboundRequest(1, "f")]];
    assert v.sys == HangingSystem(2);
    assert v.loop == HangingWorld(2).loop;
  }

  lemma BobIsDialed()
    ensures Moves(2)
  {
    var v := Next(HangingWorld(2), HANGING_STEPS[2]);
    assert v.sys.fg == HangingSystem(3).fg;
    assert v.sys.dials == multiset{7};
  }

  lemma BobIsNotReached()
    ensures Moves(3)
  {
    var v := Next(HangingWorld(3), HANGING_STEPS[3]);
    assert DialFailures(7, [OutboundRequest(1, "f")]) == [UNDIALED];
    assert v.sys.fg == HangingSystem(4).fg;
    assert v.sys.dials == multiset{};
  }

  lemma TheFailureIsIgnored()
    ensures Moves(4)
  {
    var v := Next(HangingWorld(4), HANGING_STEPS[4]);
    assert v.sys.polled == [Dial(7), UNDIALED];
    assert v.sys == HangingSystem(5);
  }

  /** Some run leaves a download hanging: its request has failed and its command is pending. */
  lemma DownloadHangs() returns (run: seq<World>)
    ensures IsRun(run, HANGING_STEPS) && Requests(run[1], HANGING_STEPS[1], 0, 1, 7, BOB, "f")
    ensures Failed(run[5].sys, 1) && run[5].outcome.Continue? && 0 in run[5].loop.pendingCommands
  {
    hide Next, Enabled;
    run := seq(6, n requires 0 <= n < 6 => HangingWorld(n));
    BobIsDiscovered();
    BobIsAsked();
    BobIsDialed();
    BobIsNotReached();
    TheFailureIsIgnored();
    assert run[0] == Begin(9);
    forall i | 0 <= i < 5 ensures Enabled(run[i], HANGING_STEPS[i]) && run[i + 1] == Next(run[i], HANGING_STEPS[i]) {
      assert Moves(i);
    }
    assert Swarm.Log(HangingSystem(5)) == [Dial(7), UNDIALED];
  }
}
