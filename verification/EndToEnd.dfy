/** The event loop on top of FileGet, its handlers and the swarm: no expect fails, every command is
    answered at most once and with what it asked for, on every run. */
module EndToEnd {
  import opened Basics
  import opened Messages
  import opened Commands
  import EL = EventLoopModel
  import Swarm
  import OwnRequests
  import Ledger
  import Runs

  /** `received` are the commands by id, drawn by the client from 0 on; `outcome` is what the last
      handler returned: after anything but Continue the loop does nothing more. */
  datatype World = World(
    sys: Swarm.System,
    loop: EL.LoopState,
    received: map<nat, Command>,
    nextCommand: nat,
    nextListId: EL.ListId,
    outcome: EL.Outcome)

  /** The loop as it leaves its initialisation, connected to the rendezvous point. */
  function Begin(rendezvous: PeerId): World {
    World(Swarm.START, EL.LoopState(Some(rendezvous), map[], map[], map[], map[], [], [], []), map[], 0, 0, EL.Continue)
  }

  datatype WorldStep =
    | Internal(step: Swarm.Step)
    | TakeCommand(command: Command, valid: bool, writable: bool)
    | TakeFileGetEvent(openable: bool)
    | TakeEvent(event: EL.LoopEvent, order: seq<nat>, listings: seq<seq<string>>)

  predicate EventAhead(s: Swarm.System) {
    s.fg.events != [] && s.fg.events[0].GenerateEvent?
  }

  /** Requests, events and responses of FileGet pass through the loop and nowhere else. */
  ghost predicate InternalStep(s: Swarm.System, st: Swarm.Step) {
    && Swarm.Enabled(s, st)
    && !st.Send? && !st.Reply? && !st.DropSender?
    && (st.PollBehaviour? ==> !EventAhead(s))
  }

  /** The request a command makes FileGet send. */
  function SendFor(w: World, c: Command, valid: bool, writable: bool): Option<Swarm.Step> {
    match EL.FileRequestFor(w.loop, c, valid, writable)
    case Some(p) => if c.GetFile? then Some(Swarm.Send(p, c.fileName)) else None
    case None => None
  }

  ghost predicate Enabled(w: World, st: WorldStep) {
    && w.outcome.Continue?
    && match st
       case Internal(step) => InternalStep(w.sys, step)
       case TakeCommand(c, valid, writable) =>
         var send := SendFor(w, c, valid, writable);
         send.Some? ==> Swarm.Enabled(w.sys, send.value)
       case TakeFileGetEvent(_) => EventAhead(w.sys)
       case TakeEvent(e, order, listings) =>
         !e.FileReceived? && !e.FileRequested? && EL.Iterates(w.loop, e, order, listings)
  }

  function TakeCommandNext(w: World, c: Command, valid: bool, writable: bool): World
    requires Enabled(w, TakeCommand(c, valid, writable))
  {
    var request := CommandRequest(w.nextCommand, c);
    var (loop, outcome) := EL.HandleCommand(w.loop, request, valid, writable, w.nextListId, w.sys.fg.nextId);
    var send := SendFor(w, c, valid, writable);
    w.(sys := if send.Some? then Swarm.Apply(w.sys, send.value) else w.sys,
       loop := loop,
       received := w.received[w.nextCommand := c],
       nextCommand := w.nextCommand + 1,
       nextListId := w.nextListId + 1,
       outcome := outcome)
  }

  /** What the loop is told of an event of FileGet; failures fall into its catch-all arm. */
  function Told(e: FileGetEvent, openable: bool): EL.LoopEvent {
    match e
    case RequestReceived(_, id, _) => EL.FileRequested(id, openable)
    case ResponseReceived(_, id) => EL.FileReceived(id)
    case _ => EL.Ignored
  }

  /** The loop sends the file on the response sender; when it cannot be opened, the sender is dropped
      as the handler returns. */
  function PartWith(id: RequestId, openable: bool): Swarm.Step {
    if openable then Swarm.Reply(id) else Swarm.DropSender(id)
  }

  function TakeFileGetEventNext(w: World, openable: bool): World
    requires Enabled(w, TakeFileGetEvent(openable))
  {
    var e := w.sys.fg.events[0].event;
    var polled := Swarm.Apply(w.sys, Swarm.PollBehaviour);
    var (loop, outcome) := EL.HandleEvent(w.loop, Told(e, openable), [], []);
    w.(sys := if e.RequestReceived? then Swarm.Apply(polled, PartWith(e.id, openable)) else polled,
       loop := loop,
       outcome := outcome)
  }

  function Next(w: World, st: WorldStep): World
    requires Enabled(w, st)
  {
    match st
    case Internal(step) => w.(sys := Swarm.Apply(w.sys, step))
    case TakeCommand(c, valid, writable) => TakeCommandNext(w, c, valid, writable)
    case TakeFileGetEvent(openable) => TakeFileGetEventNext(w, openable)
    case TakeEvent(e, order, listings) =>
      var (loop, outcome) := EL.HandleEvent(w.loop, e, order, listings);
      w.(loop := loop, outcome := outcome)
  }

  ghost predicate IsRun(run: seq<World>, steps: seq<WorldStep>) {
    && |run| == |steps| + 1
    && (exists p :: run[0] == Begin(p))
    && (forall i :: 0 <= i < |steps| ==> Enabled(run[i], steps[i]) && run[i + 1] == Next(run[i], steps[i]))
  }

  // -------------------------------------------------------------------------------- invariant

  /** FileGet and swarm as they are on every run of theirs. */
  ghost predicate SystemOk(s: Swarm.System) {
    Runs.Inv(s) && exists b :: Ledger.Refines(s, b)
  }

  /** An issued request whose response the loop has not seen. */
  ghost predicate AwaitsFile(s: Swarm.System, id: RequestId) {
    1 <= id < s.fg.nextId && id !in Pick(Answered, s.polled)
  }

  /** The loop remembers exactly the requests whose response it has not seen. */
  ghost predicate FilesAwaited(w: World) {
    forall id: nat :: id in w.loop.pendingFileGets <==> AwaitsFile(w.sys, id)
  }

  /** How often a command was answered. */
  function Answers(answers: seq<Answer>, id: nat): nat {
    if answers == [] then 0 else Answers(answers[..|answers| - 1], id) + (if answers[|answers| - 1].id == id then 1 else 0)
  }

  /** Every received command is either pending or answered once; a success fits its command. */
  ghost predicate CommandsOwned(l: EL.LoopState, received: map<nat, Command>) {
    && (forall k :: k in l.pendingCommands ==> k in received && l.pendingCommands[k].command == received[k])
    && (forall k: nat :: Answers(l.answers, k) == if k in received && k !in l.pendingCommands then 1 else 0)
    && (forall a :: a in l.answers && a.result.Ok? ==> a.id in received && Fits(received[a.id], a.result.value))
  }

  ghost predicate CommandsNumbered(w: World) {
    forall k: nat :: k in w.received <==> k < w.nextCommand
  }

  ghost predicate ListIdsFresh(w: World) {
    forall r :: r in w.loop.pendingListFiles ==> r < w.nextListId
  }

  ghost predicate WorldInv(w: World) {
    && SystemOk(w.sys)
    && !w.outcome.Panic?
    && (w.outcome.Continue? ==>
          w.loop.rendezvous.Some? && EL.Partition(w.loop) && FilesAwaited(w) && ListIdsFresh(w)
          && CommandsNumbered(w) && CommandsOwned(w.loop, w.received))
  }

  // ------------------------------------------------------------------------------- the system

  lemma SystemOkKept(s: Swarm.System, st: Swarm.Step)
    requires SystemOk(s) && Swarm.Enabled(s, st)
    ensures SystemOk(Swarm.Apply(s, st))
  {
    hide Ledger.Refines, Ledger.Post, Swarm.Apply, Swarm.Enabled;
    Runs.InvKept(s, st);
    var b :| Ledger.Refines(s, b);
    Ledger.StepRefinesEntry(s, st, b);
  }

  /** Responses are terminal events of our own requests. */
  lemma {:induction false} AnswersAreEnds(actions: seq<Action>, id: RequestId)
    requires forall a :: a in actions ==> Runs.Tagged(a)
    ensures Times(Pick(Answered, actions), id) <= Times(Pick(OurEnd, actions), id)
  {
    if actions != [] {
      var a, rest := actions[0], actions[1..];
      AnswersAreEnds(rest, id);
      assert Runs.Tagged(a);
      TimesConcat(Select(Answered, a), Pick(Answered, rest), id);
      TimesConcat(Select(OurEnd, a), Pick(OurEnd, rest), id);
    }
  }

  /** A response about to be polled is the first one of an issued request. */
  lemma ResponseIsAwaited(s: Swarm.System)
    requires SystemOk(s) && EventAhead(s) && s.fg.events[0].event.ResponseReceived?
    ensures AwaitsFile(s, s.fg.events[0].event.id)
  {
    hide OwnRequests.OwnInv;
    var id := s.fg.events[0].event.id;
    var b :| Ledger.Refines(s, b);
    AnswersAreEnds(Swarm.Log(s), id);
    assert Times(Pick(OurEnd, Swarm.Log(s)), id) == if Ledger.Is(b, id, Ledger.Done) then 1 else 0;
    PickConcat(Answered, s.polled, s.fg.events);
    TimesConcat(Pick(Answered, s.polled), Pick(Answered, s.fg.events), id);
    assert Pick(Answered, s.fg.events)[0] == id;
    TimesPositive(Pick(Answered, s.polled), id);
  }

  lemma AwaitedAfterPoll(s: Swarm.System)
    requires Swarm.Enabled(s, Swarm.PollBehaviour)
    ensures var t, a := Swarm.Apply(s, Swarm.PollBehaviour), s.fg.events[0];
            forall id :: AwaitsFile(t, id) <==> AwaitsFile(s, id) && id !in Select(Answered, a)
  {
    hide Swarm.Apply;
    Swarm.PollEffect(s);
    var a := s.fg.events[0];
    PickConcat(Answered, s.polled, [a]);
    assert Pick(Answered, [a]) == Select(Answered, a);
  }

  lemma AwaitedAfterStep(s: Swarm.System, st: Swarm.Step)
    requires SystemOk(s) && Swarm.Enabled(s, st) && !st.PollBehaviour?
    ensures var t := Swarm.Apply(s, st);
            && t.fg.nextId == s.fg.nextId + (if st.Send? then 1 else 0)
            && forall id :: AwaitsFile(t, id) <==> AwaitsFile(s, id) || (st.Send? && id == s.fg.nextId)
  {
    hide Swarm.Apply, Swarm.Enabled;
    Swarm.StepEffect(s, st);
    NextIsNotAnswered(s);
  }

  /** An id that has not been issued has no response. */
  lemma NextIsNotAnswered(s: Swarm.System)
    requires SystemOk(s)
    ensures s.fg.nextId !in Pick(Answered, s.polled) && 1 <= s.fg.nextId
  {
    var id := s.fg.nextId;
    var b :| Ledger.Refines(s, b);
    assert !Ledger.Is(b, id, Ledger.Done);
    assert Times(Pick(OurEnd, Swarm.Log(s)), id) == 0;
    AnswersAreEnds(Swarm.Log(s), id);
    PickConcat(Answered, s.polled, s.fg.events);
    TimesConcat(Pick(Answered, s.polled), Pick(Answered, s.fg.events), id);
    TimesPositive(Pick(Answered, s.polled), id);
  }

  // --------------------------------------------------------------------------------- the steps

  lemma InternalKept(w: World, step: Swarm.Step)
    requires WorldInv(w) && Enabled(w, Internal(step))
    ensures WorldInv(Next(w, Internal(step)))
  {
    hide SystemOk, Swarm.Apply, EL.Partition, CommandsOwned;
    SystemOkKept(w.sys, step);
    if step.PollBehaviour? {
      AwaitedAfterPoll(w.sys);
      assert Select(Answered, w.sys.fg.events[0]) == [];
    } else {
      AwaitedAfterStep(w.sys, step);
    }
  }

  /** What handling a command does to the maps and the answers. */
  lemma CommandEffect(w: World, c: Command, valid: bool, writable: bool)
    requires Enabled(w, TakeCommand(c, valid, writable)) && w.loop.rendezvous.Some?
    ensures var v, send := TakeCommandNext(w, c, valid, writable), SendFor(w, c, valid, writable);
            && !v.outcome.Panic? && v.loop.rendezvous == w.loop.rendezvous
            && (send.Some? ==> v.outcome.Continue?)
            && v.loop.pendingFileGets ==
               (if send.Some? then w.loop.pendingFileGets[w.sys.fg.nextId := w.nextCommand] else w.loop.pendingFileGets)
            && (forall r :: r in v.loop.pendingListFiles ==> r in w.loop.pendingListFiles || r == w.nextListId)
  {
  }

  lemma CommandOwned(l: EL.LoopState, received: map<nat, Command>, c: CommandRequest,
                     valid: bool, writable: bool, listId: EL.ListId, fileId: RequestId)
    requires CommandsOwned(l, received) && c.id !in received
    requires EL.HandleCommand(l, c, valid, writable, listId, fileId).1.Continue?
    ensures CommandsOwned(EL.HandleCommand(l, c, valid, writable, listId, fileId).0, received[c.id := c.command])
  {
    hide CommandsOwned, Answers, EL.HandleCommand;
    var m := EL.HandleCommand(l, c, valid, writable, listId, fileId).0;
    var answered := AnsweredOrKept(l, c, valid, writable, listId, fileId);
    if answered.Some? {
      AnsweredOwned(l, m, received, c, answered.value);
    } else {
      KeptOwned(l, m, received, c);
    }
  }

  /** A command is answered at once, or kept pending. */
  lemma AnsweredOrKept(l: EL.LoopState, c: CommandRequest, valid: bool, writable: bool,
                       listId: EL.ListId, fileId: RequestId) returns (a: Option<Answer>)
    requires EL.HandleCommand(l, c, valid, writable, listId, fileId).1.Continue?
    ensures var m := EL.HandleCommand(l, c, valid, writable, listId, fileId).0;
            if a.Some? then
              && m.answers == l.answers + [a.value] && m.pendingCommands == l.pendingCommands
              && a.value.id == c.id && (a.value.result.Ok? ==> Fits(c.command, a.value.result.value))
            else
              m.answers == l.answers && m.pendingCommands == l.pendingCommands[c.id := c]
  {
    var m := EL.HandleCommand(l, c, valid, writable, listId, fileId).0;
    a := if m.pendingCommands == l.pendingCommands && |m.answers| > |l.answers| then Some(m.answers[|l.answers|]) else None;
  }

  lemma AnsweredOwned(l: EL.LoopState, m: EL.LoopState, received: map<nat, Command>, c: CommandRequest, a: Answer)
    requires CommandsOwned(l, received) && c.id !in received && a.id == c.id
    requires a.result.Ok? ==> Fits(c.command, a.result.value)
    requires m.pendingCommands == l.pendingCommands && m.answers == l.answers + [a]
    ensures CommandsOwned(m, received[c.id := c.command])
  {
    forall k: nat ensures Answers(m.answers, k) == Answers(l.answers, k) + (if k == c.id then 1 else 0) {
      AnswersPush(l.answers, a, k);
    }
    assert c.id !in l.pendingCommands;
  }

  lemma AnswersPush(answers: seq<Answer>, a: Answer, k: nat)
    ensures Answers(answers + [a], k) == Answers(answers, k) + (if k == a.id then 1 else 0)
  {
    assert (answers + [a])[..|answers|] == answers;
  }

  lemma KeptOwned(l: EL.LoopState, m: EL.LoopState, received: map<nat, Command>, c: CommandRequest)
    requires CommandsOwned(l, received) && c.id !in received
    requires m.pendingCommands == l.pendingCommands[c.id := c] && m.answers == l.answers
    ensures CommandsOwned(m, received[c.id := c.command])
  {
    assert Answers(l.answers, c.id) == 0;
  }

  lemma RemovedOwned(l: EL.LoopState, m: EL.LoopState, received: map<nat, Command>, k: nat, r: CommandResult)
    requires CommandsOwned(l, received) && k in l.pendingCommands && Fits(received[k], r)
    requires m.pendingCommands == l.pendingCommands - {k} && m.answers == l.answers + [Answer(k, Ok(r))]
    ensures CommandsOwned(m, received)
  {
    forall j: nat ensures Answers(m.answers, j) == Answers(l.answers, j) + (if j == k then 1 else 0) {
      AnswersPush(l.answers, Answer(k, Ok(r)), j);
    }
  }

  lemma CommandKept(w: World, c: Command, valid: bool, writable: bool)
    requires WorldInv(w) && Enabled(w, TakeCommand(c, valid, writable))
    ensures WorldInv(Next(w, TakeCommand(c, valid, writable)))
  {
    hide SystemOk, Swarm.Apply, Swarm.Enabled, EL.Partition, CommandsOwned, EL.HandleCommand;
    var v, send := TakeCommandNext(w, c, valid, writable), SendFor(w, c, valid, writable);
    CommandEffect(w, c, valid, writable);
    if send.Some? {
      SystemOkKept(w.sys, send.value);
      AwaitedAfterStep(w.sys, send.value);
    }
    if v.outcome.Continue? {
      CommandOwned(w.loop, w.received, CommandRequest(w.nextCommand, c), valid, writable, w.nextListId, w.sys.fg.nextId);
      CommandPartitions(w, c, valid, writable);
    }
  }

  lemma CommandPartitions(w: World, c: Command, valid: bool, writable: bool)
    requires WorldInv(w) && Enabled(w, TakeCommand(c, valid, writable))
    ensures EL.Partition(TakeCommandNext(w, c, valid, writable).loop)
  {
    hide SystemOk, EL.Partition, EL.HandleCommand;
    EL.CommandKeepsPartition(w.loop, CommandRequest(w.nextCommand, c), valid, writable, w.nextListId, w.sys.fg.nextId) by {
      assert !AwaitsFile(w.sys, w.sys.fg.nextId);
    }
  }

  /** A finished download is answered with the names of the command that asked for it. */
  lemma FileReceivedOwned(w: World, id: RequestId)
    requires EL.Partition(w.loop) && CommandsOwned(w.loop, w.received) && id in w.loop.pendingFileGets
    ensures var (m, outcome) := EL.HandleEvent(w.loop, EL.FileReceived(id), [], []);
            && outcome.Continue?
            && CommandsOwned(m, w.received)
            && m.pendingFileGets == w.loop.pendingFileGets - {id}
            && m.pendingListFiles == w.loop.pendingListFiles
            && m.rendezvous == w.loop.rendezvous
  {
    var k := w.loop.pendingFileGets[id];
    assert k in EL.WaitingForFile(w.loop);
    var c := w.loop.pendingCommands[k].command;
    var m := EL.HandleEvent(w.loop, EL.FileReceived(id), [], []).0;
    RemovedOwned(w.loop, m, w.received, k, Got(c.userName, c.fileName));
  }

  lemma FileGetEventKept(w: World, openable: bool)
    requires WorldInv(w) && Enabled(w, TakeFileGetEvent(openable))
    ensures WorldInv(Next(w, TakeFileGetEvent(openable)))
  {
    hide SystemOk, EL.Partition, CommandsOwned, EL.HandleEvent, Swarm.Act;
    var e := w.sys.fg.events[0].event;
    SystemOkKept(w.sys, Swarm.PollBehaviour);
    AwaitedAfterPoll(w.sys);
    var polled := Swarm.Apply(w.sys, Swarm.PollBehaviour);
    if e.RequestReceived? {
      Swarm.PollEffect(w.sys);
      FileRequestedEffect(w.loop, e.id, openable);
      SendersAside(w.loop, EL.HandleEvent(w.loop, EL.FileRequested(e.id, openable), [], []).0, w.received);
      SystemOkKept(polled, PartWith(e.id, openable));
      AwaitedAfterStep(polled, PartWith(e.id, openable));
    } else if e.ResponseReceived? {
      ResponseIsAwaited(w.sys);
      FileReceivedOwned(w, e.id);
      EL.EventKeepsPartition(w.loop, EL.FileReceived(e.id), [], []);
    } else {
      IgnoredEffect(w.loop);
    }
  }

  /** Commands and their correlation have nothing to do with what is asked of other parts. */
  lemma SendersAside(l: EL.LoopState, m: EL.LoopState, received: map<nat, Command>)
    requires m == l.(senders := m.senders, calls := m.calls)
    ensures EL.Partition(l) ==> EL.Partition(m)
    ensures CommandsOwned(l, received) ==> CommandsOwned(m, received)
  {
    assert EL.WaitingForFile(m) == EL.WaitingForFile(l) && EL.WaitingForNames(m) == EL.WaitingForNames(l);
  }

  lemma FileRequestedEffect(l: EL.LoopState, id: RequestId, openable: bool)
    ensures var (m, outcome) := EL.HandleEvent(l, EL.FileRequested(id, openable), [], []);
            && m == l.(senders := l.senders + [if openable then EL.Used(id) else EL.Discarded(id)])
            && outcome == if openable then EL.Continue else EL.Exit(Io)
  {
  }

  lemma IgnoredEffect(l: EL.LoopState)
    ensures EL.HandleEvent(l, EL.Ignored, [], []) == (l, EL.Continue)
  {
  }

  // ------------------------------------------------------------------------------ other events

  lemma {:induction false} AnswersConcat(a: seq<Answer>, b: seq<Answer>, k: nat)
    ensures Answers(a + b, k) == Answers(a, k) + Answers(b, k)
    decreases |b|
  {
    if b == [] {
      assert a + b == a;
    } else {
      var n := |b| - 1;
      AnswersConcat(a, b[..n], k);
      assert (a + b)[..|a + b| - 1] == a + b[..n];
    }
  }

  lemma {:induction false} PeersAnswersOnce(order: seq<nat>, listings: seq<seq<string>>, k: nat)
    requires |listings| == |order| && forall i, j :: 0 <= i < j < |order| ==> order[i] != order[j]
    ensures Answers(EL.PeersAnswers(order, listings), k) == if k in order then 1 else 0
    decreases |order|
  {
    if order != [] {
      var n := |order| - 1;
      PeersAnswersOnce(order[..n], listings[..n], k);
      EL.PeersAnswersLast(order, listings);
      var front := EL.PeersAnswers(order[..n], listings[..n]);
      assert (front + [Answer(order[n], Ok(Peers(listings[n])))])[..n] == front;
      assert order == order[..n] + [order[n]];
    }
  }

  lemma PeersAnswersFit(order: seq<nat>, listings: seq<seq<string>>)
    requires |listings| == |order|
    ensures forall a :: a in EL.PeersAnswers(order, listings) ==> a.id in order && a.result.Ok? && a.result.value.Peers?
  {
  }

  lemma DiscoveredOwned(w: World, rs: seq<EL.Registration>, order: seq<nat>, listings: seq<seq<string>>)
    requires EL.Partition(w.loop) && CommandsOwned(w.loop, w.received)
    requires EL.Iterates(w.loop, EL.Discovered(rs), order, listings)
    ensures CommandsOwned(EL.HandleEvent(w.loop, EL.Discovered(rs), order, listings).0, w.received)
  {
    hide EL.Learn, Answers, EL.AnswerPeers, EL.PeersAnswers;
    var m := EL.HandleEvent(w.loop, EL.Discovered(rs), order, listings).0;
    EL.DiscoveredEffect(w.loop, rs, order, listings);
    EL.ListingIsDistinct(order, EL.WaitingForPeers(w.loop));
    forall k ensures k in order <==> k in EL.WaitingForPeers(w.loop) {
      assert k in order <==> k in (set x | x in order);
    }
    PeersAnswersFit(order, listings);
    forall k: nat ensures Answers(m.answers, k) == if k in w.received && k !in m.pendingCommands then 1 else 0 {
      AnswersConcat(w.loop.answers, EL.PeersAnswers(order, listings), k);
      PeersAnswersOnce(order, listings, k);
    }
  }

  lemma ListFilesAnsweredOwned(w: World, id: EL.ListId, names: seq<string>)
    requires EL.Partition(w.loop) && CommandsOwned(w.loop, w.received)
    ensures CommandsOwned(EL.HandleEvent(w.loop, EL.ListFilesAnswered(id, names), [], []).0, w.received)
  {
    if id in w.loop.pendingListFiles {
      var k := w.loop.pendingListFiles[id];
      assert k in EL.WaitingForNames(w.loop);
      var m := EL.HandleEvent(w.loop, EL.ListFilesAnswered(id, names), [], []).0;
      RemovedOwned(w.loop, m, w.received, k, Files(names));
    }
  }

  lemma EventEffect(l: EL.LoopState, e: EL.LoopEvent, order: seq<nat>, listings: seq<seq<string>>)
    requires EL.Partition(l) && EL.Iterates(l, e, order, listings) && !e.FileReceived?
    ensures var (m, outcome) := EL.HandleEvent(l, e, order, listings);
            && !outcome.Panic?
            && m.rendezvous == l.rendezvous && m.pendingFileGets == l.pendingFileGets
            && (forall r :: r in m.pendingListFiles ==> r in l.pendingListFiles)
  {
    if e.Discovered? {
      EL.DiscoveredEffect(l, e.registrations, order, listings);
      DiscoveredLeaves(l.(namespacePeers := EL.Learn(l.namespacePeers, e.registrations)), order, listings);
    }
  }

  lemma {:induction false} DiscoveredLeaves(l: EL.LoopState, order: seq<nat>, listings: seq<seq<string>>)
    requires |listings| == |order|
    ensures EL.AnswerPeers(l, order, listings).rendezvous == l.rendezvous
    decreases |order|
  {
    if order != [] {
      DiscoveredLeaves(l, order[..|order| - 1], listings[..|order| - 1]);
    }
  }

  lemma EventKept(w: World, e: EL.LoopEvent, order: seq<nat>, listings: seq<seq<string>>)
    requires WorldInv(w) && Enabled(w, TakeEvent(e, order, listings))
    ensures WorldInv(Next(w, TakeEvent(e, order, listings)))
  {
    hide SystemOk, EL.Partition, CommandsOwned, EL.HandleEvent;
    EventEffect(w.loop, e, order, listings);
    EL.EventKeepsPartition(w.loop, e, order, listings);
    EventOwned(w, e, order, listings);
  }

  lemma EventOwned(w: World, e: EL.LoopEvent, order: seq<nat>, listings: seq<seq<string>>)
    requires EL.Partition(w.loop) && CommandsOwned(w.loop, w.received) && EL.Iterates(w.loop, e, order, listings)
    requires !e.FileReceived?
    ensures CommandsOwned(EL.HandleEvent(w.loop, e, order, listings).0, w.received)
  {
    hide EL.Partition, CommandsOwned, EL.AnswerPeers;
    if e.Discovered? {
      DiscoveredOwned(w, e.registrations, order, listings);
    } else if e.ListFilesAnswered? {
      ListFilesAnsweredOwned(w, e.id, e.names);
    } else {
      SendersAside(w.loop, EL.HandleEvent(w.loop, e, order, listings).0, w.received);
    }
  }

  // --------------------------------------------------------------------------------- theorems

  lemma WorldInvAtStart(p: PeerId)
    ensures WorldInv(Begin(p))
  {
    Runs.InvAtStart();
    Ledger.RefinesAtStart();
  }

  lemma WorldInvKept(w: World, st: WorldStep)
    requires WorldInv(w) && Enabled(w, st)
    ensures WorldInv(Next(w, st))
  {
    hide WorldInv;
    match st
    case Internal(step) => InternalKept(w, step);
    case TakeCommand(c, valid, writable) => CommandKept(w, c, valid, writable);
    case TakeFileGetEvent(openable) => FileGetEventKept(w, openable);
    case TakeEvent(e, order, listings) => EventKept(w, e, order, listings);
  }

  lemma {:induction false} WorldInvOverRuns(run: seq<World>, steps: seq<WorldStep>, i: nat)
    requires IsRun(run, steps) && i <= |steps|
    ensures WorldInv(run[i])
    decreases i
  {
    hide WorldInv;
    if i == 0 {
      var p :| run[0] == Begin(p);
      WorldInvAtStart(p);
    } else {
      WorldInvOverRuns(run, steps, i - 1);
      WorldInvKept(run[i - 1], steps[i - 1]);
    }
  }

  /** No expect of the event loop fails and its panic is never reached, and no expect or debug assertion
      of the behaviour fails. */
  lemma NoPanicEndToEnd(run: seq<World>, steps: seq<WorldStep>, i: nat)
    requires IsRun(run, steps) && i <= |steps|
    ensures !run[i].outcome.Panic? && !run[i].sys.panicked
  {
    WorldInvOverRuns(run, steps, i);
  }

  /** As long as no handler has failed, each received command is pending or was answered, once;
      what was not received was not answered. */
  lemma AnsweredOnceOrPending(run: seq<World>, steps: seq<WorldStep>, i: nat, k: nat)
    requires IsRun(run, steps) && i <= |steps| && run[i].outcome.Continue?
    ensures var w := run[i];
            && (k in w.received <==> k < w.nextCommand)
            && Answers(w.loop.answers, k) + (if k in w.loop.pendingCommands then 1 else 0) ==
               (if k in w.received then 1 else 0)
  {
    hide SystemOk, EL.Partition;
    WorldInvOverRuns(run, steps, i);
  }

  /** A successful answer is of the kind of its command, and a file answer carries the user and file
      name of the command that asked for it. */
  lemma AnswersFitCommands(run: seq<World>, steps: seq<WorldStep>, i: nat, a: Answer)
    requires IsRun(run, steps) && i <= |steps| && run[i].outcome.Continue?
    requires a in run[i].loop.answers && a.result.Ok?
    ensures a.id in run[i].received && Fits(run[i].received[a.id], a.result.value)
  {
    hide SystemOk, EL.Partition;
    WorldInvOverRuns(run, steps, i);
  }

  /** The pending downloads are exactly the issued requests without a response, one for each pending
      command that asks for a file. */
  lemma DownloadsCorrelate(run: seq<World>, steps: seq<WorldStep>, i: nat)
    requires IsRun(run, steps) && i <= |steps| && run[i].outcome.Continue?
    ensures var w := run[i];
            && EL.Partition(w.loop)
            && (forall id: nat :: id in w.loop.pendingFileGets <==>
                  1 <= id < w.sys.fg.nextId && id !in Pick(Answered, w.sys.polled))
  {
    hide SystemOk, EL.Partition, CommandsOwned;
    WorldInvOverRuns(run, steps, i);
    var s := run[i].sys;
    assert forall id: nat :: AwaitsFile(s, id) <==> 1 <= id < s.fg.nextId && id !in Pick(Answered, s.polled);
  }
}
