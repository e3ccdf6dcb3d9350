/** From the command to the request and back to the answer, on every run: which command a download
    was requested for, what its response is answered to, and which commands hang. */
module Downloads {
  import opened Basics
  import opened Messages
  import opened Commands
  import opened EndToEnd
  import EL = EventLoopModel
  import FGM = FileGetModel
  import Link
  import Swarm
  import OwnRequests
  import Provenance
  import Ledger
  import Runs

  /** The step takes command k, a download from a user known as peer p, and issues request id for it. */
  predicate Requests(w: World, st: WorldStep, k: nat, id: RequestId, p: PeerId, userName: string, fileName: string) {
    && st == TakeCommand(GetFile(userName, fileName), true, true)
    && w.nextCommand == k && w.sys.fg.nextId == id
    && userName in w.loop.namespacePeers && w.loop.namespacePeers[userName] == p
  }

  /** The step takes the response of peer p to request id. */
  predicate Responds(w: World, st: WorldStep, p: PeerId, id: RequestId) {
    st.TakeFileGetEvent? && EventAhead(w.sys) && w.sys.fg.events[0].event == ResponseReceived(p, id)
  }

  // -------------------------------------------------------------------------- what a step keeps

  /** The log, its polled part and the record of what was issued only grow. */
  ghost predicate Grows(s: Swarm.System, t: Swarm.System) {
    Swarm.Log(s) <= Swarm.Log(t) && s.polled <= t.polled && Provenance.Extends(s, t)
  }

  lemma SystemGrows(s: Swarm.System, st: Swarm.Step)
    requires SystemOk(s) && Swarm.Enabled(s, st)
    ensures Grows(s, Swarm.Apply(s, st))
    ensures var t := Swarm.Apply(s, st);
            st.Send? ==> s.fg.nextId in t.issued && t.issued[s.fg.nextId] == Swarm.Purpose(st.peer, st.fileName)
  {
    hide Swarm.Apply, Swarm.Enabled, Swarm.Log, Swarm.Structure;
    Provenance.IssuedAfter(s, st);
    if st.PollBehaviour? {
      Swarm.PollEffect(s);
    } else {
      Swarm.StepEffect(s, st);
    }
  }

  /** A download that a step does not end stays with its command. */
  ghost predicate StaysCorrelated(l: EL.LoopState, m: EL.LoopState) {
    forall id :: id in l.pendingFileGets && id in m.pendingFileGets ==> m.pendingFileGets[id] == l.pendingFileGets[id]
  }

  lemma StepGrows(w: World, st: WorldStep)
    requires WorldInv(w) && Enabled(w, st)
    ensures Grows(w.sys, Next(w, st).sys) && StaysCorrelated(w.loop, Next(w, st).loop)
  {
    hide SystemOk, Swarm.Apply, Swarm.Enabled, Grows, EL.Partition, CommandsOwned, EL.HandleEvent, EL.HandleCommand;
    match st
    case Internal(step) => SystemGrows(w.sys, step);
    case TakeCommand(c, valid, writable) => CommandGrows(w, c, valid, writable);
    case TakeFileGetEvent(openable) => FileGetEventGrows(w, openable);
    case TakeEvent(e, order, listings) =>
      EventEffect(w.loop, e, order, listings);
      NothingGrows(w.sys);
  }

  lemma NothingGrows(s: Swarm.System)
    ensures Grows(s, s)
  {
  }

  lemma CommandGrows(w: World, c: Command, valid: bool, writable: bool)
    requires WorldInv(w) && Enabled(w, TakeCommand(c, valid, writable))
    ensures var v := Next(w, TakeCommand(c, valid, writable)); Grows(w.sys, v.sys) && StaysCorrelated(w.loop, v.loop)
  {
    hide SystemOk, Swarm.Apply, Swarm.Enabled, Grows, EL.Partition, CommandsOwned, EL.HandleCommand;
    CommandEffect(w, c, valid, writable);
    var send := SendFor(w, c, valid, writable);
    if send.Some? {
      SystemGrows(w.sys, send.value);
    } else {
      NothingGrows(w.sys);
    }
    assert !AwaitsFile(w.sys, w.sys.fg.nextId);
  }

  lemma EventStaysCorrelated(l: EL.LoopState, e: EL.LoopEvent)
    requires !e.Discovered?
    ensures StaysCorrelated(l, EL.HandleEvent(l, e, [], []).0)
  {
  }

  lemma FileGetEventGrows(w: World, openable: bool)
    requires WorldInv(w) && Enabled(w, TakeFileGetEvent(openable))
    ensures var v := Next(w, TakeFileGetEvent(openable)); Grows(w.sys, v.sys) && StaysCorrelated(w.loop, v.loop)
  {
    hide SystemOk, EL.Partition, CommandsOwned, Swarm.Act, Swarm.Log, EL.HandleEvent;
    var e := w.sys.fg.events[0].event;
    EventStaysCorrelated(w.loop, Told(e, openable));
    SystemGrows(w.sys, Swarm.PollBehaviour);
    if e.RequestReceived? {
      var polled := Swarm.Apply(w.sys, Swarm.PollBehaviour);
      SystemOkKept(w.sys, Swarm.PollBehaviour);
      Swarm.PollEffect(w.sys);
      SystemGrows(polled, PartWith(e.id, openable));
    }
  }

  // ---------------------------------------------------------------------- where a download is from

  /** A download that starts to be pending was requested just now. */
  lemma NewDownload(w: World, st: WorldStep, id: RequestId)
    requires WorldInv(w) && Enabled(w, st)
    requires id in Next(w, st).loop.pendingFileGets && id !in w.loop.pendingFileGets
    ensures st.TakeCommand? && st.command.GetFile? && st.command.userName in w.loop.namespacePeers
    ensures var v, u, f := Next(w, st), st.command.userName, st.command.fileName;
            var p := w.loop.namespacePeers[u];
            && Requests(w, st, v.loop.pendingFileGets[id], id, p, u, f)
            && id in v.sys.issued && v.sys.issued[id] == Swarm.Purpose(p, f)
            && w.nextCommand in v.loop.pendingCommands && v.loop.pendingCommands[w.nextCommand].command == GetFile(u, f)
  {
    hide SystemOk, Swarm.Apply, Swarm.Enabled, EL.Partition, CommandsOwned, EL.HandleEvent;
    match st
    case Internal(step) => assert false;
    case TakeFileGetEvent(openable) => NoNewDownload(w, openable, id);
    case TakeEvent(e, order, listings) => EventEffect(w.loop, e, order, listings);
    case TakeCommand(c, valid, writable) =>
      CommandEffect(w, c, valid, writable);
      SystemGrows(w.sys, SendFor(w, c, valid, writable).value);
  }

  lemma NoNewDownload(w: World, openable: bool, id: RequestId)
    requires Enabled(w, TakeFileGetEvent(openable)) && id !in w.loop.pendingFileGets
    ensures id !in Next(w, TakeFileGetEvent(openable)).loop.pendingFileGets
  {
    hide Swarm.Apply, Swarm.Enabled;
  }

  /** Commands received stay what they are, and only a new one starts to be pending. */
  lemma CommandsStay(w: World, st: WorldStep)
    requires WorldInv(w) && Enabled(w, st)
    ensures forall k :: k in w.received ==> k in Next(w, st).received && Next(w, st).received[k] == w.received[k]
    ensures forall k :: k in Next(w, st).loop.pendingCommands ==>
              k in w.loop.pendingCommands || (st.TakeCommand? && k == w.nextCommand)
    ensures w.nextCommand <= Next(w, st).nextCommand
  {
    hide SystemOk, Swarm.Apply, Swarm.Enabled, EL.Partition, CommandsOwned, EL.HandleEvent, EL.HandleCommand;
    match st
    case Internal(_) =>
    case TakeCommand(c, valid, writable) =>
      CommandStays(w.loop, CommandRequest(w.nextCommand, c), valid, writable, w.nextListId, w.sys.fg.nextId);
    case TakeFileGetEvent(openable) => EventStays(w.loop, Told(w.sys.fg.events[0].event, openable), [], []);
    case TakeEvent(e, order, listings) => EventStays(w.loop, e, order, listings);
  }

  lemma CommandStays(l: EL.LoopState, c: CommandRequest, valid: bool, writable: bool, listId: EL.ListId, fileId: RequestId)
    ensures EL.HandleCommand(l, c, valid, writable, listId, fileId).0.pendingCommands.Keys <= l.pendingCommands.Keys + {c.id}
  {
  }

  lemma EventStays(l: EL.LoopState, e: EL.LoopEvent, order: seq<nat>, listings: seq<seq<string>>)
    requires |listings| == |order|
    ensures EL.HandleEvent(l, e, order, listings).0.pendingCommands.Keys <= l.pendingCommands.Keys
  {
    if e.Discovered? {
      AnswerPeersRemoves(l.(namespacePeers := EL.Learn(l.namespacePeers, e.registrations)), order, listings);
    }
  }

  lemma {:induction false} AnswerPeersRemoves(l: EL.LoopState, order: seq<nat>, listings: seq<seq<string>>)
    requires |listings| == |order|
    ensures EL.AnswerPeers(l, order, listings).pendingCommands.Keys <= l.pendingCommands.Keys
    ensures EL.AnswerPeers(l, order, listings).senders == l.senders
    decreases |order|
  {
    if order != [] {
      AnswerPeersRemoves(l, order[..|order| - 1], listings[..|order| - 1]);
    }
  }

  /** The command a pending download stands for. */
  ghost predicate StandsFor(w: World, id: RequestId, k: nat, userName: string, fileName: string) {
    && id in w.loop.pendingFileGets && w.loop.pendingFileGets[id] == k
    && k in w.loop.pendingCommands && w.loop.pendingCommands[k].command == GetFile(userName, fileName)
  }

  lemma PendingStands(w: World, id: RequestId) returns (k: nat, userName: string, fileName: string)
    requires WorldInv(w) && w.outcome.Continue? && id in w.loop.pendingFileGets
    ensures StandsFor(w, id, k, userName, fileName) && k in w.received && w.received[k] == GetFile(userName, fileName)
  {
    hide SystemOk;
    k := w.loop.pendingFileGets[id];
    assert k in EL.WaitingForFile(w.loop);
    userName, fileName := w.received[k].userName, w.received[k].fileName;
  }

  lemma StandsForSame(w: World, v: World, id: RequestId, k: nat, userName: string, fileName: string)
    requires WorldInv(w) && WorldInv(v) && w.outcome.Continue? && v.outcome.Continue?
    requires StandsFor(w, id, k, userName, fileName) && id in v.loop.pendingFileGets && StaysCorrelated(w.loop, v.loop)
    requires forall j :: j in w.received ==> j in v.received && v.received[j] == w.received[j]
    ensures StandsFor(v, id, k, userName, fileName)
  {
    hide SystemOk, EL.Partition;
    var k', u, f := PendingStands(v, id);
  }

  lemma StepFacts(run: seq<World>, steps: seq<WorldStep>, i: nat)
    requires IsRun(run, steps) && 0 < i <= |steps|
    ensures WorldInv(run[i - 1]) && run[i - 1].outcome.Continue? && Enabled(run[i - 1], steps[i - 1])
    ensures run[i] == Next(run[i - 1], steps[i - 1]) && WorldInv(run[i])
  {
    hide WorldInv, Next;
    assert Enabled(run[i - 1], steps[i - 1]) && run[i] == Next(run[i - 1], steps[i - 1]);
    WorldInvOverRuns(run, steps, i - 1);
    WorldInvOverRuns(run, steps, i);
  }

  /** Every pending download was requested by an earlier step, for the command it stands for, from the
      peer its user was known as. */
  lemma {:induction false} PendingWasRequested(run: seq<World>, steps: seq<WorldStep>, i: nat, id: RequestId)
      returns (m: nat, k: nat, p: PeerId, userName: string, fileName: string)
    requires IsRun(run, steps) && i <= |steps| && run[i].outcome.Continue? && id in run[i].loop.pendingFileGets
    ensures m < i && Requests(run[m], steps[m], k, id, p, userName, fileName)
    ensures StandsFor(run[i], id, k, userName, fileName)
    ensures id in run[i].sys.issued && run[i].sys.issued[id] == Swarm.Purpose(p, fileName)
    decreases i
  {
    hide WorldInv, Next, Enabled, StaysCorrelated;
    assert i > 0;
    StepFacts(run, steps, i);
    var w, st := run[i - 1], steps[i - 1];
    StepGrows(w, st);
    CommandsStay(w, st);
    if id in w.loop.pendingFileGets {
      m, k, p, userName, fileName := PendingWasRequested(run, steps, i - 1, id);
      StandsForSame(w, run[i], id, k, userName, fileName);
    } else {
      NewDownload(w, st, id);
      m, k, userName, fileName := i - 1, w.nextCommand, st.command.userName, st.command.fileName;
      p := w.loop.namespacePeers[userName];
      assert Requests(w, st, run[i].loop.pendingFileGets[id], id, p, userName, fileName);
    }
  }

  // ------------------------------------------------------------------------- what is answered

  /** A response names the peer its request was issued for. */
  lemma ResponseNamesPeer(s: Swarm.System)
    requires SystemOk(s) && EventAhead(s) && s.fg.events[0].event.ResponseReceived?
    ensures var e := s.fg.events[0].event; e.id in s.issued && s.issued[e.id].peer == e.peer
  {
    hide OwnRequests.OwnInv, Ledger.Refines;
    assert s.fg.events[0] in Swarm.Log(s);
    assert Runs.Tagged(s.fg.events[0]);
    assert Provenance.ActionBears(s.issued, s.fg.events[0]);
  }

  predicate IsGot(a: Answer) {
    a.result.Ok? && a.result.value.Got?
  }

  /** The step takes a response and answers the command its request stands for. */
  ghost predicate Answering(w: World, st: WorldStep, a: Answer) {
    && IsGot(a) && st.TakeFileGetEvent? && EventAhead(w.sys) && w.sys.fg.events[0].event.ResponseReceived?
    && StandsFor(w, w.sys.fg.events[0].event.id, a.id, a.result.value.userName, a.result.value.fileName)
  }

  lemma NewGot(w: World, st: WorldStep, a: Answer)
    requires WorldInv(w) && Enabled(w, st) && IsGot(a) && a in Next(w, st).loop.answers && a !in w.loop.answers
    ensures Answering(w, st, a)
  {
    hide SystemOk, Swarm.Apply, Swarm.Enabled, EL.Partition, CommandsOwned, EL.HandleEvent, EL.HandleCommand;
    match st
    case Internal(_) =>
    case TakeCommand(c, valid, writable) =>
      CommandAnswersNoDownload(w.loop, CommandRequest(w.nextCommand, c), valid, writable, w.nextListId, w.sys.fg.nextId, a);
    case TakeFileGetEvent(openable) =>
      var e := w.sys.fg.events[0].event;
      if e.ResponseReceived? {
        ResponseAnswers(w.loop, e.id, a);
      } else {
        EventAnswersNoDownload(w.loop, Told(e, openable), [], [], a);
      }
    case TakeEvent(e, order, listings) => EventAnswersNoDownload(w.loop, e, order, listings, a);
  }

  lemma CommandAnswersNoDownload(l: EL.LoopState, c: CommandRequest, valid: bool, writable: bool,
                                 listId: EL.ListId, fileId: RequestId, a: Answer)
    requires IsGot(a)
    ensures a in EL.HandleCommand(l, c, valid, writable, listId, fileId).0.answers ==> a in l.answers
  {
  }

  lemma ResponseAnswers(l: EL.LoopState, id: RequestId, a: Answer)
    requires IsGot(a) && a in EL.HandleEvent(l, EL.FileReceived(id), [], []).0.answers && a !in l.answers
    ensures id in l.pendingFileGets && l.pendingFileGets[id] == a.id && a.id in l.pendingCommands
    ensures l.pendingCommands[a.id].command == GetFile(a.result.value.userName, a.result.value.fileName)
  {
  }

  lemma EventAnswersNoDownload(l: EL.LoopState, e: EL.LoopEvent, order: seq<nat>, listings: seq<seq<string>>, a: Answer)
    requires |listings| == |order| && !e.FileReceived? && IsGot(a)
    ensures a in EL.HandleEvent(l, e, order, listings).0.answers ==> a in l.answers
  {
    if e.Discovered? {
      PeersAreNoDownload(l.(namespacePeers := EL.Learn(l.namespacePeers, e.registrations)), order, listings, a);
    }
  }

  lemma {:induction false} PeersAreNoDownload(l: EL.LoopState, order: seq<nat>, listings: seq<seq<string>>, a: Answer)
    requires |listings| == |order| && IsGot(a)
    ensures a in EL.AnswerPeers(l, order, listings).answers ==> a in l.answers
    decreases |order|
  {
    if order != [] {
      PeersAreNoDownload(l, order[..|order| - 1], listings[..|order| - 1], a);
    }
  }

  /** The answer to a download carries the user name, the file name and the id of the command for which
      the answered request was issued, to the peer that has now responded. */
  lemma {:induction false} AnswerWasRequested(run: seq<World>, steps: seq<WorldStep>, i: nat, a: Answer)
      returns (m: nat, n: nat, id: RequestId, p: PeerId)
    requires IsRun(run, steps) && i <= |steps| && a in run[i].loop.answers && IsGot(a)
    ensures m < n < i
    ensures Requests(run[m], steps[m], a.id, id, p, a.result.value.userName, a.result.value.fileName)
    ensures Responds(run[n], steps[n], p, id)
    ensures id in run[i].sys.issued && run[i].sys.issued[id] == Swarm.Purpose(p, a.result.value.fileName)
    decreases i
  {
    hide WorldInv, Next, Enabled, SystemOk, StaysCorrelated;
    assert i > 0;
    StepFacts(run, steps, i);
    var w, st := run[i - 1], steps[i - 1];
    StepGrows(w, st);
    if a in w.loop.answers {
      m, n, id, p := AnswerWasRequested(run, steps, i - 1, a);
    } else {
      NewGot(w, st, a);
      SystemOfWorld(w);
      ResponseNamesPeer(w.sys);
      id, n := w.sys.fg.events[0].event.id, i - 1;
      var k, u, f;
      m, k, p, u, f := PendingWasRequested(run, steps, i - 1, id);
    }
  }

  lemma SystemOfWorld(w: World)
    requires WorldInv(w)
    ensures SystemOk(w.sys)
  {
  }

  // --------------------------------------------------------------------------- what is sent out

  lemma {:induction false} IssuedForGood(run: seq<World>, steps: seq<WorldStep>, m: nat, i: nat,
                                         k: nat, id: RequestId, p: PeerId, userName: string, fileName: string)
    requires IsRun(run, steps) && m < i <= |steps| && Requests(run[m], steps[m], k, id, p, userName, fileName)
    ensures id in run[i].sys.issued && run[i].sys.issued[id] == Swarm.Purpose(p, fileName)
    decreases i
  {
    hide WorldInv, Next, Enabled, StaysCorrelated, Requests;
    StepFacts(run, steps, i);
    if i == m + 1 {
      RequestIsIssued(run[m], steps[m], k, id, p, userName, fileName);
    } else {
      IssuedForGood(run, steps, m, i - 1, k, id, p, userName, fileName);
      StepGrows(run[i - 1], steps[i - 1]);
    }
  }

  lemma RequestIsIssued(w: World, st: WorldStep, k: nat, id: RequestId, p: PeerId, userName: string, fileName: string)
    requires WorldInv(w) && Enabled(w, st) && Requests(w, st, k, id, p, userName, fileName)
    ensures var v := Next(w, st); id in v.sys.issued && v.sys.issued[id] == Swarm.Purpose(p, fileName)
  {
    hide SystemOk, Swarm.Apply, EL.Partition, CommandsOwned;
    SystemOfWorld(w);
    SystemGrows(w.sys, SendFor(w, st.command, true, true).value);
  }

  /** Whatever is sent, queued or reported for a download is for the file of its command and the peer its
      user was known as. */
  lemma DownloadIsFaithful(run: seq<World>, steps: seq<WorldStep>, m: nat, i: nat,
                           k: nat, id: RequestId, p: PeerId, userName: string, fileName: string)
    requires IsRun(run, steps) && m < i <= |steps| && Requests(run[m], steps[m], k, id, p, userName, fileName)
    ensures var s, r := run[i].sys, OutboundRequest(id, fileName);
            && (forall q, x :: x in FGM.Queue(s.fg, q) && x.id == id ==> q == p && x == r)
            && (forall a :: a in Swarm.Log(s) && a.NotifyHandler? && a.request.id == id ==> a.peer == p && a.request == r)
            && (forall c, x :: c in s.links && x in Link.Flow(s.links[c]) && x.id == id ==> s.links[c].peer == p && x == r)
            && (forall a :: a in Swarm.Log(s) && id in Select(OurEnd, a) ==> a.event.peer == p)
  {
    hide WorldInv, Next, Enabled, Requests, Swarm.Log, FGM.Queue, Link.Flow;
    IssuedForGood(run, steps, m, i, k, id, p, userName, fileName);
    WorldInvOverRuns(run, steps, i);
    SystemOfWorld(run[i]);
    FaithfulOf(run[i].sys);
    assert forall a :: a in Swarm.Log(run[i].sys) ==> Provenance.ActionBears(run[i].sys.issued, a);
  }

  lemma FaithfulOf(s: Swarm.System)
    requires SystemOk(s)
    ensures Provenance.Faithful(s)
  {
  }
}
