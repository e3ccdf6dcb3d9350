/** Which command is answered with what, on every run: for each kind of answer the steps that lead to it,
    and for each kind of command the answer that its steps lead to. */
module Answered {
  import opened Basics
  import opened Messages
  import opened Commands
  import opened EndToEnd
  import opened Downloads
  import opened Unanswered
  import EL = EventLoopModel
  import Swarm

  // -------------------------------------------------------------------------------- one step

  /** The step takes command k. */
  predicate Takes(w: World, st: WorldStep, k: nat, c: Command) {
    st.TakeCommand? && st.command == c && w.nextCommand == k
  }

  /** The step takes command k, about a user who is not known. */
  predicate AsksUnknown(w: World, st: WorldStep, k: nat, userName: string) {
    && st.TakeCommand? && w.nextCommand == k
    && (st.command == ListFiles(userName) || (st.command.GetFile? && st.command.userName == userName && st.writable))
    && !(st.valid && userName in w.loop.namespacePeers)
  }

  predicate Discovers(st: WorldStep) {
    st.TakeEvent? && st.event.Discovered?
  }

  /** The step is the last one on the way to the answer. */
  ghost predicate LeadsTo(w: World, st: WorldStep, a: Answer) {
    match a.result
    case Err(error) => error.UserNotRegistered? && AsksUnknown(w, st, a.id, error.userName)
    case Ok(r) => (
      match r
      case Registered => st.TakeCommand? && st.command.Register? && st.valid && w.nextCommand == a.id
      case Peers(names) =>
        Discovers(st) && a.id in EL.WaitingForPeers(w.loop) &&
        IsListing(names, EL.Learn(w.loop.namespacePeers, st.event.registrations).Keys)
      case Files(names) =>
        && st.TakeEvent? && st.event.ListFilesAnswered? && st.event.names == names
        && st.event.id in w.loop.pendingListFiles && w.loop.pendingListFiles[st.event.id] == a.id
        && a.id in w.loop.pendingCommands
      case Got(_, _) => Answering(w, st, a))
  }

  lemma NewAnswer(w: World, st: WorldStep, a: Answer)
    requires WorldInv(w) && w.outcome.Continue? && Enabled(w, st) && a in Next(w, st).loop.answers && a !in w.loop.answers
    ensures LeadsTo(w, st, a)
  {
    hide SystemOk, Swarm.Apply, Swarm.Enabled, EL.Partition, CommandsOwned, EL.HandleEvent, EL.HandleCommand, LeadsTo;
    match st
    case Internal(_) =>
    case TakeCommand(c, valid, writable) => NewCommandAnswer(w, c, valid, writable, a);
    case TakeFileGetEvent(openable) =>
      EventGivesNoOther(w.loop, Told(w.sys.fg.events[0].event, openable), a);
      NewGot(w, st, a);
      GotLeads(w, st, a);
    case TakeEvent(e, order, listings) => NewEventAnswer(w, e, order, listings, a);
  }

  lemma GotLeads(w: World, st: WorldStep, a: Answer)
    requires Answering(w, st, a)
    ensures LeadsTo(w, st, a)
  {
  }

  lemma EventGivesNoOther(l: EL.LoopState, e: EL.LoopEvent, a: Answer)
    requires !e.Discovered? && !e.ListFilesAnswered?
    requires a in EL.HandleEvent(l, e, [], []).0.answers && a !in l.answers
    ensures IsGot(a)
  {
  }

  lemma NewCommandAnswer(w: World, c: Command, valid: bool, writable: bool, a: Answer)
    requires Enabled(w, TakeCommand(c, valid, writable))
    requires a in Next(w, TakeCommand(c, valid, writable)).loop.answers && a !in w.loop.answers
    ensures LeadsTo(w, TakeCommand(c, valid, writable), a)
  {
    hide Swarm.Apply, Swarm.Enabled;
  }

  lemma NewEventAnswer(w: World, e: EL.LoopEvent, order: seq<nat>, listings: seq<seq<string>>, a: Answer)
    requires WorldInv(w) && w.outcome.Continue? && Enabled(w, TakeEvent(e, order, listings))
    requires a in Next(w, TakeEvent(e, order, listings)).loop.answers && a !in w.loop.answers
    ensures LeadsTo(w, TakeEvent(e, order, listings), a)
  {
    hide SystemOk, EL.Learn, CommandsOwned, EL.AnswerPeers;
    if e.Discovered? {
      NewPeersAnswer(w.loop, e.registrations, order, listings, a);
    }
  }

  lemma NewPeersAnswer(l: EL.LoopState, rs: seq<EL.Registration>, order: seq<nat>, listings: seq<seq<string>>, a: Answer)
    requires EL.Partition(l) && EL.Iterates(l, EL.Discovered(rs), order, listings)
    requires a in EL.HandleEvent(l, EL.Discovered(rs), order, listings).0.answers && a !in l.answers
    ensures a.result.Ok? && a.result.value.Peers? && a.id in EL.WaitingForPeers(l)
    ensures IsListing(a.result.value.names, EL.Learn(l.namespacePeers, rs).Keys)
  {
    hide EL.Learn, EL.HandleEvent;
    EL.DiscoveredEffect(l, rs, order, listings);
    EL.ListingIsDistinct(order, EL.WaitingForPeers(l));
    var i :| 0 <= i < |order| && EL.PeersAnswers(order, listings)[i] == a;
    assert order[i] in (set x | x in order);
  }

  // ---------------------------------------------------------------------------- what stays so

  lemma AnswersGrow(w: World, st: WorldStep)
    requires WorldInv(w) && w.outcome.Continue? && Enabled(w, st)
    ensures w.loop.answers <= Next(w, st).loop.answers
  {
    hide SystemOk, Swarm.Apply, Swarm.Enabled, EL.Partition, CommandsOwned, EL.HandleEvent, EL.HandleCommand;
    match st
    case Internal(_) =>
    case TakeCommand(c, valid, writable) =>
      CommandAnswersGrow(w.loop, CommandRequest(w.nextCommand, c), valid, writable, w.nextListId, w.sys.fg.nextId);
    case TakeFileGetEvent(openable) => EventAnswersGrow(w.loop, Told(w.sys.fg.events[0].event, openable));
    case TakeEvent(e, order, listings) =>
      if e.Discovered? {
        DiscoveryAnswersGrow(w, e.registrations, order, listings);
      } else {
        EventAnswersGrow(w.loop, e);
      }
  }

  lemma CommandAnswersGrow(l: EL.LoopState, c: CommandRequest, valid: bool, writable: bool,
                           listId: EL.ListId, fileId: RequestId)
    ensures l.answers <= EL.HandleCommand(l, c, valid, writable, listId, fileId).0.answers
  {
  }

  lemma EventAnswersGrow(l: EL.LoopState, e: EL.LoopEvent)
    requires !e.Discovered?
    ensures l.answers <= EL.HandleEvent(l, e, [], []).0.answers
  {
  }

  lemma DiscoveryAnswersGrow(w: World, rs: seq<EL.Registration>, order: seq<nat>, listings: seq<seq<string>>)
    requires WorldInv(w) && w.outcome.Continue? && EL.Iterates(w.loop, EL.Discovered(rs), order, listings)
    ensures w.loop.answers <= EL.HandleEvent(w.loop, EL.Discovered(rs), order, listings).0.answers
  {
    hide SystemOk, EL.Learn, CommandsOwned;
    EL.DiscoveredEffect(w.loop, rs, order, listings);
  }

  lemma {:induction false} AnswersStay(run: seq<World>, steps: seq<WorldStep>, i: nat, j: nat, a: Answer)
    requires IsRun(run, steps) && i <= j <= |steps| && a in run[i].loop.answers
    ensures a in run[j].loop.answers
    decreases j
  {
    hide WorldInv, Next, Enabled;
    if i < j {
      AnswersStay(run, steps, i, j - 1, a);
      StepFacts(run, steps, j);
      AnswersGrow(run[j - 1], steps[j - 1]);
    }
  }

  /** A command once taken keeps its id. */
  lemma {:induction false} ReceivedStays(run: seq<World>, steps: seq<WorldStep>, m: nat, i: nat, k: nat, c: Command)
    requires IsRun(run, steps) && m < i <= |steps| && Takes(run[m], steps[m], k, c)
    ensures k in run[i].received && run[i].received[k] == c && k < run[i].nextCommand
    decreases i
  {
    hide WorldInv, Next, Enabled, Takes;
    StepFacts(run, steps, i);
    if i == m + 1 {
      TakenIsReceived(run[m], steps[m], k, c);
    } else {
      ReceivedStays(run, steps, m, i - 1, k, c);
      CommandsStay(run[i - 1], steps[i - 1]);
    }
  }

  lemma TakenIsReceived(w: World, st: WorldStep, k: nat, c: Command)
    requires Enabled(w, st) && Takes(w, st, k, c)
    ensures var v := Next(w, st); k in v.received && v.received[k] == c && k < v.nextCommand
  {
    hide Swarm.Apply, Swarm.Enabled, EL.HandleCommand;
  }

  /** Every command received was taken by an earlier step. */
  lemma {:induction false} ReceivedWasTaken(run: seq<World>, steps: seq<WorldStep>, i: nat, k: nat) returns (m: nat)
    requires IsRun(run, steps) && i <= |steps| && k in run[i].received
    ensures m < i && Takes(run[m], steps[m], k, run[i].received[k])
    decreases i
  {
    hide WorldInv, Next, Enabled;
    assert i > 0 by {
      NothingReceived(run, steps);
    }
    StepFacts(run, steps, i);
    CommandsStay(run[i - 1], steps[i - 1]);
    if k in run[i - 1].received {
      m := ReceivedWasTaken(run, steps, i - 1, k);
    } else {
      NewIsTaken(run[i - 1], steps[i - 1], k);
      m := i - 1;
    }
  }

  lemma NothingReceived(run: seq<World>, steps: seq<WorldStep>)
    requires IsRun(run, steps)
    ensures run[0].received == map[] && run[0].loop.answers == []
  {
  }

  lemma NewIsTaken(w: World, st: WorldStep, k: nat)
    requires Enabled(w, st) && k in Next(w, st).received && k !in w.received
    ensures Takes(w, st, k, Next(w, st).received[k])
  {
    hide Swarm.Apply, Swarm.Enabled, EL.HandleCommand, EL.HandleEvent;
  }

  // ----------------------------------------------------------------------- answers given at once

  lemma {:induction false} AnswerWasLedTo(run: seq<World>, steps: seq<WorldStep>, i: nat, a: Answer) returns (n: nat)
    requires IsRun(run, steps) && i <= |steps| && a in run[i].loop.answers
    ensures n < i && LeadsTo(run[n], steps[n], a)
    decreases i
  {
    hide WorldInv, Next, Enabled, LeadsTo;
    assert i > 0 by {
      NothingReceived(run, steps);
    }
    StepFacts(run, steps, i);
    if a in run[i - 1].loop.answers {
      n := AnswerWasLedTo(run, steps, i - 1, a);
    } else {
      NewAnswer(run[i - 1], steps[i - 1], a);
      n := i - 1;
    }
  }

  lemma GivenAtOnce(w: World, st: WorldStep, k: nat)
    requires WorldInv(w) && w.outcome.Continue? && Enabled(w, st) && st.TakeCommand? && w.nextCommand == k
    ensures st.command.Register? && st.valid ==> Answer(k, Ok(Registered)) in Next(w, st).loop.answers
    ensures forall u :: AsksUnknown(w, st, k, u) ==> Answer(k, Err(UserNotRegistered(u))) in Next(w, st).loop.answers
  {
    hide SystemOk, Swarm.Apply, Swarm.Enabled, EL.Partition, CommandsOwned;
  }

  /** Command k is answered as registered exactly if it was taken as a registration with a valid name. */
  lemma RegisteredIff(run: seq<World>, steps: seq<WorldStep>, i: nat, k: nat)
    requires IsRun(run, steps) && i <= |steps|
    ensures Answer(k, Ok(Registered)) in run[i].loop.answers <==>
            exists m :: 0 <= m < i && steps[m].TakeCommand? && steps[m].command.Register? && steps[m].valid
                        && run[m].nextCommand == k
  {
    hide WorldInv, Next, Enabled;
    if Answer(k, Ok(Registered)) in run[i].loop.answers {
      var n := AnswerWasLedTo(run, steps, i, Answer(k, Ok(Registered)));
    }
    forall m | 0 <= m < i && steps[m].TakeCommand? && steps[m].command.Register? && steps[m].valid && run[m].nextCommand == k
      ensures Answer(k, Ok(Registered)) in run[i].loop.answers
    {
      StepFacts(run, steps, m + 1);
      GivenAtOnce(run[m], steps[m], k);
      AnswersStay(run, steps, m + 1, i, Answer(k, Ok(Registered)));
    }
  }

  /** Command k is answered with an error exactly if it asked for the files, or for a file, of a user who was
      not known when it was taken; the error names that user, and there is no other error. */
  lemma NotRegisteredIff(run: seq<World>, steps: seq<WorldStep>, i: nat, k: nat, error: Error)
    requires IsRun(run, steps) && i <= |steps|
    ensures Answer(k, Err(error)) in run[i].loop.answers <==>
            error.UserNotRegistered? && exists m :: 0 <= m < i && AsksUnknown(run[m], steps[m], k, error.userName)
  {
    hide WorldInv, Next, Enabled, AsksUnknown;
    if Answer(k, Err(error)) in run[i].loop.answers {
      var n := AnswerWasLedTo(run, steps, i, Answer(k, Err(error)));
    }
    if error.UserNotRegistered? {
      forall m | 0 <= m < i && AsksUnknown(run[m], steps[m], k, error.userName)
        ensures Answer(k, Err(error)) in run[i].loop.answers
      {
        StepFacts(run, steps, m + 1);
        assert steps[m].TakeCommand? && run[m].nextCommand == k by {
          UnknownIsTaken(run[m], steps[m], k, error.userName);
        }
        GivenAtOnce(run[m], steps[m], k);
        AnswersStay(run, steps, m + 1, i, Answer(k, Err(error)));
      }
    }
  }

  lemma UnknownIsTaken(w: World, st: WorldStep, k: nat, userName: string)
    requires AsksUnknown(w, st, k, userName)
    ensures st.TakeCommand? && w.nextCommand == k
  {
  }

  // ---------------------------------------------------------------------------------- downloads

  /** The response to a download is answered to its command, with the user and the file it named. */
  lemma DownloadIsAnswered(run: seq<World>, steps: seq<WorldStep>, m: nat, n: nat,
                           k: nat, id: RequestId, p: PeerId, userName: string, fileName: string)
    requires IsRun(run, steps) && m < n < |steps|
    requires Requests(run[m], steps[m], k, id, p, userName, fileName) && Responds(run[n], steps[n], p, id)
    ensures Answer(k, Ok(Got(userName, fileName))) in run[n + 1].loop.answers
  {
    hide WorldInv, Next, Enabled;
    StepFacts(run, steps, n + 1);
    DownloadPendingIff(run, steps, m, n, k, id, p, userName, fileName);
    ReceivedStays(run, steps, m, n, k, GetFile(userName, fileName));
    SystemOfWorld(run[n]);
    ResponseIsAwaited(run[n].sys);
    ResponseIsAnswered(run[n], steps[n], k, id, p, userName, fileName);
  }

  lemma ResponseIsAnswered(w: World, st: WorldStep, k: nat, id: RequestId, p: PeerId, userName: string, fileName: string)
    requires WorldInv(w) && w.outcome.Continue? && Enabled(w, st) && Responds(w, st, p, id)
    requires id in w.loop.pendingFileGets && w.loop.pendingFileGets[id] == k && k in w.loop.pendingCommands
    requires k in w.received && w.received[k] == GetFile(userName, fileName)
    ensures Answer(k, Ok(Got(userName, fileName))) in Next(w, st).loop.answers
  {
    hide SystemOk, EL.Partition, Swarm.Apply, Swarm.Enabled;
  }

  // ----------------------------------------------------------------------------------- listings

  /** The first response to a listing is answered to its command, with exactly the names it carries. */
  lemma ListingIsAnswered(run: seq<World>, steps: seq<WorldStep>, m: nat, n: nat, k: nat, r: EL.ListId)
    requires IsRun(run, steps) && m < n < |steps| && Lists(run[m], steps[m], k, r)
    requires AnswersList(steps[n], r) && !AnswerTaken(steps, m, n, r)
    ensures Answer(k, Ok(Files(steps[n].event.names))) in run[n + 1].loop.answers
  {
    hide WorldInv, Next, Enabled, Lists;
    StepFacts(run, steps, n + 1);
    ListingStateOverRuns(run, steps, m, n, k, r);
    NamesAreAnswered(run[n], steps[n], k, r);
  }

  lemma NamesAreAnswered(w: World, st: WorldStep, k: nat, r: EL.ListId)
    requires Enabled(w, st) && AnswersList(st, r)
    requires r in w.loop.pendingListFiles && w.loop.pendingListFiles[r] == k && k in w.loop.pendingCommands
    ensures Answer(k, Ok(Files(st.event.names))) in Next(w, st).loop.answers
  {
    hide Swarm.Apply, Swarm.Enabled;
  }

  /** Every pending listing was sent by an earlier step. */
  lemma {:induction false} ListingWasSent(run: seq<World>, steps: seq<WorldStep>, i: nat, r: EL.ListId) returns (m: nat)
    requires IsRun(run, steps) && i <= |steps| && r in run[i].loop.pendingListFiles
    ensures m < i && Lists(run[m], steps[m], run[i].loop.pendingListFiles[r], r)
    decreases i
  {
    hide WorldInv, Next, Enabled, Lists;
    assert i > 0 by {
      NothingListed(run, steps);
    }
    StepFacts(run, steps, i);
    ListedOrSent(run[i - 1], steps[i - 1], r);
    if r in run[i - 1].loop.pendingListFiles && run[i - 1].loop.pendingListFiles[r] == run[i].loop.pendingListFiles[r] {
      m := ListingWasSent(run, steps, i - 1, r);
    } else {
      m := i - 1;
    }
  }

  lemma NothingListed(run: seq<World>, steps: seq<WorldStep>)
    requires IsRun(run, steps)
    ensures run[0].loop.pendingListFiles == map[]
  {
  }

  lemma ListedOrSent(w: World, st: WorldStep, r: EL.ListId)
    requires WorldInv(w) && w.outcome.Continue? && Enabled(w, st) && r in Next(w, st).loop.pendingListFiles
    ensures var k := Next(w, st).loop.pendingListFiles[r];
            (r in w.loop.pendingListFiles && w.loop.pendingListFiles[r] == k) || Lists(w, st, k, r)
  {
    hide SystemOk, Swarm.Apply, Swarm.Enabled, EL.Partition, CommandsOwned, EL.HandleEvent, EL.HandleCommand;
    match st
    case Internal(_) =>
    case TakeCommand(c, valid, writable) =>
      CommandLists(w.loop, CommandRequest(w.nextCommand, c), valid, writable, w.nextListId, w.sys.fg.nextId);
    case TakeFileGetEvent(openable) => EventListsNothing(w.loop, Told(w.sys.fg.events[0].event, openable));
    case TakeEvent(e, order, listings) =>
      if e.Discovered? {
        DiscoveryKeepsListings(w, e.registrations, order, listings);
      } else {
        EventListsNothing(w.loop, e);
      }
  }

  lemma CommandLists(l: EL.LoopState, c: CommandRequest, valid: bool, writable: bool,
                     listId: EL.ListId, fileId: RequestId)
    ensures var m := EL.HandleCommand(l, c, valid, writable, listId, fileId).0;
            forall r :: r in m.pendingListFiles ==>
              || (r in l.pendingListFiles && m.pendingListFiles[r] == l.pendingListFiles[r])
              || (r == listId && m.pendingListFiles[r] == c.id && c.command.ListFiles? && valid
                  && c.command.userName in l.namespacePeers)
  {
  }

  lemma EventListsNothing(l: EL.LoopState, e: EL.LoopEvent)
    requires !e.Discovered?
    ensures var m := EL.HandleEvent(l, e, [], []).0;
            forall r :: r in m.pendingListFiles ==> r in l.pendingListFiles && m.pendingListFiles[r] == l.pendingListFiles[r]
  {
  }

  lemma DiscoveryKeepsListings(w: World, rs: seq<EL.Registration>, order: seq<nat>, listings: seq<seq<string>>)
    requires WorldInv(w) && w.outcome.Continue? && EL.Iterates(w.loop, EL.Discovered(rs), order, listings)
    ensures EL.HandleEvent(w.loop, EL.Discovered(rs), order, listings).0.pendingListFiles == w.loop.pendingListFiles
  {
    hide SystemOk, EL.Learn, CommandsOwned;
    EL.DiscoveredEffect(w.loop, rs, order, listings);
  }

  /** An answered listing was sent for its command, and has the names of the first response to it. */
  lemma FilesWereListed(run: seq<World>, steps: seq<WorldStep>, i: nat, k: nat, names: seq<string>)
      returns (m: nat, n: nat, r: EL.ListId)
    requires IsRun(run, steps) && i <= |steps| && Answer(k, Ok(Files(names))) in run[i].loop.answers
    ensures m < n < i && Lists(run[m], steps[m], k, r)
    ensures AnswersList(steps[n], r) && steps[n].event.names == names && !AnswerTaken(steps, m, n, r)
  {
    hide WorldInv, Next, Enabled, Lists;
    n := AnswerWasLedTo(run, steps, i, Answer(k, Ok(Files(names))));
    r := steps[n].event.id;
    m := ListingWasSent(run, steps, n, r);
    ListingPendingIff(run, steps, m, n, k, r);
  }

  // ------------------------------------------------------------------------------ lists of peers

  /** Whether one of the steps from m + 1 up to i is a discovery. */
  predicate Discovered(steps: seq<WorldStep>, m: nat, i: nat)
    requires i <= |steps|
  {
    exists n :: m < n < i && Discovers(steps[n])
  }

  ghost predicate PeersState(w: World, k: nat, answered: bool) {
    && k < w.nextCommand
    && (if answered then k !in w.loop.pendingCommands else k in EL.WaitingForPeers(w.loop))
  }

  lemma PeersStart(w: World, st: WorldStep, k: nat)
    requires WorldInv(w) && w.outcome.Continue? && Enabled(w, st) && Takes(w, st, k, ListPeers)
    ensures PeersState(Next(w, st), k, false)
  {
    hide SystemOk, Swarm.Apply, Swarm.Enabled, EL.Partition, CommandsOwned;
  }

  /** Nothing but a discovery takes a command off those that wait for peers. */
  lemma PeersGoOn(w: World, st: WorldStep, k: nat)
    requires WorldInv(w) && w.outcome.Continue? && Enabled(w, st) && PeersState(w, k, false) && !Discovers(st)
    ensures PeersState(Next(w, st), k, false)
  {
    hide SystemOk, Swarm.Apply, Swarm.Enabled, EL.Partition, CommandsOwned, EL.HandleEvent, EL.HandleCommand;
    match st
    case Internal(_) =>
    case TakeCommand(c, valid, writable) =>
      CommandKeepsWaiting(w.loop, CommandRequest(w.nextCommand, c), valid, writable, w.nextListId, w.sys.fg.nextId, k);
    case TakeFileGetEvent(openable) => EventKeepsWaiting(w.loop, Told(w.sys.fg.events[0].event, openable), k);
    case TakeEvent(e, order, listings) => EventKeepsWaiting(w.loop, e, k);
  }

  lemma CommandKeepsWaiting(l: EL.LoopState, c: CommandRequest, valid: bool, writable: bool,
                            listId: EL.ListId, fileId: RequestId, k: nat)
    requires k in EL.WaitingForPeers(l) && k != c.id
    ensures k in EL.WaitingForPeers(EL.HandleCommand(l, c, valid, writable, listId, fileId).0)
  {
  }

  lemma EventKeepsWaiting(l: EL.LoopState, e: EL.LoopEvent, k: nat)
    requires EL.Partition(l) && k in EL.WaitingForPeers(l) && !e.Discovered?
    ensures k in EL.WaitingForPeers(EL.HandleEvent(l, e, [], []).0)
  {
    if e.ListFilesAnswered? && e.id in l.pendingListFiles {
      assert l.pendingListFiles[e.id] in EL.WaitingForNames(l);
    } else if e.FileReceived? && e.id in l.pendingFileGets {
      assert l.pendingFileGets[e.id] in EL.WaitingForFile(l);
    }
  }

  lemma PeersEnd(w: World, st: WorldStep, k: nat) returns (names: seq<string>)
    requires WorldInv(w) && w.outcome.Continue? && Enabled(w, st) && PeersState(w, k, false) && Discovers(st)
    ensures PeersState(Next(w, st), k, true)
    ensures Answer(k, Ok(Peers(names))) in Next(w, st).loop.answers
    ensures IsListing(names, Next(w, st).loop.namespacePeers.Keys)
  {
    hide SystemOk, CommandsOwned, EL.Learn, Swarm.Apply, Swarm.Enabled;
    EL.DiscoveredEffect(w.loop, st.event.registrations, st.order, st.listings);
    EL.ListingIsDistinct(st.order, EL.WaitingForPeers(w.loop));
    assert k in (set x | x in st.order);
    var i :| 0 <= i < |st.order| && st.order[i] == k;
    names := st.listings[i];
    assert EL.PeersAnswers(st.order, st.listings)[i] == Answer(k, Ok(Peers(names)));
  }

  lemma PeersAreOver(w: World, st: WorldStep, k: nat)
    requires WorldInv(w) && Enabled(w, st) && PeersState(w, k, true)
    ensures PeersState(Next(w, st), k, true)
  {
    hide WorldInv, Swarm.Apply, Swarm.Enabled, EL.HandleEvent, EL.HandleCommand;
    CommandsStay(w, st);
  }

  lemma {:induction false} PeersStateOverRuns(run: seq<World>, steps: seq<WorldStep>, m: nat, i: nat, k: nat)
    requires IsRun(run, steps) && m < i <= |steps| && Takes(run[m], steps[m], k, ListPeers)
    ensures PeersState(run[i], k, Discovered(steps, m, i))
    decreases i
  {
    hide WorldInv, Next, Enabled, Takes, Discovers, PeersState;
    StepFacts(run, steps, i);
    if i == m + 1 {
      PeersStart(run[m], steps[m], k);
    } else {
      PeersStateOverRuns(run, steps, m, i - 1, k);
      if Discovered(steps, m, i - 1) {
        PeersAreOver(run[i - 1], steps[i - 1], k);
      } else if Discovers(steps[i - 1]) {
        var names := PeersEnd(run[i - 1], steps[i - 1], k);
      } else {
        PeersGoOn(run[i - 1], steps[i - 1], k);
      }
    }
  }

  /** A command for the peers is pending exactly as long as there is no discovery. */
  lemma PeersPendingIff(run: seq<World>, steps: seq<WorldStep>, m: nat, i: nat, k: nat)
    requires IsRun(run, steps) && m < i <= |steps| && Takes(run[m], steps[m], k, ListPeers)
    ensures k in run[i].loop.pendingCommands <==> !Discovered(steps, m, i)
  {
    hide WorldInv, Next, Enabled, Takes, Discovers;
    PeersStateOverRuns(run, steps, m, i, k);
  }

  /** The first discovery after a command for the peers answers it, with the names known then. */
  lemma PeersAreAnswered(run: seq<World>, steps: seq<WorldStep>, m: nat, n: nat, k: nat) returns (names: seq<string>)
    requires IsRun(run, steps) && m < n < |steps| && Takes(run[m], steps[m], k, ListPeers)
    requires Discovers(steps[n]) && !Discovered(steps, m, n)
    ensures Answer(k, Ok(Peers(names))) in run[n + 1].loop.answers
    ensures IsListing(names, run[n + 1].loop.namespacePeers.Keys)
  {
    hide WorldInv, Next, Enabled, Takes, Discovers, PeersState;
    StepFacts(run, steps, n + 1);
    PeersStateOverRuns(run, steps, m, n, k);
    names := PeersEnd(run[n], steps[n], k);
  }

  /** A list of peers was asked for, and has the names known at the first discovery after that. */
  lemma PeersWereDiscovered(run: seq<World>, steps: seq<WorldStep>, i: nat, k: nat, names: seq<string>)
      returns (m: nat, n: nat)
    requires IsRun(run, steps) && i <= |steps| && Answer(k, Ok(Peers(names))) in run[i].loop.answers
    ensures m < n < i && Takes(run[m], steps[m], k, ListPeers)
    ensures Discovers(steps[n]) && !Discovered(steps, m, n)
    ensures IsListing(names, EL.Learn(run[n].loop.namespacePeers, steps[n].event.registrations).Keys)
  {
    hide Next, Enabled, SystemOk, EL.Partition, EL.Learn;
    n := AnswerWasLedTo(run, steps, i, Answer(k, Ok(Peers(names))));
    StepFacts(run, steps, n + 1);
    m := ReceivedWasTaken(run, steps, n, k);
    PeersPendingIff(run, steps, m, n, k);
  }

  // --------------------------------------------------------------------------------- known peers

  /** All registrations of the discoveries among the first steps, in order. */
  function Registrations(steps: seq<WorldStep>): seq<EL.Registration> {
    if steps == [] then []
    else
      var last := steps[|steps| - 1];
      Registrations(steps[..|steps| - 1]) + (if Discovers(last) then last.event.registrations else [])
  }

  lemma {:induction false} LearnConcat(m: map<string, PeerId>, a: seq<EL.Registration>, b: seq<EL.Registration>)
    ensures EL.Learn(m, a + b) == EL.Learn(EL.Learn(m, a), b)
    decreases |b|
  {
    if b == [] {
      assert a + b == a;
    } else {
      LearnConcat(m, a, b[..|b| - 1]);
      assert (a + b)[..|a + b| - 1] == a + b[..|b| - 1];
    }
  }

  lemma StepLearns(w: World, st: WorldStep)
    requires WorldInv(w) && w.outcome.Continue? && Enabled(w, st)
    ensures Next(w, st).loop.namespacePeers ==
            if Discovers(st) then EL.Learn(w.loop.namespacePeers, st.event.registrations) else w.loop.namespacePeers
  {
    hide SystemOk, Swarm.Apply, Swarm.Enabled, EL.Partition, CommandsOwned, EL.HandleEvent, EL.HandleCommand, EL.Learn;
    match st
    case Internal(_) =>
    case TakeCommand(c, valid, writable) =>
      CommandLearnsNothing(w.loop, CommandRequest(w.nextCommand, c), valid, writable, w.nextListId, w.sys.fg.nextId);
    case TakeFileGetEvent(openable) => EventLearnsNothing(w.loop, Told(w.sys.fg.events[0].event, openable));
    case TakeEvent(e, order, listings) =>
      if e.Discovered? {
        DiscoveryLearns(w, e.registrations, order, listings);
      } else {
        EventLearnsNothing(w.loop, e);
      }
  }

  lemma CommandLearnsNothing(l: EL.LoopState, c: CommandRequest, valid: bool, writable: bool,
                             listId: EL.ListId, fileId: RequestId)
    ensures EL.HandleCommand(l, c, valid, writable, listId, fileId).0.namespacePeers == l.namespacePeers
  {
  }

  lemma EventLearnsNothing(l: EL.LoopState, e: EL.LoopEvent)
    requires !e.Discovered?
    ensures EL.HandleEvent(l, e, [], []).0.namespacePeers == l.namespacePeers
  {
  }

  lemma DiscoveryLearns(w: World, rs: seq<EL.Registration>, order: seq<nat>, listings: seq<seq<string>>)
    requires WorldInv(w) && w.outcome.Continue? && EL.Iterates(w.loop, EL.Discovered(rs), order, listings)
    ensures EL.HandleEvent(w.loop, EL.Discovered(rs), order, listings).0.namespacePeers ==
            EL.Learn(w.loop.namespacePeers, rs)
  {
    hide SystemOk, EL.Learn, CommandsOwned;
    EL.DiscoveredEffect(w.loop, rs, order, listings);
  }

  /** The users known are those of the discoveries so far, each with the peer of the last registration that
      had an address, and of nothing else. */
  lemma {:induction false} KnownAreDiscovered(run: seq<World>, steps: seq<WorldStep>, i: nat)
    requires IsRun(run, steps) && i <= |steps|
    ensures run[i].loop.namespacePeers == EL.Learn(map[], Registrations(steps[..i]))
    decreases i
  {
    hide WorldInv, Next, Enabled, EL.Learn;
    if i == 0 {
      NobodyKnown(run, steps);
    } else {
      StepFacts(run, steps, i);
      KnownAreDiscovered(run, steps, i - 1);
      StepLearns(run[i - 1], steps[i - 1]);
      assert steps[..i][..i - 1] == steps[..i - 1];
      if Discovers(steps[i - 1]) {
        LearnConcat(map[], Registrations(steps[..i - 1]), steps[i - 1].event.registrations);
      } else {
        assert Registrations(steps[..i - 1]) + [] == Registrations(steps[..i - 1]);
      }
    }
  }

  lemma NobodyKnown(run: seq<World>, steps: seq<WorldStep>)
    requires IsRun(run, steps)
    ensures run[0].loop.namespacePeers == map[] && EL.Learn(map[], Registrations(steps[..0])) == map[]
  {
  }

  // --------------------------------------------------------------------------------------- calls

  /** The step makes the loop ask this of another part of the program. */
  predicate Calls(w: World, st: WorldStep, call: EL.Call) {
    match call
    case RegisterAs(userName, point) =>
      st.TakeCommand? && st.command == Register(userName) && st.valid && w.loop.rendezvous == Some(point)
    case DiscoverAt(point) => st.TakeCommand? && st.command == ListPeers && w.loop.rendezvous == Some(point)
    case ListFrom(r, p) =>
      && st.TakeCommand? && Lists(w, st, w.nextCommand, r)
      && w.loop.namespacePeers[st.command.userName] == p
    case SendNames(channel, names) => st.TakeEvent? && st.event == EL.ListFilesRequested(channel, Some(names))
  }

  /** A step asks at most one thing, and what it asks is appended to what was asked before. */
  lemma StepCalls(w: World, st: WorldStep)
    requires Enabled(w, st)
    ensures var before, after := w.loop.calls, Next(w, st).loop.calls;
            if after == before then forall call :: !Calls(w, st, call)
            else |after| == |before| + 1 && before <= after
                 && forall call :: Calls(w, st, call) <==> call == after[|before|]
  {
    hide Swarm.Apply, Swarm.Enabled, EL.HandleEvent, EL.HandleCommand;
    match st
    case Internal(_) =>
    case TakeCommand(c, valid, writable) => CommandCalls(w, c, valid, writable);
    case TakeFileGetEvent(openable) => EventCalls(w.loop, Told(w.sys.fg.events[0].event, openable), [], []);
    case TakeEvent(e, order, listings) => EventCalls(w.loop, e, order, listings);
  }

  lemma CommandCalls(w: World, c: Command, valid: bool, writable: bool)
    requires Enabled(w, TakeCommand(c, valid, writable))
    ensures var st := TakeCommand(c, valid, writable);
            var before, after := w.loop.calls, Next(w, st).loop.calls;
            if after == before then forall call :: !Calls(w, st, call)
            else |after| == |before| + 1 && before <= after
                 && forall call :: Calls(w, st, call) <==> call == after[|before|]
  {
    hide Swarm.Apply, Swarm.Enabled;
  }

  lemma EventCalls(l: EL.LoopState, e: EL.LoopEvent, order: seq<nat>, listings: seq<seq<string>>)
    requires |listings| == |order|
    ensures EL.HandleEvent(l, e, order, listings).0.calls ==
            l.calls + (if e.ListFilesRequested? && e.ours.Some? then [EL.SendNames(e.channel, e.ours.value)] else [])
  {
    if e.Discovered? {
      AnswerPeersCallsNothing(l.(namespacePeers := EL.Learn(l.namespacePeers, e.registrations)), order, listings);
    }
  }

  lemma {:induction false} AnswerPeersCallsNothing(l: EL.LoopState, order: seq<nat>, listings: seq<seq<string>>)
    requires |listings| == |order|
    ensures EL.AnswerPeers(l, order, listings).calls == l.calls
    decreases |order|
  {
    if order != [] {
      AnswerPeersCallsNothing(l, order[..|order| - 1], listings[..|order| - 1]);
    }
  }

  /** The loop has asked something of another part exactly if one of its steps makes it do so: names are
      registered and peers discovered at the rendezvous point, and a listing goes to the peer its user is
      known as. */
  lemma {:induction false} CalledIff(run: seq<World>, steps: seq<WorldStep>, i: nat, call: EL.Call)
    requires IsRun(run, steps) && i <= |steps|
    ensures call in run[i].loop.calls <==> exists m :: 0 <= m < i && Calls(run[m], steps[m], call)
    decreases i
  {
    hide WorldInv, Next, Enabled, Calls;
    if i == 0 {
      NothingCalled(run, steps);
    } else {
      StepFacts(run, steps, i);
      CalledIff(run, steps, i - 1, call);
      StepCalls(run[i - 1], steps[i - 1]);
      AppendedIff(run[i - 1].loop.calls, run[i].loop.calls, call);
    }
  }

  lemma AppendedIff(before: seq<EL.Call>, after: seq<EL.Call>, call: EL.Call)
    requires after == before || (|after| == |before| + 1 && before <= after)
    ensures call in after <==> call in before || (after != before && call == after[|before|])
  {
    if after != before {
      assert after == before + [after[|before|]];
    }
  }

  lemma NothingCalled(run: seq<World>, steps: seq<WorldStep>)
    requires IsRun(run, steps)
    ensures run[0].loop.calls == []
  {
  }
}
