/** The event loop on values: how commands and swarm events are correlated. */
module EventLoopModel {
  import opened Basics
  import opened Commands

  /** Ids of the request-response protocol that lists files. */
  type ListId = nat

  datatype LoopState = LoopState(
    rendezvous: Option<PeerId>,
    namespacePeers: map<string, PeerId>,
    pendingCommands: map<nat, CommandRequest>,
    pendingListFiles: map<ListId, nat>,
    pendingFileGets: map<RequestId, nat>,
    answers: seq<Answer>,
    senders: seq<SenderFate>,
    calls: seq<Call>)

  /** What became of the response sender of a received request: it sent a file, or was dropped. */
  datatype SenderFate = Used(id: RequestId) | Discarded(id: RequestId)

  /** What the loop has other parts of the program do: register a name or discover peers at the rendezvous
      point, ask a peer for the names of its files, and tell a peer the names of ours. */
  datatype Call =
    | RegisterAs(userName: string, point: PeerId)
    | DiscoverAt(point: PeerId)
    | ListFrom(id: ListId, peer: PeerId)
    | SendNames(channel: nat, names: seq<string>)

  /** A handler returns, returns an error that ends the loop, or panics. */
  datatype Outcome = Continue | Exit(error: Error) | Panic

  /** A registration found at the rendezvous point and its number of addresses. */
  datatype Registration = Registration(namespace: string, peer: PeerId, addresses: nat)

  /** The names in a request for our files are those in the shared directory, if it can be read. */
  datatype LoopEvent =
    | Discovered(registrations: seq<Registration>)
    | ListFilesRequested(channel: nat, ours: Option<seq<string>>)
    | ListFilesAnswered(id: ListId, names: seq<string>)
    | ListFilesFailed(id: ListId)
    | FileRequested(id: RequestId, openable: bool)
    | FileReceived(id: RequestId)
    | Ignored

  function Respond(l: LoopState, id: nat, r: Result<CommandResult>): LoopState {
    l.(answers := l.answers + [Answer(id, r)])
  }

  function Ask(l: LoopState, call: Call): LoopState {
    l.(calls := l.calls + [call])
  }

  function Keep(l: LoopState, c: CommandRequest): LoopState {
    l.(pendingCommands := l.pendingCommands[c.id := c])
  }

  /** `valid` is the outcome of making a namespace of the user name. */
  function GetPeerId(l: LoopState, userName: string, valid: bool): Option<PeerId> {
    if valid && userName in l.namespacePeers then Some(l.namespacePeers[userName]) else None
  }

  /** The peer a command makes FileGet send a request to. */
  function FileRequestFor(l: LoopState, c: Command, valid: bool, writable: bool): Option<PeerId> {
    if c.GetFile? && writable then GetPeerId(l, c.userName, valid) else None
  }

  /** `valid` and `writable` are the outcomes of making a namespace and of creating the local file;
      `listId` and `fileId` the ids the two protocols draw if they are asked to send a request. */
  function HandleCommand(l: LoopState, c: CommandRequest, valid: bool, writable: bool, listId: ListId, fileId: RequestId)
    : (LoopState, Outcome)
  {
    match c.command
    case Register(userName) =>
      if !valid then (l, Exit(NamespaceTooLong))
      else if l.rendezvous.None? then (l, Panic)
      else (Respond(Ask(l, RegisterAs(userName, l.rendezvous.value)), c.id, Ok(Registered)), Continue)
    case ListPeers =>
      if l.rendezvous.None? then (l, Panic)
      else (Keep(Ask(l, DiscoverAt(l.rendezvous.value)), c), Continue)
    case ListFiles(userName) => (
      match GetPeerId(l, userName, valid)
      case Some(p) =>
        (Keep(Ask(l, ListFrom(listId, p)), c).(pendingListFiles := l.pendingListFiles[listId := c.id]), Continue)
      case None => (Respond(l, c.id, Err(UserNotRegistered(userName))), Continue))
    case GetFile(userName, _) =>
      if !writable then (l, Exit(Io))
      else match GetPeerId(l, userName, valid)
        case Some(_) => (Keep(l, c).(pendingFileGets := l.pendingFileGets[fileId := c.id]), Continue)
        case None => (Respond(l, c.id, Err(UserNotRegistered(userName))), Continue)
  }

  /** Registrations without an address are skipped; later ones overwrite earlier ones. */
  function Learn(m: map<string, PeerId>, rs: seq<Registration>): map<string, PeerId> {
    if rs == [] then m
    else
      var last := rs[|rs| - 1];
      var before := Learn(m, rs[..|rs| - 1]);
      if last.addresses > 0 then before[last.namespace := last.peer] else before
  }

  function WaitingForPeers(l: LoopState): set<nat> {
    set k | k in l.pendingCommands && l.pendingCommands[k].command.ListPeers?
  }

  function WaitingForFile(l: LoopState): set<nat> {
    set k | k in l.pendingCommands && l.pendingCommands[k].command.GetFile?
  }

  function WaitingForNames(l: LoopState): set<nat> {
    set k | k in l.pendingCommands && l.pendingCommands[k].command.ListFiles?
  }

  /** Answers the collected commands one after the other, each with its listing of the names. */
  function AnswerPeers(l: LoopState, order: seq<nat>, listings: seq<seq<string>>): LoopState
    requires |listings| == |order|
    decreases |order|
  {
    if order == [] then l
    else
      var before := AnswerPeers(l, order[..|order| - 1], listings[..|order| - 1]);
      var id := order[|order| - 1];
      if id in before.pendingCommands then
        Respond(before.(pendingCommands := before.pendingCommands - {id}),
                before.pendingCommands[id].id, Ok(Peers(listings[|order| - 1])))
      else
        before
  }

  /** `order` and `listings` are the orders in which the pending commands and, for every answer,
      the namespaces are iterated. */
  ghost predicate Iterates(l: LoopState, e: LoopEvent, order: seq<nat>, listings: seq<seq<string>>) {
    if e.Discovered? then
      && IsListing(order, WaitingForPeers(l))
      && |listings| == |order|
      && (forall i :: 0 <= i < |listings| ==> IsListing(listings[i], Learn(l.namespacePeers, e.registrations).Keys))
    else
      order == [] && listings == []
  }

  function HandleEvent(l: LoopState, e: LoopEvent, order: seq<nat>, listings: seq<seq<string>>): (LoopState, Outcome)
    requires |listings| == |order|
  {
    match e
    case Discovered(rs) =>
      (AnswerPeers(l.(namespacePeers := Learn(l.namespacePeers, rs)), order, listings), Continue)
    case ListFilesRequested(channel, names) =>
      if names.Some? then (Ask(l, SendNames(channel, names.value)), Continue) else (l, Exit(Io))
    case ListFilesAnswered(id, names) =>
      if id in l.pendingListFiles then
        var k := l.pendingListFiles[id];
        var taken := l.(pendingListFiles := l.pendingListFiles - {id});
        if k in l.pendingCommands then
          (Respond(taken.(pendingCommands := l.pendingCommands - {k}), k, Ok(Files(names))), Continue)
        else
          (taken, Continue)
      else
        (l, Continue)
    case ListFilesFailed(_) => (l, Continue)
    case FileRequested(id, openable) =>
      if openable then (l.(senders := l.senders + [Used(id)]), Continue)
      else (l.(senders := l.senders + [Discarded(id)]), Exit(Io))
    case FileReceived(id) =>
      if id !in l.pendingFileGets then (l, Panic)
      else
        var k := l.pendingFileGets[id];
        var taken := l.(pendingFileGets := l.pendingFileGets - {id});
        if k !in l.pendingCommands then (taken, Panic)
        else
          var c := l.pendingCommands[k].command;
          var done := taken.(pendingCommands := l.pendingCommands - {k});
          if c.GetFile? then (Respond(done, k, Ok(Got(c.userName, c.fileName))), Continue) else (done, Panic)
    case Ignored => (l, Continue)
  }

  // ------------------------------------------------------------------------------- outcomes

  /** When a command ends the loop or makes it panic; it then changes nothing. */
  lemma CommandOutcomes(l: LoopState, c: CommandRequest, valid: bool, writable: bool, listId: ListId, fileId: RequestId)
    ensures var (m, outcome) := HandleCommand(l, c, valid, writable, listId, fileId);
            && (outcome.Panic? <==> l.rendezvous.None? && (c.command.ListPeers? || (c.command.Register? && valid)))
            && (outcome == Exit(NamespaceTooLong) <==> c.command.Register? && !valid)
            && (outcome == Exit(Io) <==> c.command.GetFile? && !writable)
            && (outcome.Exit? ==> outcome.error == NamespaceTooLong || outcome.error == Io)
            && (!outcome.Continue? ==> m == l)
  {
  }

  /** When an event ends the loop or makes it panic. */
  lemma EventOutcomes(l: LoopState, e: LoopEvent, order: seq<nat>, listings: seq<seq<string>>)
    requires |listings| == |order|
    ensures var outcome := HandleEvent(l, e, order, listings).1;
            && (outcome.Panic? <==>
                  e.FileReceived? && !(e.id in l.pendingFileGets && l.pendingFileGets[e.id] in l.pendingCommands
                                       && l.pendingCommands[l.pendingFileGets[e.id]].command.GetFile?))
            && (outcome == Exit(Io) <==>
                  (e.ListFilesRequested? && e.ours.None?) || (e.FileRequested? && !e.openable))
            && (outcome.Exit? ==> outcome.error == Io)
  {
  }

  /** A response to a listing that nobody waits for, a failure, and what the loop ignores change nothing;
      neither does a directory that cannot be read, before it ends the loop. */
  lemma StrayEventsChangeNothing(l: LoopState, e: LoopEvent)
    requires (e.ListFilesAnswered? && e.id !in l.pendingListFiles) || e.ListFilesFailed? || e.Ignored?
             || (e.ListFilesRequested? && e.ours.None?)
    ensures HandleEvent(l, e, [], []).0 == l
  {
  }

  // -------------------------------------------------------------------------- the three maps

  /** Each correlation map is a bijection onto the pending commands of its kind; all the other
      pending commands wait for peers. */
  ghost predicate Partition(l: LoopState) {
    && (forall k :: k in l.pendingCommands ==> l.pendingCommands[k].id == k && !l.pendingCommands[k].command.Register?)
    && Correlates(l.pendingFileGets, WaitingForFile(l))
    && Correlates(l.pendingListFiles, WaitingForNames(l))
  }

  ghost predicate Correlates(m: map<nat, nat>, ids: set<nat>) {
    && (forall r :: r in m ==> m[r] in ids)
    && (forall r, q :: r in m && q in m && m[r] == m[q] ==> r == q)
    && (forall k :: k in ids ==> k in m.Values)
  }

  lemma CorrelatesMore(m: map<nat, nat>, ids: set<nat>, r: nat, k: nat)
    requires Correlates(m, ids) && r !in m && k !in ids
    ensures Correlates(m[r := k], ids + {k})
  {
    var n := m[r := k];
    assert n[r] == k;
    forall j | j in ids ensures j in n.Values {
      var q :| q in m && m[q] == j;
      assert n[q] == j;
    }
  }

  lemma CorrelatesLess(m: map<nat, nat>, ids: set<nat>, r: nat)
    requires Correlates(m, ids) && r in m
    ensures Correlates(m - {r}, ids - {m[r]})
  {
    var n := m - {r};
    forall j | j in ids - {m[r]} ensures j in n.Values {
      var q :| q in m && m[q] == j;
      assert n[q] == j;
    }
  }

  /** The pending commands are the disjoint union of those waiting for peers and the ranges of the
      two correlation maps. */
  lemma PendingIsDisjointUnion(l: LoopState)
    requires Partition(l)
    ensures l.pendingCommands.Keys == WaitingForPeers(l) + l.pendingListFiles.Values + l.pendingFileGets.Values
    ensures WaitingForPeers(l) !! l.pendingListFiles.Values !! l.pendingFileGets.Values
  {
    assert l.pendingListFiles.Values == WaitingForNames(l);
    assert l.pendingFileGets.Values == WaitingForFile(l);
  }

  lemma WaitingAfterKeep(l: LoopState, c: CommandRequest)
    requires c.id !in l.pendingCommands
    ensures WaitingForFile(Keep(l, c)) == WaitingForFile(l) + (if c.command.GetFile? then {c.id} else {})
    ensures WaitingForNames(Keep(l, c)) == WaitingForNames(l) + (if c.command.ListFiles? then {c.id} else {})
  {
  }

  /** A command leaves the pending commands and the two maps alone, or enters all of them that concern it. */
  ghost predicate Entered(l: LoopState, m: LoopState, c: CommandRequest, listId: ListId, fileId: RequestId) {
    && m.pendingCommands == Keep(l, c).pendingCommands
    && m.pendingListFiles == (if c.command.ListFiles? then l.pendingListFiles[listId := c.id] else l.pendingListFiles)
    && m.pendingFileGets == (if c.command.GetFile? then l.pendingFileGets[fileId := c.id] else l.pendingFileGets)
    && !c.command.Register?
  }

  ghost predicate SameMaps(l: LoopState, m: LoopState) {
    && m.pendingCommands == l.pendingCommands
    && m.pendingListFiles == l.pendingListFiles && m.pendingFileGets == l.pendingFileGets
  }

  lemma CommandMaps(l: LoopState, c: CommandRequest, valid: bool, writable: bool, listId: ListId, fileId: RequestId)
    ensures var m := HandleCommand(l, c, valid, writable, listId, fileId).0;
            SameMaps(l, m) || Entered(l, m, c, listId, fileId)
  {
    match c.command
    case Register(_) =>
    case ListPeers =>
    case ListFiles(userName) => assert GetPeerId(l, userName, valid).Some? || GetPeerId(l, userName, valid).None?;
    case GetFile(userName, _) => assert GetPeerId(l, userName, valid).Some? || GetPeerId(l, userName, valid).None?;
  }

  /** A command with a fresh id keeps the partition, given fresh ids from the two protocols. */
  lemma CommandKeepsPartition(l: LoopState, c: CommandRequest, valid: bool, writable: bool,
                              listId: ListId, fileId: RequestId)
    requires Partition(l) && c.id !in l.pendingCommands
    requires listId !in l.pendingListFiles && fileId !in l.pendingFileGets
    ensures Partition(HandleCommand(l, c, valid, writable, listId, fileId).0)
  {
    hide Correlates, HandleCommand;
    CommandMaps(l, c, valid, writable, listId, fileId);
    var m := HandleCommand(l, c, valid, writable, listId, fileId).0;
    WaitingAfterKeep(l, c);
    assert c.id !in WaitingForFile(l) && c.id !in WaitingForNames(l);
    CorrelatesMore(l.pendingFileGets, WaitingForFile(l), fileId, c.id);
    CorrelatesMore(l.pendingListFiles, WaitingForNames(l), listId, c.id);
    if SameMaps(l, m) {
      assert WaitingForFile(m) == WaitingForFile(l) && WaitingForNames(m) == WaitingForNames(l);
    } else {
      assert WaitingForFile(m) == WaitingForFile(Keep(l, c)) && WaitingForNames(m) == WaitingForNames(Keep(l, c));
      assert WaitingForFile(l) + {} == WaitingForFile(l) && WaitingForNames(l) + {} == WaitingForNames(l);
    }
  }

  lemma WaitingAfterRemoval(l: LoopState, m: LoopState, ks: set<nat>)
    requires m.pendingCommands == l.pendingCommands - ks
    ensures WaitingForFile(m) == WaitingForFile(l) - ks
    ensures WaitingForNames(m) == WaitingForNames(l) - ks
    ensures WaitingForPeers(m) == WaitingForPeers(l) - ks
  {
  }

  /** Every event keeps the partition. */
  lemma EventKeepsPartition(l: LoopState, e: LoopEvent, order: seq<nat>, listings: seq<seq<string>>)
    requires Partition(l) && Iterates(l, e, order, listings)
    ensures Partition(HandleEvent(l, e, order, listings).0)
  {
    var m := HandleEvent(l, e, order, listings).0;
    match e
    case Discovered(rs) => DiscoveredKeepsPartition(l, rs, order, listings);
    case ListFilesAnswered(id, names) =>
      if id in l.pendingListFiles {
        CorrelatesLess(l.pendingListFiles, WaitingForNames(l), id);
        WaitingAfterRemoval(l, m, {l.pendingListFiles[id]});
        assert WaitingForFile(m) == WaitingForFile(l);
      }
    case FileReceived(id) =>
      if id in l.pendingFileGets {
        CorrelatesLess(l.pendingFileGets, WaitingForFile(l), id);
        WaitingAfterRemoval(l, m, {l.pendingFileGets[id]});
        assert WaitingForNames(m) == WaitingForNames(l);
      }
    case _ =>
  }

  lemma DiscoveredKeepsPartition(l: LoopState, rs: seq<Registration>, order: seq<nat>, listings: seq<seq<string>>)
    requires Partition(l) && Iterates(l, Discovered(rs), order, listings)
    ensures Partition(HandleEvent(l, Discovered(rs), order, listings).0)
  {
    var m := HandleEvent(l, Discovered(rs), order, listings).0;
    DiscoveredEffect(l, rs, order, listings);
    WaitingAfterRemoval(l, m, WaitingForPeers(l));
    assert WaitingForFile(m) == WaitingForFile(l);
    assert WaitingForNames(m) == WaitingForNames(l);
  }

  // -------------------------------------------------------------------------------- discovery

  /** The answers to the collected commands. */
  function PeersAnswers(order: seq<nat>, listings: seq<seq<string>>): seq<Answer>
    requires |listings| == |order|
  {
    seq(|order|, i requires 0 <= i < |order| => Answer(order[i], Ok(Peers(listings[i]))))
  }

  lemma PeersAnswersLast(order: seq<nat>, listings: seq<seq<string>>)
    requires |listings| == |order| > 0
    ensures var n := |order| - 1;
            PeersAnswers(order, listings) ==
            PeersAnswers(order[..n], listings[..n]) + [Answer(order[n], Ok(Peers(listings[n])))]
  {
  }

  lemma RemoveLast(m: map<nat, CommandRequest>, order: seq<nat>)
    requires order != []
    ensures var n := |order| - 1;
            m - (set k | k in order) == (m - (set k | k in order[..n])) - {order[n]}
  {
    var n := |order| - 1;
    assert order == order[..n] + [order[n]];
  }

  lemma {:induction false} AnswerPeersEffect(l: LoopState, order: seq<nat>, listings: seq<seq<string>>)
    requires |listings| == |order|
    requires forall i :: 0 <= i < |order| ==> order[i] in l.pendingCommands
    requires forall i, j :: 0 <= i < j < |order| ==> order[i] != order[j]
    requires forall k :: k in l.pendingCommands ==> l.pendingCommands[k].id == k
    ensures AnswerPeers(l, order, listings) ==
            l.(pendingCommands := l.pendingCommands - (set k | k in order),
               answers := l.answers + PeersAnswers(order, listings))
    decreases |order|
  {
    hide PeersAnswers;
    if order == [] {
      PeersAnswersNone();
      assert l.pendingCommands - {} == l.pendingCommands;
    } else {
      var n := |order| - 1;
      AnswerPeersEffect(l, order[..n], listings[..n]);
      PeersAnswersLast(order, listings);
      RemoveLast(l.pendingCommands, order);
    }
  }

  lemma PeersAnswersNone()
    ensures PeersAnswers([], []) == []
  {
  }

  lemma {:induction false} ListingIsDistinct(xs: seq<nat>, s: set<nat>)
    requires IsListing(xs, s)
    ensures (set x | x in xs) == s
    ensures forall i, j :: 0 <= i < j < |xs| ==> xs[i] != xs[j]
  {
    assert forall x :: x in xs <==> x in multiset(xs);
    forall i, j | 0 <= i < j < |xs| ensures xs[i] != xs[j] {
      assert xs == xs[..i] + [xs[i]] + xs[i + 1..j] + [xs[j]] + xs[j + 1..];
      assert multiset(xs)[xs[i]] <= 1;
    }
  }

  /** Discovery answers all and only the commands waiting for peers, each once and each with the
      names known after the discovery. */
  lemma DiscoveredEffect(l: LoopState, rs: seq<Registration>, order: seq<nat>, listings: seq<seq<string>>)
    requires Iterates(l, Discovered(rs), order, listings)
    requires forall k :: k in l.pendingCommands ==> l.pendingCommands[k].id == k
    ensures var m := HandleEvent(l, Discovered(rs), order, listings).0;
            && m.namespacePeers == Learn(l.namespacePeers, rs)
            && m.pendingCommands == l.pendingCommands - WaitingForPeers(l)
            && m.answers == l.answers + PeersAnswers(order, listings)
            && WaitingForPeers(m) == {}
            && m.pendingFileGets == l.pendingFileGets && m.pendingListFiles == l.pendingListFiles
  {
    ListingIsDistinct(order, WaitingForPeers(l));
    forall i | 0 <= i < |order| ensures order[i] in WaitingForPeers(l) {
      assert order[i] in (set k | k in order);
    }
    AnswerPeersEffect(l.(namespacePeers := Learn(l.namespacePeers, rs)), order, listings);
  }

  /** `i` is the last registration of a namespace that has an address. */
  ghost predicate IsLast(rs: seq<Registration>, ns: string, i: int) {
    && 0 <= i < |rs| && rs[i].namespace == ns && rs[i].addresses > 0
    && (forall j :: i < j < |rs| && rs[j].namespace == ns ==> rs[j].addresses == 0)
  }

  /** The last registration with an address decides; without one nothing changes. */
  lemma {:induction false} LastRegistrationWins(m: map<string, PeerId>, rs: seq<Registration>, ns: string)
    ensures forall i :: IsLast(rs, ns, i) ==> ns in Learn(m, rs) && Learn(m, rs)[ns] == rs[i].peer
    ensures (forall i :: !IsLast(rs, ns, i)) ==>
              (ns in Learn(m, rs) <==> ns in m) && (ns in m ==> Learn(m, rs)[ns] == m[ns])
    decreases |rs|
  {
    if rs != [] {
      var n := |rs| - 1;
      LastRegistrationWins(m, rs[..n], ns);
      if rs[n].namespace == ns && rs[n].addresses > 0 {
        assert IsLast(rs, ns, n);
      } else {
        forall i ensures IsLast(rs, ns, i) <==> IsLast(rs[..n], ns, i) {}
      }
    }
  }
}
