/** The event loop as the object it is, proved against EventLoopModel. */
module EventLoop {
  import opened Basics
  import opened Commands
  import EL = EventLoopModel
  import FGM = FileGetModel
  import opened FileGetBehaviour

  class EventLoop {
    const fileGet: FileGet
    var rendezvousPoint: Option<PeerId>
    var namespacePeers: map<string, PeerId>
    var pendingCommandRequests: map<nat, CommandRequest>
    var pendingListFiles: map<EL.ListId, nat>
    var pendingFileGets: map<RequestId, nat>
    var answers: seq<Answer>
    var senders: seq<EL.SenderFate>
    var calls: seq<EL.Call>

    function Model(): EL.LoopState
      reads this
    {
      EL.LoopState(
        rendezvousPoint, namespacePeers, pendingCommandRequests, pendingListFiles, pendingFileGets, answers, senders, calls)
    }

    constructor (fileGet: FileGet, rendezvousPoint: PeerId)
      ensures this.fileGet == fileGet
      ensures Model() == EL.LoopState(Some(rendezvousPoint), map[], map[], map[], map[], [], [], [])
    {
      this.fileGet := fileGet;
      this.rendezvousPoint := Some(rendezvousPoint);
      namespacePeers := map[];
      pendingCommandRequests := map[];
      pendingListFiles := map[];
      pendingFileGets := map[];
      answers := [];
      senders := [];
      calls := [];
    }

    /** `valid` is the outcome of making a namespace of the name. */
    method GetPeerId(userName: string, valid: bool) returns (peer: Option<PeerId>)
      ensures peer == EL.GetPeerId(Model(), userName, valid)
    {
      if !valid {
        return None;
      }
      peer := if userName in namespacePeers then Some(namespacePeers[userName]) else None;
    }

    method Send(id: nat, result: Result<CommandResult>)
      modifies this`answers
      ensures Model() == EL.Respond(old(Model()), id, result)
    {
      answers := answers + [Answer(id, result)];
    }

    /** `listId` is the id drawn by the protocol that lists files, if it is asked to send a request. */
    method HandleCommand(request: CommandRequest, valid: bool, writable: bool, listId: EL.ListId)
        returns (outcome: EL.Outcome)
      modifies this, fileGet, fileGet.requestIds
      ensures (Model(), outcome) ==
              EL.HandleCommand(old(Model()), request, valid, writable, listId, old(fileGet.requestIds.next))
      ensures fileGet.Model() ==
              match EL.FileRequestFor(old(Model()), request.command, valid, writable)
              case Some(p) =>
                if request.command.GetFile? then FGM.SendRequest(old(fileGet.Model()), p, request.command.fileName).0
                else old(fileGet.Model())
              case None => old(fileGet.Model())
    {
      outcome := EL.Continue;
      match request.command {
        case Register(userName) =>
          if !valid {
            return EL.Exit(NamespaceTooLong);
          }
          if rendezvousPoint.None? {
            return EL.Panic;
          }
          calls := calls + [EL.RegisterAs(userName, rendezvousPoint.value)];
          Send(request.id, Ok(Registered));
        case ListPeers =>
          if rendezvousPoint.None? {
            return EL.Panic;
          }
          calls := calls + [EL.DiscoverAt(rendezvousPoint.value)];
          pendingCommandRequests := pendingCommandRequests[request.id := request];
        case ListFiles(userName) =>
          var peer := GetPeerId(userName, valid);
          if peer.Some? {
            calls := calls + [EL.ListFrom(listId, peer.value)];
            pendingCommandRequests := pendingCommandRequests[request.id := request];
            pendingListFiles := pendingListFiles[listId := request.id];
          } else {
            Send(request.id, Err(UserNotRegistered(userName)));
          }
        case GetFile(userName, fileName) =>
          if !writable {
            return EL.Exit(Io);
          }
          var peer := GetPeerId(userName, valid);
          if peer.Some? {
            var fileId := fileGet.SendRequest(peer.value, fileName);
            pendingCommandRequests := pendingCommandRequests[request.id := request];
            pendingFileGets := pendingFileGets[fileId := request.id];
          } else {
            Send(request.id, Err(UserNotRegistered(userName)));
          }
      }
    }

    /** Hash maps are iterated in the orders `order` and `listings`. */
    method OnDiscovered(registrations: seq<EL.Registration>)
        returns (ghost order: seq<nat>, ghost listings: seq<seq<string>>)
      modifies this`namespacePeers, this`pendingCommandRequests, this`answers
      ensures EL.Iterates(old(Model()), EL.Discovered(registrations), order, listings)
      ensures (Model(), EL.Continue) == EL.HandleEvent(old(Model()), EL.Discovered(registrations), order, listings)
    {
      RecordRegistrations(registrations);
      var toRemove := CollectListPeers();
      order := toRemove;
      listings := [];
      ghost var start := Model();
      assert toRemove[..0] == [];
      for i := 0 to |toRemove|
        invariant |listings| == i
        invariant namespacePeers == start.namespacePeers
        invariant forall j :: 0 <= j < i ==> IsListing(listings[j], namespacePeers.Keys)
        invariant Model() == EL.AnswerPeers(start, toRemove[..i], listings)
      {
        var key := toRemove[i];
        var names := [];
        ghost var before := listings;
        if key in pendingCommandRequests {
          var command := pendingCommandRequests[key];
          pendingCommandRequests := pendingCommandRequests - {key};
          names := CollectNamespaces();
          Send(command.id, Ok(Peers(names)));
          listings := listings + [names];
        } else {
          ghost var some := ListingExists(namespacePeers.Keys);
          listings := listings + [some];
        }
        assert toRemove[..i + 1][..i] == toRemove[..i] && listings[..i] == before;
      }
      assert toRemove[..|toRemove|] == toRemove;
    }

    method RecordRegistrations(registrations: seq<EL.Registration>)
      modifies this`namespacePeers
      ensures Model() == old(Model()).(namespacePeers := EL.Learn(old(namespacePeers), registrations))
    {
      assert registrations[..0] == [];
      for i := 0 to |registrations|
        invariant namespacePeers == EL.Learn(old(namespacePeers), registrations[..i])
      {
        var registration := registrations[i];
        assert registrations[..i + 1][..i] == registrations[..i];
        for j := 0 to registration.addresses
          invariant namespacePeers == if j == 0 then EL.Learn(old(namespacePeers), registrations[..i])
                                      else EL.Learn(old(namespacePeers), registrations[..i + 1])
        {
          namespacePeers := namespacePeers[registration.namespace := registration.peer];
        }
      }
      assert registrations[..|registrations|] == registrations;
    }

    method CollectListPeers() returns (keys: seq<nat>)
      ensures IsListing(keys, EL.WaitingForPeers(Model()))
    {
      keys := [];
      var rest := pendingCommandRequests.Keys;
      while rest != {}
        invariant rest <= pendingCommandRequests.Keys
        invariant IsListing(keys, EL.WaitingForPeers(Model()) - rest)
        decreases rest
      {
        var key :| key in rest;
        if pendingCommandRequests[key].command.ListPeers? {
          assert EL.WaitingForPeers(Model()) - (rest - {key}) == (EL.WaitingForPeers(Model()) - rest) + {key};
          keys := keys + [key];
        } else {
          assert EL.WaitingForPeers(Model()) - (rest - {key}) == EL.WaitingForPeers(Model()) - rest;
        }
        rest := rest - {key};
      }
      assert EL.WaitingForPeers(Model()) - rest == EL.WaitingForPeers(Model());
    }

    method CollectNamespaces() returns (names: seq<string>)
      ensures IsListing(names, namespacePeers.Keys)
    {
      names := [];
      var rest := namespacePeers.Keys;
      while rest != {}
        invariant rest <= namespacePeers.Keys && IsListing(names, namespacePeers.Keys - rest)
        decreases rest
      {
        var name :| name in rest;
        assert namespacePeers.Keys - (rest - {name}) == (namespacePeers.Keys - rest) + {name};
        names := names + [name];
        rest := rest - {name};
      }
      assert namespacePeers.Keys - rest == namespacePeers.Keys;
    }

    method OnListFilesAnswered(id: EL.ListId, names: seq<string>)
      modifies this`pendingListFiles, this`pendingCommandRequests, this`answers
      ensures (Model(), EL.Continue) == EL.HandleEvent(old(Model()), EL.ListFilesAnswered(id, names), [], [])
    {
      if id in pendingListFiles {
        var commandId := pendingListFiles[id];
        pendingListFiles := pendingListFiles - {id};
        if commandId in pendingCommandRequests {
          pendingCommandRequests := pendingCommandRequests - {commandId};
          Send(commandId, Ok(Files(names)));
        }
      }
    }

    method OnFileReceived(id: RequestId) returns (outcome: EL.Outcome)
      modifies this`pendingFileGets, this`pendingCommandRequests, this`answers
      ensures (Model(), outcome) == EL.HandleEvent(old(Model()), EL.FileReceived(id), [], [])
    {
      if id !in pendingFileGets {
        return EL.Panic;
      }
      var commandId := pendingFileGets[id];
      pendingFileGets := pendingFileGets - {id};
      if commandId !in pendingCommandRequests {
        return EL.Panic;
      }
      var command := pendingCommandRequests[commandId].command;
      pendingCommandRequests := pendingCommandRequests - {commandId};
      if command.GetFile? {
        Send(commandId, Ok(Got(command.userName, command.fileName)));
        outcome := EL.Continue;
      } else {
        outcome := EL.Panic;
      }
    }

    method HandleEvent(event: EL.LoopEvent)
        returns (outcome: EL.Outcome, ghost order: seq<nat>, ghost listings: seq<seq<string>>)
      modifies this
      ensures EL.Iterates(old(Model()), event, order, listings)
      ensures (Model(), outcome) == EL.HandleEvent(old(Model()), event, order, listings)
    {
      outcome, order, listings := EL.Continue, [], [];
      match event {
        case Discovered(registrations) => order, listings := OnDiscovered(registrations);
        case ListFilesRequested(channel, names) =>
          if names.Some? {
            calls := calls + [EL.SendNames(channel, names.value)];
          } else {
            outcome := EL.Exit(Io);
          }
        case ListFilesAnswered(id, names) => OnListFilesAnswered(id, names);
        case ListFilesFailed(_) =>
        case FileRequested(id, openable) =>
          if openable {
            senders := senders + [EL.Used(id)];
          } else {
            senders := senders + [EL.Discarded(id)];
            outcome := EL.Exit(Io);
          }
        case FileReceived(id) => outcome := OnFileReceived(id);
        case Ignored =>
      }
    }
  }
}
